/** Songs: an ordered list of note events, identified by their title. */
module Songs {

  /** One note to play: its full name ("C5"), a duration in seconds and a hole code ("4B"). */
  datatype NoteEvent = NoteEvent(note: string, duration: real, hole: string)

  datatype Song = Song(songTitle: string, bpm: int, key: string, notes: seq<NoteEvent>)

  /** `HarmonicaSong.id`: a song is identified by its title alone. */
  function SongId(s: Song): string {
    s.songTitle
  }
}
