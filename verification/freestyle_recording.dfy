/**
 * A saved freestyle session: the captured note events, the optional audio
 * file recorded alongside them, and how the session shows up as a song.
 * Dates are seconds on a real time line; the UUID is its `uuidString`.
 */
module Recordings {
  import opened Options
  import opened Songs

  datatype Recording = Recording(
    id: string,
    title: string,
    createdAt: real,
    key: string,
    layoutRawValue: string,
    audioFileName: Option<string>,
    notes: seq<NoteEvent>,
    duration: real)

  /** `hasAudioPlayback`: an audio file name is present and not empty. */
  function HasAudioPlayback(r: Recording): (b: bool)
    ensures b <==> r.audioFileName.Some? && |r.audioFileName.value| > 0
  {
    match r.audioFileName
    case None => false
    case Some(name) => name != ""
  }

  /** `asSong`: the recording offered as a practice song at 90 bpm. */
  function AsSong(r: Recording): (s: Song)
    ensures s.songTitle == r.title && s.key == r.key && s.notes == r.notes
    ensures s.bpm == 90
    ensures SongId(s) == r.title
  {
    Song(r.title, 90, r.key, r.notes)
  }

  const TitlePrefix := "Freestyle • "
  const TitleSeparator := " • "

  /** `prefix(n)`: the first `n` characters, or all of them when there are fewer. */
  function Prefix(s: string, n: nat): (p: string)
    ensures |p| == if |s| < n then |s| else n
    ensures p == s[..|p|]
  {
    if |s| < n then s else s[..n]
  }

  /**
   * `makeTitle(for:id:)`. The formatted date ("MMM d, yyyy HH:mm:ss") is
   * passed in as text; the title ends with the first four characters of
   * the UUID.
   */
  function MakeTitle(formattedDate: string, uuid: string): (t: string)
    ensures |t| == |TitlePrefix| + |formattedDate| + |TitleSeparator| + |Prefix(uuid, 4)|
    ensures t[..|TitlePrefix|] == TitlePrefix
    ensures var tail := TitleSeparator + Prefix(uuid, 4);
      t[|t| - |tail|..] == tail
    ensures t[|TitlePrefix|..|t| - |TitleSeparator + Prefix(uuid, 4)|] == formattedDate
  {
    TitlePrefix + formattedDate + TitleSeparator + Prefix(uuid, 4)
  }

  /** The title of a session with UUID 12345678-... starts "Freestyle • " and ends in " • 1234". */
  lemma MakeTitleExample(formattedDate: string)
    ensures var t := MakeTitle(formattedDate, "12345678-1234-1234-1234-123456789ABC");
      t[..12] == "Freestyle • " && t[|t| - 7..] == " • 1234"
  {
    assert Prefix("12345678-1234-1234-1234-123456789ABC", 4) == "1234";
  }
}
