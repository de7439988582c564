# Harmonica Learner: note matching and note capture

A Dafny model of the engine behind Harmonica Learner, an app that listens
to a harmonica through the microphone and does two things with it.

- **Guided practice.** Each detected pitch is scored against the current
  note of a song. The allowed deviation, in cents, narrows linearly over
  repeated attempts. Three hits in a row move on to the next note.
- **Freestyle recording.** The pitch stream becomes a list of note events
  (note name, quantised duration, hole code). A 150 ms debounce absorbs
  short dropouts. The events and the audio file are kept in a small
  recording index.

The model consists of pure functions over immutable datatypes. They are
spread over these modules:

| module | file | models |
|---|---|---|
| `Options` | options.dfy | Swift optionals |
| `SwiftStd` | swift_std.dfy | the Swift library behaviour the code relies on: truncating `/` and `%`, `round`, integer printing, `Int(String)`, whitespace trimming |
| `Tolerance` | tolerance.dfy | `AttemptToleranceModel` |
| `NoteMapper` | note_mapper.dfy | `NotePitch`, the note-name table, `Int.mod`, the MIDI-to-pitch part of `pitch(for:)` |
| `NoteEvaluation` | note_evaluation.dfy | `NoteMatchState`, `evaluate` |
| `Holes` | harmonica_hole.dfy | `Airflow`, `HarmonicaHole`, `fromCode`, and the view model's `holeCode(for:)` |
| `Layouts` | harmonica_layout.dfy | `HarmonicaLayout` and its 19-entry note-to-hole table |
| `Songs` | harmonica_song.dfy | `HarmonicaSong`, `HarmonicaNoteEvent` |
| `Recordings` | freestyle_recording.dfy | `FreestyleRecording`: `hasAudioPlayback`, `asSong`, `makeTitle` |
| `RecordingStore` | recording_store.dfy | the index logic of `FreestyleRecordingStore` |
| `Capture` | freestyle_capture.dfy | the freestyle segmenter inside `PracticeViewModel` |
| `Practice` | practice.dfy | the guided state machine, the song list and the recording lifecycle of `PracticeViewModel` |

Modelling choices:

- Doubles are reals. The thresholds 0.15 s, 0.05 s, 0.1 s and 1.0 s are
  therefore exact.
- Timestamps are seconds on a real time line, passed in explicitly.
- `Int` is unbounded. Swift's truncating division is written out where the
  code uses it.
- The recording index is a sequence of recordings. The audio directory is a
  set of file names.
- The floating-point part of pitch detection (`log2`, `pow`) is outside the
  model. `PitchFor` takes the frequency, the unrounded MIDI value
  `12·log2(f/440)+69` and the cents offset as inputs.

Harmonica/Models/NoteMapper.swift:23 computes the octave as `midi / 12 - 1`
with Swift's truncating division. That differs from `floor(midi / 12) - 1`
for every negative MIDI number that is not a multiple of 12: each lands one
octave higher than flooring gives (MIDI −13 is octave −2, not −3). Only the
one-octave step between neighbouring octaves breaks, and only from MIDI −11
to −1, which all land in octave −1 together with MIDI 0 to 11.
`NoteMapper.OctaveTruncates` and `NoteMapper.OctaveUp` state the
difference.

## Model

| member | source | states |
|---|---|---|
| SwiftStd.Quot | Harmonica/Models/NoteMapper.swift:23 | Swift's `/` on `Int` rounds toward zero: for a non-negative dividend the remainder `a - b*q` lies in [0, b), for a negative one in (-b, 0] |
| SwiftStd.Rem | Harmonica/Models/NoteMapper.swift:36 | Swift's `%`: `a == b*Quot(a,b) + r`, `|r| < b`, and `r` has the sign of the dividend |
| SwiftStd.Round | Harmonica/Models/NoteMapper.swift:21 | `round` gives the nearest integer, within 0.5; on an exact half it moves away from zero |
| SwiftStd.IntText | Harmonica/Models/NoteMapper.swift:9 | integer interpolation: decimal digits without leading zeros, with a '-' exactly for negatives |
| SwiftStd.ParseInt | Harmonica/Models/HarmonicaHole.swift:25 | `Int(String)` succeeds exactly on an optional '+' or '-' followed by one or more ASCII digits, and gives the signed value of the digits |
| SwiftStd.ParseIntText | Harmonica/Models/HarmonicaHole.swift:25 | parsing the printed form of any integer gives that integer back |
| SwiftStd.Trim | Harmonica/Models/HarmonicaHole.swift:21 | trimming returns a contiguous slice of the input, with only whitespace cut on either side and no whitespace at either end of the result |
| SwiftStd.TrimUnique | Harmonica/Models/HarmonicaHole.swift:21 | any slice with only whitespace around it and none at its ends is exactly what trimming returns |
| SwiftStd.TrimIgnoresPadding | Harmonica/Models/HarmonicaHole.swift:21 | adding whitespace on either side of a string does not change its trimmed form |
| SwiftStd.TrimUnchanged | Harmonica/Models/HarmonicaHole.swift:21 | a string without whitespace at its ends is left unchanged by trimming |
| Tolerance.Clamp | Harmonica/Models/AttemptToleranceModel.swift:11 | `min(max(attempt, 0), n)`: the attempt itself inside [0, n], 0 below, n above |
| Tolerance.ToleranceFor | Harmonica/Models/AttemptToleranceModel.swift:9-14 | with no attempts to target the tolerance is the target; otherwise it lies between start and target, whichever is larger |
| Tolerance.ToleranceAtStart | Harmonica/Models/AttemptToleranceModel.swift:11-13 | attempt 0 gets the starting tolerance |
| Tolerance.ToleranceAtTarget | Harmonica/Models/AttemptToleranceModel.swift:10-13 | attempt `attemptsToTarget` gets the target tolerance, including when that count is not positive |
| Tolerance.ToleranceSaturates | Harmonica/Models/AttemptToleranceModel.swift:11 | negative attempts behave like attempt 0 and attempts past the target count like the target; nothing is extrapolated |
| Tolerance.ToleranceSteps | Harmonica/Models/AttemptToleranceModel.swift:12-13 | each attempt before the target narrows the tolerance by the same step, (start − target) / attemptsToTarget |
| Tolerance.LinearExample | HarmonicaTests/AttemptToleranceModelTests.swift:11-17 | start 30, target 10 over 4 attempts gives 25, 20, 15 at attempts 1, 2, 3 |
| Tolerance.ToleranceNonIncreasing | Harmonica/Models/AttemptToleranceModel.swift:11-13 | when start ≥ target, a later attempt never gets a wider tolerance |
| NoteMapper.NotePitch.FullName | Harmonica/Models/NoteMapper.swift:8-10 | the full name is the note name followed by the decimal octave |
| NoteMapper.Mod | Harmonica/Models/NoteMapper.swift:34-39 | `mod(n)` for n > 0 lies in [0, n) and agrees with the mathematical remainder, so the name lookup is in bounds for every MIDI number |
| NoteMapper.NameOf | Harmonica/Models/NoteMapper.swift:22 | the note name is the table entry at the MIDI number's pitch class, `NoteNames[midi mod 12]`, for every integer |
| NoteMapper.SameNameSamePitchClass | Harmonica/Models/NoteMapper.swift:14-22 | two MIDI numbers get the same name exactly when they are a whole number of octaves apart |
| NoteMapper.PitchFor | Harmonica/Models/NoteMapper.swift:19-27 | no pitch exactly for a frequency ≤ 0; otherwise name and octave come from the rounded MIDI number and the cents offset is passed through |
| NoteMapper.MidiExamples | HarmonicaTests/NoteMapperTests.swift:5-20 | MIDI 69 is A4 and MIDI 61 is C#4 |
| NoteMapper.OctaveTruncates | Harmonica/Models/NoteMapper.swift:23 | the octave equals floor(midi/12) − 1 for midi ≥ 0 and for negative multiples of 12, and floor(midi/12) for every other negative midi (one higher than flooring); so it is −1 on [−11, −1], where flooring gives −2, and −13 is octave −2 |
| NoteMapper.OctaveUp | Harmonica/Models/NoteMapper.swift:22-23 | twelve semitones up keep the name and raise the octave by one, except from MIDI −11 to −1 |
| NoteMapper.FullNameInjective | Harmonica/Models/NoteMapper.swift:8-10 | two pitches with equal full names have the same name and octave, so the full name is a sound join key |
| NoteEvaluation.Evaluate | Harmonica/Models/NoteEvaluation.swift:12-17 | idle exactly when no pitch was detected; a different full name is a miss whatever the cents; a hit exactly when the name matches and \|cents\| is within the attempt's tolerance |
| NoteEvaluation.HitPersistsBackwards | Harmonica/Models/NoteEvaluation.swift:15-16 | with a narrowing tolerance, a hit at one attempt is a hit at every earlier attempt |
| NoteEvaluation.NarrowingExample | HarmonicaTests/NoteEvaluationTests.swift:13-40 | for model (30, 10, 2): 20 cents hits at attempt 0 and misses at attempt 2, 8 cents hits at 2, and C5 against A4 misses |
| Holes.Id | Harmonica/Models/HarmonicaHole.swift:12-14 | `id` is the printed index, '-', then "blow" or "draw" |
| Holes.DisplayName | Harmonica/Models/HarmonicaHole.swift:16-18 | `displayName` is the printed index, a space, then "Blow" or "Draw" |
| Holes.AirflowOfLetter | Harmonica/Models/HarmonicaHole.swift:26-33 | the action letter selects blow exactly for B or b and draw exactly for D or d |
| Holes.FromTrimmedCode | Harmonica/Models/HarmonicaHole.swift:22-33 | a hole exactly when the code has at least two characters, all but the last parse as an `Int` and the last is a blow or draw letter; the hole has that number and airflow |
| Holes.FromCode | Harmonica/Models/HarmonicaHole.swift:20-22 | a code that is shorter than two characters once trimmed gives nil |
| Holes.FromCodeIgnoresPadding | Harmonica/Models/HarmonicaHole.swift:21 | whitespace around a code never changes what it parses to |
| Holes.HoleCode | Harmonica/UI/PracticeViewModel.swift:420-422 | the hole code is the printed index followed by 'B' or 'D' |
| Holes.FromCodeHoleCode | Harmonica/Models/HarmonicaHole.swift:20-34 | parsing the code of any hole gives that hole back |
| Holes.HoleCodeInjective | Harmonica/UI/PracticeViewModel.swift:420-422 | different holes have different codes |
| Holes.FromCodeOneDigit | Harmonica/Models/HarmonicaHole.swift:22-33 | a digit followed by a blow or draw letter parses to that hole |
| Holes.FromCodeAccepts | HarmonicaTests/HarmonicaHoleTests.swift:5-15 | "4B" is hole 4 blow and "7d" is hole 7 draw |
| Holes.FromCodePadded | HarmonicaTests/HarmonicaHoleTests.swift:17-21 | a two-digit code between a leading space and a trailing newline, such as " 10B\n", parses to that hole after trimming |
| Holes.FromCodeNotANumber | Harmonica/Models/HarmonicaHole.swift:25 | a two-character code whose first character is neither digit nor sign gives nil |
| Holes.FromCodeUnknownAirflow | Harmonica/Models/HarmonicaHole.swift:31-32 | a two-character code whose last character is not B or D in either case gives nil |
| Holes.FromCodeTooShort | Harmonica/Models/HarmonicaHole.swift:22 | any code shorter than two characters gives nil, trimmed or not |
| Holes.FromCodeRejectsShort | HarmonicaTests/HarmonicaHoleTests.swift:24-25 | "" and "7" give nil |
| Holes.FromCodeRejectsLetters | HarmonicaTests/HarmonicaHoleTests.swift:26 | "BD" gives nil |
| Holes.FromCodeRejectsUnknownLetter | HarmonicaTests/HarmonicaHoleTests.swift:27 | "3X" gives nil |
| Holes.IdInjective | Harmonica/Models/HarmonicaHole.swift:12-14 | `id` identifies a hole: equal ids mean equal holes |
| Holes.IdExample | HarmonicaTests/HarmonicaHoleTests.swift:30-35 | hole 6 draw has id "6-draw" and display name "6 Draw" |
| Layouts.HoleFor | Harmonica/Models/HarmonicaLayout.swift:39-41 | a hole exactly for the notes in the table, and then the table's hole |
| Layouts.BuildKeys | Harmonica/Models/HarmonicaLayout.swift:32-36 | the map built from the pairs has exactly the pairs' notes as keys |
| Layouts.BuildLookup | Harmonica/Models/HarmonicaLayout.swift:32-36 | with distinct notes, each note maps to its own pair's hole |
| Layouts.BuildSize | Harmonica/Models/HarmonicaLayout.swift:32-36 | with distinct notes, the map has one entry per pair |
| Layouts.KeysDistinct | Harmonica/Models/HarmonicaLayout.swift:10-30 | no note appears twice in the table |
| Layouts.HolesDistinct | Harmonica/Models/HarmonicaLayout.swift:10-30 | no hole appears twice in the table |
| Layouts.TableSize | HarmonicaTests/HarmonicaLayoutTests.swift:15-17 | the table has 19 entries |
| Layouts.LayoutsShareTable | HarmonicaTests/HarmonicaLayoutTests.swift:19-21 | both layouts have the same table |
| Layouts.TableHoles | Harmonica/Models/HarmonicaLayout.swift:11-29 | every hole index is in 1..10 and no two notes share a hole |
| Layouts.HoleForExamples | HarmonicaTests/HarmonicaLayoutTests.swift:5-13 | C5 is hole 4 blow and F#4 has no hole, in either layout |
| Recordings.HasAudioPlayback | Harmonica/Models/FreestyleRecording.swift:13-16 | audio playback exactly when a non-empty audio file name is set |
| Recordings.AsSong | Harmonica/Models/FreestyleRecording.swift:18-25 | title, key and notes are copied, bpm is 90, and the song's id is the recording's title |
| Recordings.MakeTitle | Harmonica/Models/FreestyleRecording.swift:27-33 | the title is "Freestyle • ", the formatted date, " • ", and the first four characters of the UUID string |
| Recordings.MakeTitleExample | HarmonicaTests/FreestyleRecordingTests.swift:28-34 | for UUID 12345678-… the title starts with "Freestyle • " and ends with " • 1234" |
| RecordingStore.AudioUrl | Harmonica/Models/FreestyleRecordingStore.swift:115-118 | no audio location exactly when the file name is nil or empty |
| RecordingStore.AudioUrlMatchesPlayback | Harmonica/Models/FreestyleRecordingStore.swift:115-118 | the store has an audio location exactly when the recording reports audio playback |
| RecordingStore.WithoutAudio | Harmonica/Models/FreestyleRecordingStore.swift:45-54 | the copy has no audio file name and every other field unchanged |
| RecordingStore.NormalizeOne | Harmonica/Models/FreestyleRecordingStore.swift:39-58 | a recording whose audio file exists is kept unchanged; otherwise it is kept without audio if it has notes and dropped if not |
| RecordingStore.Normalize | Harmonica/Models/FreestyleRecordingStore.swift:36-59 | loading never adds recordings and leaves only normal ones: audio on disk, or notes without audio |
| RecordingStore.NormalizeIdempotent | Harmonica/Models/FreestyleRecordingStore.swift:39-63 | normalising a normalised index changes nothing |
| RecordingStore.NormalizeFromIndex | Harmonica/Models/FreestyleRecordingStore.swift:39-58 | each loaded recording comes from the index, at most without audio; one with audio on disk is kept, one with notes is kept in some form |
| RecordingStore.Insert | Harmonica/Models/FreestyleRecordingStore.swift:65 | inserting adds exactly the one recording to the list and nothing else |
| RecordingStore.InsertKeepsOrder | Harmonica/Models/FreestyleRecordingStore.swift:65 | inserting into a newest-first list keeps it newest first |
| RecordingStore.SortNewestFirst | Harmonica/Models/FreestyleRecordingStore.swift:65 | the sorted list is a permutation of the input, newest first |
| RecordingStore.LoadAll | Harmonica/Models/FreestyleRecordingStore.swift:30-69 | the loaded list is the normalised index, newest first, and every entry is normal |
| RecordingStore.AfterLoad | Harmonica/Models/FreestyleRecordingStore.swift:61-63 | loading writes back the normalised index and leaves the audio files alone |
| RecordingStore.ReloadStable | Harmonica/Models/FreestyleRecordingStore.swift:30-65 | the index that loading writes back loads to the same list, and loading it again writes nothing new |
| RecordingStore.WithoutId | Harmonica/Models/FreestyleRecordingStore.swift:73 | the filter keeps exactly the recordings with another id, each as often as before |
| RecordingStore.Save | Harmonica/Models/FreestyleRecordingStore.swift:71-76 | the saved index holds the loaded recordings with other ids plus the new one, newest first |
| RecordingStore.SaveReplaces | HarmonicaTests/FreestyleRecordingStoreTests.swift:37-48 | after saving, exactly one recording has the id, and it is the saved one |
| RecordingStore.SaveKeepsOthers | Harmonica/Models/FreestyleRecordingStore.swift:73-75 | saving keeps every loaded recording with a different id |
| RecordingStore.NormalSurvives | Harmonica/Models/FreestyleRecordingStore.swift:39-43 | a recording of the index whose audio exists, or that has notes and no audio, survives loading |
| RecordingStore.SaveThenLoadKeepsOthers | Harmonica/Models/FreestyleRecordingStore.swift:71-76 | after a save and a load, every previously loaded recording with a different id is still loaded |
| RecordingStore.SavedIsLoaded | Harmonica/Models/FreestyleRecordingStore.swift:71-76 | a saved recording whose audio file exists is in the list loaded right after saving, and in the index that loading writes back |
| RecordingStore.FirstIndex | Harmonica/Models/FreestyleRecordingStore.swift:81 | `firstIndex(where:)`: nil exactly when no recording has the id, else the first one that does |
| RecordingStore.DropAudio | Harmonica/Models/FreestyleRecordingStore.swift:83-85 | the recording's audio file is removed when it exists, and nothing else |
| RecordingStore.Delete | Harmonica/Models/FreestyleRecordingStore.swift:78-87 | an unknown id only writes back the load; otherwise the first match leaves the index, with its audio file, and the order is kept |
| RecordingStore.DeleteRemovesOnly | HarmonicaTests/FreestyleRecordingStoreTests.swift:50-63 | with unique ids, no recording with the deleted id remains and every other one does |
| RecordingStore.RemoveAudio | Harmonica/Models/FreestyleRecordingStore.swift:90-113 | nil exactly for an unknown id; otherwise the first match loses only its audio reference and file, every other recording is kept, and the index stays newest first |
| Capture.NormalizeDuration | Harmonica/UI/PracticeViewModel.swift:415-418 | the duration is at least 100 ms, a whole number of 50 ms steps, within 25 ms of the raw duration from 75 ms up, and 100 ms below that; an exact half step rounds up, away from zero (0.125 s gives 0.15 s) |
| Capture.Finalize | Harmonica/UI/PracticeViewModel.swift:390-413 | a held note becomes one event ending at the given time; with nothing held nothing is emitted; the hold is cleared either way |
| Capture.InvalidSample | Harmonica/UI/PracticeViewModel.swift:345-356 | with nothing held nothing changes; otherwise the dropout start is set only if unset, and once the dropout has lasted 150 ms the note is finalised at the dropout start and the dropout cleared |
| Capture.Process | Harmonica/UI/PracticeViewModel.swift:344-388 | unplayable samples follow the dropout rule; a playable one clears the dropout, continues the same note on the same hole, and otherwise ends the held note now and holds the new one from now |
| Capture.RunAppend | Harmonica/UI/PracticeViewModel.swift:344-388 | feeding two runs of samples is feeding one after the other |
| Capture.DropoutPending | Harmonica/UI/PracticeViewModel.swift:350-354 | unplayable samples younger than the debounce change nothing while a dropout is pending |
| Capture.ShortDropoutAbsorbed | Harmonica/UI/PracticeViewModel.swift:344-381 | a dropout shorter than 150 ms followed by the same note emits nothing and keeps the original start time |
| Capture.LongDropoutFinalizes | Harmonica/UI/PracticeViewModel.swift:350-354 | a dropout that reaches 150 ms emits the held note once, dated to the start of the dropout |
| Capture.EventOfWellFormed | Harmonica/UI/PracticeViewModel.swift:400-407 | a finalised event names a playable note, carries the code of that note's hole, and lasts at least 100 ms on the 50 ms grid |
| Capture.FinalizeValid | Harmonica/UI/PracticeViewModel.swift:390-413 | finalising a valid segmenter emits only well-formed events |
| Capture.ProcessValid | Harmonica/UI/PracticeViewModel.swift:344-388 | every sample keeps the segmenter valid and only appends events |
| Capture.RunValid | Harmonica/UI/PracticeViewModel.swift:344-388 | any stream of samples keeps the segmenter valid and only appends events |
| Capture.Flush | Harmonica/UI/PracticeViewModel.swift:235 | stopping finalises a still-held note at the stop time before the events are read |
| Capture.HeldNoteIsKept | Harmonica/UI/PracticeViewModel.swift:248-251 | a note still held at stop means the recording is never discarded |
| Capture.ShortGapMerges | Harmonica/UI/PracticeViewModel.swift:344-413 | C5 from 0 s, silence sampled at 0.4 s, 0.5 s and 0.549 s, C5 again at 0.55 s, stop at 0.85 s: one C5 event of 0.85 s on hole 4B |
| Capture.LongGapSplits | Harmonica/UI/PracticeViewModel.swift:344-413 | C5 from 0 s, silence sampled at 0.4 s, 0.5 s and 0.551 s, C5 again at 0.552 s, stop at 0.852 s: a 0.4 s C5 and then a 0.3 s C5, both on hole 4B |
| Practice.CurrentTargetNote | Harmonica/UI/PracticeViewModel.swift:80-83 | the target is the note at the current index exactly while the index is inside the song |
| Practice.StartNewAttempt | Harmonica/UI/PracticeViewModel.swift:127-132 | the attempt count goes up by one and index, verdict and streak are reset; nothing else changes |
| Practice.AdvanceNote | Harmonica/UI/PracticeViewModel.swift:320-323 | the index moves up by one only when a next note exists; otherwise nothing changes |
| Practice.AdvanceNoteStaysInSong | Harmonica/UI/PracticeViewModel.swift:320-323 | advancing never takes the index past the last note |
| Practice.ExitFreestyleMode | Harmonica/UI/PracticeViewModel.swift:120-121 | freestyle mode off; nothing else changes |
| Practice.ExitFreestyleModeScores | Harmonica/UI/PracticeViewModel.swift:160-167 | after leaving freestyle mode a reading with a pitch gets the matcher's verdict again |
| Practice.EnterFreestyleMode | Harmonica/UI/PracticeViewModel.swift:113-118 | freestyle mode on, verdict idle, index and streak reset; nothing else changes |
| Practice.Capturing | Harmonica/UI/PracticeViewModel.swift:139-141 | the segmenter sees a reading exactly while a freestyle recording runs |
| Practice.Score | Harmonica/UI/PracticeViewModel.swift:167-177 | the verdict is the matcher's; a hit counts the streak up, the third advances the note and restarts the count; anything else restarts it |
| Practice.HandleFrequency | Harmonica/UI/PracticeViewModel.swift:134-178 | no signal clears pitch, verdict and streak; a signal with no pitch (frequency ≤ 0) and freestyle mode force idle and clear the streak; otherwise, with a target note, the verdict is the matcher's for that pitch, target and attempt, a hit counts the streak up, the third advances the note and restarts the count, and anything else restarts it; a running recording sees the pitch first; the index moves only by one, inside the song, on a third hit; only the verdict, pitch, streak, index and the session's capture state can change, so the recording id, audio file, layout, key and start date stay as they were |
| Practice.StreakStaysBelowThree | Harmonica/UI/PracticeViewModel.swift:169-177 | between readings the hit streak stays below three |
| Practice.HandleFrequencyStaysInSong | Harmonica/UI/PracticeViewModel.swift:166-177 | a reading never takes the index past the last note |
| Practice.NoTargetLeavesVerdict | Harmonica/UI/PracticeViewModel.swift:166 | with no target note left, a reading with a pitch leaves verdict, streak and index alone |
| Practice.HitCountsUp | Harmonica/UI/PracticeViewModel.swift:169-171 | a hit that does not complete the streak counts it up and keeps the note |
| Practice.HitCompletesStreak | Harmonica/UI/PracticeViewModel.swift:171-174 | the third hit in a row advances the note and restarts the count |
| Practice.ThreeHitsAdvance | Harmonica/UI/PracticeViewModel.swift:166-177 | three hits in a row on a note before the last move to the next note, and two do not |
| Practice.ConcertAHitsA4 | HarmonicaTests/PracticeViewModelTests.swift:42-53 | a 440 Hz reading is a hit when A4 is the target |
| Practice.GuidedExample | HarmonicaTests/PracticeViewModelTests.swift:42-53 | on "A4, B4", three 440 Hz readings move to B4 with the verdict hit, and two leave the index at 0 |
| Practice.HighCMissesA4 | HarmonicaTests/PracticeViewModelTests.swift:55-68 | a C5 reading against A4 is a miss and restarts the count without moving the index |
| Practice.NonHitResetsStreak | Harmonica/UI/PracticeViewModel.swift:175-177 | after any reading that is not a hit the streak is 0, unless there was no target note to score |
| Practice.FreestyleModeNeverScores | HarmonicaTests/PracticeViewModelTests.swift:70-80 | in freestyle mode no run of readings moves the index, and after any reading the verdict is idle |
| Practice.HandleSelectedSongChange | Harmonica/UI/PracticeViewModel.swift:180-184 | a different song id resets index, streak and verdict; the same id changes nothing |
| Practice.SameTitleKeepsProgress | HarmonicaTests/PracticeViewModelTests.swift:102-112 | reselecting a song with the same title keeps the progress |
| Practice.FindSong | Harmonica/UI/PracticeViewModel.swift:337 | `first(where:)` by id: the first song in the list with that id (no earlier song has it), or nil exactly when none has it |
| Practice.FindSongAppend | Harmonica/UI/PracticeViewModel.swift:328-337 | searching the merged list finds the bundled songs' match first and a recording's only when no bundled song has the id |
| Practice.RecordingsBySongId | Harmonica/UI/PracticeViewModel.swift:331-335 | every recording's title is a key and each key maps to a recording with that title; when titles clash the later recording wins |
| Practice.SongsOf | Harmonica/UI/PracticeViewModel.swift:328 | the recordings as songs, one for one and in order |
| Practice.RebuildMergedSongs | Harmonica/UI/PracticeViewModel.swift:325-342 | the list is the bundled songs then the recordings; when asked and still present the selection becomes the first song with its previous id, and otherwise is the first song; nothing else but the list, the map and the selection changes |
| Practice.SelectedRecording | Harmonica/UI/PracticeViewModel.swift:90-93 | the recording behind the selected song, exactly when its id is a recording's |
| Practice.ReloadFreestyleRecordings | Harmonica/UI/PracticeViewModel.swift:108-111 | the store comes back with the normalised index written back, and the list is what it loads, the same before and after the write; the title map is rebuilt from it; the selection becomes the first song with its previous id, or the first song; nothing else changes |
| Practice.RemoveSelectedFreestyleAudio | Harmonica/UI/PracticeViewModel.swift:303-318 | a selected recording with audio loses it in the store, then the reload writes back the normalised index, so every recording left has its audio file or notes; otherwise nothing changes |
| Practice.NoteslessRecordingDropped | Harmonica/UI/PracticeViewModel.swift:314-315 | removing the audio of a recording with no notes removes the recording from the index |
| Practice.StartFreestyleRecording | Harmonica/UI/PracticeViewModel.swift:200-219 | a new session fixes id, file name (`<id>.m4a`), layout, key and start date and starts the segmenter empty; nothing else changes; a running recording is left alone |
| Practice.StartNamesAudioFile | Harmonica/UI/PracticeViewModel.swift:203-204 | a started session always names a non-empty audio file |
| Practice.SessionRecording | Harmonica/UI/PracticeViewModel.swift:259-271 | the saved recording carries the session's id and file, the title from the date text and id, the start date or the stop time, the captured key and layout, and `max(duration, 0)` |
| Practice.CommitRecording | Harmonica/UI/PracticeViewModel.swift:273-280 | save then reload: the store as loading leaves it after `save`, the list it loads, the bundled songs then the recordings, the title map rebuilt, a recording with audio in the index and among the songs; when asked and found, the first song with its id selected from the first note, otherwise the first song with the index kept; nothing else changes |
| Practice.StopFreestyleRecording | Harmonica/UI/PracticeViewModel.swift:231-288 | the held note is flushed first; without a pending id or file nothing is saved; the recording is discarded, with its audio file, exactly when it has no notes and under a second of audio; a saved one carries the session's id and file, the title from the date text and id, the start date or the stop time, the captured key and layout, the flushed notes and `max(duration, 0)`; the store is what `save` and a load leave with the new audio file on disk; the list and the title map are reloaded from it, a saved recording with audio is in the index and, when asked, is the selected song from its first note, otherwise the first song is; a discard changes only the audio files, the flag and the session; with no pending id or file the store is untouched and only the held note is finalised |
| Practice.StopKeepsOtherRecordings | Harmonica/UI/PracticeViewModel.swift:273-274 | stopping and saving keeps every other loaded recording in the reloaded list |

## Left out

- Audio capture and playback (AudioEngineService) are outside the model. The recorder's measured duration is a parameter, and starting or stopping it always succeeds.
- The SwiftUI views are outside the model, and so are the display helpers of `PracticeViewModel` (`currentTargetHole`, `selectedSongIsFreestyle`, `selectedFreestyleHasAudio`, `selectedFreestyleHasPlayableNotes`, `freestyleElapsed`).
- Combine bindings, `Timer.publish`, `scheduleNotice` and its messages, and `Date()` reads are outside the model. Every timestamp is a parameter.
- Floating point is not modelled. `log2`, `pow` and the cents computation in `pitch(for:)` are outside the model, and doubles are exact reals.
- SwiftStd.Quot: stated for positive divisors only, because the source divides only by 12.
- SwiftStd.Rem: stated for positive divisors only, for the same reason.
- NoteMapper.Mod: stated for positive divisors only, for the same reason.
- SwiftStd.ParseInt: does not model `Int` overflow, which makes Swift reject numbers beyond 64 bits.
- SwiftStd.IntText: integers are unbounded.
- SwiftStd.Trim: uses a fixed set of whitespace and newline characters and works on code points, not grapheme clusters.
- JSON encoding and decoding, directory creation, atomic writes and file errors in FreestyleRecordingStore are outside the model. A failure there makes `loadAll` return an empty list, which is not modelled either.
- RecordingStore.SortNewestFirst: Swift's `sorted` is not documented to be stable. The model sorts stably but states only order and permutation.
- SongLibrary is outside the model. Bundled songs are a field of the view model.
- `DateFormatter` is outside the model. The formatted date is an opaque string parameter.
- Practice.HandleSelectedSongChange: does not chain the stop-and-save that the source runs when the song changes during a recording (Harmonica/UI/PracticeViewModel.swift:186-193). That step is `Practice.StopFreestyleRecording`, which a caller applies separately.
- Practice.StopFreestyleRecording: the recorder flips `isFreestyleRecording` through a binding (Harmonica/UI/PracticeViewModel.swift:452-456), which the model does directly.
- Practice.StartFreestyleRecording: sets `isFreestyleRecording` directly too, where the source gets it from the same recorder binding.
- RecordingStore.Save: dates are kept exactly, while the store's ISO 8601 date encoding (Harmonica/Models/FreestyleRecordingStore.swift:26-27) keeps `createdAt` only to the whole second, so a reloaded recording can differ from the saved one in its fractional seconds; the model's "saved recording is in the index" holds up to that rounding.
- Practice.StopFreestyleRecording: the file the recorder wrote is added to the audio set when the recording stops.
- Practice.StartFreestyleRecording: the UUID is a parameter, and a failing recorder start is not modelled.
- Practice.ExitFreestyleMode: stopping the audio player that `exitFreestyleMode` also does is not modelled; `playSelectedFreestyleAudio` and `stopSelectedFreestyleAudio` only drive the audio player, so they are not modelled.
