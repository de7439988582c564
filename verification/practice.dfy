/**
 * The practice view model as a state machine. Guided practice scores each
 * microphone reading against the current note of the selected song and
 * moves on after three hits in a row; freestyle recording feeds the same
 * readings to the segmenter and saves the result. Every operation is a
 * function from the old state to the new one; the wall clock, the
 * floating-point pitch maths and the audio recorder's measurements arrive
 * as parameters.
 */
module Practice {
  import opened Options
  import opened SwiftStd
  import opened Tolerance
  import opened NoteMapper
  import opened NoteEvaluation
  import opened Holes
  import opened Layouts
  import opened Songs
  import opened Recordings
  import opened RecordingStore
  import Capture

  /** What one freestyle recording is being captured with. */
  datatype Session = Session(
    recordingId: Option<string>,
    audioFileName: Option<string>,
    captureLayout: Option<Layout>,
    captureKey: Option<string>,
    startDate: Option<real>,
    capture: Capture.CaptureState)

  const NoSession := Session(None, None, None, None, None, Capture.Empty)

  datatype ViewModel = ViewModel(
    songs: seq<Song>,
    selectedSong: Option<Song>,
    attemptCount: nat,
    currentNoteIndex: nat,
    matchState: MatchState,
    detectedPitch: Option<NotePitch>,
    sensitivity: real,
    selectedLayout: Layout,
    selectedKey: string,
    isFreestyleMode: bool,
    isFreestyleRecording: bool,
    bundledSongs: seq<Song>,
    freestyleRecordings: seq<Recording>,
    recordingBySongId: map<string, Recording>,
    hitStreak: nat,
    session: Session)

  /**
   * One microphone reading: frequency and amplitude, the two floating-point
   * results of pitch detection for that frequency (`12 * log2(f / 440) + 69`
   * and the cents offset), and the time it was handled.
   */
  datatype Reading = Reading(frequency: real, amplitude: real, semitones: real, cents: real, time: real)

  /** Hits in a row needed to move on to the next note. */
  const StreakToAdvance: nat := 3

  /** `currentSongNotes`. */
  function CurrentSongNotes(vm: ViewModel): seq<NoteEvent> {
    match vm.selectedSong
    case None => []
    case Some(song) => song.notes
  }

  /** `currentTargetNote`: the note at the current index, while there is one. */
  function CurrentTargetNote(vm: ViewModel): (r: Option<string>)
    ensures r.Some? <==> vm.currentNoteIndex < |CurrentSongNotes(vm)|
    ensures r.Some? ==> r.value == CurrentSongNotes(vm)[vm.currentNoteIndex].note
  {
    if vm.currentNoteIndex < |CurrentSongNotes(vm)| then Some(CurrentSongNotes(vm)[vm.currentNoteIndex].note)
    else None
  }

  /** `startNewAttempt()`: one more attempt, back to the first note with a clean slate. */
  function StartNewAttempt(vm: ViewModel): (vm': ViewModel)
    ensures vm'.attemptCount == vm.attemptCount + 1
    ensures vm'.currentNoteIndex == 0 && vm'.matchState == Idle && vm'.hitStreak == 0
    ensures vm'.(attemptCount := vm.attemptCount, currentNoteIndex := vm.currentNoteIndex,
                 matchState := vm.matchState, hitStreak := vm.hitStreak) == vm
  {
    vm.(attemptCount := vm.attemptCount + 1, currentNoteIndex := 0, matchState := Idle, hitStreak := 0)
  }

  /** `advanceNote()`: the next note, unless this is the last one (or the song is empty). */
  function AdvanceNote(vm: ViewModel): (vm': ViewModel)
    ensures vm.currentNoteIndex + 1 < |CurrentSongNotes(vm)| ==> vm'.currentNoteIndex == vm.currentNoteIndex + 1
    ensures vm.currentNoteIndex + 1 >= |CurrentSongNotes(vm)| ==> vm' == vm
    ensures vm'.(currentNoteIndex := vm.currentNoteIndex) == vm
  {
    if vm.currentNoteIndex + 1 < |CurrentSongNotes(vm)| then vm.(currentNoteIndex := vm.currentNoteIndex + 1)
    else vm
  }

  /** The index points at a note of the song, or is 0. */
  predicate IndexInSong(vm: ViewModel) {
    vm.currentNoteIndex == 0 || vm.currentNoteIndex < |CurrentSongNotes(vm)|
  }

  /** Skipping ahead never runs past the last note. */
  lemma AdvanceNoteStaysInSong(vm: ViewModel)
    requires IndexInSong(vm)
    ensures IndexInSong(AdvanceNote(vm))
    ensures AdvanceNote(vm).currentNoteIndex <= vm.currentNoteIndex + 1
  {
  }

  /** `enterFreestyleMode()`. */
  function EnterFreestyleMode(vm: ViewModel): (vm': ViewModel)
    ensures vm'.isFreestyleMode && vm'.matchState == Idle && vm'.currentNoteIndex == 0 && vm'.hitStreak == 0
    ensures vm'.(isFreestyleMode := vm.isFreestyleMode, matchState := vm.matchState,
                 currentNoteIndex := vm.currentNoteIndex, hitStreak := vm.hitStreak) == vm
  {
    vm.(isFreestyleMode := true, matchState := Idle, currentNoteIndex := 0, hitStreak := 0)
  }

  /** `exitFreestyleMode()`: guided scoring resumes; the audio player is not part of this model. */
  function ExitFreestyleMode(vm: ViewModel): (vm': ViewModel)
    ensures !vm'.isFreestyleMode
    ensures vm'.(isFreestyleMode := vm.isFreestyleMode) == vm
  {
    vm.(isFreestyleMode := false)
  }

  /** A frequency in (20, 5000) Hz, or an amplitude at or above the sensitivity. */
  predicate HasSignal(vm: ViewModel, r: Reading) {
    (r.frequency > 20.0 && r.frequency < 5000.0) || r.amplitude >= vm.sensitivity
  }

  /** The layout captured notes are mapped with: the one fixed at recording start. */
  function CaptureLayout(vm: ViewModel): Layout {
    vm.session.captureLayout.GetOr(vm.selectedLayout)
  }

  /** Hands a pitch to the segmenter while a freestyle recording runs. */
  function Capturing(vm: ViewModel, pitch: Option<NotePitch>, t: real): (vm': ViewModel)
    ensures !vm.isFreestyleRecording ==> vm' == vm
    ensures vm.isFreestyleRecording ==>
      vm' == vm.(session := vm.session.(capture := Capture.Process(vm.session.capture, CaptureLayout(vm), pitch, t)))
  {
    if vm.isFreestyleRecording then
      vm.(session := vm.session.(capture := Capture.Process(vm.session.capture, CaptureLayout(vm), pitch, t)))
    else vm
  }

  /** The verdict against `target` counts towards the streak. */
  function Score(vm: ViewModel, pitch: Option<NotePitch>, target: string): (vm': ViewModel)
    ensures vm'.matchState == Evaluate(PracticeModel, pitch, target, vm.attemptCount)
    ensures vm'.matchState != Hit ==> vm'.hitStreak == 0 && vm'.currentNoteIndex == vm.currentNoteIndex
    ensures vm'.matchState == Hit && vm.hitStreak + 1 < StreakToAdvance ==>
      vm'.hitStreak == vm.hitStreak + 1 && vm'.currentNoteIndex == vm.currentNoteIndex
    ensures vm'.matchState == Hit && vm.hitStreak + 1 >= StreakToAdvance ==>
      vm'.hitStreak == 0 && vm'.currentNoteIndex == AdvanceNote(vm).currentNoteIndex
    ensures vm'.(matchState := vm.matchState, hitStreak := vm.hitStreak, currentNoteIndex := vm.currentNoteIndex) == vm
  {
    var scored := vm.(matchState := Evaluate(PracticeModel, pitch, target, vm.attemptCount));
    if scored.matchState == Hit then
      if vm.hitStreak + 1 >= StreakToAdvance then AdvanceNote(scored).(hitStreak := 0)
      else scored.(hitStreak := vm.hitStreak + 1)
    else scored.(hitStreak := 0)
  }

  /**
   * `handleFrequency(_:amplitude:)`. Without a signal the reading clears the
   * detected pitch, the verdict and the streak. Otherwise the pitch is
   * detected; in freestyle mode, or with no pitch, the verdict is idle and
   * the streak cleared; with no target note left nothing else changes; and
   * otherwise the reading is scored against the target. A running freestyle
   * recording sees the pitch (or its absence) first.
   */
  function HandleFrequency(vm: ViewModel, r: Reading): (vm': ViewModel)
    ensures !HasSignal(vm, r) ==>
      vm'.matchState == Idle && vm'.detectedPitch.None? && vm'.hitStreak == 0
    ensures HasSignal(vm, r) ==> vm'.detectedPitch == PitchFor(r.frequency, r.semitones, r.cents)
    ensures HasSignal(vm, r) && r.frequency <= 0.0 ==> vm'.matchState == Idle && vm'.hitStreak == 0
    ensures vm.isFreestyleMode ==> vm'.matchState == Idle && vm'.hitStreak == 0
    ensures HasSignal(vm, r) && r.frequency > 0.0 && !vm.isFreestyleMode && CurrentTargetNote(vm).Some? ==>
      && vm'.matchState == Evaluate(PracticeModel, PitchFor(r.frequency, r.semitones, r.cents),
                                    CurrentTargetNote(vm).value, vm.attemptCount)
      && (vm'.matchState != Hit ==> vm'.hitStreak == 0 && vm'.currentNoteIndex == vm.currentNoteIndex)
      && (vm'.matchState == Hit && vm.hitStreak + 1 < StreakToAdvance ==>
            vm'.hitStreak == vm.hitStreak + 1 && vm'.currentNoteIndex == vm.currentNoteIndex)
      && (vm'.matchState == Hit && vm.hitStreak + 1 >= StreakToAdvance ==>
            vm'.hitStreak == 0 && vm'.currentNoteIndex == AdvanceNote(vm).currentNoteIndex)
    ensures vm.isFreestyleRecording ==>
      var heard := if HasSignal(vm, r) then PitchFor(r.frequency, r.semitones, r.cents) else None;
      vm'.session == vm.session.(capture := Capture.Process(vm.session.capture, CaptureLayout(vm), heard, r.time))
    ensures !vm.isFreestyleRecording ==> vm'.session == vm.session
    ensures vm'.currentNoteIndex != vm.currentNoteIndex ==>
      vm'.currentNoteIndex == vm.currentNoteIndex + 1 < |CurrentSongNotes(vm)|
      && !vm.isFreestyleMode && vm'.matchState == Hit && vm.hitStreak + 1 >= StreakToAdvance
    ensures vm'.(matchState := vm.matchState, detectedPitch := vm.detectedPitch, hitStreak := vm.hitStreak,
                 currentNoteIndex := vm.currentNoteIndex, session := vm.session) == vm
  {
    if !HasSignal(vm, r) then
      Capturing(vm, None, r.time).(matchState := Idle, detectedPitch := None, hitStreak := 0)
    else
      var pitch := PitchFor(r.frequency, r.semitones, r.cents);
      var heard := Capturing(vm.(detectedPitch := pitch), pitch, r.time);
      if pitch.None? || vm.isFreestyleMode then heard.(matchState := Idle, hitStreak := 0)
      else
        match CurrentTargetNote(heard)
        case None => heard
        case Some(target) => Score(heard, pitch, target)
  }

  /** Readings handled in order. */
  function HandleAll(vm: ViewModel, rs: seq<Reading>): ViewModel
    decreases |rs|
  {
    if rs == [] then vm else HandleAll(HandleFrequency(vm, rs[0]), rs[1..])
  }

  /** Between readings the streak is always below three. */
  lemma StreakStaysBelowThree(vm: ViewModel, r: Reading)
    requires vm.hitStreak < StreakToAdvance
    ensures HandleFrequency(vm, r).hitStreak < StreakToAdvance
  {
  }

  /** The current index stays on a note of the song. */
  lemma HandleFrequencyStaysInSong(vm: ViewModel, r: Reading)
    requires IndexInSong(vm)
    ensures IndexInSong(HandleFrequency(vm, r))
  {
  }

  /**
   * With no target note left (past the end of the song, or no song), a
   * reading with a pitch leaves the verdict and the streak as they were.
   */
  lemma NoTargetLeavesVerdict(vm: ViewModel, r: Reading)
    requires HasSignal(vm, r) && r.frequency > 0.0 && !vm.isFreestyleMode
    requires CurrentTargetNote(vm).None?
    ensures HandleFrequency(vm, r).matchState == vm.matchState
    ensures HandleFrequency(vm, r).hitStreak == vm.hitStreak
    ensures HandleFrequency(vm, r).currentNoteIndex == vm.currentNoteIndex
  {
  }

  /** The reading is heard as a hit on the current note. */
  predicate HitsTarget(vm: ViewModel, r: Reading) {
    && HasSignal(vm, r)
    && CurrentTargetNote(vm).Some?
    && Evaluate(PracticeModel, PitchFor(r.frequency, r.semitones, r.cents), CurrentTargetNote(vm).value, vm.attemptCount) == Hit
  }

  /** The fields a verdict depends on. */
  predicate SameTarget(a: ViewModel, b: ViewModel) {
    && a.sensitivity == b.sensitivity && a.selectedSong == b.selectedSong
    && a.currentNoteIndex == b.currentNoteIndex && a.attemptCount == b.attemptCount
    && a.isFreestyleMode == b.isFreestyleMode
  }

  lemma HitsTargetTransfer(a: ViewModel, b: ViewModel, r: Reading)
    requires SameTarget(a, b) && HitsTarget(a, r)
    ensures HitsTarget(b, r)
  {
    assert CurrentSongNotes(a) == CurrentSongNotes(b);
  }

  /** A hit that does not complete the streak counts it up and keeps the note. */
  lemma HitCountsUp(vm: ViewModel, r: Reading)
    requires !vm.isFreestyleMode && HitsTarget(vm, r) && vm.hitStreak + 1 < StreakToAdvance
    ensures HandleFrequency(vm, r).hitStreak == vm.hitStreak + 1
    ensures HandleFrequency(vm, r).matchState == Hit
    ensures SameTarget(vm, HandleFrequency(vm, r))
  {
  }

  /** The third hit in a row moves on to the next note, if there is one, and restarts the count. */
  lemma HitCompletesStreak(vm: ViewModel, r: Reading)
    requires !vm.isFreestyleMode && HitsTarget(vm, r) && vm.hitStreak + 1 == StreakToAdvance
    ensures HandleFrequency(vm, r).hitStreak == 0
    ensures HandleFrequency(vm, r).matchState == Hit
    ensures HandleFrequency(vm, r).currentNoteIndex == AdvanceNote(vm).currentNoteIndex
  {
  }

  /** `HandleAll` on two and three readings. */
  lemma HandleAllThree(vm: ViewModel, r1: Reading, r2: Reading, r3: Reading)
    ensures HandleAll(vm, [r1, r2]) == HandleFrequency(HandleFrequency(vm, r1), r2)
    ensures HandleAll(vm, [r1, r2, r3]) == HandleFrequency(HandleFrequency(HandleFrequency(vm, r1), r2), r3)
  {
    var v1 := HandleFrequency(vm, r1);
    var v2 := HandleFrequency(v1, r2);
    assert HandleAll(v2, []) == v2;
    assert HandleAll(v2, [r3]) == HandleFrequency(v2, r3) by { assert [r3][1..] == []; }
    assert HandleAll(v1, [r2]) == v2 by { assert [r2][1..] == []; }
    assert HandleAll(v1, [r2, r3]) == HandleAll(v2, [r3]) by { assert [r2, r3][1..] == [r3]; }
    assert HandleAll(vm, [r1, r2]) == HandleAll(v1, [r2]) by { assert [r1, r2][1..] == [r2]; }
    assert HandleAll(vm, [r1, r2, r3]) == HandleAll(v1, [r2, r3]) by { assert [r1, r2, r3][1..] == [r2, r3]; }
  }

  /**
   * Three hits in a row on a note that is not the last one move on to the
   * next note with a fresh streak; after two the index has not moved yet.
   */
  lemma ThreeHitsAdvance(vm: ViewModel, r1: Reading, r2: Reading, r3: Reading)
    requires !vm.isFreestyleMode && vm.hitStreak == 0
    requires vm.currentNoteIndex + 1 < |CurrentSongNotes(vm)|
    requires HitsTarget(vm, r1) && HitsTarget(vm, r2) && HitsTarget(vm, r3)
    ensures HandleAll(vm, [r1, r2]).currentNoteIndex == vm.currentNoteIndex
    ensures HandleAll(vm, [r1, r2, r3]).currentNoteIndex == vm.currentNoteIndex + 1
    ensures HandleAll(vm, [r1, r2, r3]).hitStreak == 0
    ensures HandleAll(vm, [r1, r2, r3]).matchState == Hit
  {
    HandleAllThree(vm, r1, r2, r3);
    var v1 := HandleFrequency(vm, r1);
    HitCountsUp(vm, r1);
    HitsTargetTransfer(vm, v1, r2);
    HitsTargetTransfer(vm, v1, r3);
    var v2 := HandleFrequency(v1, r2);
    HitCountsUp(v1, r2);
    HitsTargetTransfer(v1, v2, r3);
    HitCompletesStreak(v2, r3);
    assert CurrentSongNotes(v2) == CurrentSongNotes(vm);
  }

  /** 440 Hz: MIDI 69 exactly, no cents off. */
  function ConcertA(t: real): Reading {
    Reading(440.0, 0.2, 69.0, 0.0, t)
  }

  /** 523.251 Hz: MIDI 72, a C5, well under a thousandth of a cent flat. */
  function HighC(t: real): Reading {
    Reading(523.251, 0.2, 72.0, 0.0, t)
  }

  lemma ConcertAHitsA4(vm: ViewModel, t: real)
    requires CurrentTargetNote(vm) == Some("A4")
    ensures HitsTarget(vm, ConcertA(t))
  {
    MidiExamples();
    assert Round(69.0) == 69;
    ToleranceAtStart(PracticeModel);
    assert ToleranceFor(PracticeModel, vm.attemptCount) >= 0.0;
  }

  /**
   * Practising "A4, B4": three concert A's in a row move on to B4 with the
   * verdict still showing the hit, and two are not enough.
   */
  lemma GuidedExample(vm: ViewModel, t1: real, t2: real, t3: real)
    requires !vm.isFreestyleMode && vm.hitStreak == 0 && vm.currentNoteIndex == 0
    requires |CurrentSongNotes(vm)| == 2 && CurrentSongNotes(vm)[0].note == "A4"
    ensures HandleAll(vm, [ConcertA(t1), ConcertA(t2)]).currentNoteIndex == 0
    ensures HandleAll(vm, [ConcertA(t1), ConcertA(t2), ConcertA(t3)]).currentNoteIndex == 1
    ensures HandleAll(vm, [ConcertA(t1), ConcertA(t2), ConcertA(t3)]).matchState == Hit
  {
    ConcertAHitsA4(vm, t1);
    ConcertAHitsA4(vm, t2);
    ConcertAHitsA4(vm, t3);
    ThreeHitsAdvance(vm, ConcertA(t1), ConcertA(t2), ConcertA(t3));
  }

  /** A C5 while A4 is the target is a miss and the count starts over. */
  lemma HighCMissesA4(vm: ViewModel, t: real)
    requires !vm.isFreestyleMode && CurrentTargetNote(vm) == Some("A4")
    ensures HandleFrequency(vm, HighC(t)).matchState == Miss
    ensures HandleFrequency(vm, HighC(t)).hitStreak == 0
    ensures HandleFrequency(vm, HighC(t)).currentNoteIndex == vm.currentNoteIndex
  {
    var p := PitchFor(523.251, 72.0, 0.0);
    assert Round(72.0) == 72;
    assert p.value.noteName == "C" && p.value.octave == 5;
    assert p.value.FullName()[0] == 'C';
    assert p.value.FullName() != "A4";
  }

  /** A reading that is not a hit on the current note restarts the count. */
  lemma NonHitResetsStreak(vm: ViewModel, r: Reading)
    requires !vm.isFreestyleMode
    requires HandleFrequency(vm, r).matchState != Hit
    ensures HandleFrequency(vm, r).hitStreak == 0 || (HasSignal(vm, r) && r.frequency > 0.0 && CurrentTargetNote(vm).None?)
  {
  }

  /** In freestyle mode no run of readings moves the note index or shows a verdict. */
  lemma {:induction false} FreestyleModeNeverScores(vm: ViewModel, rs: seq<Reading>)
    requires vm.isFreestyleMode
    ensures HandleAll(vm, rs).currentNoteIndex == vm.currentNoteIndex
    ensures rs != [] ==> HandleAll(vm, rs).matchState == Idle && HandleAll(vm, rs).hitStreak == 0
    decreases |rs|
  {
    if rs != [] {
      FreestyleModeNeverScores(HandleFrequency(vm, rs[0]), rs[1..]);
    }
  }

  /** Leaving freestyle mode brings scoring back: a reading with a pitch gets the evaluator's verdict. */
  lemma ExitFreestyleModeScores(vm: ViewModel, r: Reading)
    requires HasSignal(vm, r) && r.frequency > 0.0 && CurrentTargetNote(vm).Some?
    ensures HandleFrequency(ExitFreestyleMode(vm), r).matchState ==
      Evaluate(PracticeModel, PitchFor(r.frequency, r.semitones, r.cents), CurrentTargetNote(vm).value, vm.attemptCount)
  {
  }

  /**
   * `handleSelectedSongChange(from:to:)`: a different song identity (title)
   * restarts progress; the same identity changes nothing.
   */
  function HandleSelectedSongChange(vm: ViewModel, oldSong: Option<Song>, newSong: Option<Song>): (vm': ViewModel)
    ensures SongIdOf(oldSong) == SongIdOf(newSong) ==> vm' == vm
    ensures SongIdOf(oldSong) != SongIdOf(newSong) ==>
      vm'.currentNoteIndex == 0 && vm'.hitStreak == 0 && vm'.matchState == Idle
      && vm'.(currentNoteIndex := vm.currentNoteIndex, hitStreak := vm.hitStreak, matchState := vm.matchState) == vm
  {
    if SongIdOf(oldSong) == SongIdOf(newSong) then vm
    else vm.(currentNoteIndex := 0, hitStreak := 0, matchState := Idle)
  }

  /** `song?.id`. */
  function SongIdOf(s: Option<Song>): Option<string> {
    match s
    case None => None
    case Some(song) => Some(SongId(song))
  }

  /** Two songs with the same title are the same song to the view model, whatever their notes. */
  lemma SameTitleKeepsProgress(vm: ViewModel, a: Song, b: Song)
    requires a.songTitle == b.songTitle
    ensures HandleSelectedSongChange(vm, Some(a), Some(b)) == vm
  {
  }

  // ---------------------------------------------------------------------
  // Song list

  /** `firstIndex(where: { $0.id == id })` over songs. */
  function FirstSongIndex(songs: seq<Song>, id: string): (r: Option<nat>)
    ensures r.None? <==> forall k | 0 <= k < |songs| :: SongId(songs[k]) != id
    ensures r.Some? ==> r.value < |songs| && SongId(songs[r.value]) == id
    ensures r.Some? ==> forall j | 0 <= j < r.value :: SongId(songs[j]) != id
  {
    if songs == [] then None
    else if SongId(songs[0]) == id then Some(0)
    else match FirstSongIndex(songs[1..], id)
      case None => None
      case Some(k) => Some(k + 1)
  }

  /** `first(where: { $0.id == id })`: the first song with the given id. */
  function FindSong(songs: seq<Song>, id: string): (r: Option<Song>)
    ensures r.None? <==> forall k | 0 <= k < |songs| :: SongId(songs[k]) != id
    ensures r.Some? ==> exists k | 0 <= k < |songs| ::
      songs[k] == r.value && SongId(songs[k]) == id && forall j | 0 <= j < k :: SongId(songs[j]) != id
  {
    match FirstSongIndex(songs, id)
    case None => None
    case Some(k) => Some(songs[k])
  }

  /** The song at index `k` is the first with its id. */
  lemma FindSongAt(songs: seq<Song>, id: string, k: nat)
    requires k < |songs| && SongId(songs[k]) == id
    requires forall j | 0 <= j < k :: SongId(songs[j]) != id
    ensures FindSong(songs, id) == Some(songs[k])
  {
    var i := FirstSongIndex(songs, id).value;
    assert !(i < k);
    assert !(k < i);
  }

  /**
   * Searching a concatenation finds the first list's match when it has
   * one, and otherwise the second's: a bundled song shadows a recording
   * with the same title.
   */
  lemma FindSongAppend(a: seq<Song>, b: seq<Song>, id: string)
    ensures FindSong(a + b, id) == if FindSong(a, id).Some? then FindSong(a, id) else FindSong(b, id)
  {
    if FindSong(a, id).Some? {
      var k :| 0 <= k < |a| && a[k] == FindSong(a, id).value && SongId(a[k]) == id
               && forall j | 0 <= j < k :: SongId(a[j]) != id;
      assert (a + b)[k] == a[k];
      FindSongAt(a + b, id, k);
    } else if FindSong(b, id).Some? {
      var k :| 0 <= k < |b| && b[k] == FindSong(b, id).value && SongId(b[k]) == id
               && forall j | 0 <= j < k :: SongId(b[j]) != id;
      assert (a + b)[|a| + k] == b[k];
      forall j | 0 <= j < |a| + k
        ensures SongId((a + b)[j]) != id
      {
        if j < |a| {
          assert (a + b)[j] == a[j];
        } else {
          assert (a + b)[j] == b[j - |a|];
        }
      }
      FindSongAt(a + b, id, |a| + k);
    } else {
      forall j | 0 <= j < |a + b|
        ensures SongId((a + b)[j]) != id
      {
        if j < |a| {
          assert (a + b)[j] == a[j];
        } else {
          assert (a + b)[j] == b[j - |a|];
        }
      }
    }
  }

  /** No recording after the `i`-th has its title. */
  predicate NoLaterClash(rs: seq<Recording>, i: nat)
    requires i < |rs|
  {
    forall j | i < j < |rs| :: rs[j].title != rs[i].title
  }

  /**
   * Each recording that no later one shares a title with is the one `m`
   * holds under its title: when titles clash, the later recording wins.
   */
  predicate LastWins(rs: seq<Recording>, m: map<string, Recording>) {
    forall i | 0 <= i < |rs| && NoLaterClash(rs, i) :: rs[i].title in m && m[rs[i].title] == rs[i]
  }

  /** One more pass of the loop keeps the later-wins property. */
  lemma LastWinsStep(rs: seq<Recording>, init: map<string, Recording>)
    requires |rs| > 0 && LastWins(rs[..|rs| - 1], init)
    ensures LastWins(rs, init[rs[|rs| - 1].title := rs[|rs| - 1]])
  {
    var prefix := rs[..|rs| - 1];
    var last := rs[|rs| - 1];
    var m := init[last.title := last];
    forall i | 0 <= i < |rs| && NoLaterClash(rs, i)
      ensures rs[i].title in m && m[rs[i].title] == rs[i]
    {
      if i < |prefix| {
        assert rs[i] == prefix[i];
        assert rs[i].title != last.title;
        forall j | i < j < |prefix|
          ensures prefix[j].title != prefix[i].title
        {
          assert rs[j] == prefix[j];
        }
        assert NoLaterClash(prefix, i);
      }
    }
  }

  /** The recordings keyed by the id of the song each becomes; a later one wins a clash. */
  function RecordingsBySongId(rs: seq<Recording>): (m: map<string, Recording>)
    ensures forall r | r in rs :: r.title in m
    ensures forall id | id in m :: m[id] in rs && m[id].title == id
    ensures LastWins(rs, m)
  {
    if rs == [] then map[]
    else
      var init := RecordingsBySongId(rs[..|rs| - 1]);
      var last := rs[|rs| - 1];
      assert forall r | r in rs :: r in rs[..|rs| - 1] || r == last;
      LastWinsStep(rs, init);
      init[SongId(AsSong(last)) := last]
  }

  function SongsOf(rs: seq<Recording>): (songs: seq<Song>)
    ensures |songs| == |rs|
    ensures forall i | 0 <= i < |rs| :: songs[i] == AsSong(rs[i])
  {
    if rs == [] then [] else [AsSong(rs[0])] + SongsOf(rs[1..])
  }

  /**
   * `rebuildMergedSongs(keepCurrentSelection:)`: the bundled songs followed
   * by the recordings as songs; the selection keeps its id when asked to
   * and still present, as the first song with that id, and otherwise falls
   * back to the first song.
   */
  function RebuildMergedSongs(vm: ViewModel, keepCurrentSelection: bool): (vm': ViewModel)
    ensures vm'.songs == vm.bundledSongs + SongsOf(vm.freestyleRecordings)
    ensures keepCurrentSelection && vm.selectedSong.Some? && FindSong(vm'.songs, SongId(vm.selectedSong.value)).Some? ==>
      vm'.selectedSong == FindSong(vm'.songs, SongId(vm.selectedSong.value))
    ensures !keepCurrentSelection || vm.selectedSong.None? || FindSong(vm'.songs, SongId(vm.selectedSong.value)).None? ==>
      vm'.selectedSong == (if vm'.songs == [] then None else Some(vm'.songs[0]))
    ensures vm'.recordingBySongId == RecordingsBySongId(vm.freestyleRecordings)
    ensures vm'.(songs := vm.songs, recordingBySongId := vm.recordingBySongId, selectedSong := vm.selectedSong) == vm
  {
    var songs := vm.bundledSongs + SongsOf(vm.freestyleRecordings);
    var previous := if keepCurrentSelection then SongIdOf(vm.selectedSong) else None;
    var fallback := if songs == [] then None else Some(songs[0]);
    var selected :=
      match previous
      case None => fallback
      case Some(id) => if FindSong(songs, id).Some? then FindSong(songs, id) else fallback;
    vm.(songs := songs, recordingBySongId := RecordingsBySongId(vm.freestyleRecordings), selectedSong := selected)
  }

  /** `selectedRecording`: the recording behind the selected song, if it is one. */
  function SelectedRecording(vm: ViewModel): (r: Option<Recording>)
    ensures r.Some? <==> vm.selectedSong.Some? && SongId(vm.selectedSong.value) in vm.recordingBySongId
    ensures r.Some? ==> r.value == vm.recordingBySongId[SongId(vm.selectedSong.value)]
  {
    match vm.selectedSong
    case None => None
    case Some(song) => if SongId(song) in vm.recordingBySongId then Some(vm.recordingBySongId[SongId(song)]) else None
  }

  /**
   * `reloadFreestyleRecordings()`: the recordings reloaded from the store,
   * the selection kept by id. Loading writes the normalised index back, so
   * the store is returned as loading leaves it.
   */
  function ReloadFreestyleRecordings(vm: ViewModel, store: Store): (r: (ViewModel, Store))
    ensures r.1 == AfterLoad(store)
    ensures r.0.freestyleRecordings == LoadAll(store) == LoadAll(r.1)
    ensures r.0.songs == vm.bundledSongs + SongsOf(LoadAll(store))
    ensures vm.selectedSong.Some? && FindSong(r.0.songs, SongId(vm.selectedSong.value)).Some? ==>
      r.0.selectedSong == FindSong(r.0.songs, SongId(vm.selectedSong.value))
    ensures vm.selectedSong.None? || FindSong(r.0.songs, SongId(vm.selectedSong.value)).None? ==>
      r.0.selectedSong == (if r.0.songs == [] then None else Some(r.0.songs[0]))
    ensures r.0.recordingBySongId == RecordingsBySongId(r.0.freestyleRecordings)
    ensures r.0.(freestyleRecordings := vm.freestyleRecordings, songs := vm.songs,
                 recordingBySongId := vm.recordingBySongId, selectedSong := vm.selectedSong) == vm
  {
    ReloadStable(store);
    (RebuildMergedSongs(vm.(freestyleRecordings := LoadAll(store)), true), AfterLoad(store))
  }

  /**
   * `removeSelectedFreestyleAudio()`: when the selected song is a recording
   * with audio, its audio is removed from the store and the list reloaded;
   * otherwise nothing changes. The reload writes back the normalised index,
   * so a recording left with neither audio nor notes leaves the store.
   */
  function RemoveSelectedFreestyleAudio(vm: ViewModel, store: Store): (r: (ViewModel, Store))
    ensures SelectedRecording(vm).None? || !HasAudioPlayback(SelectedRecording(vm).value) ==> r == (vm, store)
    ensures SelectedRecording(vm).Some? && HasAudioPlayback(SelectedRecording(vm).value) ==>
      var removed := RemoveAudio(store, SelectedRecording(vm).value.id).1;
      && r.1 == AfterLoad(removed)
      && r.0 == ReloadFreestyleRecordings(vm, removed).0
      && r.1.audioFiles == removed.audioFiles
      && (forall i | 0 <= i < |r.1.index| :: Normal(r.1.index[i], r.1.audioFiles))
  {
    match SelectedRecording(vm)
    case None => (vm, store)
    case Some(recording) =>
      if !HasAudioPlayback(recording) then (vm, store)
      else ReloadFreestyleRecordings(vm, RemoveAudio(store, recording.id).1)
  }

  /**
   * Removing the audio of a recording that captured no notes removes the
   * recording itself: what is left of it, audio-less and empty, is not in
   * the store.
   */
  lemma NoteslessRecordingDropped(vm: ViewModel, store: Store)
    requires SelectedRecording(vm).Some? && HasAudioPlayback(SelectedRecording(vm).value)
    requires SelectedRecording(vm).value.notes == []
    ensures WithoutAudio(SelectedRecording(vm).value) !in RemoveSelectedFreestyleAudio(vm, store).1.index
  {
  }

  // ---------------------------------------------------------------------
  // Freestyle recording lifecycle

  /**
   * `startFreestyleRecording()` once the recorder has started: the session
   * fixes its id, audio file name, layout, key and start date, and the
   * segmenter starts empty. A recording already running is left alone.
   */
  function StartFreestyleRecording(vm: ViewModel, recordingId: string, now: real): (vm': ViewModel)
    ensures vm.isFreestyleRecording ==> vm' == vm
    ensures !vm.isFreestyleRecording ==>
      && vm'.isFreestyleRecording && vm'.session.capture == Capture.Empty
      && vm'.session.recordingId == Some(recordingId)
      && vm'.session.audioFileName == Some(recordingId + ".m4a")
      && vm'.session.captureLayout == Some(vm.selectedLayout) && vm'.session.captureKey == Some(vm.selectedKey)
      && vm'.session.startDate == Some(now)
      && vm'.(isFreestyleRecording := vm.isFreestyleRecording, session := vm.session) == vm
  {
    if vm.isFreestyleRecording then vm
    else
      vm.(isFreestyleRecording := true,
          session := Session(Some(recordingId), Some(recordingId + ".m4a"), Some(vm.selectedLayout),
                             Some(vm.selectedKey), Some(now), Capture.Empty))
  }

  /**
   * `rec` is what the session is saved as: its id and audio file, a title
   * built from the start date's text and the id, the start date (or the
   * stop time when there is none), the key and layout fixed at the start,
   * and the recorder's duration, never below zero.
   */
  predicate SavedFromSession(vm: ViewModel, rec: Recording, now: real, recordingDuration: real, formattedDate: string) {
    && vm.session.recordingId == Some(rec.id)
    && rec.title == MakeTitle(formattedDate, rec.id)
    && rec.createdAt == vm.session.startDate.GetOr(now)
    && rec.key == vm.session.captureKey.GetOr(vm.selectedKey)
    && rec.layoutRawValue == RawValue(CaptureLayout(vm))
    && rec.audioFileName == vm.session.audioFileName
    && rec.duration == (if recordingDuration >= 0.0 then recordingDuration else 0.0)
  }

  /**
   * A started session always names a non-empty audio file, so the
   * recording it is saved as has audio playback and stays in the index.
   */
  lemma StartNamesAudioFile(vm: ViewModel, recordingId: string, now: real)
    requires !vm.isFreestyleRecording
    ensures StartFreestyleRecording(vm, recordingId, now).session.audioFileName.Some?
    ensures |StartFreestyleRecording(vm, recordingId, now).session.audioFileName.value| > 0
  {
  }

  /** The recording a stopped session is saved as. */
  function SessionRecording(vm: ViewModel, id: string, fileName: string, events: seq<NoteEvent>, now: real,
                            recordingDuration: real, formattedDate: string): (rec: Recording)
    requires vm.session.recordingId == Some(id) && vm.session.audioFileName == Some(fileName)
    ensures SavedFromSession(vm, rec, now, recordingDuration, formattedDate)
    ensures rec.notes == events
    ensures rec.duration >= 0.0 && rec.duration >= recordingDuration
  {
    Recording(id, MakeTitle(formattedDate, id), vm.session.startDate.GetOr(now),
              vm.session.captureKey.GetOr(vm.selectedKey), RawValue(CaptureLayout(vm)),
              Some(fileName), events, if recordingDuration >= 0.0 then recordingDuration else 0.0)
  }

  /**
   * After saving `rec` and reloading: the list is what the store loads, the
   * songs are the bundled ones followed by it and the title map is rebuilt
   * from it; a recording with audio is in the index and among the songs.
   * When asked and found, the first song with its id is selected from the
   * start; otherwise the selection falls back to the first song and the
   * index stays. The segmenter's fields aside, nothing else changes.
   */
  predicate ReloadedAfterSave(before: ViewModel, after: ViewModel, store: Store, rec: Recording, selectSavedSong: bool) {
    && after.freestyleRecordings == LoadAll(store)
    && after.songs == before.bundledSongs + SongsOf(LoadAll(store))
    && after.recordingBySongId == RecordingsBySongId(LoadAll(store))
    && (HasAudioPlayback(rec) ==> rec in store.index && FindSong(after.songs, rec.title).Some?)
    && (selectSavedSong && FindSong(after.songs, rec.title).Some? ==>
          after.selectedSong == FindSong(after.songs, rec.title) && after.currentNoteIndex == 0)
    && (!selectSavedSong || FindSong(after.songs, rec.title).None? ==>
          after.selectedSong == (if after.songs == [] then None else Some(after.songs[0]))
          && after.currentNoteIndex == before.currentNoteIndex)
    && after.(freestyleRecordings := before.freestyleRecordings, songs := before.songs,
              recordingBySongId := before.recordingBySongId, selectedSong := before.selectedSong,
              currentNoteIndex := before.currentNoteIndex, isFreestyleRecording := before.isFreestyleRecording,
              session := before.session) == before
  }

  /** A recording in the list makes its title findable among the merged songs. */
  lemma RecordingListed(bundled: seq<Song>, rs: seq<Recording>, rec: Recording)
    requires rec in rs
    ensures FindSong(bundled + SongsOf(rs), rec.title).Some?
  {
    var k :| 0 <= k < |rs| && rs[k] == rec;
    assert (bundled + SongsOf(rs))[|bundled| + k] == AsSong(rec);
  }

  /** When asked, the first song with the given id becomes the selection, from its first note. */
  function SelectSaved(vm: ViewModel, title: string, selectSavedSong: bool): (vm': ViewModel)
    ensures selectSavedSong && FindSong(vm.songs, title).Some? ==>
      vm'.selectedSong == FindSong(vm.songs, title) && vm'.currentNoteIndex == 0
    ensures !selectSavedSong || FindSong(vm.songs, title).None? ==> vm' == vm
    ensures vm'.(selectedSong := vm.selectedSong, currentNoteIndex := vm.currentNoteIndex) == vm
  {
    var chosen := FindSong(vm.songs, title);
    if selectSavedSong && chosen.Some? then vm.(selectedSong := chosen, currentNoteIndex := 0) else vm
  }

  /**
   * Saving a finished recording: `save`, then `loadAll` and a rebuild that
   * does not keep the selection, then, when asked, the first song with the
   * recording's id selected from the start.
   */
  function CommitRecording(vm: ViewModel, store: Store, recording: Recording, selectSavedSong: bool): (r: (ViewModel, Store))
    ensures r.1 == AfterLoad(Save(store, recording))
    ensures r.0.freestyleRecordings == LoadAll(r.1)
    ensures r.0.songs == vm.bundledSongs + SongsOf(LoadAll(r.1))
    ensures r.0.recordingBySongId == RecordingsBySongId(r.0.freestyleRecordings)
    ensures AudioPresent(recording, store.audioFiles) ==>
      recording in r.1.index && FindSong(r.0.songs, recording.title).Some?
    ensures selectSavedSong && FindSong(r.0.songs, recording.title).Some? ==>
      r.0.selectedSong == FindSong(r.0.songs, recording.title) && r.0.currentNoteIndex == 0
    ensures !selectSavedSong || FindSong(r.0.songs, recording.title).None? ==>
      r.0.selectedSong == (if r.0.songs == [] then None else Some(r.0.songs[0]))
      && r.0.currentNoteIndex == vm.currentNoteIndex
    ensures r.0.(freestyleRecordings := vm.freestyleRecordings, songs := vm.songs,
                 recordingBySongId := vm.recordingBySongId, selectedSong := vm.selectedSong,
                 currentNoteIndex := vm.currentNoteIndex) == vm
  {
    var saved := Save(store, recording);
    ReloadStable(saved);
    if AudioPresent(recording, store.audioFiles) then
      SavedIsLoaded(store, recording);
      RecordingListed(vm.bundledSongs, LoadAll(saved), recording);
      var reloaded := RebuildMergedSongs(vm.(freestyleRecordings := LoadAll(saved)), false);
      (SelectSaved(reloaded, recording.title, selectSavedSong), AfterLoad(saved))
    else
      var reloaded := RebuildMergedSongs(vm.(freestyleRecordings := LoadAll(saved)), false);
      (SelectSaved(reloaded, recording.title, selectSavedSong), AfterLoad(saved))
  }

  /** What stopping a recording produced. */
  datatype StopResult = StopResult(saved: Option<Recording>, vm: ViewModel, store: Store)

  /** Saving a session that was not discarded: the audio file is on disk, the recording is committed. */
  function SaveSession(vm: ViewModel, store: Store, id: string, fileName: string, events: seq<NoteEvent>, now: real,
                       recordingDuration: real, formattedDate: string, selectSavedSong: bool): (r: StopResult)
    requires vm.session.recordingId == Some(id) && vm.session.audioFileName == Some(fileName)
    ensures r.saved.Some? && r.saved.value.notes == events
    ensures SavedFromSession(vm, r.saved.value, now, recordingDuration, formattedDate)
    ensures r.store == AfterLoad(Save(store.(audioFiles := store.audioFiles + {fileName}), r.saved.value))
    ensures ReloadedAfterSave(vm, r.vm, r.store, r.saved.value, selectSavedSong)
    ensures !r.vm.isFreestyleRecording && r.vm.session == NoSession
  {
    var recording := SessionRecording(vm, id, fileName, events, now, recordingDuration, formattedDate);
    var files := store.audioFiles + {fileName};
    AudioUrlMatchesPlayback(recording);
    assert HasAudioPlayback(recording) ==> AudioPresent(recording, files);
    var committed := CommitRecording(vm.(isFreestyleRecording := false), store.(audioFiles := files),
                                     recording, selectSavedSong);
    StopResult(Some(recording), committed.0.(session := NoSession), committed.1)
  }

  /**
   * `stopFreestyleRecordingAndSave(selectSavedSong:)` once the recorder has
   * stopped. The held note is flushed at `now`; a recording with no notes
   * and under a second of audio is discarded with its audio file, anything
   * else is saved, the list reloaded and, when asked, the saved song
   * selected. `recordingDuration` is what the recorder measured and
   * `formattedDate` the date formatter's text for the start date. The
   * recorder has written the audio file by the time it stops.
   */
  function StopFreestyleRecording(vm: ViewModel, store: Store, now: real, recordingDuration: real,
                                  formattedDate: string, selectSavedSong: bool): (r: StopResult)
    ensures !vm.isFreestyleRecording ==> r == StopResult(None, vm, store)
    ensures r.saved.Some? ==>
      && vm.isFreestyleRecording
      && SavedFromSession(vm, r.saved.value, now, recordingDuration, formattedDate)
      && r.saved.value.notes == Capture.Flush(vm.session.capture, now)
      && !Capture.Discarded(r.saved.value.notes, recordingDuration)
      && vm.session.audioFileName.Some?
      && r.store == AfterLoad(Save(store.(audioFiles := store.audioFiles + {vm.session.audioFileName.value}), r.saved.value))
      && ReloadedAfterSave(vm, r.vm, r.store, r.saved.value, selectSavedSong)
    ensures vm.isFreestyleRecording && vm.session.recordingId.Some? && vm.session.audioFileName.Some? ==>
      && (r.saved.None? <==> Capture.Discarded(Capture.Flush(vm.session.capture, now), recordingDuration))
      && (r.saved.None? ==>
            && r.store == store.(audioFiles := store.audioFiles - {vm.session.audioFileName.value})
            && r.vm == vm.(isFreestyleRecording := false, session := NoSession))
      && r.vm.session == NoSession
    ensures vm.isFreestyleRecording && (vm.session.recordingId.None? || vm.session.audioFileName.None?) ==>
      && r.saved.None? && r.store == store
      && r.vm == vm.(isFreestyleRecording := false,
                     session := vm.session.(capture := Capture.Finalize(vm.session.capture, now)))
    ensures vm.isFreestyleRecording ==> !r.vm.isFreestyleRecording
  {
    if !vm.isFreestyleRecording then StopResult(None, vm, store)
    else
      var events := Capture.Flush(vm.session.capture, now);
      match (vm.session.recordingId, vm.session.audioFileName)
      case (Some(id), Some(fileName)) =>
        if Capture.Discarded(events, recordingDuration) then
          StopResult(None, vm.(isFreestyleRecording := false, session := NoSession),
                     store.(audioFiles := store.audioFiles - {fileName}))
        else
          SaveSession(vm, store, id, fileName, events, now, recordingDuration, formattedDate, selectSavedSong)
      case _ =>
        StopResult(None, vm.(isFreestyleRecording := false,
                             session := vm.session.(capture := Capture.Finalize(vm.session.capture, now))), store)
  }

  /**
   * Stopping and saving keeps every other recording: one the store loaded
   * (with the new audio file on disk) under a different id is still in the
   * reloaded list.
   */
  lemma StopKeepsOtherRecordings(vm: ViewModel, store: Store, now: real, recordingDuration: real,
                                 formattedDate: string, selectSavedSong: bool, x: Recording)
    requires vm.isFreestyleRecording && vm.session.recordingId.Some? && vm.session.audioFileName.Some?
    requires !Capture.Discarded(Capture.Flush(vm.session.capture, now), recordingDuration)
    requires x in LoadAll(store.(audioFiles := store.audioFiles + {vm.session.audioFileName.value}))
    requires x.id != vm.session.recordingId.value
    ensures x in StopFreestyleRecording(vm, store, now, recordingDuration, formattedDate, selectSavedSong).vm.freestyleRecordings
  {
    var r := StopFreestyleRecording(vm, store, now, recordingDuration, formattedDate, selectSavedSong);
    var files := store.audioFiles + {vm.session.audioFileName.value};
    SaveThenLoadKeepsOthers(store.(audioFiles := files), r.saved.value, x);
  }
}
