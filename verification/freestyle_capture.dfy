/**
 * The freestyle segmenter: it turns a timestamped stream of optional
 * pitches into note events. A pitch that maps to a hole of the capture
 * layout starts or continues a held note; a missing or unplayable pitch
 * opens a 150 ms grace window, and only a dropout that outlasts it ends the
 * held note, dated back to the start of the dropout. Durations are rounded
 * to 50 ms with a 100 ms floor. Timestamps are seconds on a real time line.
 */
module Capture {
  import opened Options
  import opened SwiftStd
  import opened NoteMapper
  import opened Holes
  import opened Layouts
  import opened Songs

  /** How long a dropout must last before it ends the held note. */
  const Debounce: real := 0.15
  /** Event durations are multiples of this. */
  const Quantum: real := 0.05
  /** The shortest event duration. */
  const MinDuration: real := 0.1

  /** The note being held, the hole it was matched to, and when it started. */
  datatype Held = Held(pitch: NotePitch, hole: Hole, start: real)

  /**
   * The segmenter's fields: the held note (the source keeps its pitch, hole
   * and start time in three optionals that are always set and cleared
   * together), the start of the current dropout, and the events so far.
   */
  datatype CaptureState = CaptureState(held: Option<Held>, invalidSince: Option<real>, events: seq<NoteEvent>)

  /** The state a new recording starts from. */
  const Empty := CaptureState(None, None, [])

  /** A whole number of 50 ms steps. */
  predicate OnGrid(x: real) {
    (x / Quantum).Floor as real == x / Quantum
  }

  /**
   * `normalizeDuration`: round to the nearest 50 ms (halves away from
   * zero), and never below 100 ms.
   */
  function NormalizeDuration(d: real): (r: real)
    ensures r >= MinDuration
    ensures OnGrid(r)
    ensures d >= 0.075 ==> AbsReal(r - d) <= 0.025
    ensures d < 0.075 ==> r == MinDuration
    ensures d >= 0.075 && AbsReal(r - d) == 0.025 ==> r > d
  {
    var k := Round(d / Quantum);
    var rounded := k as real * Quantum;
    assert AbsReal(d - rounded) <= 0.025 by {
      assert d - rounded == (d / Quantum - k as real) * Quantum;
    }
    assert rounded / Quantum == k as real;
    assert MinDuration / Quantum == 2.0;
    if rounded >= MinDuration then rounded else MinDuration
  }

  /** The event a held note becomes when it ends at time `t`. */
  function EventOf(h: Held, t: real): NoteEvent {
    NoteEvent(h.pitch.FullName(), NormalizeDuration(t - h.start), HoleCode(h.hole))
  }

  /**
   * `finalizeFreestyleCurrentEvent(at:)`: a held note becomes an event ending
   * at `t`; with nothing held, nothing is emitted. The held note is cleared
   * either way and the dropout start is left alone.
   */
  function Finalize(st: CaptureState, t: real): (st': CaptureState)
    ensures st'.held.None? && st'.invalidSince == st.invalidSince
    ensures st.held.None? ==> st'.events == st.events
    ensures st.held.Some? ==> st'.events == st.events + [EventOf(st.held.value, t)]
  {
    match st.held
    case None => st
    case Some(h) => CaptureState(None, st.invalidSince, st.events + [EventOf(h, t)])
  }

  /** The hole a captured pitch maps to in the capture layout, if any. */
  function MappedHole(layout: Layout, pitch: Option<NotePitch>): Option<Hole> {
    match pitch
    case None => None
    case Some(p) => HoleFor(layout, p.FullName())
  }

  /**
   * A sample with no pitch or with a pitch the layout cannot play. With a
   * note held, the dropout start is recorded if unset, and once the dropout
   * has lasted `Debounce` the note is finalised as of the dropout start.
   */
  function InvalidSample(st: CaptureState, t: real): (st': CaptureState)
    ensures st.held.None? ==> st' == st
    ensures st.held.Some? ==>
      var since := st.invalidSince.GetOr(t);
      if t - since >= Debounce then
        st'.held.None? && st'.invalidSince.None? && st'.events == st.events + [EventOf(st.held.value, since)]
      else
        st'.held == st.held && st'.invalidSince == Some(since) && st'.events == st.events
  {
    if st.held.None? then st
    else
      var since := st.invalidSince.GetOr(t);
      if t - since >= Debounce then Finalize(st, since).(invalidSince := None)
      else st.(invalidSince := Some(since))
  }

  /**
   * `processFreestyleCapture(pitch:timestamp:)`. A playable pitch cancels any
   * dropout; the same note on the same hole continues the hold, anything
   * else ends the held note now and starts holding the new one from now.
   */
  function Process(st: CaptureState, layout: Layout, pitch: Option<NotePitch>, t: real): (st': CaptureState)
    ensures MappedHole(layout, pitch).None? ==> st' == InvalidSample(st, t)
    ensures MappedHole(layout, pitch).Some? ==> st'.invalidSince.None?
    ensures MappedHole(layout, pitch).Some? && SameNote(st, pitch.value, MappedHole(layout, pitch).value) ==>
      st'.held == st.held && st'.events == st.events
    ensures MappedHole(layout, pitch).Some? && !SameNote(st, pitch.value, MappedHole(layout, pitch).value) ==>
      st'.held == Some(Held(pitch.value, MappedHole(layout, pitch).value, t))
      && st'.events == st.events + (if st.held.Some? then [EventOf(st.held.value, t)] else [])
    ensures st.events <= st'.events
  {
    match MappedHole(layout, pitch)
    case None => InvalidSample(st, t)
    case Some(hole) =>
      var cleared := st.(invalidSince := None);
      if SameNote(st, pitch.value, hole) then cleared
      else Finalize(cleared, t).(held := Some(Held(pitch.value, hole, t)))
  }

  /** The held note has this pitch's full name and this hole. */
  predicate SameNote(st: CaptureState, p: NotePitch, hole: Hole) {
    st.held.Some? && st.held.value.pitch.FullName() == p.FullName() && st.held.value.hole == hole
  }

  /** One segmenter input: the pitch heard (if any) and when. */
  datatype Sample = Sample(pitch: Option<NotePitch>, time: real)

  /** Feeding samples in arrival order. */
  function Run(st: CaptureState, layout: Layout, samples: seq<Sample>): CaptureState
    decreases |samples|
  {
    if samples == [] then st
    else Run(Process(st, layout, samples[0].pitch, samples[0].time), layout, samples[1..])
  }

  lemma {:induction false} RunAppend(st: CaptureState, layout: Layout, a: seq<Sample>, b: seq<Sample>)
    ensures Run(st, layout, a + b) == Run(Run(st, layout, a), layout, b)
    decreases |a|
  {
    if a == [] {
      assert a + b == b;
    } else {
      assert (a + b)[1..] == a[1..] + b;
      RunAppend(Process(st, layout, a[0].pitch, a[0].time), layout, a[1..], b);
    }
  }

  lemma RunCons(st: CaptureState, layout: Layout, first: Sample, rest: seq<Sample>)
    ensures Run(st, layout, [first] + rest) == Run(Process(st, layout, first.pitch, first.time), layout, rest)
  {
    assert ([first] + rest)[1..] == rest;
  }

  /** The sample carries no playable pitch. */
  predicate Unplayable(layout: Layout, s: Sample) {
    MappedHole(layout, s.pitch).None?
  }

  /**
   * While a dropout that started at `t0` is younger than the debounce, more
   * unplayable samples change nothing.
   */
  lemma {:induction false} DropoutPending(st: CaptureState, layout: Layout, t0: real, dropout: seq<Sample>)
    requires st.held.Some? && st.invalidSince == Some(t0)
    requires forall i | 0 <= i < |dropout| :: Unplayable(layout, dropout[i]) && dropout[i].time - t0 < Debounce
    ensures Run(st, layout, dropout) == st
    decreases |dropout|
  {
    if dropout != [] {
      assert Process(st, layout, dropout[0].pitch, dropout[0].time) == st;
      DropoutPending(st, layout, t0, dropout[1..]);
    }
  }

  /** A held note whose layout hole is the one held. */
  predicate HeldConsistent(st: CaptureState, layout: Layout) {
    st.held.Some? ==> HoleFor(layout, st.held.value.pitch.FullName()) == Some(st.held.value.hole)
  }

  /**
   * Debounce: a dropout shorter than 150 ms followed by the same note again
   * emits nothing and leaves the hold, with its original start time, as it was.
   */
  lemma ShortDropoutAbsorbed(st: CaptureState, layout: Layout, dropout: seq<Sample>, resume: Sample)
    requires st.held.Some? && st.invalidSince.None? && HeldConsistent(st, layout)
    requires |dropout| > 0
    requires forall i | 0 <= i < |dropout| :: Unplayable(layout, dropout[i]) && dropout[i].time - dropout[0].time < Debounce
    requires resume.pitch.Some? && resume.pitch.value.FullName() == st.held.value.pitch.FullName()
    ensures Run(st, layout, dropout + [resume]) == st
  {
    var t0 := dropout[0].time;
    var pending := st.(invalidSince := Some(t0));
    assert Process(st, layout, dropout[0].pitch, t0) == pending;
    assert Run(st, layout, dropout) == Run(pending, layout, dropout[1..]);
    DropoutPending(pending, layout, t0, dropout[1..]);
    RunAppend(st, layout, dropout, [resume]);
    assert Run(pending, layout, [resume]) == Process(pending, layout, resume.pitch, resume.time);
  }

  /**
   * A dropout that reaches 150 ms ends the held note exactly once, dated to
   * the start of the dropout rather than to when the debounce ran out.
   */
  lemma LongDropoutFinalizes(st: CaptureState, layout: Layout, dropout: seq<Sample>)
    requires st.held.Some? && st.invalidSince.None?
    requires |dropout| > 1
    requires forall i | 0 <= i < |dropout| :: Unplayable(layout, dropout[i])
    requires forall i | 0 <= i < |dropout| - 1 :: dropout[i].time - dropout[0].time < Debounce
    requires dropout[|dropout| - 1].time - dropout[0].time >= Debounce
    ensures Run(st, layout, dropout) ==
      CaptureState(None, None, st.events + [EventOf(st.held.value, dropout[0].time)])
  {
    var t0 := dropout[0].time;
    var n := |dropout|;
    var pending := st.(invalidSince := Some(t0));
    assert Process(st, layout, dropout[0].pitch, t0) == pending;
    assert dropout == dropout[..n - 1] + [dropout[n - 1]];
    RunAppend(st, layout, dropout[..n - 1], [dropout[n - 1]]);
    assert Run(st, layout, dropout[..n - 1]) == Run(pending, layout, dropout[1..n - 1]) by {
      assert dropout[..n - 1][1..] == dropout[1..n - 1];
    }
    DropoutPending(pending, layout, t0, dropout[1..n - 1]);
  }

  // ---------------------------------------------------------------------
  // What every emitted event looks like

  /**
   * An event the segmenter can emit: a note the layout can play, the code
   * of exactly that hole, and a duration of at least 100 ms on the 50 ms grid.
   */
  predicate WellFormedEvent(e: NoteEvent, layout: Layout) {
    && HoleFor(layout, e.note).Some?
    && FromCode(e.hole) == HoleFor(layout, e.note)
    && e.duration >= MinDuration
    && OnGrid(e.duration)
  }

  predicate AllWellFormed(events: seq<NoteEvent>, layout: Layout) {
    forall i | 0 <= i < |events| :: WellFormedEvent(events[i], layout)
  }

  predicate Valid(st: CaptureState, layout: Layout) {
    && HeldConsistent(st, layout)
    && (st.invalidSince.Some? ==> st.held.Some?)
    && AllWellFormed(st.events, layout)
  }

  lemma EventOfWellFormed(h: Held, t: real, layout: Layout)
    requires HoleFor(layout, h.pitch.FullName()) == Some(h.hole)
    ensures WellFormedEvent(EventOf(h, t), layout)
  {
    FromCodeHoleCode(h.hole);
  }

  lemma AppendWellFormed(events: seq<NoteEvent>, e: NoteEvent, layout: Layout)
    requires AllWellFormed(events, layout) && WellFormedEvent(e, layout)
    ensures AllWellFormed(events + [e], layout)
  {
    forall i | 0 <= i < |events| + 1
      ensures WellFormedEvent((events + [e])[i], layout)
    {
      if i < |events| {
        assert (events + [e])[i] == events[i];
      } else {
        assert (events + [e])[i] == e;
      }
    }
  }

  lemma FinalizeValid(st: CaptureState, layout: Layout, t: real)
    requires Valid(st, layout)
    ensures AllWellFormed(Finalize(st, t).events, layout)
  {
    if st.held.Some? {
      EventOfWellFormed(st.held.value, t, layout);
      AppendWellFormed(st.events, EventOf(st.held.value, t), layout);
    }
  }

  lemma InvalidSampleValid(st: CaptureState, layout: Layout, t: real)
    requires Valid(st, layout)
    ensures Valid(InvalidSample(st, t), layout)
  {
    if st.held.Some? {
      FinalizeValid(st, layout, st.invalidSince.GetOr(t));
    }
  }

  lemma PlayableSampleValid(st: CaptureState, layout: Layout, p: NotePitch, hole: Hole, t: real)
    requires Valid(st, layout) && HoleFor(layout, p.FullName()) == Some(hole)
    ensures Valid(Process(st, layout, Some(p), t), layout)
  {
    assert MappedHole(layout, Some(p)) == Some(hole);
    if !SameNote(st, p, hole) {
      FinalizeValid(st.(invalidSince := None), layout, t);
    }
  }

  lemma ProcessValid(st: CaptureState, layout: Layout, pitch: Option<NotePitch>, t: real)
    requires Valid(st, layout)
    ensures Valid(Process(st, layout, pitch, t), layout)
    ensures st.events <= Process(st, layout, pitch, t).events
  {
    match MappedHole(layout, pitch)
    case None =>
      InvalidSampleValid(st, layout, t);
    case Some(hole) =>
      PlayableSampleValid(st, layout, pitch.value, hole, t);
  }

  lemma {:induction false} RunValid(st: CaptureState, layout: Layout, samples: seq<Sample>)
    requires Valid(st, layout)
    ensures Valid(Run(st, layout, samples), layout)
    ensures st.events <= Run(st, layout, samples).events
    decreases |samples|
  {
    if samples != [] {
      ProcessValid(st, layout, samples[0].pitch, samples[0].time);
      RunValid(Process(st, layout, samples[0].pitch, samples[0].time), layout, samples[1..]);
    }
  }

  // ---------------------------------------------------------------------
  // Stopping

  /**
   * The flush at stop: a still-held note is finalised at the stop time, so
   * stopping mid-note never loses it.
   */
  function Flush(st: CaptureState, stopTime: real): (events: seq<NoteEvent>)
    ensures st.held.None? ==> events == st.events
    ensures st.held.Some? ==> events == st.events + [EventOf(st.held.value, stopTime)]
  {
    Finalize(st, stopTime).events
  }

  /** A finished recording is thrown away only when it has no notes and under a second of audio. */
  predicate Discarded(events: seq<NoteEvent>, recordingDuration: real) {
    |events| == 0 && recordingDuration < 1.0
  }

  /** A note still held at stop is never discarded, however short the audio. */
  lemma HeldNoteIsKept(st: CaptureState, stopTime: real, recordingDuration: real)
    requires st.held.Some?
    ensures !Discarded(Flush(st, stopTime), recordingDuration)
  {
  }

  // ---------------------------------------------------------------------
  // A worked stream: C5 held from 0 s, a dropout from 400 ms, C5 again, stop.

  const C5 := NotePitch("C", 5, 0.0)

  lemma C5Facts(layout: Layout)
    ensures C5.FullName() == "C5"
    ensures HoleFor(layout, "C5") == Some(Hole(4, Blow))
    ensures HoleCode(Hole(4, Blow)) == "4B"
  {
    assert IntText(5) == "5";
    assert IntText(4) == "4";
    HoleForExamples(layout);
  }

  /** With nothing held, a C5 starts a hold on hole 4 blow. */
  lemma StartsC5(layout: Layout, events: seq<NoteEvent>, t: real)
    ensures Process(CaptureState(None, None, events), layout, Some(C5), t)
         == CaptureState(Some(Held(C5, Hole(4, Blow), t)), None, events)
  {
    C5Facts(layout);
  }

  /** A C5 held from `start` and ended at `t` is an event of `k` 50 ms steps on hole 4B. */
  lemma C5Event(start: real, t: real, k: int)
    requires Round((t - start) / Quantum) == k && k >= 2
    ensures EventOf(Held(C5, Hole(4, Blow), start), t) == NoteEvent("C5", k as real * Quantum, "4B")
  {
    assert IntText(5) == "5";
    assert IntText(4) == "4";
  }

  const HeldC5 := Held(C5, Hole(4, Blow), 0.0)

  /** Three samples without a pitch within `Debounce` of the first, then the held note again. */
  lemma ThreeSampleShortDropout(st: CaptureState, layout: Layout, t0: real, t1: real, t2: real, resume: Sample)
    requires st.held.Some? && st.invalidSince.None? && HeldConsistent(st, layout)
    requires t1 - t0 < Debounce && t2 - t0 < Debounce
    requires resume.pitch.Some? && resume.pitch.value.FullName() == st.held.value.pitch.FullName()
    ensures Run(st, layout, [Sample(None, t0), Sample(None, t1), Sample(None, t2)] + [resume]) == st
  {
    var dropout := [Sample(None, t0), Sample(None, t1), Sample(None, t2)];
    forall i | 0 <= i < |dropout|
      ensures Unplayable(layout, dropout[i]) && dropout[i].time - dropout[0].time < Debounce
    {
      assert dropout[i].pitch.None?;
    }
    ShortDropoutAbsorbed(st, layout, dropout, resume);
  }

  /** Holding C5 from 0 s through a 149 ms dropout and back to C5 keeps the one hold. */
  lemma ShortGapRun(layout: Layout)
    ensures Run(Empty, layout, [Sample(Some(C5), 0.0), Sample(None, 0.4), Sample(None, 0.5),
                                Sample(None, 0.549), Sample(Some(C5), 0.55)])
         == CaptureState(Some(HeldC5), None, [])
  {
    var first, last := Sample(Some(C5), 0.0), Sample(Some(C5), 0.55);
    var dropout := [Sample(None, 0.4), Sample(None, 0.5), Sample(None, 0.549)];
    var held := CaptureState(Some(HeldC5), None, []);
    SplitFive(first, dropout[0], dropout[1], dropout[2], last);
    RunCons(Empty, layout, first, dropout + [last]);
    StartsC5(layout, [], 0.0);
    assert HeldConsistent(held, layout) by {
      C5Facts(layout);
    }
    ThreeSampleShortDropout(held, layout, 0.4, 0.5, 0.549, last);
  }

  /** A 149 ms dropout is absorbed: one 850 ms event. */
  lemma ShortGapMerges(layout: Layout)
    ensures Flush(Run(Empty, layout, [Sample(Some(C5), 0.0), Sample(None, 0.4), Sample(None, 0.5),
                                     Sample(None, 0.549), Sample(Some(C5), 0.55)]), 0.85)
         == [NoteEvent("C5", 0.85, "4B")]
  {
    ShortGapRun(layout);
    assert Round((0.85 - 0.0) / Quantum) == 17;
    C5Event(0.0, 0.85, 17);
  }

  lemma SplitFive<T>(a: T, b: T, c: T, d: T, e: T)
    ensures [a] + ([b, c, d] + [e]) == [a, b, c, d, e]
  {
  }

  /** Three samples without a pitch whose last one is `Debounce` past the first end the hold. */
  lemma ThreeSampleDropout(st: CaptureState, layout: Layout, t0: real, t1: real, t2: real)
    requires st.held.Some? && st.invalidSince.None?
    requires t1 - t0 < Debounce && t2 - t0 >= Debounce
    ensures Run(st, layout, [Sample(None, t0), Sample(None, t1), Sample(None, t2)])
         == CaptureState(None, None, st.events + [EventOf(st.held.value, t0)])
  {
    var dropout := [Sample(None, t0), Sample(None, t1), Sample(None, t2)];
    forall i | 0 <= i < |dropout|
      ensures Unplayable(layout, dropout[i])
    {
      assert dropout[i].pitch.None?;
    }
    LongDropoutFinalizes(st, layout, dropout);
  }

  /** Holding C5 from 0 s through a 151 ms dropout and back to C5 at 552 ms. */
  lemma LongGapRun(layout: Layout)
    ensures Run(Empty, layout, [Sample(Some(C5), 0.0), Sample(None, 0.4), Sample(None, 0.5),
                                Sample(None, 0.551), Sample(Some(C5), 0.552)])
         == CaptureState(Some(Held(C5, Hole(4, Blow), 0.552)), None, [EventOf(HeldC5, 0.4)])
  {
    var first, last := Sample(Some(C5), 0.0), Sample(Some(C5), 0.552);
    var dropout := [Sample(None, 0.4), Sample(None, 0.5), Sample(None, 0.551)];
    var held := CaptureState(Some(HeldC5), None, []);
    var afterDropout := CaptureState(None, None, [EventOf(HeldC5, 0.4)]);
    SplitFive(first, dropout[0], dropout[1], dropout[2], last);
    RunCons(Empty, layout, first, dropout + [last]);
    StartsC5(layout, [], 0.0);
    RunAppend(held, layout, dropout, [last]);
    ThreeSampleDropout(held, layout, 0.4, 0.5, 0.551);
    RunCons(afterDropout, layout, last, []);
    StartsC5(layout, afterDropout.events, 0.552);
  }

  /** A 151 ms dropout splits the note: 400 ms up to the dropout, then 300 ms. */
  lemma LongGapSplits(layout: Layout)
    ensures Flush(Run(Empty, layout, [Sample(Some(C5), 0.0), Sample(None, 0.4), Sample(None, 0.5),
                                     Sample(None, 0.551), Sample(Some(C5), 0.552)]), 0.852)
         == [NoteEvent("C5", 0.4, "4B"), NoteEvent("C5", 0.3, "4B")]
  {
    LongGapRun(layout);
    assert Round((0.4 - 0.0) / Quantum) == 8;
    C5Event(0.0, 0.4, 8);
    assert Round((0.852 - 0.552) / Quantum) == 6;
    C5Event(0.552, 0.852, 6);
  }
}
