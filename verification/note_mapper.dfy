/**
 * Naming a detected pitch: a MIDI note number becomes a pitch-class name
 * from the 12-name chromatic table and an octave, and the two joined give
 * the `fullName` ("A4") that songs and the hole layout are keyed by.
 *
 * The floating-point part of the mapping (`12 * log2(f / 440) + 69` and the
 * cents offset from the reference frequency) is not computed here: both
 * numbers arrive as inputs.
 */
module NoteMapper {
  import opened Options
  import opened SwiftStd

  datatype NotePitch = NotePitch(noteName: string, octave: int, centsOffset: real) {

    /** The join key: the note name followed by the decimal octave. */
    function FullName(): (s: string)
      ensures |s| > |noteName| && s[..|noteName|] == noteName
      ensures s[|noteName|..] == IntText(octave)
    {
      noteName + IntText(octave)
    }
  }

  const NoteNames: seq<string> := ["C", "C#", "D", "D#", "E", "F", "F#", "G", "G#", "A", "A#", "B"]

  /**
   * The source's `Int.mod(_:)`: Swift's truncating remainder, moved up by
   * `n` when it is negative.
   */
  function Mod(x: int, n: int): (r: int)
    requires n > 0
    ensures 0 <= r < n
    ensures r == x % n
  {
    var t := Rem(x, n);
    if t >= 0 then
      EuclideanUnique(x, n, Quot(x, n), t);
      t
    else
      EuclideanUnique(x, n, Quot(x, n) - 1, t + n);
      t + n
  }

  /** A quotient and remainder in `[0, n)` are Dafny's `/` and `%`. */
  lemma EuclideanUnique(x: int, n: int, k: int, r: int)
    requires n > 0 && 0 <= r < n && x == n * k + r
    ensures r == x % n
  {
    var q := x / n;
    assert x == n * q + x % n;
    assert n * (k - q) == x % n - r;
    MultipleBound(n, k - q);
  }

  /** A non-zero multiple of `n` is at least `n` away from zero. */
  lemma MultipleBound(n: int, m: int)
    requires n > 0
    ensures m == 0 || n * m >= n || n * m <= -n
  {
    if m > 0 {
      assert n * m == n * (m - 1) + n;
      assert n * (m - 1) >= 0;
    } else if m < 0 {
      assert n * m == -(n * (-m - 1)) - n;
      assert n * (-m - 1) >= 0;
    }
  }

  /** The pitch-class name of a MIDI note; defined for every integer, negative ones too. */
  function NameOf(midi: int): (name: string)
    ensures name in NoteNames
    ensures name == NoteNames[midi % 12]
  {
    NoteNames[Mod(midi, 12)]
  }

  /** No name appears twice in the table. */
  lemma NoteNamesDistinct(i: nat, j: nat)
    requires i < j < |NoteNames|
    ensures NoteNames[i] != NoteNames[j]
  {
    assert NoteNames[i][0] != NoteNames[j][0] || |NoteNames[i]| != |NoteNames[j]|;
  }

  /** Two MIDI numbers get the same name exactly when they are a whole number of octaves apart. */
  lemma SameNameSamePitchClass(a: int, b: int)
    ensures NameOf(a) == NameOf(b) <==> a % 12 == b % 12
  {
    if a % 12 < b % 12 {
      NoteNamesDistinct(a % 12, b % 12);
    } else if b % 12 < a % 12 {
      NoteNamesDistinct(b % 12, a % 12);
    }
  }

  /** `midi / 12 - 1`, with Swift's truncating division. */
  function OctaveOf(midi: int): int {
    Quot(midi, 12) - 1
  }

  /** The pitch for an already rounded MIDI number and a cents offset. */
  function PitchForMidi(midi: int, cents: real): (p: NotePitch)
    ensures p.noteName in NoteNames
    ensures p.centsOffset == cents
  {
    NotePitch(NameOf(midi), OctaveOf(midi), cents)
  }

  /**
   * `NoteMapper.pitch(for:)`. `semitones` stands for `12 * log2(f / 440) + 69`
   * and `cents` for the offset from the reference frequency, both computed
   * from `frequency` outside this model; the MIDI number is `semitones`
   * rounded half away from zero.
   */
  function PitchFor(frequency: real, semitones: real, cents: real): (r: Option<NotePitch>)
    ensures r.None? <==> frequency <= 0.0
    ensures r.Some? ==> r.value.noteName in NoteNames && r.value.centsOffset == cents
    ensures r.Some? ==> r.value.noteName == NameOf(Round(semitones)) && r.value.octave == OctaveOf(Round(semitones))
  {
    if frequency <= 0.0 then None else Some(PitchForMidi(Round(semitones), cents))
  }

  /** Concert A and the C sharp below it. */
  lemma MidiExamples()
    ensures PitchForMidi(69, 0.0).noteName == "A" && PitchForMidi(69, 0.0).octave == 4
    ensures PitchForMidi(61, 0.0).noteName == "C#" && PitchForMidi(61, 0.0).octave == 4
    ensures PitchForMidi(69, 0.0).FullName() == "A4"
  {
    assert IntText(4) == "4";
  }

  /**
   * Truncation against flooring: for non-negative MIDI numbers and negative
   * multiples of twelve the octave is `floor(midi / 12) - 1`, but every other
   * negative MIDI number lands one octave higher than flooring would put it,
   * so from -11 to -1 it is octave -1 where flooring gives -2.
   */
  lemma OctaveTruncates(midi: int)
    ensures midi >= 0 || midi % 12 == 0 ==> OctaveOf(midi) == midi / 12 - 1
    ensures midi < 0 && midi % 12 != 0 ==> OctaveOf(midi) == midi / 12
    ensures -11 <= midi <= -1 ==> OctaveOf(midi) == -1 && midi / 12 - 1 == -2
    ensures OctaveOf(-13) == -2 && -13 / 12 - 1 == -3
  {
  }

  /**
   * Twelve semitones up keep the name; they raise the octave by one except
   * from MIDI -11 through -1, where truncation puts both in octave -1.
   */
  lemma {:induction false} OctaveUp(midi: int)
    ensures NameOf(midi + 12) == NameOf(midi)
    ensures OctaveOf(midi + 12) == OctaveOf(midi) + 1 <==> !(-11 <= midi <= -1)
  {
    assert (midi + 12) % 12 == midi % 12;
  }

  lemma NamesHaveNoDigits(name: string)
    requires name in NoteNames
    ensures |name| == 1 || (|name| == 2 && name[1] == '#')
    ensures !IsDigit(name[0]) && name[0] != '-'
  {
  }

  /**
   * The full name is an unambiguous key: two table pitches with the same
   * full name have the same note name and octave.
   */
  lemma FullNameInjective(p: NotePitch, q: NotePitch)
    requires p.noteName in NoteNames && q.noteName in NoteNames
    requires p.FullName() == q.FullName()
    ensures p.noteName == q.noteName && p.octave == q.octave
  {
    NamesHaveNoDigits(p.noteName);
    NamesHaveNoDigits(q.noteName);
    var s := p.FullName();
    // Different name lengths would put '#' where an octave text starts.
    assert p.noteName == s[..|p.noteName|] == q.noteName;
    ParseIntText(p.octave);
    ParseIntText(q.octave);
  }
}
