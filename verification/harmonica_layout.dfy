/**
 * Harmonica layouts: the fixed table from a note's full name ("C5") to the
 * hole and airflow that play it on a C diatonic harmonica. Both layouts the
 * app offers currently use the same 19-entry table.
 */
module Layouts {
  import opened Options
  import opened Holes

  datatype Layout = DiatonicC | LeeOskarC

  /** `HarmonicaLayout.rawValue`, which is also its `id`. */
  function RawValue(l: Layout): string {
    match l
    case DiatonicC => "Diatonic C"
    case LeeOskarC => "Lee Oskar C"
  }

  /** The note/hole pairs, in the order the table is filled. */
  const Pairs: seq<(string, Hole)> := [
    ("C4", Hole(1, Blow)), ("D4", Hole(1, Draw)),
    ("E4", Hole(2, Blow)), ("G4", Hole(2, Draw)),
    ("B4", Hole(3, Draw)),
    ("C5", Hole(4, Blow)), ("D5", Hole(4, Draw)),
    ("E5", Hole(5, Blow)), ("F5", Hole(5, Draw)),
    ("G5", Hole(6, Blow)), ("A5", Hole(6, Draw)),
    ("C6", Hole(7, Blow)), ("B5", Hole(7, Draw)),
    ("E6", Hole(8, Blow)), ("D6", Hole(8, Draw)),
    ("G6", Hole(9, Blow)), ("F6", Hole(9, Draw)),
    ("C7", Hole(10, Blow)), ("A6", Hole(10, Draw))
  ]

  /** Filling a dictionary from pairs in order; a later pair overwrites an earlier key. */
  function Build(ps: seq<(string, Hole)>): map<string, Hole> {
    if ps == [] then map[] else Build(ps[..|ps| - 1])[ps[|ps| - 1].0 := ps[|ps| - 1].1]
  }

  /** `HarmonicaLayout.noteToHole`; it does not look at the layout. */
  function NoteToHole(l: Layout): map<string, Hole> {
    Build(Pairs)
  }

  /** `HarmonicaLayout.hole(for:)`. */
  function HoleFor(l: Layout, note: string): (r: Option<Hole>)
    ensures r.Some? <==> note in NoteToHole(l)
    ensures r.Some? ==> r.value == NoteToHole(l)[note]
  {
    if note in NoteToHole(l) then Some(NoteToHole(l)[note]) else None
  }

  predicate DistinctKeys(ps: seq<(string, Hole)>) {
    forall i, j | 0 <= i < j < |ps| :: ps[i].0 != ps[j].0
  }

  predicate DistinctHoles(ps: seq<(string, Hole)>) {
    forall i, j | 0 <= i < j < |ps| :: ps[i].1 != ps[j].1
  }

  /** The keys of the built dictionary are the keys of the pairs. */
  lemma {:induction false} BuildKeys(ps: seq<(string, Hole)>, note: string)
    ensures note in Build(ps) <==> exists i | 0 <= i < |ps| :: ps[i].0 == note
  {
    if ps != [] {
      var init := ps[..|ps| - 1];
      BuildKeys(init, note);
      if note in Build(init) {
        var i :| 0 <= i < |init| && init[i].0 == note;
        assert ps[i].0 == note;
      }
      if exists i | 0 <= i < |ps| :: ps[i].0 == note {
        var i :| 0 <= i < |ps| && ps[i].0 == note;
        if i < |init| {
          assert init[i].0 == note;
        }
      }
    }
  }

  /** With no key repeated, every key maps to its own hole. */
  lemma {:induction false} BuildLookup(ps: seq<(string, Hole)>, i: int)
    requires DistinctKeys(ps) && 0 <= i < |ps|
    ensures ps[i].0 in Build(ps) && Build(ps)[ps[i].0] == ps[i].1
  {
    var init := ps[..|ps| - 1];
    if i < |ps| - 1 {
      assert DistinctKeys(init);
      BuildLookup(init, i);
      assert init[i] == ps[i];
    }
  }

  /** With no key repeated, the built dictionary has one entry per pair. */
  lemma {:induction false} BuildSize(ps: seq<(string, Hole)>)
    requires DistinctKeys(ps)
    ensures |Build(ps)| == |ps|
  {
    if ps != [] {
      var init := ps[..|ps| - 1];
      var last := ps[|ps| - 1];
      assert DistinctKeys(init);
      BuildSize(init);
      BuildKeys(init, last.0);
      assert last.0 !in Build(init);
      assert Build(ps).Keys == Build(init).Keys + {last.0};
    }
  }

  /** A two-character note name as a number: equal names give equal codes. */
  function NoteCode(s: string): int {
    if |s| == 2 then s[0] as int * 256 + s[1] as int else 0
  }

  lemma NoteCodesDistinct()
    ensures forall i, j | 0 <= i < j < |Pairs| :: NoteCode(Pairs[i].0) != NoteCode(Pairs[j].0)
  {
  }

  lemma KeysDistinct()
    ensures DistinctKeys(Pairs)
  {
    NoteCodesDistinct();
  }

  /** Orders holes by index, blow before draw; the table lists its holes in this order. */
  function Rank(h: Hole): int {
    2 * h.index + (if h.airflow == Blow then 0 else 1)
  }

  predicate RanksAscend(ps: seq<(string, Hole)>) {
    forall i | 0 <= i < |ps| - 1 :: Rank(ps[i].1) < Rank(ps[i + 1].1)
  }

  lemma {:induction false} RanksAscendFar(ps: seq<(string, Hole)>, i: int, j: int)
    requires RanksAscend(ps) && 0 <= i < j < |ps|
    ensures Rank(ps[i].1) < Rank(ps[j].1)
    decreases j - i
  {
    if j > i + 1 {
      RanksAscendFar(ps, i, j - 1);
    }
  }

  lemma HolesDistinct()
    ensures DistinctHoles(Pairs)
  {
    assert RanksAscend(Pairs);
    forall i, j | 0 <= i < j < |Pairs|
      ensures Pairs[i].1 != Pairs[j].1
    {
      RanksAscendFar(Pairs, i, j);
    }
  }

  lemma IndicesInRange()
    ensures forall i | 0 <= i < |Pairs| :: 1 <= Pairs[i].1.index <= 10
  {
  }

  /** The table has exactly 19 entries: no note is listed twice. */
  lemma TableSize(l: Layout)
    ensures |NoteToHole(l)| == 19
  {
    KeysDistinct();
    BuildSize(Pairs);
  }

  /** Every layout currently shares one table. */
  lemma LayoutsShareTable()
    ensures NoteToHole(DiatonicC) == NoteToHole(LeeOskarC)
  {
  }

  /** Every hole in the table is one of the ten holes, and no two notes share a hole and airflow. */
  lemma TableHoles(l: Layout, n1: string, n2: string)
    requires n1 in NoteToHole(l) && n2 in NoteToHole(l)
    ensures 1 <= NoteToHole(l)[n1].index <= 10
    ensures n1 != n2 ==> NoteToHole(l)[n1] != NoteToHole(l)[n2]
  {
    KeysDistinct();
    HolesDistinct();
    IndicesInRange();
    BuildKeys(Pairs, n1);
    BuildKeys(Pairs, n2);
    var i :| 0 <= i < |Pairs| && Pairs[i].0 == n1;
    var j :| 0 <= j < |Pairs| && Pairs[j].0 == n2;
    BuildLookup(Pairs, i);
    BuildLookup(Pairs, j);
    assert NoteToHole(l)[n1] == Pairs[i].1;
    assert NoteToHole(l)[n2] == Pairs[j].1;
  }

  /** C5 is four blow; F sharp is not playable without bending. */
  lemma HoleForExamples(l: Layout)
    ensures HoleFor(l, "C5") == Some(Hole(4, Blow))
    ensures HoleFor(l, "F#4") == None
  {
    KeysDistinct();
    BuildLookup(Pairs, 5);
    assert forall i | 0 <= i < |Pairs| :: Pairs[i].0 != "F#4";
    BuildKeys(Pairs, "F#4");
  }
}
