/**
 * The recording index: the list of saved freestyle recordings and the set of
 * audio files present on disk. Loading normalises the index (recordings whose
 * audio file is gone lose their audio reference, and are dropped when they
 * have no notes either) and lists it newest first; saving replaces by id;
 * deleting and removing audio are list updates. JSON encoding, directories
 * and file I/O failures are not modelled: the index is a sequence, the disk
 * a set of audio file names.
 */
module RecordingStore {
  import opened Options
  import opened Songs
  import opened Recordings

  datatype Store = Store(index: seq<Recording>, audioFiles: set<string>)

  /**
   * `audioURL(for:)`, as the file name inside the audio directory: nil when
   * the recording has no file name or an empty one.
   */
  function AudioUrl(r: Recording): (u: Option<string>)
    ensures u.None? <==> r.audioFileName.None? || r.audioFileName.value == ""
    ensures u.Some? ==> u.value == r.audioFileName.value
  {
    match r.audioFileName
    case None => None
    case Some(name) => if name == "" then None else Some(name)
  }

  /** The store hands out an audio location exactly when the recording says it has audio playback. */
  lemma AudioUrlMatchesPlayback(r: Recording)
    ensures AudioUrl(r).Some? <==> HasAudioPlayback(r)
  {
  }

  /** The recording's audio file exists on disk. */
  predicate AudioPresent(r: Recording, files: set<string>) {
    AudioUrl(r).Some? && AudioUrl(r).value in files
  }

  /** The same recording without its audio reference. */
  function WithoutAudio(r: Recording): (w: Recording)
    ensures w.audioFileName.None?
    ensures w.id == r.id && w.title == r.title && w.createdAt == r.createdAt && w.key == r.key
    ensures w.layoutRawValue == r.layoutRawValue && w.notes == r.notes && w.duration == r.duration
  {
    r.(audioFileName := None)
  }

  /** A recording as loading leaves it: playable audio, or notes without audio. */
  predicate Normal(r: Recording, files: set<string>) {
    AudioPresent(r, files) || (r.audioFileName.None? && |r.notes| > 0)
  }

  /** What loading does with one recording of the index. */
  function NormalizeOne(r: Recording, files: set<string>): (o: Option<Recording>)
    ensures AudioPresent(r, files) ==> o == Some(r)
    ensures !AudioPresent(r, files) && |r.notes| > 0 ==> o == Some(WithoutAudio(r))
    ensures !AudioPresent(r, files) && |r.notes| == 0 ==> o.None?
    ensures o.Some? ==> Normal(o.value, files)
  {
    if AudioPresent(r, files) then Some(r)
    else if |r.notes| > 0 then Some(WithoutAudio(r))
    else None
  }

  /** The normalisation loop of `loadAll`, in index order. */
  function Normalize(rs: seq<Recording>, files: set<string>): (n: seq<Recording>)
    ensures |n| <= |rs|
    ensures forall i | 0 <= i < |n| :: Normal(n[i], files)
  {
    if rs == [] then []
    else
      match NormalizeOne(rs[0], files)
      case Some(r) => [r] + Normalize(rs[1..], files)
      case None => Normalize(rs[1..], files)
  }

  /** A normal recording survives loading unchanged. */
  lemma NormalizeOneNormal(r: Recording, files: set<string>)
    requires Normal(r, files)
    ensures NormalizeOne(r, files) == Some(r)
  {
  }

  /** Normalising an already normalised index changes nothing. */
  lemma {:induction false} NormalizeIdempotent(rs: seq<Recording>, files: set<string>)
    ensures Normalize(Normalize(rs, files), files) == Normalize(rs, files)
  {
    NormalizeOfNormal(Normalize(rs, files), files);
  }

  lemma {:induction false} NormalizeOfNormal(rs: seq<Recording>, files: set<string>)
    requires forall i | 0 <= i < |rs| :: Normal(rs[i], files)
    ensures Normalize(rs, files) == rs
  {
    if rs != [] {
      NormalizeOneNormal(rs[0], files);
      NormalizeOfNormal(rs[1..], files);
    }
  }

  /**
   * Nothing is invented: each loaded recording is one of the index's, with
   * at most its audio reference cleared, and one whose audio exists is kept
   * exactly.
   */
  lemma {:induction false} NormalizeFromIndex(rs: seq<Recording>, files: set<string>, x: Recording)
    ensures x in Normalize(rs, files) ==> x in rs || (x.audioFileName.None? && exists y | y in rs :: x == WithoutAudio(y))
    ensures x in rs && AudioPresent(x, files) ==> x in Normalize(rs, files)
    ensures x in rs && |x.notes| > 0 ==> x in Normalize(rs, files) || WithoutAudio(x) in Normalize(rs, files)
  {
    if rs != [] {
      NormalizeFromIndex(rs[1..], files, x);
      if x in Normalize(rs, files) && x !in Normalize(rs[1..], files) {
        assert NormalizeOne(rs[0], files) == Some(x);
      }
    }
  }

  /** `sorted { $0.createdAt > $1.createdAt }` holds: newest first. */
  predicate NewestFirst(rs: seq<Recording>) {
    forall i, j | 0 <= i < j < |rs| :: rs[i].createdAt >= rs[j].createdAt
  }

  /** Putting a recording no older than any of a newest-first list in front keeps it newest first. */
  lemma ConsNewestFirst(h: Recording, t: seq<Recording>)
    requires NewestFirst(t)
    requires forall j | 0 <= j < |t| :: t[j].createdAt <= h.createdAt
    ensures NewestFirst([h] + t)
  {
    var r := [h] + t;
    forall i, j | 0 <= i < j < |r|
      ensures r[i].createdAt >= r[j].createdAt
    {
      assert r[j] == t[j - 1];
      if i > 0 {
        assert r[i] == t[i - 1];
      }
    }
  }

  /** A bound on every member of a list bounds every position of it. */
  lemma NoneNewer(h: Recording, t: seq<Recording>)
    requires forall y | y in t :: y.createdAt <= h.createdAt
    ensures forall j | 0 <= j < |t| :: t[j].createdAt <= h.createdAt
  {
    forall j | 0 <= j < |t|
      ensures t[j].createdAt <= h.createdAt
    {
      assert t[j] in t;
    }
  }

  /** Insertion into a newest-first list, after every recording at least as new. */
  function Insert(x: Recording, rs: seq<Recording>): (r: seq<Recording>)
    ensures multiset(r) == multiset(rs) + multiset{x}
    ensures forall y | y in r :: y == x || y in rs
  {
    if rs == [] || x.createdAt >= rs[0].createdAt then [x] + rs
    else
      assert rs == [rs[0]] + rs[1..];
      [rs[0]] + Insert(x, rs[1..])
  }

  /** Insertion keeps a list newest first. */
  lemma {:induction false} InsertKeepsOrder(x: Recording, rs: seq<Recording>)
    requires NewestFirst(rs)
    ensures NewestFirst(Insert(x, rs))
  {
    if rs == [] || x.createdAt >= rs[0].createdAt {
      ConsNewestFirst(x, rs);
    } else {
      var tail := Insert(x, rs[1..]);
      InsertKeepsOrder(x, rs[1..]);
      assert forall y | y in rs[1..] :: y.createdAt <= rs[0].createdAt;
      NoneNewer(rs[0], tail);
      ConsNewestFirst(rs[0], tail);
    }
  }

  /** Sorting newest first: a permutation that is ordered by creation date, latest first. */
  function SortNewestFirst(rs: seq<Recording>): (r: seq<Recording>)
    ensures NewestFirst(r)
    ensures multiset(r) == multiset(rs)
    ensures |r| == |rs|
  {
    if rs == [] then []
    else
      assert rs == [rs[0]] + rs[1..];
      InsertKeepsOrder(rs[0], SortNewestFirst(rs[1..]));
      Insert(rs[0], SortNewestFirst(rs[1..]))
  }

  /** `loadAll()`: the normalised index, newest first. */
  function LoadAll(st: Store): (r: seq<Recording>)
    ensures NewestFirst(r)
    ensures multiset(r) == multiset(Normalize(st.index, st.audioFiles))
    ensures forall i | 0 <= i < |r| :: Normal(r[i], st.audioFiles)
  {
    var n := Normalize(st.index, st.audioFiles);
    var r := SortNewestFirst(n);
    forall i | 0 <= i < |r|
      ensures Normal(r[i], st.audioFiles)
    {
      assert r[i] in multiset(n);
    }
    r
  }

  /** `loadAll()` also writes the normalised index back. */
  function AfterLoad(st: Store): (st': Store)
    ensures st'.audioFiles == st.audioFiles
    ensures st'.index == Normalize(st.index, st.audioFiles)
  {
    st.(index := Normalize(st.index, st.audioFiles))
  }

  /**
   * Loading is stable: the index `loadAll()` writes back loads to the same
   * list, and loading it again writes nothing new.
   */
  lemma ReloadStable(st: Store)
    ensures LoadAll(AfterLoad(st)) == LoadAll(st)
    ensures AfterLoad(AfterLoad(st)) == AfterLoad(st)
  {
    NormalizeIdempotent(st.index, st.audioFiles);
  }

  /** The recordings whose id differs from `id`, in order. */
  function WithoutId(rs: seq<Recording>, id: string): (r: seq<Recording>)
    ensures forall x :: x in r <==> x in rs && x.id != id
    ensures forall x: Recording | x.id != id :: multiset(r)[x] == multiset(rs)[x]
    ensures forall x: Recording | x.id == id :: multiset(r)[x] == 0
  {
    if rs == [] then []
    else
      assert rs == [rs[0]] + rs[1..];
      (if rs[0].id == id then [] else [rs[0]]) + WithoutId(rs[1..], id)
  }

  /** How many recordings carry `id`. */
  function CountId(rs: seq<Recording>, id: string): nat {
    if rs == [] then 0 else (if rs[0].id == id then 1 else 0) + CountId(rs[1..], id)
  }

  lemma {:induction false} CountIdMultiset(rs: seq<Recording>, id: string, x: Recording)
    requires x.id == id
    requires forall y | y in rs && y.id == id :: y == x
    ensures CountId(rs, id) == multiset(rs)[x]
  {
    if rs != [] {
      assert rs == [rs[0]] + rs[1..];
      CountIdMultiset(rs[1..], id, x);
    }
  }

  lemma {:induction false} CountIdPermutation(a: seq<Recording>, b: seq<Recording>, id: string, x: Recording)
    requires multiset(a) == multiset(b) && x.id == id
    requires forall y | y in a && y.id == id :: y == x
    ensures CountId(a, id) == CountId(b, id)
  {
    CountIdMultiset(a, id, x);
    forall y | y in b && y.id == id
      ensures y == x
    {
      assert y in multiset(a);
    }
    CountIdMultiset(b, id, x);
  }

  /** `save(_:)`: any recording with the same id is replaced; the index is kept newest first. */
  function Save(st: Store, r: Recording): (st': Store)
    ensures st'.audioFiles == st.audioFiles
    ensures NewestFirst(st'.index)
    ensures multiset(st'.index) == multiset(WithoutId(LoadAll(st), r.id)) + multiset{r}
  {
    st.(index := SortNewestFirst(WithoutId(LoadAll(st), r.id) + [r]))
  }

  /** A list holding `r` once besides recordings with other ids has `r` as its only match. */
  lemma {:induction false} AddedOnce(idx: seq<Recording>, kept: seq<Recording>, r: Recording)
    requires multiset(idx) == multiset(kept) + multiset{r}
    requires forall y | y in kept :: y.id != r.id
    ensures r in idx
    ensures forall x | x in idx && x.id == r.id :: x == r
    ensures CountId(idx, r.id) == 1
  {
    assert r in multiset(idx);
    forall x | x in idx && x.id == r.id
      ensures x == r
    {
      assert x in multiset(idx);
    }
    CountIdMultiset(idx, r.id, r);
    assert multiset(kept)[r] == 0;
  }

  /** After saving, exactly one recording has the saved id, and it is the saved one. */
  lemma SaveReplaces(st: Store, r: Recording)
    ensures r in Save(st, r).index
    ensures forall x | x in Save(st, r).index && x.id == r.id :: x == r
    ensures CountId(Save(st, r).index, r.id) == 1
  {
    AddedOnce(Save(st, r).index, WithoutId(LoadAll(st), r.id), r);
  }

  /** Saving keeps every other loaded recording. */
  lemma SaveKeepsOthers(st: Store, r: Recording, x: Recording)
    requires x in LoadAll(st) && x.id != r.id
    ensures x in Save(st, r).index
  {
    var kept := WithoutId(LoadAll(st), r.id);
    assert x in multiset(kept);
    assert x in multiset(Save(st, r).index);
  }

  /** A saved recording whose audio file exists is in the list loaded right after saving. */
  lemma SavedIsLoaded(st: Store, r: Recording)
    requires AudioPresent(r, st.audioFiles)
    ensures r in LoadAll(Save(st, r))
    ensures r in AfterLoad(Save(st, r)).index
  {
    var saved := Save(st, r);
    SaveReplaces(st, r);
    NormalizeFromIndex(saved.index, saved.audioFiles, r);
    assert r in multiset(LoadAll(saved));
  }

  /** A normal recording of the index survives loading. */
  lemma {:induction false} NormalSurvives(rs: seq<Recording>, files: set<string>, x: Recording)
    requires x in rs && Normal(x, files)
    ensures x in Normalize(rs, files)
  {
    if rs[0] == x {
      NormalizeOneNormal(x, files);
    } else {
      NormalSurvives(rs[1..], files, x);
    }
  }

  /**
   * Saving and loading again keeps every other recording that was loaded
   * before: a save replaces only by id.
   */
  lemma SaveThenLoadKeepsOthers(st: Store, r: Recording, x: Recording)
    requires x in LoadAll(st) && x.id != r.id
    ensures x in LoadAll(AfterLoad(Save(st, r)))
  {
    var saved := Save(st, r);
    SaveKeepsOthers(st, r, x);
    var k :| 0 <= k < |LoadAll(st)| && LoadAll(st)[k] == x;
    assert Normal(x, saved.audioFiles);
    NormalSurvives(saved.index, saved.audioFiles, x);
    assert x in multiset(LoadAll(saved));
    ReloadStable(saved);
  }

  /** `firstIndex(where: { $0.id == id })`. */
  function FirstIndex(rs: seq<Recording>, id: string): (r: Option<nat>)
    ensures r.None? <==> forall i | 0 <= i < |rs| :: rs[i].id != id
    ensures r.Some? ==> r.value < |rs| && rs[r.value].id == id
    ensures r.Some? ==> forall j | 0 <= j < r.value :: rs[j].id != id
  {
    if rs == [] then None
    else if rs[0].id == id then Some(0)
    else match FirstIndex(rs[1..], id)
      case None => None
      case Some(i) => Some(i + 1)
  }

  /** The audio files left after deleting `r`'s audio file, if it has one on disk. */
  function DropAudio(files: set<string>, r: Recording): (f: set<string>)
    ensures AudioPresent(r, files) ==> f == files - {AudioUrl(r).value}
    ensures !AudioPresent(r, files) ==> f == files
  {
    if AudioPresent(r, files) then files - {AudioUrl(r).value} else files
  }

  /**
   * `delete(id:)`: the first loaded recording with that id leaves the
   * index together with its audio file. An unknown id changes nothing but
   * the normalisation that loading writes back.
   */
  function Delete(st: Store, id: string): (st': Store)
    ensures FirstIndex(LoadAll(st), id).None? ==> st' == AfterLoad(st)
    ensures FirstIndex(LoadAll(st), id).Some? ==>
      var all := LoadAll(st);
      var i := FirstIndex(all, id).value;
      st'.index == all[..i] + all[i + 1..] && st'.audioFiles == DropAudio(st.audioFiles, all[i])
    ensures NewestFirst(st'.index) || FirstIndex(LoadAll(st), id).None?
  {
    var all := LoadAll(st);
    match FirstIndex(all, id)
    case None => AfterLoad(st)
    case Some(i) =>
      RemoveAtKeepsOrder(all, i);
      Store(all[..i] + all[i + 1..], DropAudio(st.audioFiles, all[i]))
  }

  /** Taking one recording out of a newest-first list leaves it newest first. */
  lemma RemoveAtKeepsOrder(rs: seq<Recording>, i: nat)
    requires NewestFirst(rs) && i < |rs|
    ensures NewestFirst(rs[..i] + rs[i + 1..])
  {
    var rest := rs[..i] + rs[i + 1..];
    forall a, b | 0 <= a < b < |rest|
      ensures rest[a].createdAt >= rest[b].createdAt
    {
      assert rest[a] == rs[if a < i then a else a + 1];
      assert rest[b] == rs[if b < i then b else b + 1];
    }
  }

  /**
   * When ids are unique, deleting an id leaves no recording with it and
   * keeps every other loaded recording.
   */
  lemma DeleteRemovesOnly(st: Store, id: string, x: Recording)
    requires CountId(LoadAll(st), id) <= 1
    ensures forall y | y in Delete(st, id).index :: y.id != id
    ensures x in LoadAll(st) && x.id != id ==> x in Delete(st, id).index
  {
    match FirstIndex(LoadAll(st), id)
    case None => DeleteUnknown(st, id, x);
    case Some(i) => DeleteFound(st, id, x, i);
  }

  /** Loading lists exactly the recordings normalisation keeps. */
  lemma LoadAllMembers(st: Store)
    ensures forall y :: y in LoadAll(st) <==> y in Normalize(st.index, st.audioFiles)
  {
    var all, n := LoadAll(st), Normalize(st.index, st.audioFiles);
    forall y
      ensures y in all <==> y in n
    {
      assert y in all <==> y in multiset(all);
      assert y in n <==> y in multiset(n);
    }
  }

  lemma DeleteUnknown(st: Store, id: string, x: Recording)
    requires FirstIndex(LoadAll(st), id).None?
    ensures forall y | y in Delete(st, id).index :: y.id != id
    ensures x in LoadAll(st) && x.id != id ==> x in Delete(st, id).index
  {
    LoadAllMembers(st);
    assert Delete(st, id).index == Normalize(st.index, st.audioFiles);
    forall y | y in LoadAll(st)
      ensures y.id != id
    {
      var k :| 0 <= k < |LoadAll(st)| && LoadAll(st)[k] == y;
    }
  }

  lemma DeleteFound(st: Store, id: string, x: Recording, i: nat)
    requires FirstIndex(LoadAll(st), id) == Some(i) && CountId(LoadAll(st), id) <= 1
    ensures forall y | y in Delete(st, id).index :: y.id != id
    ensures x in LoadAll(st) && x.id != id ==> x in Delete(st, id).index
  {
    var all := LoadAll(st);
    assert Delete(st, id).index == all[..i] + all[i + 1..];
    CountIdSplit(all, id, i);
    if x in all && x.id != id {
      var k :| 0 <= k < |all| && all[k] == x;
      RemoveAtKeepsOthers(all, i, k);
    }
  }

  /** Removing position `i` keeps the element at every other position. */
  lemma RemoveAtKeepsOthers<T>(s: seq<T>, i: nat, k: nat)
    requires i < |s| && k < |s| && k != i
    ensures s[k] in s[..i] + s[i + 1..]
  {
    if k < i {
      assert (s[..i] + s[i + 1..])[k] == s[k];
    } else {
      assert (s[..i] + s[i + 1..])[k - 1] == s[k];
    }
  }

  /** With at most one match, removing the first match leaves none. */
  lemma {:induction false} CountIdSplit(rs: seq<Recording>, id: string, i: nat)
    requires i < |rs| && rs[i].id == id && CountId(rs, id) <= 1
    ensures forall y | y in rs[..i] + rs[i + 1..] :: y.id != id
  {
    if i == 0 {
      assert rs[1..] == rs[..0] + rs[1..];
      CountIdZero(rs[1..], id);
    } else {
      assert rs == [rs[0]] + rs[1..];
      CountIdPositive(rs[1..], id, i - 1);
      assert rs[0].id != id;
      CountIdSplit(rs[1..], id, i - 1);
      assert rs[..i] + rs[i + 1..] == [rs[0]] + (rs[1..][..i - 1] + rs[1..][i..]);
    }
  }

  lemma {:induction false} CountIdPositive(rs: seq<Recording>, id: string, i: nat)
    requires i < |rs| && rs[i].id == id
    ensures CountId(rs, id) >= 1
  {
    if i > 0 {
      CountIdPositive(rs[1..], id, i - 1);
    }
  }

  lemma {:induction false} CountIdZero(rs: seq<Recording>, id: string)
    requires CountId(rs, id) == 0
    ensures forall y | y in rs :: y.id != id
  {
    if rs != [] {
      CountIdZero(rs[1..], id);
      assert rs == [rs[0]] + rs[1..];
    }
  }

  /**
   * `removeAudio(id:)`: nil for an unknown id; otherwise the first match
   * loses its audio reference and its audio file, everything else about it
   * and every other recording is kept, and the index stays newest first.
   */
  function RemoveAudio(st: Store, id: string): (r: (Option<Recording>, Store))
    ensures r.0.None? <==> forall x | x in LoadAll(st) :: x.id != id
    ensures r.0.None? ==> r.1 == AfterLoad(st)
    ensures r.0.Some? ==>
      var all := LoadAll(st);
      var i := FirstIndex(all, id).value;
      && r.0.value == WithoutAudio(all[i])
      && r.0.value.id == id
      && NewestFirst(r.1.index)
      && multiset(r.1.index) == multiset(all[i := r.0.value])
      && r.1.audioFiles == DropAudio(st.audioFiles, all[i])
  {
    var all := LoadAll(st);
    match FirstIndex(all, id)
    case None =>
      (None, AfterLoad(st))
    case Some(i) =>
      var updated := WithoutAudio(all[i]);
      (Some(updated), Store(SortNewestFirst(all[i := updated]), DropAudio(st.audioFiles, all[i])))
  }
}
