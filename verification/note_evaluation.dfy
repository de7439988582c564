/**
 * The note matcher: a three-way verdict on one detected pitch against the
 * current target note, using the tolerance allowed on the current attempt.
 */
module NoteEvaluation {
  import opened Options
  import opened SwiftStd
  import opened Tolerance
  import opened NoteMapper

  datatype MatchState = Idle | Hit | Miss

  /**
   * `NoteEvaluation.evaluate`: no pitch is `Idle`; a pitch with another
   * full name is a `Miss` whatever its cents; the right note is a `Hit`
   * exactly when its cents offset is within the tolerance.
   */
  function Evaluate(m: ToleranceModel, detected: Option<NotePitch>, target: string, attempt: int): (r: MatchState)
    ensures r == Idle <==> detected.None?
    ensures detected.Some? && detected.value.FullName() != target ==> r == Miss
    ensures r == Hit <==>
      detected.Some? && detected.value.FullName() == target
      && AbsReal(detected.value.centsOffset) <= ToleranceFor(m, attempt)
  {
    match detected
    case None => Idle
    case Some(p) =>
      if p.FullName() != target then Miss
      else if AbsReal(p.centsOffset) <= ToleranceFor(m, attempt) then Hit
      else Miss
  }

  /**
   * On a narrowing curve a hit at a later attempt was a hit at every
   * earlier attempt too: the window only closes.
   */
  lemma HitPersistsBackwards(m: ToleranceModel, detected: Option<NotePitch>, target: string, a1: int, a2: int)
    requires Narrowing(m) && a1 <= a2
    requires Evaluate(m, detected, target, a2) == Hit
    ensures Evaluate(m, detected, target, a1) == Hit
  {
    ToleranceNonIncreasing(m, a1, a2);
  }

  /**
   * The same 20-cent A4 is a hit on the first attempt and a miss on the
   * third when the window narrows from 30 to 10 cents over two attempts;
   * 8 cents is still a hit there.
   */
  lemma NarrowingExample()
    ensures Evaluate(ToleranceModel(30.0, 10.0, 2), Some(NotePitch("A", 4, 20.0)), "A4", 0) == Hit
    ensures Evaluate(ToleranceModel(30.0, 10.0, 2), Some(NotePitch("A", 4, 20.0)), "A4", 2) == Miss
    ensures Evaluate(ToleranceModel(30.0, 10.0, 2), Some(NotePitch("A", 4, 8.0)), "A4", 2) == Hit
    ensures Evaluate(ToleranceModel(30.0, 10.0, 2), Some(NotePitch("C", 5, 0.0)), "A4", 0) == Miss
  {
    assert NotePitch("A", 4, 20.0).FullName() == "A4";
    assert NotePitch("C", 5, 0.0).FullName() == "C5";
  }
}
