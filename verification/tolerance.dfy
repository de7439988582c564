/**
 * The attempt tolerance curve: how many cents a detected pitch may deviate
 * from the target note on a given practice attempt. It narrows linearly
 * from `startCents` to `targetCents` over `attemptsToTarget` retries and
 * then stays there. Cents are exact reals here; the source uses `Double`.
 */
module Tolerance {

  datatype ToleranceModel = ToleranceModel(startCents: real, targetCents: real, attemptsToTarget: int)

  /** The configuration the practice screen uses. */
  const PracticeModel := ToleranceModel(30.0, 15.0, 20)

  /** `min(max(attempt, 0), attemptsToTarget)`. */
  function Clamp(attempt: int, attemptsToTarget: nat): (c: nat)
    ensures c <= attemptsToTarget
    ensures 0 <= attempt <= attemptsToTarget ==> c == attempt
    ensures attempt < 0 ==> c == 0
    ensures attempt > attemptsToTarget ==> c == attemptsToTarget
  {
    if attempt < 0 then 0 else if attempt > attemptsToTarget then attemptsToTarget else attempt
  }

  /** Whether the curve narrows (or stays flat) as attempts go by. */
  predicate Narrowing(m: ToleranceModel) {
    m.startCents >= m.targetCents
  }

  /** The allowed deviation, in cents, on attempt number `attempt`. */
  function ToleranceFor(m: ToleranceModel, attempt: int): (t: real)
    ensures m.attemptsToTarget <= 0 ==> t == m.targetCents
    ensures Narrowing(m) ==> m.targetCents <= t <= m.startCents
    ensures !Narrowing(m) ==> m.startCents <= t <= m.targetCents
  {
    if m.attemptsToTarget <= 0 then m.targetCents
    else
      var n := m.attemptsToTarget;
      var progress := Clamp(attempt, n) as real / n as real;
      ProgressBounds(Clamp(attempt, n), n);
      Between(m.startCents, m.targetCents, progress);
      m.startCents - (m.startCents - m.targetCents) * progress
  }

  lemma ProgressBounds(c: nat, n: int)
    requires 0 < n && c <= n
    ensures 0.0 <= c as real / n as real <= 1.0
  {
  }

  /** A point of the segment from `a` to `b` lies between them. */
  lemma Between(a: real, b: real, p: real)
    requires 0.0 <= p <= 1.0
    ensures a >= b ==> b <= a - (a - b) * p <= a
    ensures a < b ==> a <= a - (a - b) * p <= b
  {
    if a >= b {
      assert (a - b) * p <= (a - b) * 1.0;
    } else {
      assert (b - a) * p <= (b - a) * 1.0;
    }
  }

  /** The curve starts at `startCents` ... */
  lemma ToleranceAtStart(m: ToleranceModel)
    requires m.attemptsToTarget > 0
    ensures ToleranceFor(m, 0) == m.startCents
  {
  }

  /** ... and reaches `targetCents` after `attemptsToTarget` attempts. */
  lemma ToleranceAtTarget(m: ToleranceModel)
    ensures ToleranceFor(m, m.attemptsToTarget) == m.targetCents
  {
  }

  /** Attempts outside `[0, attemptsToTarget]` saturate; they never extrapolate. */
  lemma ToleranceSaturates(m: ToleranceModel, attempt: int)
    requires m.attemptsToTarget > 0
    ensures attempt < 0 ==> ToleranceFor(m, attempt) == m.startCents
    ensures attempt > m.attemptsToTarget ==> ToleranceFor(m, attempt) == m.targetCents
  {
  }

  /** Every attempt in range lowers the tolerance by the same step. */
  lemma ToleranceSteps(m: ToleranceModel, attempt: int)
    requires m.attemptsToTarget > 0
    requires 0 <= attempt < m.attemptsToTarget
    ensures ToleranceFor(m, attempt) - ToleranceFor(m, attempt + 1)
         == (m.startCents - m.targetCents) / m.attemptsToTarget as real
  {
    var n := m.attemptsToTarget as real;
    var d := m.startCents - m.targetCents;
    assert ToleranceFor(m, attempt) == m.startCents - d * (attempt as real / n);
    assert ToleranceFor(m, attempt + 1) == m.startCents - d * ((attempt + 1) as real / n);
    assert (attempt + 1) as real / n == attempt as real / n + 1.0 / n;
    assert d * ((attempt + 1) as real / n) == d * (attempt as real / n) + d * (1.0 / n);
    assert d * (1.0 / n) == d / n;
  }

  /** With start 30, target 10 and 4 attempts, the middle attempts give 25, 20 and 15 cents. */
  lemma LinearExample()
    ensures ToleranceFor(ToleranceModel(30.0, 10.0, 4), 1) == 25.0
    ensures ToleranceFor(ToleranceModel(30.0, 10.0, 4), 2) == 20.0
    ensures ToleranceFor(ToleranceModel(30.0, 10.0, 4), 3) == 15.0
  {
  }

  /** A narrowing curve never widens again: later attempts get no more room. */
  lemma {:induction false} ToleranceNonIncreasing(m: ToleranceModel, a1: int, a2: int)
    requires Narrowing(m)
    requires a1 <= a2
    ensures ToleranceFor(m, a2) <= ToleranceFor(m, a1)
  {
    if m.attemptsToTarget > 0 {
      var n := m.attemptsToTarget;
      var c1 := Clamp(a1, n);
      var c2 := Clamp(a2, n);
      assert c1 <= c2;
      var d := m.startCents - m.targetCents;
      DivideMonotone(c1 as real, c2 as real, n as real);
      Scale(d, c1 as real / n as real, c2 as real / n as real);
      assert ToleranceFor(m, a1) == m.startCents - d * (c1 as real / n as real);
      assert ToleranceFor(m, a2) == m.startCents - d * (c2 as real / n as real);
    }
  }

  lemma DivideMonotone(x: real, y: real, n: real)
    requires x <= y && n > 0.0
    ensures x / n <= y / n
  {
    assert y / n - x / n == (y - x) / n;
  }

  lemma Scale(d: real, p: real, q: real)
    requires d >= 0.0 && p <= q
    ensures d * p <= d * q
  {
  }
}
