/**
 * The decision at the heart of `adjust_exercise_by_history`: from a window of
 * recent session reports (exertion and success) and an exercise instance's
 * current and target prescription, compute the next current prescription.
 * Exertion (RPE) is a real number; sums and means are exact, not floating point.
 */
module Adjustment {
  import opened Wrappers

  /** HISTORY_WINDOW: how many of the most recent reports the engine reads. */
  const HistoryWindow: nat := 3

  /** What the engine reads from one session report. */
  datatype Signal = Signal(rpe: real, success: bool)

  /** The three outcomes of the decision policy. */
  datatype Decision = Deload | Progress | Maintain

  /** A sets/reps prescription. */
  datatype Prescription = Prescription(reps: int, sets: int)

  function Max(a: int, b: int): int { if a >= b then a else b }
  function Min(a: int, b: int): int { if a <= b then a else b }

  function SumRpe(w: seq<Signal>): real {
    if w == [] then 0.0 else SumRpe(w[..|w| - 1]) + w[|w| - 1].rpe
  }

  /** `sum(1 for r in reports if r.success)`. */
  function SuccessCount(w: seq<Signal>): (n: nat)
    ensures n <= |w|
  {
    if w == [] then 0 else SuccessCount(w[..|w| - 1]) + (if w[|w| - 1].success then 1 else 0)
  }

  /** Mean exertion; 0 for an empty window. */
  function MeanRpe(w: seq<Signal>): (m: real)
    ensures |w| == 0 ==> m == 0.0
    ensures |w| > 0 ==> m * (|w| as real) == SumRpe(w)
  {
    if |w| == 0 then 0.0 else SumRpe(w) / (|w| as real)
  }

  /** Fraction of successful reports; 0 for an empty window. */
  function SuccessRate(w: seq<Signal>): (r: real)
    ensures 0.0 <= r <= 1.0
    ensures |w| > 0 && (forall i :: 0 <= i < |w| ==> w[i].success) ==> r == 1.0
    ensures (forall i :: 0 <= i < |w| ==> !w[i].success) ==> r == 0.0
  {
    if |w| == 0 then 0.0
    else
      if forall i :: 0 <= i < |w| ==> w[i].success then AllSucceed(w); SuccessCount(w) as real / (|w| as real)
      else if forall i :: 0 <= i < |w| ==> !w[i].success then NoneSucceed(w); SuccessCount(w) as real / (|w| as real)
      else SuccessCount(w) as real / (|w| as real)
  }

  lemma {:induction false} AllSucceed(w: seq<Signal>)
    requires forall i :: 0 <= i < |w| ==> w[i].success
    ensures SuccessCount(w) == |w|
  {
    if w != [] { AllSucceed(w[..|w| - 1]); }
  }

  lemma {:induction false} NoneSucceed(w: seq<Signal>)
    requires forall i :: 0 <= i < |w| ==> !w[i].success
    ensures SuccessCount(w) == 0
  {
    if w != [] { NoneSucceed(w[..|w| - 1]); }
  }

  /** Summing exertions that all lie in [lo, hi]. */
  lemma {:induction false} SumRpeBounds(w: seq<Signal>, lo: real, hi: real)
    requires forall i :: 0 <= i < |w| ==> lo <= w[i].rpe <= hi
    ensures lo * (|w| as real) <= SumRpe(w) <= hi * (|w| as real)
  {
    if w != [] {
      SumRpeBounds(w[..|w| - 1], lo, hi);
    }
  }

  /** The mean of a non-empty window lies between its smallest and largest possible exertion. */
  lemma MeanRpeBounds(w: seq<Signal>, lo: real, hi: real)
    requires |w| > 0
    requires forall i :: 0 <= i < |w| ==> lo <= w[i].rpe <= hi
    ensures lo <= MeanRpe(w) <= hi
  {
    SumRpeBounds(w, lo, hi);
    var n := |w| as real;
    assert lo * n <= SumRpe(w) <= hi * n;
    assert MeanRpe(w) * n == SumRpe(w);
  }

  /**
   * The policy, first match wins: too hard (mean RPE at least 8.5 or success
   * rate at most 0.4) deloads; too easy (mean RPE at most 4.0 and success rate
   * at least 0.9) progresses; anything else maintains.
   */
  function Classify(w: seq<Signal>): (d: Decision)
    ensures d == Deload <==> MeanRpe(w) >= 8.5 || SuccessRate(w) <= 0.4
    ensures d == Progress <==> !(MeanRpe(w) >= 8.5 || SuccessRate(w) <= 0.4) && MeanRpe(w) <= 4.0 && SuccessRate(w) >= 0.9
  {
    var avg, rate := MeanRpe(w), SuccessRate(w);
    if avg >= 8.5 || rate <= 0.4 then Deload
    else if avg <= 4.0 && rate >= 0.9 then Progress
    else Maintain
  }

  /** Python's `int(x / 10)` for an integer `x`: division truncating toward zero. */
  function TruncTenth(x: int): (q: int)
    ensures x >= 0 ==> 0 <= 10 * q <= x < 10 * q + 10
    ensures x < 0 ==> 10 * q - 10 < x <= 10 * q <= 0
  {
    if x >= 0 then x / 10 else -((-x) / 10)
  }

  /** `max(1, int(reps * 0.9))`: the deloaded repetition count. */
  function DeloadReps(reps: int): (r: int)
    ensures r >= 1
    ensures 9 * reps >= 10 ==> 10 * r <= 9 * reps < 10 * r + 10
    ensures 9 * reps < 10 ==> r == 1
  {
    Max(1, TruncTenth(9 * reps))
  }

  /** `int(target_reps * 1.3)`: the progression ceiling, relative to the original prescription. */
  function RepCap(targetReps: int): (c: int)
    ensures targetReps >= 0 ==> 10 * c <= 13 * targetReps < 10 * c + 10
    ensures targetReps >= 1 ==> c >= targetReps
  {
    TruncTenth(13 * targetReps)
  }

  /** Python's `value or fallback` for an optional integer column: None and 0 both fall back. */
  function Effective(value: Option<int>, fallback: int): (r: int)
    ensures value.Some? && value.value != 0 ==> r == value.value
    ensures value.None? || value.value == 0 ==> r == fallback
  {
    if value.Some? && value.value != 0 then value.value else fallback
  }

  /**
   * The adjustment of `adjust_exercise_by_history`, as a function: `None` when
   * the window holds fewer than two reports (no action), otherwise the new
   * current prescription.
   */
  function Decide(currentReps: Option<int>, currentSets: Option<int>, targetReps: int, targetSets: int,
                  w: seq<Signal>): (p: Option<Prescription>)
    ensures p.None? <==> |w| < 2
  {
    if |w| < 2 then None
    else
      var reps, sets := Effective(currentReps, targetReps), Effective(currentSets, targetSets);
      match Classify(w)
      case Deload => Some(Prescription(DeloadReps(reps), if sets > 2 then Max(1, sets - 1) else sets))
      case Progress => Some(Prescription(Min(reps + 2, RepCap(targetReps)), sets))
      case Maintain => Some(Prescription(reps, sets))
  }

  /**
   * The decision rule in terms of the window statistics. Here `reps` and `sets`
   * are the effective current values (`current or target`).
   */
  lemma DecideRule(currentReps: Option<int>, currentSets: Option<int>, targetReps: int, targetSets: int,
                   w: seq<Signal>)
    requires |w| >= 2
    ensures
      var p := Decide(currentReps, currentSets, targetReps, targetSets, w).value;
      var reps, sets := Effective(currentReps, targetReps), Effective(currentSets, targetSets);
      var avg, rate := MeanRpe(w), SuccessRate(w);
      && (avg >= 8.5 || rate <= 0.4 ==>
            && p.reps >= 1
            && (9 * reps >= 10 ==> 10 * p.reps <= 9 * reps < 10 * p.reps + 10)
            && (9 * reps < 10 ==> p.reps == 1)
            && p.sets == (if sets > 2 then sets - 1 else sets))
      && (!(avg >= 8.5 || rate <= 0.4) && avg <= 4.0 && rate >= 0.9 ==>
            p.reps == Min(reps + 2, RepCap(targetReps)) && p.sets == sets)
      && (!(avg >= 8.5 || rate <= 0.4) && !(avg <= 4.0 && rate >= 0.9) ==>
            p.reps == reps && p.sets == sets)
  {
  }

  /**
   * The repetition band is kept: when the effective current reps lie in
   * [1, RepCap(target)], so do the new reps.
   */
  lemma RepsStayInBand(currentReps: Option<int>, currentSets: Option<int>, targetReps: int, targetSets: int,
                       w: seq<Signal>)
    requires |w| >= 2
    requires 1 <= Effective(currentReps, targetReps) <= RepCap(targetReps)
    ensures 1 <= Decide(currentReps, currentSets, targetReps, targetSets, w).value.reps <= RepCap(targetReps)
  {
    var reps := Effective(currentReps, targetReps);
    if Classify(w) == Deload {
      assert DeloadReps(reps) <= reps;
    }
  }

  /**
   * Sets never increase; a deload from more than two sets removes exactly one
   * (so at least two remain); positive sets stay positive.
   */
  lemma SetsNeverIncrease(currentReps: Option<int>, currentSets: Option<int>, targetReps: int, targetSets: int,
                          w: seq<Signal>)
    requires |w| >= 2
    ensures var p, sets := Decide(currentReps, currentSets, targetReps, targetSets, w).value,
                           Effective(currentSets, targetSets);
      && p.sets <= sets
      && (sets >= 1 ==> p.sets >= 1)
      && (Classify(w) == Deload && sets > 2 ==> p.sets == sets - 1 >= 2)
  {
  }

  /**
   * Applying the engine once per window, in order, starting from a
   * prescription with `reps` and `sets` (both stored, so both non-null).
   */
  function Replay(reps: int, sets: int, targetReps: int, targetSets: int, ws: seq<seq<Signal>>): Prescription
    decreases |ws|
  {
    if ws == [] then Prescription(reps, sets)
    else
      var next := Decide(Some(reps), Some(sets), targetReps, targetSets, ws[0]);
      var p := next.GetOr(Prescription(reps, sets));
      Replay(p.reps, p.sets, targetReps, targetSets, ws[1..])
  }

  /**
   * Over any sequence of adjustments starting inside the band, reps never leave
   * [1, RepCap(target)] and sets stay between 1 and their starting value.
   */
  lemma {:induction false} ReplayStaysInBand(reps: int, sets: int, targetReps: int, targetSets: int,
                                             ws: seq<seq<Signal>>)
    requires 1 <= reps <= RepCap(targetReps)
    requires 1 <= sets
    ensures var p := Replay(reps, sets, targetReps, targetSets, ws);
      1 <= p.reps <= RepCap(targetReps) && 1 <= p.sets <= sets
    decreases |ws|
  {
    if ws != [] {
      var next := Decide(Some(reps), Some(sets), targetReps, targetSets, ws[0]);
      if |ws[0]| >= 2 {
        RepsStayInBand(Some(reps), Some(sets), targetReps, targetSets, ws[0]);
        SetsNeverIncrease(Some(reps), Some(sets), targetReps, targetSets, ws[0]);
      }
      var p := next.GetOr(Prescription(reps, sets));
      ReplayStaysInBand(p.reps, p.sets, targetReps, targetSets, ws[1..]);
    }
  }

  /** A fresh instance (current equal to a positive target) stays in its band forever. */
  lemma FreshInstanceStaysInBand(targetReps: int, targetSets: int, ws: seq<seq<Signal>>)
    requires targetReps >= 1 && targetSets >= 1
    ensures var p := Replay(targetReps, targetSets, targetReps, targetSets, ws);
      1 <= p.reps <= RepCap(targetReps) && 1 <= p.sets <= targetSets
  {
    ReplayStaysInBand(targetReps, targetSets, targetReps, targetSets, ws);
  }

  /** Hard sessions: mean RPE 8.9 deloads 10x3 to 9x2. */
  lemma DeloadExample()
    ensures Decide(Some(10), Some(3), 10, 3, [Signal(9.0, false), Signal(8.8, true)])
         == Some(Prescription(9, 2))
  {
    var w := [Signal(9.0, false), Signal(8.8, true)];
    assert w[..1] == [Signal(9.0, false)];
    assert SumRpe(w) == 17.8;
    assert MeanRpe(w) == 8.9;
  }

  /** Easy sessions: mean RPE 3.25 with all successes progresses 10 reps to 12, keeping 3 sets. */
  lemma ProgressExample()
    ensures Decide(Some(10), Some(3), 10, 3, [Signal(3.5, true), Signal(3.0, true)])
         == Some(Prescription(12, 3))
  {
    var w := [Signal(3.5, true), Signal(3.0, true)];
    assert w[..1] == [Signal(3.5, true)];
    assert SumRpe(w) == 6.5;
    assert MeanRpe(w) == 3.25;
  }
}
