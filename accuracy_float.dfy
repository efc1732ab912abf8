/** The controller of ros/src/vllm/src/vllm_node.cpp as written: `accuracy` is a
    32-bit float stepped by the float literal 0.01f and compared with the double
    literals 0.10 and 0.90.  Floats are modelled exactly, as the rationals they
    denote, with IEEE round-to-nearest-even on every float subtraction and
    addition; the model covers the binades [1/32, 1) the controller can reach. */
module AccuracyFloat {
  import DensityController

  /** 0.5f */
  const Start: real := 0.5
  /** 0.01f, the float nearest to 0.01: 10737418 * 2^-30 */
  const Step: real := 10737418.0 / 1073741824.0
  /** the double nearest to 0.10: 3602879701896397 * 2^-55 */
  const Floor: real := 3602879701896397.0 / 36028797018963968.0
  /** the double nearest to 0.90: 8106479329266893 * 2^-53 */
  const Ceiling: real := 8106479329266893.0 / 9007199254740992.0

  /** The integer nearest to `y`, ties to even. */
  function NearestEven(y: real): (n: int)
    ensures y - 0.5 <= n as real <= y + 0.5
    ensures n as real - y == 0.5 || y - n as real == 0.5 ==> n % 2 == 0
  {
    var f := y.Floor;
    var frac := y - f as real;
    if frac > 0.5 || (frac == 0.5 && f % 2 == 1) then f + 1 else f
  }

  /** A 32-bit float has a 24-bit significand: in the binade [2^-e, 2^(1-e)) the
      representable values are the multiples of 2^-(23+e). */
  function Round32(x: real): (r: real)
    requires 1.0 / 32.0 <= x < 1.0
    ensures x - 1.0 / 33554432.0 <= r <= x + 1.0 / 33554432.0
  {
    if x >= 0.5 then NearestEven(x * 16777216.0) as real / 16777216.0
    else if x >= 0.25 then NearestEven(x * 33554432.0) as real / 33554432.0
    else if x >= 0.125 then NearestEven(x * 67108864.0) as real / 67108864.0
    else if x >= 0.0625 then NearestEven(x * 134217728.0) as real / 134217728.0
    else NearestEven(x * 268435456.0) as real / 268435456.0
  }

  /** 0.01f is the float nearest to 0.01 (a value of the binade [2^-7, 2^-6)). */
  lemma StepIsFloatOfHundredth()
    ensures Step == NearestEven(0.01 * 1073741824.0) as real / 1073741824.0
    ensures 0.01 - 1.0 / 2147483648.0 <= Step <= 0.01 + 1.0 / 2147483648.0
  {
  }

  predicate InDomain(accuracy: real) {
    0.05 <= accuracy <= 0.95
  }

  /** Lines 87-88 in float arithmetic. */
  function FloatUpdate(accuracy: real, n: nat): (r: real)
    requires InDomain(accuracy)
    ensures InDomain(r)
    ensures accuracy >= Floor - Step - 1.0 / 33554432.0 ==> r >= Floor - Step - 1.0 / 33554432.0
    ensures accuracy <= Ceiling + Step + 1.0 / 33554432.0 ==> r <= Ceiling + Step + 1.0 / 33554432.0
    ensures accuracy - Step - 1.0 / 33554432.0 <= r <= accuracy + Step + 1.0 / 33554432.0
  {
    var lowered := if n < DensityController.FewLandmarks && accuracy > Floor then Round32(accuracy - Step) else accuracy;
    if n > DensityController.ManyLandmarks && lowered < Ceiling then Round32(lowered + Step) else lowered
  }

  /** The float threshold after image frames with the landmark counts `counts`, in order.
      Started inside the guards' band widened by one rounded step, it stays there: the
      threshold as written overshoots 0.10 and 0.90 by at most one step. */
  function FloatRun(accuracy: real, counts: seq<nat>): (r: real)
    requires InDomain(accuracy)
    ensures InDomain(r)
    ensures accuracy >= Floor - Step - 1.0 / 33554432.0 ==> r >= Floor - Step - 1.0 / 33554432.0
    ensures accuracy <= Ceiling + Step + 1.0 / 33554432.0 ==> r <= Ceiling + Step + 1.0 / 33554432.0
    decreases |counts|
  {
    if counts == [] then accuracy else FloatRun(FloatUpdate(accuracy, counts[0]), counts[1..])
  }

  /** 2^28: every float of the binades [1/32, 1) is a whole multiple of 2^-28. */
  const Unit: real := 268435456.0

  function Value(k: int): real {
    k as real / Unit
  }

  /** A run through the frames `counts` passes through the values `trace` (in units of
      2^-28): each value is one FloatUpdate of the one before. */
  predicate Follows(trace: seq<int>, counts: seq<nat>) {
    && |trace| == |counts| + 1
    && (forall i :: 0 <= i < |trace| ==> InDomain(Value(trace[i])))
    && (forall i :: 0 <= i < |counts| ==> FloatUpdate(Value(trace[i]), counts[i]) == Value(trace[i + 1]))
  }

  lemma {:induction false} RunFollowsTrace(trace: seq<int>, counts: seq<nat>)
    requires Follows(trace, counts)
    ensures FloatRun(Value(trace[0]), counts) == Value(trace[|counts|])
    decreases |counts|
  {
    if counts != [] {
      assert Follows(trace[1..], counts[1..]);
      RunFollowsTrace(trace[1..], counts[1..]);
    }
  }

  // In units of 2^-28.  0.01f is 2684354.5 units.  A float of the binade [2^-e, 2^(1-e))
  // is a multiple of 2^(5-e) units, so one float step of 0.01f from such a multiple moves
  // by 2684354.5 units rounded to that multiple: 2684352 in [1/4, 1/2) and in [1/2, 1),
  // 2684356 in [1/8, 1/4), 2684354 in [1/16, 1/8).

  /** The float threshold after k sparse frames from 0.5f: 25 steps in [1/4, 1/2), 12 in
      [1/8, 1/4), then steps in [1/16, 1/8). */
  function FloorAt(k: nat): int {
    if k <= 25 then 134217728 - 2684352 * k
    else if k <= 37 then 67108928 - 2684356 * (k - 25)
    else 34896656 - 2684354 * (k - 37)
  }

  /** The float threshold after k dense frames from 0.5f, all in [1/2, 1). */
  function CeilingAt(k: nat): int {
    134217728 + 2684352 * k
  }

  /** A float step down that lands in [1/4, 1/2), where floats are multiples of 8 units. */
  lemma DownIntoQuarter(x: int)
    requires x % 8 == 0 && 67108864 + 2684355 <= x <= 134217728
    ensures Round32(Value(x) - Step) == Value(x - 2684352)
  {
    var q := x / 8;
    assert (Value(x) - Step) * 33554432.0 == q as real - 335544.3125;
    assert (q as real - 335544.3125).Floor == q - 335545;
  }

  /** A float step down that lands in [1/8, 1/4), where floats are multiples of 4 units. */
  lemma DownIntoEighth(x: int)
    requires x % 4 == 0 && 33554432 + 2684355 <= x <= 67108864 + 2684354
    ensures Round32(Value(x) - Step) == Value(x - 2684356)
  {
    var q := x / 4;
    assert (Value(x) - Step) * 67108864.0 == q as real - 671088.625;
    assert (q as real - 671088.625).Floor == q - 671089;
  }

  /** A float step down that lands in [1/16, 1/8), where floats are multiples of 2 units. */
  lemma DownIntoSixteenth(x: int)
    requires x % 2 == 0 && 16777216 + 2684355 <= x <= 33554432 + 2684354
    ensures Round32(Value(x) - Step) == Value(x - 2684354)
  {
    var q := x / 2;
    assert (Value(x) - Step) * 134217728.0 == q as real - 1342177.25;
    assert (q as real - 1342177.25).Floor == q - 1342178;
  }

  /** A float step up within [1/2, 1), where floats are multiples of 16 units. */
  lemma UpWithinHalf(x: int)
    requires x % 16 == 0 && 134217728 <= x <= 268435456 - 2684355
    ensures Round32(Value(x) + Step) == Value(x + 2684352)
  {
    var q := x / 16;
    assert (Value(x) + Step) * 16777216.0 == q as real + 167772.15625;
    assert (q as real + 167772.15625).Floor == q + 167772;
  }

  /** A sparse frame at a float threshold above the double 0.10 takes exactly the rounded
      step down (0.10 lies between 26843545 and 26843546 units, 0.05 below 13421773). */
  lemma SparseStep(x: int, y: int, n: nat)
    requires 26843546 <= x <= 134217728 && 13421773 <= y <= x
    requires n < DensityController.FewLandmarks
    requires Round32(Value(x) - Step) == Value(y)
    ensures InDomain(Value(x)) && InDomain(Value(y))
    ensures FloatUpdate(Value(x), n) == Value(y)
  {
    assert Value(x) > Floor;
  }

  /** The first 25 sparse frames step within [1/4, 1/2). */
  lemma QuarterPhase(i: nat, n: nat)
    requires i < 25 && n < DensityController.FewLandmarks
    ensures InDomain(Value(FloorAt(i))) && InDomain(Value(FloorAt(i + 1)))
    ensures FloatUpdate(Value(FloorAt(i)), n) == Value(FloorAt(i + 1))
  {
    var x := 8 * (16777216 - 335544 * i);
    assert FloorAt(i) == x && FloorAt(i + 1) == x - 2684352;
    DownIntoQuarter(x);
    SparseStep(x, x - 2684352, n);
  }

  /** The next 12 sparse frames step into [1/8, 1/4). */
  lemma EighthPhase(i: nat, n: nat)
    requires 25 <= i < 37 && n < DensityController.FewLandmarks
    ensures InDomain(Value(FloorAt(i))) && InDomain(Value(FloorAt(i + 1)))
    ensures FloatUpdate(Value(FloorAt(i)), n) == Value(FloorAt(i + 1))
  {
    var x := 4 * (16777232 - 671089 * (i - 25));
    assert FloorAt(i) == x && FloorAt(i + 1) == x - 2684356;
    DownIntoEighth(x);
    SparseStep(x, x - 2684356, n);
  }

  /** The last sparse frames step into [1/16, 1/8). */
  lemma SixteenthPhase(i: nat, n: nat)
    requires 37 <= i < 41 && n < DensityController.FewLandmarks
    ensures InDomain(Value(FloorAt(i))) && InDomain(Value(FloorAt(i + 1)))
    ensures FloatUpdate(Value(FloorAt(i)), n) == Value(FloorAt(i + 1))
  {
    var x := 2 * (17448328 - 1342177 * (i - 37));
    assert FloorAt(i) == x && FloorAt(i + 1) == x - 2684354;
    DownIntoSixteenth(x);
    SparseStep(x, x - 2684354, n);
  }

  /** Each of the 41 sparse frames takes the float threshold from FloorAt(i) to FloorAt(i + 1). */
  lemma FloorStep(i: nat, n: nat)
    requires i < 41 && n < DensityController.FewLandmarks
    ensures InDomain(Value(FloorAt(i))) && InDomain(Value(FloorAt(i + 1)))
    ensures FloatUpdate(Value(FloorAt(i)), n) == Value(FloorAt(i + 1))
  {
    if i < 25 {
      QuarterPhase(i, n);
    } else if i < 37 {
      EighthPhase(i, n);
    } else {
      SixteenthPhase(i, n);
    }
  }

  /** Each of the 41 dense frames takes the float threshold from CeilingAt(i) to CeilingAt(i + 1). */
  lemma CeilingStep(i: nat, n: nat)
    requires i < 41 && n > DensityController.ManyLandmarks
    ensures InDomain(Value(CeilingAt(i))) && InDomain(Value(CeilingAt(i + 1)))
    ensures FloatUpdate(Value(CeilingAt(i)), n) == Value(CeilingAt(i + 1))
  {
    assert CeilingAt(i) == 16 * (8388608 + 167772 * i);
    UpWithinHalf(CeilingAt(i));
  }

  predicate AllSparseCounts(counts: seq<nat>) {
    forall i :: 0 <= i < |counts| ==> counts[i] < DensityController.FewLandmarks
  }

  predicate AllDenseCounts(counts: seq<nat>) {
    forall i :: 0 <= i < |counts| ==> counts[i] > DensityController.ManyLandmarks
  }

  /** As written, 41 sparse frames in a row take the float threshold from 0.5f to
      about 0.0900002, below the 0.10 floor the guard is there to keep: after 40
      steps the accumulated float is 26843594 * 2^-28, about 0.1000001803, still above
      the double 0.10, so the guard lets a 41st step through. */
  lemma FloatFloorCrossed(counts: seq<nat>)
    requires |counts| == 41 && AllSparseCounts(counts)
    ensures FloatRun(Start, counts) == 24159240.0 / 268435456.0
    ensures FloatRun(Start, counts) < Floor - 0.0099
    ensures FloatRun(Start, counts[..40]) == Value(FloorAt(40)) == 26843594.0 / 268435456.0
    ensures FloatRun(Start, counts[..40]) > Floor
  {
    forall i | 0 <= i < 41
      ensures InDomain(Value(FloorAt(i)))
      ensures FloatUpdate(Value(FloorAt(i)), counts[i]) == Value(FloorAt(i + 1))
    {
      FloorStep(i, counts[i]);
    }
    FloorStep(40, counts[40]);
    var trace := seq(42, k requires 0 <= k < 42 => FloorAt(k));
    RunFollowsTrace(trace, counts);
    RunFollowsTrace(trace[..41], counts[..40]);
  }

  /** As written, 41 dense frames in a row take the float threshold from 0.5f to
      about 0.9099996, above the 0.90 ceiling: after 40 steps the accumulated float is
      241591808 * 2^-28, about 0.8999996, still below the double 0.90. */
  lemma FloatCeilingCrossed(counts: seq<nat>)
    requires |counts| == 41 && AllDenseCounts(counts)
    ensures FloatRun(Start, counts) == 244276160.0 / 268435456.0
    ensures FloatRun(Start, counts) > Ceiling + 0.0099
    ensures FloatRun(Start, counts[..40]) == Value(CeilingAt(40)) == 241591808.0 / 268435456.0
    ensures FloatRun(Start, counts[..40]) < Ceiling
  {
    forall i | 0 <= i < 41
      ensures InDomain(Value(CeilingAt(i)))
      ensures FloatUpdate(Value(CeilingAt(i)), counts[i]) == Value(CeilingAt(i + 1))
    {
      CeilingStep(i, counts[i]);
    }
    CeilingStep(40, counts[40]);
    var trace := seq(42, k requires 0 <= k < 42 => CeilingAt(k));
    RunFollowsTrace(trace, counts);
    RunFollowsTrace(trace[..41], counts[..40]);
  }

  /** The hundredths model is the controller in exact decimal arithmetic: scaled by
      1/100, DensityController.Update is lines 87-88 with exact 0.01 steps and the
      bounds 0.10 and 0.90. */
  lemma HundredthsAreExactDecimal(h: int, n: nat)
    ensures var a := h as real / 100.0;
      var lowered := if n < DensityController.FewLandmarks && a > 0.10 then a - 0.01 else a;
      var exact := if n > DensityController.ManyLandmarks && lowered < 0.90 then lowered + 0.01 else lowered;
      exact == DensityController.Update(h, n) as real / 100.0
  {
  }
}
