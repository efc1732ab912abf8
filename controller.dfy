/** The adaptive landmark-density controller and the periodic map-broadcast
    counter of vllm's main loop (ros/src/vllm/src/vllm_node.cpp).

    `accuracy` is kept in integer hundredths (0.5 is 50, one step of 0.01 is 1),
    the exact-decimal reading of the source's float; module AccuracyFloat models the
    float as written and shows where it departs from this model. */
module DensityController {

  const Start := 50          // float accuracy = 0.5f
  const Floor := 10          // guard accuracy > 0.10
  const Ceiling := 90        // guard accuracy < 0.90
  const FewLandmarks := 300  // size() < 300 lowers the threshold
  const ManyLandmarks := 500 // size() > 500 raises it
  const BroadcastPeriod := 50

  /** One pass of the main loop: either no image arrived, or one did and the
      tracking engine produced `landmarks` points. */
  datatype Cycle = NoImage | Image(landmarks: nat)

  predicate InBand(accuracy: int) {
    Floor <= accuracy <= Ceiling
  }

  /** The two guarded steps that follow an extraction of `n` landmarks. */
  function Update(accuracy: int, n: nat): (r: int)
    ensures InBand(accuracy) ==> InBand(r)
    ensures r == accuracy - 1 || r == accuracy || r == accuracy + 1
  {
    var lowered := if n < FewLandmarks && accuracy > Floor then accuracy - 1 else accuracy;
    if n > ManyLandmarks && lowered < Ceiling then lowered + 1 else lowered
  }

  /** The controller's step for one pass of the loop; a pass without an image leaves it alone. */
  function Apply(accuracy: int, c: Cycle): int {
    match c
    case NoImage => accuracy
    case Image(n) => Update(accuracy, n)
  }

  /** The threshold after the passes `cycles`, in order. */
  function Settle(accuracy: int, cycles: seq<Cycle>): (r: int)
    ensures InBand(accuracy) ==> InBand(r)
    ensures accuracy - |cycles| <= r <= accuracy + |cycles|
    decreases |cycles|
  {
    if cycles == [] then accuracy
    else Apply(Settle(accuracy, cycles[..|cycles| - 1]), cycles[|cycles| - 1])
  }

  /** The three cases of one update; the two count conditions are disjoint, so at most
      one of the two steps fires. */
  lemma UpdateCases(accuracy: int, n: nat)
    ensures n < FewLandmarks && accuracy > Floor ==> Update(accuracy, n) == accuracy - 1
    ensures n > ManyLandmarks && accuracy < Ceiling ==> Update(accuracy, n) == accuracy + 1
    ensures FewLandmarks <= n <= ManyLandmarks ==> Update(accuracy, n) == accuracy
    ensures n < FewLandmarks && accuracy <= Floor ==> Update(accuracy, n) == accuracy
    ensures n > ManyLandmarks && accuracy >= Ceiling ==> Update(accuracy, n) == accuracy
  {
  }

  predicate AllFew(cycles: seq<Cycle>) {
    forall i :: 0 <= i < |cycles| ==> cycles[i].Image? && cycles[i].landmarks < FewLandmarks
  }

  predicate AllMany(cycles: seq<Cycle>) {
    forall i :: 0 <= i < |cycles| ==> cycles[i].Image? && cycles[i].landmarks > ManyLandmarks
  }

  function Max(a: int, b: int): int { if a < b then b else a }

  function Min(a: int, b: int): int { if a < b then a else b }

  /** k sparse frames in a row lower the threshold one step each until it reaches the floor,
      where it stays. */
  lemma {:induction false} FewLandmarksDescend(accuracy: int, cycles: seq<Cycle>)
    requires accuracy >= Floor && AllFew(cycles)
    ensures Settle(accuracy, cycles) == Max(Floor, accuracy - |cycles|)
    decreases |cycles|
  {
    if cycles != [] {
      var prefix := cycles[..|cycles| - 1];
      assert AllFew(prefix) by {
        forall i | 0 <= i < |prefix| ensures prefix[i] == cycles[i] { }
      }
      FewLandmarksDescend(accuracy, prefix);
    }
  }

  /** k dense frames in a row raise the threshold one step each until it reaches the ceiling,
      where it stays. */
  lemma {:induction false} ManyLandmarksAscend(accuracy: int, cycles: seq<Cycle>)
    requires accuracy <= Ceiling && AllMany(cycles)
    ensures Settle(accuracy, cycles) == Min(Ceiling, accuracy + |cycles|)
    decreases |cycles|
  {
    if cycles != [] {
      var prefix := cycles[..|cycles| - 1];
      assert AllMany(prefix) by {
        forall i | 0 <= i < |prefix| ensures prefix[i] == cycles[i] { }
      }
      ManyLandmarksAscend(accuracy, prefix);
    }
  }

  /** One-cycle lag: the threshold in force during pass i + 1 is the update of the one in
      force during pass i by pass i's landmark count; pass i's own count never reaches pass i. */
  lemma OneCycleLag(cycles: seq<Cycle>, i: nat)
    requires i < |cycles|
    ensures Settle(Start, cycles[..i + 1]) == Apply(Settle(Start, cycles[..i]), cycles[i])
  {
    assert cycles[..i + 1][..i] == cycles[..i];
  }

  /** The main loop, restricted to the controller and the counter.  `inForce[i]` is the
      threshold handed to setCriteria in pass i (when an image arrived), `broadcast[i]`
      whether pass i sent the target cloud, `broadcasts` how many times it was sent. */
  method MainLoop(cycles: seq<Cycle>)
      returns (accuracy: int, loopCount: int, inForce: seq<int>, broadcast: seq<bool>, broadcasts: nat)
    ensures accuracy == Settle(Start, cycles) && InBand(accuracy)
    ensures |inForce| == |cycles|
    ensures forall i :: 0 <= i < |cycles| ==> inForce[i] == Settle(Start, cycles[..i]) && InBand(inForce[i])
    ensures inForce != [] ==> inForce[0] == Start
    ensures forall i :: 0 <= i < |cycles| - 1 ==> inForce[i + 1] == Apply(inForce[i], cycles[i])
    ensures loopCount == |cycles| % BroadcastPeriod
    ensures |broadcast| == |cycles|
    ensures forall i :: 0 <= i < |cycles| ==> (broadcast[i] <==> (i + 1) % BroadcastPeriod == 0)
    ensures broadcasts == |cycles| / BroadcastPeriod
  {
    accuracy, loopCount := Start, 0;
    inForce, broadcast, broadcasts := [], [], 0;
    var i := 0;
    while i < |cycles|
      invariant 0 <= i <= |cycles|
      invariant accuracy == Settle(Start, cycles[..i]) && InBand(accuracy)
      invariant |inForce| == i
      invariant forall j :: 0 <= j < i ==> inForce[j] == Settle(Start, cycles[..j]) && InBand(inForce[j])
      invariant loopCount == i % BroadcastPeriod
      invariant |broadcast| == i
      invariant forall j :: 0 <= j < i ==> (broadcast[j] <==> (j + 1) % BroadcastPeriod == 0)
      invariant broadcasts == i / BroadcastPeriod
    {
      inForce := inForce + [accuracy];
      match cycles[i] {
        case Image(n) =>
          if n < FewLandmarks && accuracy > Floor { accuracy := accuracy - 1; }
          if n > ManyLandmarks && accuracy < Ceiling { accuracy := accuracy + 1; }
        case NoImage =>
      }
      OneCycleLag(cycles, i);
      loopCount := loopCount + 1;
      var send := loopCount >= BroadcastPeriod;
      if send {
        loopCount := 0;
        broadcasts := broadcasts + 1;
      }
      broadcast := broadcast + [send];
      i := i + 1;
    }
    assert cycles[..i] == cycles;
    forall j | 0 <= j < |cycles| - 1
      ensures inForce[j + 1] == Apply(inForce[j], cycles[j])
    {
      OneCycleLag(cycles, j);
    }
  }
}
