/** The two-slot "latest value" publication buffer of vllm (src/system/publisher.cpp).

    The producer fills the slot under the write cursor `id`, marks it unread and
    flips the cursor; a consumer looks only at the other slot, the one completed
    most recently, and takes it if it is unread.  The class `Publisher` keeps the
    source's state (a cursor, two flags, two slots) and is proved against the
    value-level state machine `Channel` with `PushSlot` and `PopSlot`; the lemmas
    about that machine state what the buffer promises, and `RunCell` is the
    reference "latest value" cell it behaves like. */
module PublicationChannel {

  datatype Option<T> = None | Some(value: T)

  /** A point, normal or trajectory sample (Eigen::Vector3f, pcl points); floats as reals. */
  datatype Vector3 = Vector3(x: real, y: real, z: real)

  /** A 4x4 homogeneous transform (Eigen::Matrix4f), row by row. */
  type Matrix4 = seq<seq<real>>

  type Cloud = seq<Vector3>

  /** The landmark cloud and its normals as handed to `push`. */
  datatype KeypointsWithNormal = KeypointsWithNormal(cloud: Cloud, normals: Cloud)

  /** A matched pair (pcl::Correspondence): index into the landmark cloud, index into the target cloud. */
  datatype Correspondence = Correspondence(indexQuery: int, indexMatch: int, distance: real)

  /** The foreign numeric routines `push` calls (normalizePose, pcl::transformPointCloud,
      vllm::transformNormals); their code is not part of this model, so they are
      uninterpreted functions the caller supplies. */
  datatype Geometry = Geometry(
    normalizePose: Matrix4 -> Matrix4,
    transformPointCloud: (Cloud, Matrix4) -> Cloud,
    transformNormals: (Cloud, Matrix4) -> Cloud)

  /** One snapshot; `Info` stands for map::Info, whose definition is not part of this model. */
  datatype Publication<Info> = Publication(
    vllmCamera: Matrix4,
    offsetCamera: Matrix4,
    cloud: Cloud,
    normals: Cloud,
    vllmTrajectory: seq<Vector3>,
    offsetTrajectory: seq<Vector3>,
    correspondences: seq<Correspondence>,
    localmapInfo: Info)

  /** The buffer's whole state as a value: cursor, unread flags, slots. */
  datatype Channel<Info> = Channel(id: int, flag: seq<bool>, publication: seq<Publication<Info>>)
  {
    predicate Valid() {
      0 <= id < 2 && |flag| == 2 && |publication| == 2
    }
  }

  /** The slot `pop` inspects: the one not under the write cursor. */
  function Completed(id: int): (k: int)
    requires 0 <= id < 2
    ensures 0 <= k < 2 && k != id
  {
    (id + 1) % 2
  }

  /** What `push` does once the publication is built. */
  function PushSlot<Info>(c: Channel<Info>, p: Publication<Info>): (r: Channel<Info>)
    requires c.Valid()
    ensures r.Valid()
  {
    Channel(Completed(c.id), c.flag[c.id := true], c.publication[c.id := p])
  }

  /** Result of `pop`: the returned flag, the new state and the caller's output argument. */
  datatype Popped<Info> = Popped(ok: bool, channel: Channel<Info>, out: Publication<Info>)

  /** What `pop` does, given the caller's output argument `p`. */
  function PopSlot<Info>(c: Channel<Info>, p: Publication<Info>): (r: Popped<Info>)
    requires c.Valid()
    ensures r.channel.Valid() && r.channel.id == c.id
  {
    var k := Completed(c.id);
    if !c.flag[k] then Popped(false, c, p)
    else Popped(true, c.(flag := c.flag[k := false]), c.publication[k])
  }

  /** The unread snapshot a pop would deliver, if any. */
  function Latest<Info>(c: Channel<Info>): Option<Publication<Info>>
    requires c.Valid()
  {
    var k := Completed(c.id);
    if c.flag[k] then Some(c.publication[k]) else None
  }

  // ---------------------------------------------------------------------------
  // Single-step properties

  /** With the completed slot's flag clear, pop reports failure and changes nothing,
      the caller's output argument included. */
  lemma PopWhenNothingNew<Info>(c: Channel<Info>, p: Publication<Info>)
    requires c.Valid() && !c.flag[Completed(c.id)]
    ensures PopSlot(c, p) == Popped(false, c, p)
  {
  }

  /** With the completed slot's flag set, pop returns exactly that slot, clears its
      flag and leaves the cursor, the other flag and both slots alone. */
  lemma PopDeliversCompletedSlot<Info>(c: Channel<Info>, p: Publication<Info>)
    requires c.Valid() && c.flag[Completed(c.id)]
    ensures var r := PopSlot(c, p);
      && r.ok
      && r.out == c.publication[Completed(c.id)]
      && !r.channel.flag[Completed(c.id)]
      && r.channel.flag[c.id] == c.flag[c.id]
      && r.channel.publication == c.publication
      && r.channel.id == c.id
  {
  }

  /** Two pops with no push between them: the second one finds nothing. */
  lemma SecondPopFails<Info>(c: Channel<Info>, p: Publication<Info>, q: Publication<Info>)
    requires c.Valid()
    ensures var r := PopSlot(c, p);
      PopSlot(r.channel, q) == Popped(false, r.channel, q)
  {
  }

  /** Push writes slot `id` only, marks it unread and toggles the cursor. */
  lemma PushWritesOnlyItsSlot<Info>(c: Channel<Info>, p: Publication<Info>)
    requires c.Valid()
    ensures var r := PushSlot(c, p);
      && r.publication[c.id] == p
      && r.flag[c.id]
      && r.publication[1 - c.id] == c.publication[1 - c.id]
      && r.flag[1 - c.id] == c.flag[1 - c.id]
      && r.id == 1 - c.id
  {
  }

  /** A pop right after any push succeeds and returns what was pushed. */
  lemma PopAfterPush<Info>(c: Channel<Info>, p: Publication<Info>, q: Publication<Info>)
    requires c.Valid()
    ensures var r := PopSlot(PushSlot(c, p), q);
      r.ok && r.out == p
  {
  }

  /** Latest wins: after two pushes the next pop returns the second publication,
      and a following pop returns nothing, so the first is never delivered. */
  lemma LatestWins<Info>(c: Channel<Info>, p1: Publication<Info>, p2: Publication<Info>, q: Publication<Info>)
    requires c.Valid()
    ensures var r := PopSlot(PushSlot(PushSlot(c, p1), p2), q);
      && r.ok && r.out == p2
      && !PopSlot(r.channel, r.out).ok
  {
  }

  // ---------------------------------------------------------------------------
  // Any sequence of operations

  datatype Op<Info> = PushOp(p: Publication<Info>) | PopOp

  /** What each operation hands to its consumer when the channel runs `ops`
      (None for a push, and for a pop that finds nothing); `held` is the
      consumer's output argument. */
  function RunChannel<Info>(c: Channel<Info>, held: Publication<Info>, ops: seq<Op<Info>>): (outs: seq<Option<Publication<Info>>>)
    requires c.Valid()
    ensures |outs| == |ops|
    decreases |ops|
  {
    if ops == [] then []
    else match ops[0]
      case PushOp(p) => [None] + RunChannel(PushSlot(c, p), held, ops[1..])
      case PopOp =>
        var r := PopSlot(c, held);
        [if r.ok then Some(r.out) else None] + RunChannel(r.channel, r.out, ops[1..])
  }

  /** Reference definition: a single "latest value" cell that push overwrites and pop empties. */
  function RunCell<Info>(cell: Option<Publication<Info>>, ops: seq<Op<Info>>): (outs: seq<Option<Publication<Info>>>)
    ensures |outs| == |ops|
    decreases |ops|
  {
    if ops == [] then []
    else match ops[0]
      case PushOp(p) => [None] + RunCell(Some(p), ops[1..])
      case PopOp => [cell] + RunCell(None, ops[1..])
  }

  /** The two-slot channel delivers exactly what the one-cell latest-value channel delivers,
      for every sequence of pushes and pops. */
  lemma {:induction false} ChannelRefinesCell<Info>(c: Channel<Info>, held: Publication<Info>, ops: seq<Op<Info>>)
    requires c.Valid()
    ensures RunChannel(c, held, ops) == RunCell(Latest(c), ops)
    decreases |ops|
  {
    if ops != [] {
      match ops[0]
      case PushOp(p) =>
        ChannelRefinesCell(PushSlot(c, p), held, ops[1..]);
      case PopOp =>
        var r := PopSlot(c, held);
        ChannelRefinesCell(r.channel, r.out, ops[1..]);
    }
  }

  /** What operation `i` delivers, by looking at the operations alone. */
  function Delivered<Info>(first: Option<Publication<Info>>, ops: seq<Op<Info>>, i: nat): Option<Publication<Info>>
    requires i < |ops|
  {
    if ops[i].PushOp? then None
    else if i == 0 then first
    else if ops[i - 1].PushOp? then Some(ops[i - 1].p)
    else None
  }

  /** A pop of the cell at position i > 0 delivers something exactly when the operation
      just before it was a push, and then it delivers that push's publication; a pop at
      position 0 delivers the starting cell's content. */
  lemma {:induction false} CellDeliversPrecedingPush<Info>(cell: Option<Publication<Info>>, ops: seq<Op<Info>>)
    ensures forall i :: 0 <= i < |ops| ==> RunCell(cell, ops)[i] == Delivered(cell, ops, i)
    decreases |ops|
  {
    if ops != [] {
      var next := if ops[0].PushOp? then Some(ops[0].p) else None;
      CellDeliversPrecedingPush(next, ops[1..]);
      forall i | 0 < i < |ops|
        ensures RunCell(cell, ops)[i] == Delivered(cell, ops, i)
      {
        assert RunCell(cell, ops)[i] == RunCell(next, ops[1..])[i - 1];
        assert ops[1..][i - 1] == ops[i];
      }
    }
  }

  /** From a channel with nothing unread (such as a new Publisher), every successful
      pop in any sequence of operations returns the publication of the push
      immediately before it, whole; a pop not preceded by a push returns nothing.
      Publications are values here, so this holds for what a pop returns at the
      moment it pops. */
  lemma DeliveredIsPrecedingPush<Info>(c: Channel<Info>, held: Publication<Info>, ops: seq<Op<Info>>)
    requires c.Valid() && Latest(c) == None
    ensures forall i :: 0 <= i < |ops| ==>
      RunChannel(c, held, ops)[i] == (if ops[i].PopOp? && i > 0 && ops[i - 1].PushOp? then Some(ops[i - 1].p) else None)
  {
    ChannelRefinesCell(c, held, ops);
    CellDeliversPrecedingPush(None, ops);
  }

  // ---------------------------------------------------------------------------
  // The object, as the source keeps it

  class Publisher<Info(0)> {
    var id: int
    var flag: array<bool>
    var publication: array<Publication<Info>>

    ghost predicate Valid()
      reads this
    {
      0 <= id < 2 && flag.Length == 2 && publication.Length == 2
    }

    /** The object's state as a `Channel` value. */
    ghost function State(): (c: Channel<Info>)
      requires Valid()
      reads this, flag, publication
      ensures c.Valid()
    {
      Channel(id, flag[..], publication[..])
    }

    /** A new buffer: cursor at slot 0, nothing unread. */
    constructor ()
      ensures Valid() && fresh(flag) && fresh(publication)
      ensures State().id == 0 && State().flag == [false, false]
      ensures Latest(State()) == None
    {
      id := 0;
      flag := new bool[2](_ => false);
      publication := new Publication<Info>[2];
    }

    /** Publisher::push: build the snapshot into slot `id`, mark it unread, flip the cursor. */
    method Push(geo: Geometry, tAlign: Matrix4, vllmCamera: Matrix4, offsetCamera: Matrix4,
                rawKeypoints: KeypointsWithNormal, vllmTrajectory: seq<Vector3>,
                offsetTrajectory: seq<Vector3>, corre: seq<Correspondence>, localmapInfo: Info)
      requires Valid()
      modifies this, flag, publication
      ensures Valid() && flag == old(flag) && publication == old(publication)
      ensures var p := publication[old(id)];
        && p.vllmCamera == geo.normalizePose(vllmCamera)
        && p.offsetCamera == geo.normalizePose(offsetCamera)
        && p.vllmTrajectory == vllmTrajectory
        && p.offsetTrajectory == offsetTrajectory
        && p.localmapInfo == localmapInfo
        && p.correspondences == corre
        && p.cloud == geo.transformPointCloud(rawKeypoints.cloud, tAlign)
        && p.normals == geo.transformNormals(rawKeypoints.normals, tAlign)
      ensures State() == PushSlot(old(State()), publication[old(id)])
    {
      var tmp := Publication(
        geo.normalizePose(vllmCamera),
        geo.normalizePose(offsetCamera),
        geo.transformPointCloud(rawKeypoints.cloud, tAlign),
        geo.transformNormals(rawKeypoints.normals, tAlign),
        vllmTrajectory,
        offsetTrajectory,
        corre,
        localmapInfo);
      publication[id] := tmp;
      flag[id] := true;
      id := (id + 1) % 2;
    }

    /** Publisher::pop: `p` is the caller's output argument, `out` its value afterwards. */
    method Pop(p: Publication<Info>) returns (ok: bool, out: Publication<Info>)
      requires Valid()
      modifies flag
      ensures Valid()
      ensures ok == old(flag[Completed(id)])
      ensures ok ==> out == publication[Completed(id)] && !flag[Completed(id)]
      ensures !ok ==> out == p && flag[..] == old(flag[..])
      ensures Popped(ok, State(), out) == PopSlot(old(State()), p)
    {
      var k := (id + 1) % 2;
      if flag[k] == false {
        return false, p;
      }
      out := publication[k];
      flag[k] := false;
      ok := true;
    }
  }

  /** A client of the object: two pushes, then two pops. */
  method LatestWinsOnPublisher<Info(0)>(pub: Publisher<Info>, geo: Geometry, tAlign: Matrix4,
                                        camera1: Matrix4, offset1: Matrix4, first: KeypointsWithNormal,
                                        trajectory1: seq<Vector3>, offsetTrajectory1: seq<Vector3>,
                                        corre1: seq<Correspondence>, info1: Info,
                                        camera2: Matrix4, offset2: Matrix4, second: KeypointsWithNormal,
                                        trajectory2: seq<Vector3>, offsetTrajectory2: seq<Vector3>,
                                        corre2: seq<Correspondence>, info2: Info,
                                        held: Publication<Info>)
      returns (ok1: bool, out1: Publication<Info>, ok2: bool, out2: Publication<Info>)
    requires pub.Valid()
    modifies pub, pub.flag, pub.publication
    ensures ok1
    ensures out1 == Publication(geo.normalizePose(camera2), geo.normalizePose(offset2),
                                geo.transformPointCloud(second.cloud, tAlign),
                                geo.transformNormals(second.normals, tAlign),
                                trajectory2, offsetTrajectory2, corre2, info2)
    ensures !ok2 && out2 == out1
  {
    pub.Push(geo, tAlign, camera1, offset1, first, trajectory1, offsetTrajectory1, corre1, info1);
    pub.Push(geo, tAlign, camera2, offset2, second, trajectory2, offsetTrajectory2, corre2, info2);
    ok1, out1 := pub.Pop(held);
    ok2, out2 := pub.Pop(out1);
  }
}
