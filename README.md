# vllm fusion-publication core in Dafny

This project models two small pieces of sequential logic in vllm, a system that
fuses visual landmarks from a tracking engine with a prebuilt LiDAR map.

1. **Publication buffer** (`Publisher::push` and `Publisher::pop`). This is a
   two-slot "latest value" handoff. Its state is a write cursor `id` in {0, 1},
   two unread flags and two slots. `push` builds a `Publication` into slot `id`,
   sets that slot's flag and flips the cursor. `pop` looks only at slot
   `(id + 1) % 2`, the slot completed most recently. If that slot is unread,
   `pop` copies it out and clears its flag; otherwise it returns false.
   Module `PublicationChannel` models this as a class, `Publisher`, with an
   `int` cursor, an `array<bool>` and an `array<Publication>`. Each method is
   proved against a value-level state machine (`Channel`, `PushSlot`,
   `PopSlot`). The lemmas about that machine state what the buffer promises:
   - A pop after a push returns that push.
   - The latest push wins, and a second pop gets nothing.
   - Each operation touches only its own slot.
   - For any sequence of pushes and pops, the buffer delivers exactly what a
     one-cell latest-value channel delivers. Concretely, starting from a buffer
     with nothing unread, a pop delivers something exactly when the operation
     just before it was a push, and then it delivers that whole publication.
2. **Adaptive landmark-density controller and map-broadcast counter**, both in
   the main loop of `vllm_node`. `accuracy` starts at 0.5 and is the
   extraction threshold passed to `setCriteria`. After each frame it moves by
   0.01: down when fewer than 300 landmarks came back and the value is above
   0.10, up when more than 500 came back and the value is below 0.90.
   `loop_count` sends the target cloud every 50th pass of the loop. Module
   `DensityController` counts the threshold in integer hundredths (start 50,
   step 1, guards `> 10` and `< 90`), which is the source's `float` read in
   exact decimal arithmetic. `MainLoop` runs the loop over a sequence of passes.
   Each pass either has no image or has an image with some number of landmarks.
   Module `AccuracyFloat` models the same update in exact IEEE single
   precision, which is what the source computes. It shows where the two differ
   (see Findings).

Foreign numeric routines become values the caller passes in:
`normalizePose`, `pcl::transformPointCloud` and `vllm::transformNormals` are
the fields of a `Geometry` record of functions, given to `Push`. `map::Info` is
the type parameter `Info`. Floats in points, poses and matrices are `real`.

## Model

| member | source | states |
|---|---|---|
| `PublicationChannel.Completed` | src/system/publisher.cpp:9-13 | the slot pop inspects, `(id + 1) % 2`, is in {0, 1} and is never the slot under the write cursor |
| `PublicationChannel.PushSlot` | src/system/publisher.cpp:29-45 | after a push the cursor is still in {0, 1} and there are still two flags and two slots |
| `PublicationChannel.PopSlot` | src/system/publisher.cpp:5-16 | pop keeps the state well formed and never moves the cursor |
| `PublicationChannel.PopWhenNothingNew` | src/system/publisher.cpp:9-11 | if the completed slot's flag is clear, pop returns false and changes nothing: not the flags, not the slots, not the cursor, not the output argument |
| `PublicationChannel.PopDeliversCompletedSlot` | src/system/publisher.cpp:13-15 | if that flag is set, pop returns true and outputs exactly the completed slot. It clears that flag only; the other flag, both slots and the cursor are unchanged |
| `PublicationChannel.SecondPopFails` | src/system/publisher.cpp:9-15 | two pops with no push between them: the second one returns false and changes nothing |
| `PublicationChannel.PushWritesOnlyItsSlot` | src/system/publisher.cpp:29-45 | push stores the publication in slot `id` and sets that slot's flag. It toggles the cursor and leaves the other slot and its flag unchanged |
| `PublicationChannel.PopAfterPush` | src/system/publisher.cpp:9-45 | right after any push, a pop succeeds and returns the publication just pushed |
| `PublicationChannel.LatestWins` | src/system/publisher.cpp:9-45 | after two pushes, the next pop returns the second publication and the pop after it returns false, so the first publication is never delivered |
| `PublicationChannel.RunChannel` | src/system/publisher.cpp:5-45 | running any sequence of pushes and pops gives one delivery result per operation |
| `PublicationChannel.RunCell` | src/system/publisher.cpp:5-45 | the reference latest-value cell gives one delivery result per operation |
| `PublicationChannel.ChannelRefinesCell` | src/system/publisher.cpp:5-45 | for every sequence of operations, the two-slot buffer delivers exactly what the one-cell latest-value channel delivers |
| `PublicationChannel.CellDeliversPrecedingPush` | src/system/publisher.cpp:5-45 | the cell's pop at position i > 0 delivers the push at position i-1 when there is one, and nothing otherwise; a pop at position 0 delivers the starting cell's content |
| `PublicationChannel.DeliveredIsPrecedingPush` | src/system/publisher.cpp:5-45 | start from a buffer with nothing unread. Then every successful pop returns, whole, the publication of the push just before it, and any other pop returns nothing. So, at the moment of the pop, what it returns is neither stale nor a mix of two pushes. This assumes that a `Publication` is copied deeply (see Left out) |
| `PublicationChannel.Publisher.Push` | src/system/publisher.cpp:19-46 | both stored poses are `normalizePose` of the inputs. The trajectories, `localmap_info` and correspondences are the arguments. The cloud and the normals are the inputs transformed by `T_align`. The new object state is `PushSlot` of the old one |
| `PublicationChannel.Publisher.Pop` | src/system/publisher.cpp:5-16 | `ok` is the old flag of the completed slot. On success the output is that slot and its flag is cleared. On failure the output argument and the flags are unchanged. The new object state is `PopSlot` of the old one |
| `PublicationChannel.LatestWinsOnPublisher` | src/system/publisher.cpp:9-45 | on the object, two pushes with independent arguments then two pops: the first pop yields the whole publication of the second push (its poses, transformed cloud and normals, trajectories, correspondences and info), and the second pop fails and leaves the output alone |
| `DensityController.Update` | ros/src/vllm/src/vllm_node.cpp:87-88 | one update moves the threshold by at most one step and keeps a threshold in [10, 90] in [10, 90] |
| `DensityController.UpdateCases` | ros/src/vllm/src/vllm_node.cpp:87-88 | with fewer than 300 landmarks and a threshold above 10, the update is exactly -1. With more than 500 and a threshold below 90, it is exactly +1. With 300 to 500 landmarks it is 0, and at the bounds it is 0. The count conditions are disjoint, so at most one step fires |
| `DensityController.Settle` | ros/src/vllm/src/vllm_node.cpp:73-88 | over any sequence of passes, a threshold that starts in [10, 90] stays in [10, 90], and after k passes it is within k steps of where it started |
| `DensityController.FewLandmarksDescend` | ros/src/vllm/src/vllm_node.cpp:87 | k sparse frames in a row from a threshold a >= 10 leave max(10, a - k). So from 10, repeated sparse frames leave it at 10 |
| `DensityController.ManyLandmarksAscend` | ros/src/vllm/src/vllm_node.cpp:88 | k dense frames in a row from a threshold a <= 90 leave min(90, a + k). So from 90, repeated dense frames leave it at 90 |
| `DensityController.MainLoop` | ros/src/vllm/src/vllm_node.cpp:72-120 | after the loop, the threshold is `Settle` from 50 over all passes, within [10, 90]. The threshold handed to `setCriteria` in pass i is `Settle` over the passes before i only: it is 50 in the first pass, and in pass i + 1 it is pass i's threshold updated by pass i's landmark count. So a frame's own count is used only from the next frame on. `loop_count` ends at (number of passes) mod 50. The target cloud goes out in exactly the passes whose 1-based number is a multiple of 50, whether or not an image arrived, so it goes out (number of passes) / 50 times |
| `AccuracyFloat.Round32` | ros/src/vllm/src/vllm_node.cpp:87-88 | float rounding of `accuracy -= 0.01f` and `+= 0.01f` stays within 2^-25 of the exact result |
| `AccuracyFloat.StepIsFloatOfHundredth` | ros/src/vllm/src/vllm_node.cpp:87 | the literal `0.01f` is 10737418 * 2^-30, the float nearest to 0.01, within 2^-31 of it |
| `AccuracyFloat.FloatUpdate` | ros/src/vllm/src/vllm_node.cpp:87-88 | one float update stays in [0.05, 0.95] and moves by at most one rounded step |
| `AccuracyFloat.FloatRun` | ros/src/vllm/src/vllm_node.cpp:76-88 | the float threshold stays in [0.05, 0.95] over any sequence of frames, and once inside [0.10 - 0.01f - 2^-25, 0.90 + 0.01f + 2^-25] it stays there: as written it overshoots each guard by at most one rounded step |
| `AccuracyFloat.FloatFloorCrossed` | ros/src/vllm/src/vllm_node.cpp:73-87 | as written, any 41 sparse frames in a row from 0.5f leave exactly 24159240 * 2^-28, about 0.0900002, which is below 0.10. The first 40 of them leave exactly 26843594 * 2^-28, about 0.1000001803, which is still above the double 0.10, so the guard lets the 41st step through |
| `AccuracyFloat.FloatCeilingCrossed` | ros/src/vllm/src/vllm_node.cpp:73-88 | as written, any 41 dense frames in a row from 0.5f leave exactly 244276160 * 2^-28, about 0.9099996, which is above 0.90. The first 40 of them leave exactly 241591808 * 2^-28, about 0.8999996, which is still below the double 0.90 |
| `AccuracyFloat.HundredthsAreExactDecimal` | ros/src/vllm/src/vllm_node.cpp:87-88 | scaled by 1/100, `DensityController.Update` equals lines 87-88 computed in exact decimals |

## Left out

- Locking: only the flag/cursor flip in `push` is under the mutex. The slot
  fill is outside it. The model runs each `push` and `pop` as one atomic
  sequential step, with one producer and one consumer, and does not model the
  interleavings of the two threads or the mutex itself.
- Publisher.constructor: it states an initial state of cursor 0 with both
  flags clear. The header that declares these fields is not part of this
  model, so this initial state is assumed.
- `normalizePose`, `pcl::transformPointCloud`, `vllm::transformNormals`:
  their float matrix code is not part of this model. The model uses them as
  uninterpreted functions, so it proves nothing about orthonormality or about
  how normals transform.
- Slot storage: the source assigns the slot field by field, and writes the
  correspondences, the cloud and the normals through pointers held in the slot.
  The model assigns the whole slot value at once. A `pop` can run while
  these writes are in progress, but it reads the other slot, because the cursor
  flips only after the writes, under the lock (`Completed` states that the slot
  a pop reads is never the one under the cursor). The sequential model does not
  express that interleaving.
- Copy semantics: the model treats a `Publication` as a value, so what `pop`
  hands out is independent of the slot. Whether `pop`'s copy of the slot is deep
  depends on the `Publication` type, which is declared in a header that is not
  part of this model. If that copy shares the cloud, normals and correspondences
  buffers with the slot, then a later `push` into that slot rewrites them in
  place, and the consumer sees the new cloud under the old poses. The model does
  not capture that aliasing, and its "neither stale nor mixed" results hold only
  for what a pop returns at the moment it pops.
- `vllm_node` main: ROS setup, option parsing, subscribers and publishers, the
  `BridgeOpenVSLAM` and `System` calls, timing, logging and sleeping are left
  out. A pass of the loop is given as an input, either "no image" or "image
  with n landmarks". The loop is finite, so `ros::ok()` becomes the end of
  the input sequence.
- Float width: `DensityController` counts in exact hundredths, the arithmetic
  that the guards `> 0.10` and `< 0.90` of `vllm_node.cpp` lines 87-88
  presuppose. `AccuracyFloat` covers only the float values in [1/32, 1) that
  the controller can reach. It does not model float behaviour outside that range.
- `src/pangolin_viewer.cpp`: this is rendering. That includes its state-name
  switch and its skip of grid cells with fewer than 20 points.
- `vllm/src/core/config.hpp`: this is YAML loading and a floating-point
  Gram-Schmidt step.
- The statistical grid (GPD/LPD) is built in code that is not part of this
  model.

## Findings

| source | as written | input that shows it | evidently intended | confidence | as-written member | corrected member |
|---|---|---|---|---|---|---|
| ros/src/vllm/src/vllm_node.cpp:87 | `float accuracy` starts at `0.5f` and goes down by `0.01f` while `accuracy > 0.10` (a double). In single precision, 40 steps leave 26843594 * 2^-28, about 0.1000001803, which still passes the guard | 41 image frames in a row, each with fewer than 300 landmarks, from start-up | the threshold stops at 0.10, the bound that the guard `accuracy > 0.10` on line 87 sets; it ends at about 0.0900002 instead | medium, not executed. This assumes the float arithmetic is evaluated in single precision (IEEE, round to nearest even) | `AccuracyFloat.FloatFloorCrossed` | `DensityController.FewLandmarksDescend` |
| ros/src/vllm/src/vllm_node.cpp:88 | `accuracy` goes up by `0.01f` while `accuracy < 0.90`. 40 steps from 0.5f leave 241591808 * 2^-28, about 0.8999996, which still passes the guard | 41 image frames in a row, each with more than 500 landmarks, from start-up | the threshold stops at 0.90, the bound that the guard `accuracy < 0.90` on line 88 sets; it ends at about 0.9099996 instead | medium, not executed. Same assumption as above | `AccuracyFloat.FloatCeilingCrossed` | `DensityController.ManyLandmarksAscend` |
