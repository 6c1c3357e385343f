# SSLA-S: one recurrence, many schedules

SSLA-S runs a stateful recurrence over a pixel grid. Every camera event stamps its pixel, goes through
four stages of two layers each, and at the boundary behind a stage a counter byte decides whether it is
dropped or passed on at half the resolution. The repository runs this computation sharded, staged,
locked, batched and rewritten. This project states the sequential loop once (`Sequential.ProcessOne`,
`Sequential.Run`) and proves what each of the fast forms keeps of it, for every event stream, every
network and every interleaving of the threads.

The layers of the model:

- `Geometry`, `Network`, `Sequential` - cells, layers with uninterpreted arithmetic (equality of results is
  equality of bits), and the event-at-a-time reference, which `EventMeaning` spells out. `Pipeline` holds the same
  pipeline as objects whose buffers are updated in place, and `Kernels` the layer kernels on row-major arrays.
- `Ownership`, `ShardedLayer`, `S3Machine` to `S3Loops` - the sharded scheme: producer, shards, sum thread
  and stage thread as a state machine over bounded rings; an invariant over all runs; refinement at
  markers; freedom from deadlock and a bound on every run; the sum thread's loops as loops.
- `Halo`, `Workers` - private replicas with overlapping strips, the router in front of them, and the worker
  that checks the drop byte before it computes.
- `Chain`, `S2Pipeline`, `S2Refinement` - the staged scheme. `S6Machine` to `S6Results` - shared memory under
  a lock for each cell, with atomic bytes; `S6Features` what flows through its layers, `S6Progress` its end,
  `S6Serial` its run with one shard, which is the sequential loop.
- `WarpLayer`, `CellBatches`, `CountingBatches`, `OracleLoops` - nine warps that own cells by residue mod 3,
  whole batches layer by layer with byte counters and with unbounded ones, and the loops of the CPU oracle;
  `DeepStages` sets them beside stages 2 and 3 of the sequential loop.
- `Spsc`, `BatchRing`, `TicketRing`, `TicketOverrun` - the rings, and the ticket ring overrun.
- `Tdrop`, `Gate`, `Matrices`, `Weights`, `FusedLayers`, `FusedNetwork`, `Topology` - the arithmetic of dropout,
  the gate approximation, the fused weights and kernels, the kernels as layers of the network, and the cutting of
  the grid into blocks.

Results that depend on the order of a sum (the partial sums of the sharded scheme, the gather of the warps)
hold for every commutative monoid; the fused kernels, the fused weights and the gate are over the reals.
Everything else holds for arbitrary layer functions.

`dafny verify dfyconfig.toml` checks the whole project.

Seven places where the obvious claim is false of the code, each with its exact condition:

- The sharded scheme is the sequential loop over the events all of whose positions some shard runs
  (`S3Refinement.SharedIsRun`), and for any stream it is the loop that leaves out the other positions
  (`S3Refinement.RefinesAtMarkers`). With at most sixteen shards these are all events except those in the last
  column when a layer has one position: the position goes to the owner of the next column, which is off the
  grid (`S3Refinement.WholeUpToSixteen`, `ShardedLayer.LastColumnIsLost`, and as a run of the machine
  `S3Termination.LastColumnRun`). For any shard count `ShardedLayer.ServedExactly` says which events they are,
  and `S3Refinement.LossExactly` when a loss shows. `docs/DEV_LOG.md` line 36 claims bit-equivalence with the
  single thread for all shard counts.
- The shard mask has 16 bits: the routed shards are the owners of a patch exactly as long as the last strip
  in use is below 16 (`Ownership.AffectedIsNonEmptyMask`).
- The ticket ring has no test for a full ring: every schedule delivers all records exactly when there are no
  more of them than slots (`TicketOverrun.DeliversExactly`), and a claim in any state can cost a record exactly
  when it runs a capacity ahead of the consumer (`TicketOverrun.ClaimExactly`).
- The batch with counters that never wrap is the oracle with bytes exactly when the window divides 256
  (`CountingBatches.CountingExactly`).
- The oracle of stages 2 and 3, and with it the batch, runs the layers of the sequential loop but drops by another
  rule: it counts an event on its own stage-2 cell, the loop on the pooled one. They decide alike on every stream
  exactly when the window is at most one (`DeepStages.DropRules`).
- Halo shards decide on drops as the whole does exactly when the strip width is even or there is one strip
  (`Halo.DecisionsAgreeExactly`).
- The strips of a block layout are equal, as the docstring of `_balanced_splits` says, only when the extent
  less two halos divides by the number of strips (`Topology.HowBalanced`).

## Model

| member | source | states |
|---|---|---|
| `Pipeline.Pipe.ProcessOne` | src/legacy/schemes/s2_decomp_st.cpp:139-176 | one event through the single-threaded pipeline, early returns included, leaves all buffers holding the next state of the reference loop |
| `Pipeline.Pipe.ProcessAll` | src/legacy/schemes/s2_decomp_st.cpp:178-180 | the loop over a stream leaves the buffers in the state of the reference run |
| `Pipeline.Pipe.Preprocess` | src/ssla_kernels.cpp:288-309 | the pixel is stamped with the event's time, nothing else changes, and the input feature is that of the time since the previous stamp, in units of 1e5 microseconds and clipped to [0, 1], or of 1 where there is none |
| `EventMeaning.InputIsClipped` | src/ssla_kernels.cpp:288-309 | the reference's input feature, case by case in the two times, with the event's polarity |
| `EventMeaning.FirstInput` | src/ssla_kernels.cpp:276-309 | after reset the first event of a pixel in any stream is fed the time difference 1 |
| `EventMeaning.NextInput` | src/ssla_kernels.cpp:288-309 | any other event of a stream is fed the clipped time since the latest event of its pixel |
| `Pipeline.Pipe.StageForward` | src/ssla_kernels.cpp:738-810 | both layers of a stage: hidden planes and output are those of the reference stage, other stages untouched |
| `EventMeaning.StageOutput` | src/ssla_kernels.cpp:738-810 | the output of every stage is the residual and norm of its second layer over the sum of that layer's in-grid positions, on what the same makes of the first layer |
| `EventMeaning.StageCells` | src/ssla_kernels.cpp:738-810 | in both layers the cell of each in-grid position takes that position's step on the layer's input, and no other cell changes |
| `Pipeline.Stage.ForwardStateOnly` | src/ssla_kernels.cpp:816-880 | leaving out the second layer's output changes no hidden cell |
| `Pipeline.Pipe.TdropAndPool` | src/ssla_kernels.cpp:903-921 | the byte of the pooled cell goes up by one modulo 256, and the event passes when the old byte is a multiple of the window (always for windows of at most one) |
| `Kernels.TouchByte` | src/ssla_kernels.cpp:912-921 | one touch changes one byte and reports the decision on its old value |
| `Pipeline.Pipe.HeadDecodeCell` | src/ssla_kernels.cpp:927-965 | exactly the prediction row of an in-grid cell is replaced |
| `Pipeline.PoolInGrid` | src/ssla_kernels.cpp:903-907 | on sensors whose sides are multiples of eight, pooling never leaves the grid of the next stage |
| `Geometry.PoolIsBlock` | src/ssla_kernels.cpp:903-907 | a pooled cell stands for a block of two by two |
| `EventMeaning.NextGrid` | src/ssla_kernels.cpp:903-912 | the grid behind a stage has a cell for every such block inside the grid of the stage |
| `Pipeline.NewPipe` | src/ssla_kernels.cpp:276-286 | a fresh pipeline holds the reset state, head rows decoded from a zero feature, with buffers of its own |
| `Pipeline.PrepopulateHead` | src/ssla_kernels.cpp:969-988 | the loops over the head grid leave in every row the decoding of the zero feature at its own cell, whatever stood there |
| `Kernels.LayerForward` | src/ssla_kernels.cpp:315-385 | in-place patches, interior or border order alike, give the reference plane and output: each in-grid cell of the window takes one recurrent step, no other cell changes |
| `Kernels.InteriorStateOnly` | include/ssla_fused_layers.h:367-388 | the state-only kernel leaves the plane the full layer leaves |
| `Kernels.ComputePatchIndices` | src/ssla_kernels.cpp:395-423 | for every event, interior or not, entry p is the flat index of position p's cell, or -1 exactly when that cell is off the grid |
| `Kernels.ShardLayerForward` | src/ssla_kernels.cpp:425-463 | a shard's kernel steps exactly the in-grid cells of its mask and returns the sum of their shares |
| `Network.PositionIsSpot` | src/ssla_kernels.cpp:372-376 | the position number of a touched cell is below the number of positions and leads back to the cell |
| `Network.SpotIsTouched` | src/ssla_kernels.cpp:372-376 | and the other way round: in-grid positions and touched cells are in bijection |
| `Network.GatherLocal` | src/ssla_kernels.cpp:340-385 | a layer's output depends on no hidden cell outside the event's window |
| `Ownership.ShardPatchMask` | src/legacy/schemes/s3_sharded.cpp:263-281 | the loop computes the set of positions whose column lies on the grid and in the shard's strip |
| `Ownership.CountShards` | src/legacy/schemes/s3_sharded.cpp:734-736 | the expected count is the number of routed shards |
| `Ownership.PatchOwnedOnce` | src/legacy/schemes/s3_sharded.cpp:263-281 | each in-grid patch belongs to exactly one shard's mask, an off-grid patch to none, for every width and shard count |
| `Ownership.ServedByRouted` | src/legacy/schemes/s3_sharded.cpp:244-281 | a position is run by some routed shard if and only if its column is on the grid and the owner of the column fits the mask |
| `Ownership.AffectedIsNonEmptyMask` | src/legacy/schemes/s3_sharded.cpp:244-258 | the routed shards are exactly those with a non-empty mask, for all columns, if and only if the last strip in use fits the 16-bit mask |
| `Ownership.ShardMonotone` | src/legacy/schemes/s3_sharded.cpp:246-253 | the shard of a column exists and never falls as the column grows |
| `Ownership.StripIsLeast` | src/legacy/schemes/s3_sharded.cpp:246-253 | a strip is the narrowest of which the shards cover the grid |
| `Ownership.ColumnInStrip` | src/legacy/schemes/s3_sharded.cpp:246-253 | a column of the grid belongs to the shard in whose strip it lies, any other to that of the nearest column |
| `ShardedLayer.TouchedIsOwned` | src/legacy/schemes/s3_sharded.cpp:749-758 | a touched position is run by some shard if and only if the writer of its cell is sent the event with that position in its mask |
| `ShardedLayer.OwnedIsWritten` | src/ssla_kernels.cpp:450-462 | a shard only works on cells it is the writer of |
| `ShardedLayer.ShardPlaneAgrees` | src/legacy/schemes/s3_sharded.cpp:301-337 | on its own cells a shard that did its share of the first e events holds what one shard with all the masks together would hold after e events, however far the other shards are |
| `ShardedLayer.PartialIsPiece` | src/legacy/schemes/s3_sharded.cpp:309-318 | so the partial it computes is its part of what that one shard computes |
| `ShardedLayer.OwnersCover` | src/legacy/schemes/s3_sharded.cpp:263-281 | the masks of the routed shards, inside the grid, make up exactly the in-grid positions with an owner |
| `ShardedLayer.PiecesMakeWhole` | src/legacy/schemes/s3_sharded.cpp:408-417 | the partials of the routed shards sum to the output of that one shard: no position that has an owner lost, none counted twice |
| `ShardedLayer.LastColumnIsLost` | src/ssla_kernels.cpp:433-447 | in the last column no mask of any shard has the position of a one-position layer: its plane stays and its sum is zero |
| `ShardedLayer.ServedExactly` | src/legacy/schemes/s3_sharded.cpp:263-281 | which events have all their in-grid positions run, for every width and shard count: the owners of the next column, or for wide layers of the three columns, have to fit the 16-bit mask, and the next column has to be on the grid |
| `ShardedLayer.ServedUpToSixteen` | src/legacy/schemes/s3_sharded.cpp:263-281 | with at most sixteen shards: all but the last column of one-position layers |
| `ShardedLayer.PlaneExactly` | src/ssla_kernels.cpp:433-462 | the shards together make the plane of the whole layer if and only if each in-grid position that nobody runs would have changed nothing |
| `ShardedLayer.WholeLayer` | src/ssla_kernels.cpp:425-463 | where all positions are run, sum and plane are those of the whole layer |
| `Sums.PickParts` | src/legacy/schemes/s3_sharded.cpp:414-415 | summing disjoint parts and then the parts is summing the whole, in any commutative monoid |
| `Sums.PickInsert` | src/legacy/schemes/s3_sharded.cpp:414-415 | a partial adds its value wherever it stands in the order of arrival |
| `S3Layers.LayerAppend` | src/legacy/schemes/s3_sharded.cpp:446-462 | a new pending entry keeps the account of partials |
| `S3Layers.LayerMatch` | src/legacy/schemes/s3_sharded.cpp:408-417 | a popped partial added to its entry keeps the account |
| `S3Layers.LayerDefer` | src/legacy/schemes/s3_sharded.cpp:418-427 | a partial that comes ahead of its entry is deferred without loss |
| `S3Layers.LayerRetry` | src/legacy/schemes/s3_sharded.cpp:471-482 | and a deferred partial is added once, when its entry is there |
| `S3Layers.LayerPop` | src/legacy/schemes/s3_sharded.cpp:513-543 | an entry that leaves the front with all partials counted is finalised to the planned output |
| `S3Steps.ComputePlane` | src/legacy/schemes/s3_sharded.cpp:311-314 | a shard's in-place update of the shared plane keeps every cell at its writer's progress |
| `S3Steps.StepCompute` | src/legacy/schemes/s3_sharded.cpp:302-337 | popping and running work keeps the invariant of the whole system |
| `S3Steps.StepPushWork` | src/legacy/schemes/s3_sharded.cpp:748-759 | so does handing the current event to the next shard |
| `S3SumSteps.StepDrainPartial` | src/legacy/schemes/s3_sharded.cpp:486-495 | so does draining a partial |
| `S3SumSteps.StepCascade0` | src/legacy/schemes/s3_sharded.cpp:502-544 | so does moving the front of the first pending list to the second, with its dispatch |
| `S3SumSteps.StepCascade1` | src/legacy/schemes/s3_sharded.cpp:577-601 | so does moving the front of the second list to the outbox |
| `S3SumSteps.StepDeliver` | src/legacy/schemes/s3_sharded.cpp:549-573 | so does delivering layer-1 work to one shard of the oldest dispatch |
| `S3Runs.StepInv` | src/legacy/schemes/s3_sharded.cpp:290-771 | every step of every thread keeps the invariant |
| `S3Runs.RunInv` | src/legacy/schemes/s3_sharded.cpp:290-771 | so it holds along every run |
| `S3Refinement.PlanIsRun` | src/legacy/schemes/s3_sharded.cpp:727-766 | the inputs the producer prepares, pushed through the planned layers in order, are the loop `SharedLoop`, in which stage 0 is run by one shard with all masks together |
| `S3Refinement.PlaneMatches` | src/legacy/schemes/s3_sharded.cpp:290-344 | when all partials of the issued events are in, the shared planes are the planned ones |
| `S3Refinement.RefinesAtMarkers` | src/legacy/schemes/s3_sharded.cpp:290-664 | in every run of every interleaving, for every shard count, when the reported marker is as late as the events pushed, stamps, planes, drop bytes, later stages and predictions are those of `SharedLoop` over exactly these events, and those of the sequential loop when every event has all its positions run |
| `S3Refinement.SharedIsRun` | src/legacy/schemes/s3_sharded.cpp:290-664 | `SharedLoop` is the sequential loop on every stream whose events have all their positions run |
| `S3Refinement.WholeUpToSixteen` | src/legacy/schemes/s3_sharded.cpp:244-281 | with at most sixteen shards an event has, if and only if both layers are wide or it is not in the last column |
| `S3Refinement.LossExactly` | src/legacy/schemes/s3_sharded.cpp:263-281 | one event leaves the first plane of the sequential loop if and only if no in-grid position that nobody runs would have changed its cell |
| `Commands.SeqNoCounts` | src/legacy/schemes/s3_sharded.cpp:761-771 | a marker carries the number of events pushed before it |
| `S3Progress.StuckIsFinished` | src/legacy/schemes/s3_sharded.cpp:382-398 | a reachable state in which no thread can step has nothing left anywhere, for every ring capacity |
| `S3Termination.StepScore` | src/legacy/schemes/s3_sharded.cpp:429-618 | every step raises a measure of the work done |
| `S3Termination.RunsFinish` | src/legacy/schemes/s3_sharded.cpp:429-618 | no run has more than (9n + 11) steps a command, and a run that cannot be extended has drained everything and holds the state of `SharedLoop` over the whole program, which is the sequential one when all positions are run |
| `S3Termination.EndReached` | src/legacy/schemes/s3_sharded.cpp:429-618 | every run can be extended to one that cannot |
| `S3Termination.LastColumnRun` | src/ssla_kernels.cpp:433-447 | one event in the last column under a one-position first layer: in every maximal run the first plane is untouched, the second gets the residual and norm of an empty sum, and the first plane is the sequential one if and only if the step of the event would have changed nothing |
| `S3Loops.DrainMeta` | src/legacy/schemes/s3_sharded.cpp:432-463 | a run of the machine that empties the meta ring; the pending list keeps its entries and grows by as many as the ring held |
| `S3Loops.RetryDeferred` | src/legacy/schemes/s3_sharded.cpp:471-482 | after the loop no deferred partial has an entry it could go to |
| `S3Loops.DrainPartials` | src/legacy/schemes/s3_sharded.cpp:485-495 | the loop leaves all partial rings empty |
| `S3Loops.CascadeAll` | src/legacy/schemes/s3_sharded.cpp:502-544 | a run of the machine in which entries leave the front until one is incomplete; rings, shards and deferred partials stay as they were |
| `S3Loops.DispatchAll` | src/legacy/schemes/s3_sharded.cpp:549-573 | dispatches go out in order, and stay only when a shard they have to reach has a full ring |
| `S3Loops.ShipAll` | src/legacy/schemes/s3_sharded.cpp:604-609 | the outbox empties or the stage ring is full |
| `S3Loops.SumPass` | src/legacy/schemes/s3_sharded.cpp:429-618 | one turn of the sum thread's loop is a run of the machine that always ends; it leaves both fronts incomplete, holds a dispatch or the outbox back only for want of room, and does nothing only if no step of the thread is enabled |
| `S3Loops.IdleIsStuck` | src/legacy/schemes/s3_sharded.cpp:429-618 | a turn that does nothing while no other thread can step is the end of the run, so the loops reach the states `RunsFinish` speaks of |
| `S3Loops.StagesPass` | src/legacy/schemes/s3_sharded.cpp:622-664 | the stage thread empties its ring by steps of the machine |
| `Halo.OwnerDelivered` | src/lib_stage0_capi.cpp:204-223 | the owner of a column is among the shards the event goes to |
| `Halo.RoutingComplete` | src/lib_stage0_capi.cpp:207-212 | looking at the strip and its two neighbours finds every covering shard, for all columns, if and only if the halo is at most a strip or there are at most two shards |
| `Halo.ConeDelivered` | src/lib_stage0_capi.cpp:203-212 | everything within two columns of an owned event reaches the owner if and only if halo and strips are at least two wide |
| `Halo.WholeIsSequential` | src/lib_stage0_capi.cpp:94-99 | the unsharded stage-0 run is stage 0 of the sequential loop |
| `Halo.ReplicaTracks` | src/lib_stage0_capi.cpp:94-96 | every replica agrees with the whole on stamps and layer 0 two columns, on layer 1 one column beyond its strip, after every stream |
| `Halo.OwnerIsExact` | src/lib_stage0_capi.cpp:69-110 | for every stream and every event in the sensor the owner's stage-0 output is that of the unsharded run, bit for bit |
| `Halo.OutIsReach` | src/lib_stage0_capi.cpp:94-99 | output and decision of stage 0 are what stage 1 of the sequential chain is sent |
| `Halo.OwnerFeedsNext` | src/lib_stage0_capi.cpp:94-105 | what the sequential run sends to stage 1 for an event, if anything, is the output of the owner's replica; with aligned strips the owner decides whether |
| `Halo.BytesAgree` | src/lib_stage0_capi.cpp:98-99 | a pooled cell all of whose columns one shard owns has the same byte there as in the unsharded run |
| `Halo.DecisionsAgreeExactly` | src/lib_stage0_capi.cpp:98-105 | owners take the unsharded pass/drop decision for every stream and event if and only if no pooled cell straddles two strips |
| `Workers.Router.SubmitBatch` | src/lib_stage0_capi.cpp:189-226 | every shard is sent exactly its messages, in stream order with the right owner flag; accepted and out-of-bounds events are counted |
| `Workers.Router.Route` | src/lib_stage0_capi.cpp:203-222 | one event is appended to the queues of its covering neighbours and to no other |
| `Workers.ZeroWorker` | src/lib_stage0_capi.cpp:76-109 | the stage-0 worker leaves the state of its message sequence; it reports the numbers of owned and halo messages on the sensor, and of the owned ones whose byte let them pass when they came |
| `Workers.ZeroCountsMean` | src/lib_stage0_capi.cpp:98-108 | the reported counts are the owned and the halo messages on the sensor; no more events pass than are owned |
| `Workers.ZeroCountsAre` | src/lib_stage0_capi.cpp:98-108 | the three counts as cardinalities of sets of messages |
| `Workers.CellPasses` | src/lib_stage0_capi.cpp:98-105 | cell by cell: the byte counts the owned messages modulo 256, and as many pass as that many touches of one byte let pass |
| `Workers.OneCellPasses` | src/lib_stage0_capi.cpp:98-108 | a queue whose owned messages lie on one pooled cell reports the passes of one byte |
| `Workers.OwnedOnce` | src/lib_stage0_capi.cpp:203-223 | over all shards every event on the sensor is owned exactly once |
| `Workers.PlainWorker` | src/lib_stage01_capi.cpp:91-134 | forward, then drop check: state and replies of a message sequence, and the four counters as numbers of its messages |
| `Workers.FastWorker` | src/lib_stage01_to_gpu.cpp:226-276 | drop check first, state-only where the output is not wanted: the same state, the same replies with the same features, the same counters |
| `Workers.TallyMeans` | src/lib_stage01_capi.cpp:113-133 | counters of owned and halo messages do not depend on the state; passes of the second boundary are among those of the first, these among the owned |
| `Workers.TallyAre` | src/lib_stage01_capi.cpp:109-133 | the counters as cardinalities: owned, halo, past the first boundary, past the second |
| `Workers.ServeReaches` | src/lib_stage01_capi.cpp:109-133 | an owner answers an event as dropped at the first boundary, at the second, or sent on, with that cell and feature, if and only if that is how far it comes in the sequential chain |
| `Workers.RepliesAreSequential` | src/lib_stage01_capi.cpp:109-133 | a shard that owns everything answers every event of a stream as the sequential run treats it |
| `Workers.ServeIsShardRun` | src/lib_stage01_capi.cpp:113-133 | running stage 1 for owned events does not disturb stage 0 |
| `Workers.OwnerOfAll` | src/lib_stage01_capi.cpp:109-133 | a shard that owns everything is the sequential loop up to the second boundary |
| `Chain.ProcessReach` | src/legacy/schemes/s2_pipeline.cpp:225-248 | the sequential event acts on a stage as the message that reaches it does |
| `S2Pipeline.ArriveFacts` | src/legacy/schemes/s2_pipeline.cpp:203-330 | what a stage sends on is what the next one gets; markers reach every stage; nothing comes from beyond a drop |
| `S2Pipeline.TakeOwn` | src/legacy/schemes/s2_pipeline.cpp:256-278 | the oldest message is the first that the sequential run has for this stage since its progress |
| `S2Pipeline.StepTake` | src/legacy/schemes/s2_pipeline.cpp:225-248 | processing a message keeps every stage on the sequential run, each at its own progress |
| `S2Pipeline.StepGive` | src/legacy/schemes/s2_pipeline.cpp:248-248 | passing it on through a bounded ring keeps it too |
| `S2Refinement.BitIdentical` | src/legacy/schemes/s2_pipeline.cpp:203-337 | in every interleaving, when the last marker of stage 3 is as late as the events pushed, the whole shared memory equals the sequential fold |
| `S2Refinement.DiesOnce` | src/legacy/schemes/s2_pipeline.cpp:228-242 | every event is consumed by exactly one stage of the chain |
| `S2Refinement.ConsumedOnce` | src/legacy/schemes/s2_pipeline.cpp:203-337 | at that marker each pushed event is in exactly one stage's account, once, and accounts are in order |
| `S2Refinement.StuckIsFinished` | src/legacy/schemes/s2_pipeline.cpp:333-337 | no deadlock for any capacity of at least one: a stuck system has run the program to its end with the sequential result |
| `S2Refinement.RunsFinish` | src/legacy/schemes/s2_pipeline.cpp:203-337 | no run has more than nine steps a command, and a maximal one holds the sequential result |
| `S6Steps.Exclusive` | src/ssla_kernels.cpp:556-569 | the lock of a cell admits one shard |
| `S6Steps.ActHidden` | src/ssla_kernels.cpp:567-569 | read, step and write under the lock keep every cell the fold of its log |
| `S6Steps.ActLog` | src/ssla_kernels.cpp:548-601 | every position an event has been through is in the log of its cell once |
| `S6Steps.ActBytes` | src/ssla_kernels.cpp:676-687 | an atomic increment keeps each byte equal to the number of events that touched it, and the passes to those it let through |
| `S6Steps.StepInv` | src/legacy/schemes/s6_full_locked.cpp:204-276 | every step of producer and shards keeps the invariant |
| `S6Results.NeverTwoInside` | src/ssla_kernels.cpp:548-572 | in no run are two shards inside the update of the same hidden cell |
| `S6Results.ExactlyOnce` | src/ssla_kernels.cpp:530-607 | at quiescence each hidden cell is the fold, in some order, of exactly one recurrent step for every event that reached the layer and whose window holds the cell, at the cell's position and with the event's own feature for the layer: the job's feature in layer 0, and behind each layer its residual and norm over the sum of what the positions emit from their cells just after the job's update |
| `S6Results.RowsDecoded` | src/ssla_kernels.cpp:689-735 | in every reached state each prediction row is what one of the jobs that decode there made of its own last feature, and an untouched one if none did |
| `S6Features.StepFed` | src/ssla_kernels.cpp:530-607 | every step keeps this account of features, in the logs and in the hands of the shards |
| `S6Results.EntriesEqual` | src/legacy/schemes/s6_full_locked.cpp:218-270 | any two accounts that explain their bytes let the same number of events into each stage at each cell, by induction over the stages |
| `S6Results.DropsScheduleFree` | src/legacy/schemes/s6_full_locked.cpp:207-276 | at quiescence every byte of all three boundaries and the number of its passes are those of the sequential run, under every schedule |
| `S6Progress.StuckIsQuiet` | src/legacy/schemes/s6_full_locked.cpp:204-276 | a reachable state without a step is quiescent: no deadlock of locks or full rings |
| `S6Progress.RunsFinish` | src/legacy/schemes/s6_full_locked.cpp:204-276 | no run has more than 301 steps an event, and a maximal one is quiescent |
| `S6Progress.RestReached` | src/legacy/schemes/s6_full_locked.cpp:204-276 | every run can be extended to quiescence |
| `S6Serial.StepFollows` | src/legacy/schemes/s6_full_locked.cpp:204-276 | with one shard every load, store, boundary and decode keeps the memory at a point of the sequential run |
| `S6Serial.OneShardIsRun` | src/legacy/schemes/s6_full_locked.cpp:204-276 | so at quiescence all hidden planes, bytes and predictions are those of the sequential loop over the stream, bit for bit |
| `WarpLayer.TargetMeaning` | orin/analyze_coalescing.py:35-40 | a warp's target lies in the event's window and in the warp's residue class |
| `WarpLayer.OwnerTargets` | orin/analyze_coalescing.py:30-34 | a cell is in the window if and only if it is the target of the warp that owns it |
| `WarpLayer.WarpsNeverMeet` | orin/analyze_coalescing.py:27-45 | two warps never have the same cell in hand, wherever they are in the batch |
| `WarpLayer.GatheredIsSum` | orin/analyze_coalescing.py:86-92 | the nine contributions of an event sum to the layer's gather |
| `WarpLayer.WarpsAreSequential` | orin/analyze_coalescing.py:86-92 | every complete interleaving of the nine warps over a batch gives the hidden cells and wanted outputs of the layer run event by event |
| `WarpLayer.RunsEnd` | orin/analyze_coalescing.py:86-92 | no interleaving of the warps over n events has more than 9 (2n + 1) steps |
| `WarpLayer.BarrierReached` | orin/analyze_coalescing.py:86-92 | and each can be extended to a complete one |
| `CellBatches.Flags` | orin/bench_s2_s3_head_celled.py:45-50 | drop decisions by bytes taken ahead of the layers are those taken one event at a time |
| `CellBatches.BatchIsOracle` | orin/bench_s2_s3_head_celled.py:53-86 | a batch with byte counters, layer by layer by warps, gives the planes, bytes, fates and features of the oracle |
| `CellBatches.StreamIsOracle` | orin/bench_s2_s3_head_celled.py:53-86 | so does any stream cut into batches of any sizes |
| `CountingBatches.CountingIsOracle` | orin/analyze_coalescing.py:73-142 | with counters that never wrap, as the batch code has them, and a window that divides 256, planes, fates and features are the oracle's, and the counters its bytes modulo 256 |
| `CountingBatches.CountingStreamIsOracle` | orin/analyze_coalescing.py:73-142 | so they are for any stream cut into batches |
| `CountingBatches.CountingExactly` | orin/analyze_coalescing.py:73-142 | the fates are the oracle's for every batch if and only if the window divides 256 |
| `CountingBatches.CountingExists` | orin/analyze_coalescing.py:73-142 | and every batch has a complete interleaving |
| `DeepStages.SameLayers` | orin/bench_s2_s3_head_celled.py:61-85 | one event: the oracle's layers 4 and 5 are stage 2 of the loop, its layers 6 and 7 stage 3 whenever both decide alike, and what it emits is what the loop decodes |
| `DeepStages.DropRules` | orin/bench_s2_s3_head_celled.py:71-83 | from fresh counters both take the same stage-2 decisions on every stream if and only if the window is at most one |
| `DeepStages.OracleIsStages` | orin/bench_s2_s3_head_celled.py:53-86 | then they leave the same planes on every stream |
| `OracleLoops.CpuOracle` | orin/bench_s2_s3_head_celled.py:53-86 | the loop on arrays computes the oracle's state and fates and counts both passes |
| `OracleLoops.OracleEvent` | orin/bench_s2_s3_head_celled.py:61-85 | one turn of it: four layers in place, two bytes, early leave on a drop |
| `OracleLoops.PastAre` | orin/bench_s2_s3_head_celled.py:56-85 | the two pass counts are the numbers of events not dropped at stage 2, and emitted |
| `OracleLoops.Decide2` | orin/analyze_coalescing.py:77-84 | the stage-2 loop computes the flags of counters that never wrap |
| `OracleLoops.Decide3` | orin/analyze_coalescing.py:113-121 | the stage-3 loop does so for the events that passed stage 2 |
| `OracleLoops.FlagsLikeBytes3` | orin/analyze_coalescing.py:113-121 | with a window that divides 256 the unbounded stage-3 counters decide as the bytes do |
| `OracleLoops.FlagsAgreeExactly` | orin/bench_s2_s3_head_celled.py:45-50 | unbounded and byte counters give the same stage-2 flags for every stream if and only if the window divides 256 |
| `Spsc.WrapSafe` | include/spsc.h:42-44 | consecutive items have their own slots across the wrap of the counters if and only if the capacity divides the modulus |
| `Arith.PowersDivide` | include/spsc.h:30-36 | which a power-of-two capacity does for every machine word |
| `Arith.PowerTest` | include/spsc.h:30-36 | the test n & (n - 1) finds exactly the powers of two |
| `Arith.MaskIsRemainder` | include/spsc.h:42-44 | and the mask n - 1 takes the remainder |
| `Spsc.NewRing` | include/spsc.h:30-36 | capacities below two or not powers of two are refused, all others give an empty ring |
| `Spsc.StepInv` | include/spsc.h:39-72 | every load and store of either side keeps the invariant |
| `Spsc.Refines` | include/spsc.h:39-72 | each access is a push, a pop or nothing on an abstract bounded queue |
| `Spsc.RunsAreFifo` | include/spsc.h:39-72 | in every interleaving and across any number of wraps the popped items are a prefix of the pushed ones, occupancy stays within capacity, and no live slot is written |
| `Spsc.SpscRing.TryPush` | include/spsc.h:39-46 | appends if there is room, and says so |
| `Spsc.SpscRing.TryPop` | include/spsc.h:65-72 | takes the oldest item, if any |
| `Spsc.SpscRing.Size` | include/spsc.h:75-79 | the difference of the wrapped counters is the occupancy |
| `BatchRing.Ring.TryPushBatch` | orin/orin/ring.py:108-129 | the longest prefix that fits is appended, in at most two slices that hit no live slot |
| `BatchRing.Ring.TryPopBatch` | orin/orin/ring.py:131-152 | the oldest items are taken in order, as many as fit the output, whose rest is untouched |
| `BatchRing.NewRing` | orin/orin/ring.py:58-70 | a capacity that is no power of two is an error |
| `TicketRing.RunsDeliver` | src/lib_stage01_to_gpu.cpp:278-311 | if no claim runs a capacity ahead, the consumer gets each claimed record whole and once, in ticket order, each worker's in its own order, and is never kept waiting once no worker is in the middle of a record |
| `TicketOverrun.DeliversExactly` | src/lib_stage01_to_gpu.cpp:288-309 | without that condition: every run that cannot be extended has delivered every record if and only if there are no more records than slots |
| `TicketOverrun.ClaimLoses` | src/lib_stage01_to_gpu.cpp:288-309 | in any state with a claim a capacity ahead of the consumer, the claim has a continuation after which the ticket a capacity back is never delivered |
| `TicketOverrun.ClaimExactly` | src/lib_stage01_to_gpu.cpp:288-309 | and only such a claim has |
| `TicketOverrun.LateClaimLoses` | src/lib_stage01_to_gpu.cpp:288-309 | an instance: two records of one field each in one slot, and the run that gets stuck |
| `Tdrop.PassesExactly` | src/ssla_kernels.cpp:912-921 | after n touches of a fresh byte exactly floor(n/256) ceil(256/w) + ceil((n mod 256)/w) events passed |
| `Tdrop.ByteLikeUnbounded` | src/ssla_kernels.cpp:916-920 | a byte decides like an unbounded counter, touch by touch, if and only if the window divides 256 or is at most one |
| `Tdrop.OneInWindow` | src/ssla_kernels.cpp:912-921 | ceil(n/w) of n events pass, for all n, if and only if w divides 256 |
| `Gate.PadeSlope` | include/ssla_neon_lru.h:51-56 | the rational approximation rises with slope at most one |
| `Gate.GateRange` | include/ssla_neon_lru.h:44-58 | the gate lies in [0, 1] and reaches both ends at the clamp |
| `Gate.GateSlope` | include/ssla_neon_lru.h:44-58 | it is monotone with slope at most a quarter |
| `Gate.GateSymmetric` | include/ssla_neon_lru.h:44-58 | the gate of -x is one minus the gate of x |
| `Gate.NeverApart` | include/ssla_neon_lru.h:60-64 | over any run two hidden states fed the same gates never move apart |
| `Gate.DriftBound` | include/ssla_neon_lru.h:38-43 | with gate error eps and states within B they differ by at most the initial gap plus n eps B |
| `Gate.InputDrift` | include/ssla_neon_lru.h:60-64 | gate inputs off by delta cost at most n delta B / 4 |
| `Gate.HiddenSolved` | include/ssla_neon_lru.h:60-74 | the recurrence solved: the start times all gates, plus each input times the gates after it |
| `Gate.LruStep` | include/ssla_neon_lru.h:65-79 | four channels at a time, in place: the new value is gate times old value plus input, the output is q times the new value; all of the old value is kept from 6 up, none of it from -6 down |
| `Matrices.ProductIsTwoSteps` | src/ssla_kernels.cpp:126-130 | a product of two matrices applied to a vector is the two applied one after the other |
| `Weights.LoadLayer` | src/ssla_kernels.cpp:73-142 | all positions are fused, as many as fill the longer side, or the load fails exactly when a shape is no multiple of the width; a block past the end of a matrix reads zeros |
| `Weights.BlocksExist` | src/ssla_kernels.cpp:90-108 | every position finds its block on both sides if and only if each side has one block or one for every position |
| `Weights.BlocksTile` | src/ssla_kernels.cpp:78-100 | the blocks fill their side, the positions the longer one |
| `Weights.QvgIsProjection` | src/ssla_kernels.cpp:126-129 | one product with the fused input matrix is the q, v and g projection of the scattered input, in the three row ranges, also where one block is shared |
| `Weights.GoIsGather` | src/ssla_kernels.cpp:130-130 | one product with the fused output matrix is the gather of the o projection |
| `Weights.GoTransposed` | src/ssla_kernels.cpp:135-141 | the second copy is its transpose |
| `Weights.Fill` | src/ssla_kernels.cpp:109-124 | the nested loops fill a row-major matrix entry by entry |
| `Weights.Mm` | orin/orin/weights_ssla.py:74-86 | rows times columns |
| `FusedLayers.RowDot4` | include/ssla_fused_layers.h:441-530 | four lanes and a paired reduction compute the dot product of a row |
| `FusedLayers.MatvecIn12` | include/ssla_neon_linear.h:51-99 | four outputs at a time, written over a bias or accumulated |
| `FusedLayers.GenericPatch` | src/ssla_kernels.cpp:340-351 | project, step the slice, add the output matrix times the gated state |
| `FusedLayers.FusedFits` | src/ssla_kernels.cpp:126-141 | the matrices that the loader fuses have the sizes the kernels ask for |
| `FusedLayers.PatchMeaning` | src/ssla_kernels.cpp:73-142 | with them a patch is the q, v and g projections of the scattered input, gate times old value plus v, and the gathered o projection of q times the new value |
| `FusedLayers.TiledPatch` | include/ssla_fused_layers.h:789-892 | tile by tile in place with the transposed output matrix: the same slice and the same sums as the generic patch |
| `FusedLayers.Walk` | include/ssla_fused_layers.h:537-598 | the nine offsets around an interior event are the cells of the nine positions, inside the array |
| `FusedLayers.GenericLayer` | src/ssla_kernels.cpp:315-385 | hidden array and output of the layer at an interior event |
| `FusedLayers.TiledLayerResidualFirst` | include/ssla_fused_layers.h:537-598 | the tiled layer, residual first, has the same hidden array and output as the generic one |
| `FusedLayers.TiledLayerResidualLast` | include/ssla_fused_layers.h:1179-1231 | the tiled layer with its input as residual, added last, has them too |
| `FusedLayers.WindowOnly` | include/ssla_fused_layers.h:441-598 | no channel of a cell outside the window changes, each channel inside takes one step of its position |
| `FusedNetwork.ForwardIsFused` | src/ssla_kernels.cpp:752-800 | under any reading of features and cells as vectors that makes a layer's arithmetic that of its weights, the kernels' output is the output of the layer of the network |
| `FusedNetwork.RefreshIsFused` | src/ssla_kernels.cpp:752-800 | and the array they leave holds its hidden plane |
| `FusedNetwork.FusedForward` | src/ssla_kernels.cpp:775-800 | so the tiled kernel, in place, is the layer that the pipeline runs at an interior event |
| `Topology.BalancedSplits` | orin/orin/multi_block.py:48-87 | the accumulated sizes are the strip boundaries, in all four cases |
| `Topology.BoundariesAscend` | orin/orin/multi_block.py:48-87 | boundaries rise from zero to the extent |
| `Topology.OneStrip` | orin/orin/multi_block.py:48-87 | strips tile the axis, and so do the halved strips of the next stage |
| `Topology.HowBalanced` | orin/orin/multi_block.py:62-86 | an end strip processes at most half the strip count more than a middle one, never less, and all the same if and only if the inner extent divides by the count |
| `Topology.Halves` | orin/orin/multi_block.py:59-61 | two strips are halves; they process the same number of cells if and only if the extent is even, or no wider than the halo and one |
| `Topology.NarrowStrips` | orin/orin/multi_block.py:65-68 | in the fallback all strips but the last are the same, and the last takes the rest |
| `Topology.GridTopology` | orin/orin/multi_block.py:90-125 | two, four or eight blocks in two columns, each from the top down, with owned and processing ranges; any other count is an error |
| `Topology.BlocksCover` | orin/orin/multi_block.py:305-309 | every cell of the stage-2 grid, and of the stage-3 grid by the shifted ranges, has an owning block |
| `Topology.BlocksDisjoint` | orin/orin/multi_block.py:305-309 | and only one |
| `Topology.RoutedWithinHalo` | src/lib_stage01_to_gpu.cpp:284-287 | a block that owns anything is sent exactly the events within two cells of a cell it owns |
| `Topology.BlocksFor` | src/lib_stage01_to_gpu.cpp:284-287 | the publishing loop finds every block whose window holds the event, once and in order |

## Left out

- Floating-point rounding: sums that change their order are over a commutative monoid, the fused kernels, the
  fused weights and the gate over the reals; the distance of the gate from the true logistic function is the
  parameter eps of the drift bound.
- Head decoding and layer normalisation are uninterpreted functions of their inputs. The head emits at stage 3
  only, as S2 and S3 assume.
- Sensors whose sides are not multiples of eight: pooling could then leave the next grid.
- Coordinates arrive as integers: the truncation of an event's float coordinates is done before the model.
- Memory orders weaker than sequential consistency. Each atomic access of the SPSC ring, the ticket ring and the
  lock scheme is a step of its own; in the thread schemes a ring operation is one step, which `Spsc.Refines` allows.
- Events of the sharded, staged and locked schemes are numbered by push order, markers by the number of events
  before them. The fields that record history (shard, from, log, low, entered, fin, claims, consumed, past) are read by
  no step.
- The producer of the sharded scheme, its shard threads and all threads of the staged and locked schemes are steps of
  a state machine, not loops on objects: what an interleaving leaves of a loop body is a step.
- The deferred partials are a set, because no two are equal; the order of retries does not matter.
- S3Refinement.RefinesAtMarkers: does not claim the sequential loop for streams with a position that nobody runs,
  for which it is false (`S3Refinement.LossExactly`). A mask bit past the width of the shifted type, for 32 shards and
  more, is taken as absent; in the code such a shift is undefined.
- Pipeline.Pipe.StageForward: runs the generic layer at interior events of stages 0 and 1, where the code dispatches
  to the fused kernels. Features are values without components there; that the nine-position kernels compute this
  very layer, in exact arithmetic, is `FusedNetwork.FusedForward`. The one-position kernel is a single patch
  (`FusedLayers.GenericPatch`).
- Halo.OwnerIsExact: does not cover stage 1, which halo shards never run, so that nothing is claimed there.
- TicketRing.RunsDeliver: does not drop its condition on claims, which is exact (`TicketOverrun.ClaimExactly`).
- S6Results.ExactlyOnce: does not give the order of a cell's updates, which depends on the schedule.
- S6Results.RowsDecoded: does not say which of the jobs at a cell wrote last, which depends on the schedule too. The row
  of a head cell is written in one step; events of the locked scheme arrive with their prepared features.
- Workers.FastWorker: does not push records to GPU rings; the ring is `TicketRing`, the choice of blocks
  `Topology.BlocksFor`.
- Weights.LoadLayer: reads zeros past the end of a matrix, where the code, for block counts that differ and are above
  one, reads whatever memory is there (`Weights.BlocksExist`); input projections and norms are not loaded.
- BatchRing.Ring.TryPushBatch: does not wrap its counters, which are 64 bits wide in the array that holds them.
- The `committed_seq` protocol of S6, end-of-file and shutdown paths, pacing, latency samples and statistics.
- The relaxed schemes S4, S5, S7 and S8, which give up global order by design.
- CUDA kernels, camera readers, display, argument parsing and the oracle file format.
- Prediction buffer sizes of the block layout.
