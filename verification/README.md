# PKDGRAV3: verified models

Dafny models of the parts of PKDGRAV3 whose correctness is hardest to see from the code, with proofs of what
those parts promise.  `dafny verify dfyconfig.toml` checks everything.

| file | what it models |
|---|---|
| `Kicks.dfy` | kicks and drifts as time intervals, rung steps, sync points |
| `NewKdk.dfy` | `Gravity` (kick tables, rung counts), `NewTopStepKDK`, `CheckForOutput`, the `Simulate` loop |
| `TopStep.dfy` | `UpdateRung` and the older scheduler `TopStepKDK` |
| `Hilbert.dfy` | the bit loops `hilbert2d` and `hilbert3d` at arbitrary depth |
| `HilbertOrder.dfy` | where the curve goes, by coordinates, and its symmetry |
| `TiledList.dfy` | the reference-counted, tiled interaction lists of `lst.c`/`lst.h` |
| `Pst.dfy` | the processor set tree: `SetAdd`, traversal, combining services, write offsets, file ranges |
| `ClassTable.dfy` | the particle class tables, gathered, merged, sorted and broadcast |
| `ParticleStore.dfy` | the `PARTITION` macro and its users, rejects, `pkdLocalOrder` |
| `AssignMass.dfy` | mass assignment to the periodic grid |
| `Splines.dfy` | the mass assignment weights as B-splines, and the grid cell by cell |
| `StarForm.dfy` | star formation, compaction, numbering of new particles, `AddDelParticles` |
| `Layout.dfy` | particle field layout and page rounding |
| `Arithmetic.dfy` | lemmas on quotients and remainders that `Pst` and `Layout` share |
| `Collections.dfy` | options, distinct elements, sizes of sets and numbers of elements with a property |

Times, masses and positions are exact (`real`), indices and counts are `nat` or `int`.  Code that updates objects
step by step is a class whose methods are proved against functions of the old state; large methods are split at the
points where an intermediate state can be stated (for instance `NewTopStepKDK` into the descent, the force call and
the second descent), and the whole is proved from the parts.

In `NewKdk` each particle carries the list of its kicks (interval, time of the forces used, opening or closing) and
the positions carry the list of drifts.  "Tiles" means that opening and closing kicks alternate, each starts where
the one before ended, both halves of a step have the same length, and each uses forces evaluated at its synchronised
end.  The force calculation is a contract: which rung a particle would like in which call is an arbitrary function,
clamped as the kernel clamps it.  What the outside world asks for at the end of a step is an arbitrary function too.

In `TiledList` memory is explicit: a tile's address is its index in the sequence of all tiles ever allocated, so
sharing and update in place are visible.  `Ok` is the invariant of the whole store.  The contents of a list are a
plain sequence; `Execute` is the refinement theorem for programs over several lists with nested checkpoints.
`Pst` treats the contexts in memory in the same way.

`{:induction false}` stands on lemmas whose proofs are written out or need no induction; many proofs `hide` the
definitions they do not need.  Both keep verification quick and even.

In `AssignMass` a grid is compared through every weighting of its cells; `CellsReceived` turns this into a statement
about each cell, `MassConserved` into the total.

## Where the code does not do what one would expect

* `UpdateRung`: a request for rung `MaxRung()` or deeper is neither scanned nor counted; the current maximum is right
  if and only if no active particle makes such a request (`TopStep.ScanFindsMaximumIff`), and `TopStepKDK` aborts
  right after the adjustment of a rung other than 0 if and only if every active particle does
  (`TopStep.AdjustAbortsIff`, with an instance in `TopStep.RequestForMaxRungCanAbort`).
* The truncation loop of `UpdateRung` never vacates the rung it names.  The threads' counts are added below the cap
  only, so after a pass the count at the cap is that of the first thread.  The loop ends if and only if every rung
  deeper than the adjusted one that the first thread uses is dense or has a deeper dense rung
  (`TopStep.TruncationEndsIff`), and then the current maximum is right if and only if the loop made no pass
  (`TopStep.TruncatedMaximumIff`, with an instance in `TopStep.TruncationCanEndTooLow`).
* A pending output request (a signal) that causes a checkpoint is consumed by it.  An output is then written for
  another reason in the same step only: an output time, a stop, the last step or a multiple of the interval
  (`NewKdk.RequestMattersIff`, with an instance in `NewKdk.RequestGivesCheckpointOnly`).
* A stop request is obeyed through a write only: the run ends if and only if outputs or checkpoints are configured, a
  checkpoint is asked for, or an output time is reached in that step (`NewKdk.StopObeyedIff`, with an instance in
  `NewKdk.StopCanBeMissed`; `NewKdk.Msr.Simulate` says when a whole run ends).
* `lstInitialize` does not set `nPrevious`; `lstCount` is right only after `lstClear`, or if the memory was 0
  (`TiledList.TileStore.Init`).
* `lstRestore` sets the counts in the header of the tile it cuts to even if that tile is also held outside.  No data is
  written, but its holder sees fewer items, except if the checkpoint has all items of the tile
  (`TiledList.RestoreSnapshotsIff`, with an instance in `TiledList.RestoreCanCutHeldTile`).
* With memory models without particle order, a particle keeps its meaning in the merged table if and only if no class
  of the machine sorts before the first class of its processor (`ClassTable.AllUnorderedKeepMeaningIff`).
* `pkdNewOrder` takes an `int`: beyond 2^31 - 1 new particles do not get the number the master meant, with one
  exception near the top (`StarForm.FitsIff`).  All orders are still different if and only if there are at most 2^32
  new particles and none of them gets the order of an old one (`StarForm.OrdersDistinctIff`; `StarForm.TakenIff` says
  which orders they get, `StarForm.LargeNumbersCollide` is an instance).  A particle can even get the mark of a new
  one as its order (`StarForm.NoneLeftNewIff`).
* The merge of the class tables does not test for room: it stays in its buffers if and only if the machine has at
  most 256 distinct classes (`ClassTable.SetAllClasses`).
* Mass assignment wraps an index once.  This is enough for all tree cells in the box if and only if the grid has more
  than order/2 cells per side (`AssignMass.WrapsOnceIff`).
* `SetAdd` splits properly at every level if and only if the threads are whole nodes or fit into one node
  (`Pst.AllProperIff`); with a smaller node at the end it comes to a split that leaves one side without threads
  (`Pst.SmallerNodeIsImproper`), and its request for the other side goes to the thread that is splitting, where the
  assert on one leaf fails.

## Model

| member | source | states |
|---|---|---|
| `Kicks.CloseDue` | master.cxx:2540-2559 | a closing kick from half a step before the end of an open step to its end leaves the particle's kicks alternating, tiling time and nothing open |
| `Kicks.OpenClosed` | master.cxx:2540-2559 | an opening kick of half a step on a closed particle makes the closing kick due exactly one step of its rung later |
| `Kicks.ExactlyOneKickCovers` | master.cxx:2540-2559 | when kicks tile and run forward, every instant between the first and the last kick lies in exactly one kick: no gap, no overlap |
| `Kicks.TiledOnce` | master.cxx:2540-2559 | kicks that tile and run forward cover each instant up to the velocity's time exactly once |
| `Kicks.SyncTimeIsMultiple` | master.cxx:3193 | sync point n of rung u lies n steps of that rung after the base time |
| `Kicks.SyncPointIsEven` | master.cxx:3188-3190 | every sync point of rung u is an even sync point of rung u+1, so the recursion starts on a sync point of the deeper rung |
| `Kicks.DriftContinues` | master.cxx:3192-3203 | a drift that starts at the common position time keeps the drifts contiguous |
| `NewKdk.KickedClosesAndOpens` | master.cxx:2540-2559 | one gravity call closes a due particle exactly at the end of its own step and reopens it on its new rung; without an opening kick the rung is left alone and the particle stays closed |
| `NewKdk.AllKicked` | master.cxx:2593-2602 | the same for all particles: those above the active rung are untouched, the active ones gain exactly the requested kicks and never leave the active set |
| `NewKdk.NewCountsMatch` | master.cxx:2603-2608 | replacing only the counts of the active rungs keeps the master's count of every rung right |
| `NewKdk.SwitchDeltaSteady` | master.cxx:1451-1470 | recomputing the base step after a step gives the same base step, except after step number nSteps10, where the opening kick is withheld |
| `NewKdk.Msr.KickTable` | master.cxx:2542-2559 | the kick factors are half a step of each rung from the active one on and zero above |
| `NewKdk.Msr.GravityOnAll` | master.cxx:2593 | particles on the active rungs get their kicks and new rungs, others stay; the returned counts are those of the new rungs |
| `NewKdk.FollowedTrans` | master.cxx:2593 | the rungs after two runs of force calculations one after another are those after all of them |
| `NewKdk.Msr.DeepestCount` | master.cxx:2597-2601 | the downward scan stops at the true maximum rung of all particles and its assert cannot fail |
| `NewKdk.Msr.Gravity` | master.cxx:2487-2620 | with an opening kick: all active particles opened at the current time, returned value and iCurrMaxRung are the maximum rung, counts right; without: returns 0, rungs and counts unchanged, all active particles closed |
| `NewKdk.Msr.CheckForOutput` | master.cxx:3091-3147 | the opening kick is withheld exactly when the step ends with a checkpoint or output or is step nSteps10; exact conditions of both flags; a pending request stays pending only if neither outputs nor checkpoints are configured and none is written |
| `NewKdk.RequestMattersIff` | master.cxx:3128-3144 | with a pending request an output is due exactly if it is due without one, or if outputs are configured, checkpoints are not, and no checkpoint was asked for; with outputs configured it is due exactly if the step is no checkpoint, or an output time, a stop, the last step or a multiple of the interval is reached |
| `NewKdk.DueMeans` | master.cxx:3128-3144 | checkpoint and output conditions in terms of requests and multiples of the intervals; a signal counts for an output only if it caused no checkpoint |
| `NewKdk.StopObeyedIff` | master.cxx:3128-3144 | a step with a stop request leads to a write, and so to the end of the run, if and only if outputs or checkpoints are configured, a checkpoint is asked for, or an output time is reached |
| `NewKdk.StopCanBeMissed` | master.cxx:3114-3144 | a concrete step in which a stop request is not obeyed, as neither outputs nor checkpoints are configured |
| `NewKdk.AsAskedMore` | master.cxx:3128-3144 | a step's snapshots added to those of the steps before it are again exactly the ones asked for, in order, and leave the earlier steps as they were |
| `NewKdk.RequestGivesCheckpointOnly` | master.cxx:3128-3144 | a concrete step in which a signal gives a checkpoint and no output |
| `NewKdk.Msr.NewTopStepKDK` | master.cxx:3150-3273 | for rung u >= 1 from a sync point s of rung u-1: ends at s + D/2^(u-1) - D/2^m with m the maximum rung at that moment, all particles of rung u or deeper due exactly at s + D/2^(u-1), whatever rungs the forces chose; for rung 0: time advances exactly D and all particles are closed there, and reopened unless the opening kick is withheld; every force call is at an odd multiple of its rung's step; positions stand at the current time; particles above rung u untouched; terminates |
| `NewKdk.Msr.StepToSync` | master.cxx:3188-3259 | up to the force call the time advances by exactly one step of rung u and the particles are reopened (or closed, if withheld) there |
| `NewKdk.Msr.DescendAndDrift` | master.cxx:3188-3203 | the first recursion followed by the drift of D/2^m, with m the maximum rung after the recursion, lands exactly on the next sync point of rung u with all particles due |
| `NewKdk.Msr.Descend` | master.cxx:3188-3266 | either recursion ends one smallest step before the next sync point, with all particles due there |
| `NewKdk.Msr.OpenIfPending` | simulate.cxx:204-206 | afterwards every particle has opened a step at the current time, whether or not the opening kick was pending |
| `NewKdk.Msr.ForcesAndKicks` | master.cxx:3217-3259 | at the sync point the due particles are closed and reopened; the opening kick is withheld exactly on rung 0 at step nSteps10 or with an output or checkpoint to be written, and on rung 0, but nowhere else, the outputs are decided; the active particles get the rungs they want then |
| `NewKdk.Msr.OneStep` | simulate.cxx:197-265 | one pass of the step loop: time advances by the base step; from the requests, the intervals and the step number it is stated outright which snapshots the step leaves (a checkpoint, an output, both in this order, or none), that each is taken at the end of the step with every velocity closed at the position time, and that the run stops exactly if one of them is written in a step with a stop request |
| `NewKdk.Msr.AdvanceStep` | simulate.cxx:202-220 | between steps either everything is closed and the opening kick pending, or everything is opened at the current time; a base step keeps this |
| `NewKdk.Msr.AdvanceAndWrite` | simulate.cxx:216-264 | the base step with everything that is written after it: the next opening kick is withheld exactly if something was written or the step is nSteps10 |
| `NewKdk.Msr.StepOn` | simulate.cxx:197-265 | one pass as part of a run: what the run has written is still exactly what was asked for, at the times the schedule gives, and the step stops the run exactly if a write of it carried a stop |
| `NewKdk.Msr.WriteAll` | simulate.cxx:252-264 | one snapshot for each pending flag, taken at the current synchronised state; it stops exactly if one of the flags carries a stop |
| `NewKdk.Msr.Simulate` | simulate.cxx:143-265 | for every run, rung choices and output requests: each particle's opening and closing kicks alternate and tile time, and with positive base steps cover every instant exactly once; every particle has the rung it chose in the force calculations, one after another; every step taken that is due for a checkpoint or output leaves one, and nothing else is written; each is synchronised and taken at the time the schedule gives its step; the run ends after a step before the last one exactly if a write of that step carried a stop; with a switched schedule it ends at the target time |
| `NewKdk.StaysOnTrack` | master.cxx:1451-1470 | from a start before the target times every base step is positive |
| `NewKdk.StepEnds` | master.cxx:1451-1470 | recomputing the base step from the time left and the steps left takes each step to the next of the equally spaced times |
| `NewKdk.SpacedEnds` | master.cxx:1451-1470 | the spaced times start at the first and end at the target time |
| `NewKdk.Arrives` | master.cxx:1459-1465 | the last step of a switched run ends at its target time |
| `NewKdk.NewRung` | gravity/grav2.cxx:173-179 | the rung the kernel gives: the wanted one where allowed, the active rung if that is deeper, and the deepest allowed one if the wanted rung is too deep |
| `NewKdk.DueAfterSubStep` | master.cxx:3188-3190 | particles left on the rung and those stepped deeper are all due at the same sync point |
| `TopStep.ScanFindsMaximumIff` | master.cxx:3011-3031 | after an adjustment the scan of rungs 0..MaxRung()-1 finds the maximum rung if and only if no active particle asked for rung MaxRung() or deeper |
| `TopStep.AdjustKeepsRung` | pkd.c:2654-2665 | an adjustment at rung u keeps exactly the active particles on rungs >= u, so the new maximum is at least u |
| `TopStep.AdjustAbortsIff` | master.cxx:3297-3350 | after an adjustment at rung u the scanned maximum lies below u, where the step of that rung aborts, if and only if u > 0 and every active particle asked for rung MaxRung() or deeper |
| `TopStep.RequestForMaxRungCanAbort` | master.cxx:3350 | a concrete active particle whose request leads to the abort |
| `TopStep.TruncationPassChangesNothing` | master.cxx:3019-3020 | with the deepest occupied rung as the cap a pass of the truncation loop moves no particle |
| `TopStep.TruncationEndsIff` | master.cxx:3010-3025 | for any number of threads and any threshold, the truncation loop ends if and only if every rung deeper than the adjusted one that the first thread uses is dense or has a deeper dense rung |
| `TopStep.TruncatedMaximumIff` | master.cxx:3010-3031 | when the loop ends, its rung is the deepest occupied one if and only if it made no pass: it never vacates a rung |
| `TopStep.TruncationCanEndTooLow` | master.cxx:3015-3031 | two concrete threads for which the loop ends at rung 0 while a particle stays on rung 2 |
| `TopStep.DescendOne` | pst.c:1483-1490 | a pass over a sparse rung the first thread does not use counts it as empty, because the tree adds counts below the cap only, and goes on at the next occupied rung |
| `TopStep.StillStuck` | pst.c:1483-1494 | a pass over a sparse rung the first thread uses finds the same rung again |
| `TopStep.CappedCount` | pkd.c:2654-2665 | a pass moves the particles deeper than the cap to the cap and keeps the counts of all rungs below it |
| `TopStep.DeepestIsMaximum` | master.cxx:3011-3013 | the scan gives the maximum rung when all rungs are below MaxRung() |
| `TopStep.AdjustEffect` | master.cxx:3285-3298 | an adjustment changes rungs of synchronous particles only, never their velocities, to the requested rung or the adjusted one |
| `TopStep.OddInBoth` | master.cxx:3303-3312 | the adjustments of the two halves of a step are all at odd multiples of the steps of their rungs, counted from the start of the whole step: no rung is adjusted where a rung above it begins its step |
| `TopStep.FollowedTrans` | master.cxx:3285-3312 | the rungs after two series of adjustments are those after both |
| `TopStep.OpenRung` | pkd.c:2283-2289 | the opening kick on one rung opens a step that ends one step of the rung later, with forces of its start |
| `TopStep.CloseRung` | pkd.c:2290-2296 | the closing kick with forces of the end of the step leaves the rung synchronous there |
| `TopStep.OpenKept` | master.cxx:3303-3349 | deeper steps leave the opened rung open and bring it forces evaluated at its end |
| `TopStep.Msr.Criteria` | master.cxx:3285-3296 | only active particles get a requested rung |
| `TopStep.Msr.UpdatePass` | pkd.c:2647-2669 | the particle loop computes the rung change of each active particle and the counts of the new rungs |
| `TopStep.Msr.UpdateRung` | master.cxx:2996-3031 | rungs, counts and current maximum after an adjustment (truncation threshold 0, for which the loop is not entered) |
| `TopStep.Msr.Adjust` | master.cxx:3285-3298 | the current maximum is right again; every active particle moves to the rung it asked for, or to the adjusted one if that is deeper; velocities and other particles stay |
| `TopStep.Msr.TopStepKDK` | master.cxx:3275-3363 | entered with all particles on rungs >= iRung synchronous at t, leaves them synchronous at t + dDeltaRung with positions there; the first kick of each opens a step of the rung it chose in the adjustment at the start (of its own rung without one); all rungs are those chosen in the adjustments made, one after another; after the first, adjustments are of deeper rungs at odd multiples of their steps, and with a particle deeper than iRung the next rung is adjusted in the middle of the step; kicks tile; terminates |
| `TopStep.Msr.OpenStepClose` | master.cxx:3302-3354 | the step without its adjustment: every particle first opens a step of its own rung, and all rungs follow the adjustments made |
| `TopStep.Msr.StepDeeper` | master.cxx:3303-3350 | the recursive part takes all deeper rungs one step of the rung on, with an adjustment of the next rung in the middle if there are particles on it or deeper; the first kick of each deeper particle opens a step of its own rung; the abort branch is unreachable |
| `TopStep.Msr.KickKDKOpen` | master.cxx:3302 | opens the particles of exactly one rung |
| `TopStep.Msr.KickKDKClose` | master.cxx:3354 | closes the particles of exactly one rung at the end of their step |
| `TopStep.Msr.Gravity` | master.cxx:3322-3337 | all particles from iKickRung on get forces at the current position time and a cleared request |
| `TopStep.Msr.ScanCounts` | master.cxx:3011-3013 | the scan of the counts finds the deepest occupied rung among those scanned |
| `TopStep.Msr.KickRung` | pkd.c:2283-2296 | only the particles of the rung are kicked, each with its stored acceleration |
| `TopStep.Msr.OpenAndStep` | master.cxx:3302-3349 | after the opening kick and the deeper steps the rung is still open, has forces of the end of its step, and everything deeper is synchronous there; every first kick opened a step of the particle's own rung |
| `Hilbert.CellOfKey3` | pkd.c:1106-1189 | for every depth k the cell is recovered from its 3D key, and keys are below 8^k |
| `Hilbert.KeyOfCell3` | pkd.c:1106-1189 | every number below 8^k is the key of the cell it decodes to: with CellOfKey3 a bijection |
| `Hilbert.Adjacent3` | pkd.c:1106-1189 | consecutive 3D keys are cells at Manhattan distance 1 |
| `Hilbert.Prefix3` | pkd.c:1106-1189 | the leading octal digits of a key are the key of the leading coordinate bits |
| `Hilbert.CurveEnds3` | pkd.c:1106-1189 | the curve starts in one corner and ends in a neighbouring corner |
| `HilbertOrder.VisitOrder3` | pkd.c:1106-1189 | by coordinates: for every depth k >= 2 and every key h, which of the 64 sub-octants the cell of h lies in, from the two leading octal digits of h |
| `HilbertOrder.SubOctants3` | pkd.c:1121-1187 | the first cell of sub-octant j of octant d, by coordinates, for all eight by eight: the order in which the curve visits the sub-octants of each octant |
| `HilbertOrder.SecondLevel3` | pkd.c:1121-1187 | the curve of depth 2, cell by cell |
| `HilbertOrder.Mirror3` | pkd.c:1106-1189 | run backwards, the curve is its own reflection: key 8^k - 1 - h is the cell of h reflected in z |
| `Hilbert.Level3d` | pkd.c:1121-1187 | one level of the word loop, swapping and complementing whole words, is one level of the recursive key |
| `Hilbert.Hilbert3d` | pkd.c:1106-1189 | the bit loop computes the recursive key of the coordinate bits, for every depth |
| `Hilbert.KeyFromIsKey3` | pkd.c:1106-1189 | shifting digits into an accumulator gives the positional key |
| `Hilbert.CellOfKey2` | pkd.c:1061-1101 | the cell is recovered from its 2D key |
| `Hilbert.KeyOfCell2` | pkd.c:1061-1101 | every number below 4^k is the key of the cell it decodes to |
| `Hilbert.Adjacent2` | pkd.c:1061-1101 | consecutive 2D keys are cells at Manhattan distance 1 |
| `Hilbert.Prefix2` | pkd.c:1061-1101 | the leading base-4 digits of a key are the key of the leading coordinate bits |
| `Hilbert.Level2d` | pkd.c:1075-1099 | one level of the 2D word loop is one level of the recursive key |
| `Hilbert.Hilbert2d` | pkd.c:1061-1101 | the 2D bit loop computes the recursive key, for every depth |
| `Hilbert.CurveEnds2` | pkd.c:1061-1101 | the 2D curve starts in one corner and ends in a neighbouring corner |
| `HilbertOrder.VisitOrder2` | pkd.c:1061-1101 | by coordinates: which of the 16 sub-quadrants the cell of h lies in, for every depth |
| `HilbertOrder.Mirror2` | pkd.c:1061-1101 | run backwards, the 2D curve is its own reflection |
| `Hilbert.KeyFromIsKey2` | pkd.c:1061-1101 | shifting 2D digits into an accumulator gives the positional key |
| `TiledList.TileStore.NewTile` | lst.c:54-82 | the top free tile if there is one, and only otherwise new memory, all zero; nobody else refers to the tile and all lists are as they were |
| `TiledList.TileStore.FreeTile` | lst.c:86-92 | one reference less; exactly the last one puts the tile on top of the free list; no list changes |
| `TiledList.TileStore.Extend` | lst.c:163-169 | a full list gets one more tile and keeps its contents |
| `TiledList.TileStore.Split` | lst.c:125-138 | the list gets a private copy of its shared last tile: same contents, other holders see the same items, all other lists untouched |
| `TiledList.ClonedItems` | lst.c:37-52 | copying the used blocks of a tile copies its items |
| `TiledList.TileStore.FindPrevious` | lst.c:132 | the walk to the tile before the last one ends and finds it |
| `TiledList.TileStore.Reposition` | lst.h:103-114 | afterwards the next item can be written: the last tile is private and not full, contents unchanged |
| `TiledList.TileStore.Append` | ilp.h:96-114 | exactly one item is added at the end; no data of a tile that somebody else refers to is written; other lists untouched |
| `TiledList.TileStore.ItemCount` | lst.h:99-101 | lstCount is the length of the contents |
| `TiledList.TileStore.TakeCheckPt` | lst.c:115-119 | the checkpoint stands for exactly the current number of items |
| `TiledList.FitsAfter` | lst.c:140-160 | a checkpoint fits every later state of the list that has at least as many items |
| `TiledList.TileStore.FindTile` | lst.c:144-152 | the search ends at the tile the checkpoint was taken in, and both asserts hold |
| `TiledList.TileStore.Restore` | lst.c:140-160 | exactly the items at the checkpoint, as a beginning of the contents; tiles dropped are given back, no data behind an outside reference is written, and outside holders see the same items if and only if nobody holds the tile it cuts to or the checkpoint has all its items |
| `TiledList.RestoreSnapshotsIff` | lst.c:151-159 | who holds the tile that is cut to keeps its items exactly when its counts do not change; all other holders keep theirs |
| `TiledList.RestoreCanCutHeldTile` | lst.c:154-155 | a concrete held tile that loses its item by a restore |
| `TiledList.RunExtends` | lst.c:140-160 | whatever a program does, a list with a checkpoint keeps what it had at it as a beginning |
| `TiledList.TileStore.Execute` | lst.c:108-189 | running any program of appends, clears, clones, references taken on all tiles of a list, references given back in any order and nested checkpoint/restore pairs, over any lists sharing the free list, has the meaning it has on plain sequences; a restore gives back the sequence at its checkpoint; the references held are exactly those the program still has, and their number follows from the items alone |
| `TiledList.TileStore.ExecuteNested` | lst.c:115-160 | a checkpoint, a program and a restore leave the list as it was at the checkpoint |
| `TiledList.TileStore.FreeChain` | lst.c:100-106 | each tile of the chain loses exactly one reference, nothing else changes |
| `TiledList.TileStore.Clear` | lst.c:108-113 | the list is empty on one private tile; other lists and holders untouched |
| `TiledList.TileStore.Clone` | lst.c:171-189 | the copy has the contents of the source and can be checkpointed if the source can, the source and all others are untouched |
| `TiledList.TileStore.Init` | lst.c:191-223 | a new empty list; its count is right if and only if nPrevious happened to be 0 |
| `TiledList.TileStore.Destroy` | lst.c:225-246 | the list is gone, others untouched; for the last list the final assert holds if and only if no tile is held outside, and then no memory is left |
| `TiledList.TileStore.HoldAll` | gravity/grav2.cxx:280-298 | references taken on every tile of a list change the contents of no list; they are as many as the items need tiles |
| `TiledList.TileStore.GiveBack` | gravity/grav2.cxx:273 | giving one of these references back, in any order, changes the contents of no list |
| `TiledList.Conservation` | lst.c:54-92 | all tiles = free + in lists + only held outside; a tile is free if and only if it has no references, and references are outside holds plus one if in a list |
| `TiledList.TilesOfList` | lst.h:103-114 | a list has as many tiles as its items need and no more: all but the last are full |
| `TiledList.NothingLost` | lst.c:86-106 | when all outside references have been given back, every tile is free or in a list |
| `TiledList.NoTileShared` | lst.c:54-92 | no tile is in two lists or twice in one: the tiles in lists are as many as the lists' lengths |
| `TiledList.AllFree` | lst.c:230-241 | with no list left all tiles are free exactly when nobody outside holds one |
| `TiledList.AppendItem` | ilp.h:98-113 | writing behind the last item of a tile and counting it appends it |
| `TiledList.NextBlock` | lst.h:106-111 | going on to the next block changes no item |
| `TiledList.CutItems` | lst.c:154-155 | setting the counts of a tile back leaves a beginning of its items |
| `TiledList.OthersContents` | lst.c:54-189 | an operation on one list leaves contents and count of every other list as they were |
| `TiledList.WhereTile` | lst.c:86-92 | free, in a list, and only held outside exclude each other and are decided by the references |
| `TiledList.TileStore.MakeRoom` | lst.h:106-112 | a full private tile moves on to its next block, or the list is extended; contents unchanged |
| `TiledList.TileStore.Relink` | lst.c:130-136 | the copy replaces the last tile in the chain and in the header |
| `Pst.SplitIsProper` | core/setadd.cxx:36-49 | with whole nodes or inside one node every split has at least one thread on each side, at least half above, and both sides are again such ranges |
| `Pst.ProperSplitIff` | core/setadd.cxx:36-46 | from the start of a node, one split of a range leaving the node is proper if and only if it holds two nodes' worth of threads |
| `Pst.SmallerNodeIsImproper` | core/setadd.cxx:32-60 | ten threads on nodes of four come to a split with an empty lower side |
| `Pst.AllProperIff` | core/setadd.cxx:32-60 | from the start of a node, every split the construction reaches has threads on both sides if and only if the threads are whole nodes or fit into one |
| `Pst.BuildIsUpperHeavy` | core/setadd.cxx:48-49 | in the built tree the upper half is never smaller than the lower one |
| `Pst.SplitIsBalanced` | core/setadd.cxx:36-49 | inside a node the upper half has as many threads as the lower one or one more; over whole nodes both halves are whole nodes and the upper one has at most one more |
| `Pst.NodesSplit` | core/setadd.cxx:36-46 | nodes a to b are split at node (a + b) / 2 |
| `Pst.HeightIs` | core/setadd.cxx:32-60 | the height of the tree is the logarithm of the number of nodes plus that of the threads in a node, each rounded up |
| `Pst.HeightInNode` | core/setadd.cxx:48-49 | inside a node the height is the logarithm of the number of threads, rounded up |
| `Pst.LowerHalfGetsFloor` | pst.c:314-322 | the lower half gets exactly the mean rounded down for each of its threads, the upper half the rest |
| `Pst.Machine.SetAdd` | core/setadd.cxx:32-60 | terminates; the contexts represent the balanced tree over exactly the given threads, each subtree contiguous from its own id, contexts of other threads untouched |
| `Pst.HalvesOf` | core/setadd.cxx:47-59 | nLower, nUpper, idUpper and pstLower of a context are those of its two subtrees |
| `Pst.Machine.Traverse` | TraversePST.cxx:23-28 | the leaf service runs once on each thread below, AtNode once for each whole node on its first thread when nodes have several threads |
| `Pst.Machine.Recurse` | TraversePST.cxx:44-49 | the request to the upper half and the call on the lower one serve each thread once |
| `Pst.WholeNode` | TraversePST.cxx:23-28 | a whole node lies on one side of every split, unless the range is that node |
| `Pst.Machine.TraverseCombine` | TraversePST.cxx:53-61 | the result is the fold over the tree, and for an associative operation that of all threads in order |
| `Pst.FoldIsInOrder` | TraversePST.cxx:53-61 | for an associative operation the shape of the tree does not matter |
| `Pst.Machine.CountN` | TraversePST.cxx:67-72 | the sum over all threads |
| `Pst.Machine.SetTotal` | pst.c:1337-1356 | every context stores the total of its threads; nothing else changes |
| `Pst.Machine.SetWriteStart` | pst.c:1359-1377 | each thread starts after the sum of the sizes of all lower-numbered threads |
| `Pst.Machine.WriteRegions` | master.cxx:1604-1607 | both passes together from the root: prefix sums of the local sizes |
| `Pst.Machine.AddWriteStart` | pst.c:455-469 | all threads below move by the same amount, others stay |
| `Pst.Machine.CompressASCII` | pst.c:471-502 | the bottom-up pass also gives each thread the prefix sum of the bytes before it, and the total |
| `Pst.ExactlyOneRegion` | pst.c:1359-1377 | every offset below the total lies in exactly one thread's region |
| `Pst.Machine.OneNodeReadInit` | pst.c:306-334 | the parts are those of the recursive split |
| `Pst.PartsCover` | pst.c:306-334 | the parts add up to all particles |
| `Pst.PartsBalanced` | pst.c:306-334 | each thread gets at least the floor of the mean and at most that plus the number of levels: the logarithms, rounded up, of the number of nodes and of the threads in a node |
| `Pst.PartsPositiveIff` | master.cxx:1417-1419 | the asserts on positive parts hold if and only if there are at least as many particles as threads |
| `Pst.Machine.ReadFile` | pst.c:352-429 | whatever nProcessors, each thread ends up with the same consecutive range of the file |
| `Pst.Machine.ReadAlone` | pst.c:394-424 | one thread reading for those below it hands each its range, its own read last |
| `Pst.Machine.OneNodeRead` | master.cxx:1401-1444 | the asserts pass exactly when there are enough particles, the final one on the total always |
| `Pst.Build` | core/setadd.cxx:36-49 | the recursion ends, with a contiguous tree over exactly the range; HeightIs gives its height |
| `Pst.Machine.AtNode` | pst.h:34 | the call on a context that owns a whole node of several threads |
| `Pst.Machine.OffNode` | pst.h:32 | the call on a context that spans several nodes |
| `Pst.PartsAtLeast` | pst.c:314-322 | with k particles for each thread below, each gets at least k |
| `Pst.PartsAtMost` | pst.c:314-322 | the excess over the mean grows by at most one for each level |
| `ClassTable.Pkd.SetClass` | pkd.c:796-826 | the asserts hold under exactly the stated condition, and then mass, softening and species read back are those given, for every memory model; fields the particle keeps hold the given values and its class 0 for them; other particles unchanged |
| `ClassTable.Pkd.FindOrAdd` | pkd.c:813-822 | the entry for a class, added only if it was not there |
| `ClassTable.Pkd.GetClasses` | pkd.c:828-833 | a copy of the table |
| `ClassTable.Pkd.SetClasses` | pkd.c:835-862 | the processor is renumbered to the new table; the asserts hold |
| `ClassTable.RenumberingKeepsMeaning` | pkd.c:835-862 | renumbering keeps mass, softening and species of every particle when the new table has all old classes |
| `ClassTable.UnorderedKeepsMeaningIff` | pkd.h:1035-1062 | without class numbers meaning is kept if and only if the first class of the new table is that of the old one |
| `ClassTable.AllUnorderedKeepMeaningIff` | master.cxx:1377-1385 | without class numbers all particles of the machine keep their meaning if and only if no class of any processor sorts before the first class of a processor that holds particles |
| `ClassTable.SameClassIff` | master.cxx:1377-1385 | with one class for each processor with particles, and none elsewhere, that is when they all have the same class |
| `ClassTable.UnorderedCanChangeMeaning` | pkd.h:1035-1062 | a concrete processor whose dark matter particle reads as gas after the merge |
| `ClassTable.Merge` | pst.c:1746-1754 | the union of two tables without duplicates; the loops, which do not test for room, stay in the buffer if and only if the union is not larger |
| `ClassTable.GetClasses` | pst.c:1728-1761 | over any tree: all merges stay in their buffers if and only if the processors below have at most 256 distinct classes, and then the result is these, each once |
| `ClassTable.SetClasses` | pst.c:1763-1779 | every processor below gets the table and renumbers |
| `ClassTable.SetAllClasses` | master.cxx:1377-1385 | the merges stay in their buffers if and only if the machine has at most 256 distinct classes, and then all processors end with the same table, by mass, then softening, then species, without duplicates, that holds all their classes and depends only on the set of classes; with class numbers every particle keeps its meaning |
| `ClassTable.SortSorts` | pkd.h:146-152 | sorting with the order of classes: ascending, same classes |
| `ClassTable.AscendingUnique` | pkd.h:146-152 | sorted tables with the same classes are equal |
| `ClassTable.Pkd.BuildMap` | pkd.c:840-850 | the map sends each old class to its place in the new table; its asserts hold |
| `ClassTable.Pkd.RenumberStore` | pkd.c:852-856 | every local particle gets the new number of its class |
| `ClassTable.TableCovers` | master.cxx:1383-1384 | the sorted union serves all processors |
| `ParticleStore.Store.Partition` | pkd.h:212-224 | for complementary predicates: in bounds and terminating, a permutation of the range, first side first, and the exact boundary is the number of particles of the first side |
| `ParticleStore.Store.Ends` | pkd.h:214-217 | the loops before the first swap stop at a pair of misplaced particles or at the boundary, with everything outside on its side |
| `ParticleStore.Store.Advance` | pkd.h:218-222 | the do-while loops without index tests stop inside the range |
| `ParticleStore.BoundaryIsCount` | pkd.h:207-224 | the boundary is determined by the contents of the range alone |
| `ParticleStore.Store.LowerPart` | pkd.c:1276-1285 | particles at or above the split first, exact boundary |
| `ParticleStore.Store.UpperPart` | pkd.c:1288-1297 | particles below the split first, exact boundary |
| `ParticleStore.Store.LowerPartWrap` | pkd.c:1300-1319 | for splits in rising order the particles between them come first, for falling order those outside; exact boundary |
| `ParticleStore.Store.UpperPartWrap` | pkd.c:1322-1341 | for splits in rising order the particles outside them come first, for falling order those between; exact boundary |
| `ParticleStore.Store.LowerOrdPart` | pkd.c:1344-1353 | particles from the order on first, exact boundary |
| `ParticleStore.Store.UpperOrdPart` | pkd.c:1356-1365 | particles below the order first, exact boundary |
| `ParticleStore.Store.ActiveOrder` | pkd.c:1368-1379 | the active particles are exactly the first nActive |
| `ParticleStore.Store.WeightWrap` | pkd.c:1234-1252 | on whichever side they are collected, nLow counts all local particles of the low side |
| `ParticleStore.Store.OrdWeight` | pkd.c:1255-1273 | likewise for a split in file order |
| `ParticleStore.Store.ColRejects` | pkd.c:1382-1398 | the rejected particles end at the top of the store in their order, the others stay, also when the two regions overlap |
| `ParticleStore.Store.ColOrdRejects` | pkd.c:1471-1476 | exactly the particles on the other side of the split are rejected and none is lost |
| `ParticleStore.SendHome` | pkd.c:1490-1493 | each swap puts a particle in its place for good and disturbs no placed one |
| `ParticleStore.Store.LocalOrder` | pkd.c:1484-1496 | terminates with at most as many swaps as misplaced particles; a permutation with particle i of order iMinOrder + i |
| `ParticleStore.AfterSplit` | pkd.c:1234-1273 | what one more partition achieves when all other particles are already on their sides: both counts are those of all local particles |
| `ParticleStore.NumberOfPermutation` | pkd.h:212-224 | permuting particles keeps how many have a property |
| `AssignMass.WeightsSumToOne` | core/aweights.hpp:23-55 | for orders 1 to 4 the weights are not negative and sum to 1 |
| `AssignMass.WeightsKeepPosition` | core/aweights.hpp:27-55 | for orders 2 to 4 the weighted mean of the cell centres is the position |
| `Splines.WeightsAreSplines` | core/aweights.hpp:23-55 | for orders 1 to 4 the weight of every cell is the B-spline of that order at the distance of the cell's centre, 0 for all other cells |
| `Splines.Spline3` | core/aweights.hpp:36-44 | the order 3 kernels are the pieces of the B-spline its recurrence defines |
| `Splines.Spline4` | core/aweights.hpp:45-55 | the order 4 kernels are the pieces of the B-spline its recurrence defines |
| `Splines.SecondMoment3` | core/aweights.hpp:36-44 | the second central moment of the order 3 weights is 1/4, wherever the position is in its cell |
| `Splines.Moments4` | core/aweights.hpp:45-55 | for order 4 the second central moment is 1/3 and the third 0 |
| `AssignMass.WeightsNearby` | core/aweights.hpp:23-55 | the cells used lie within order/2 of the cell of the position |
| `AssignMass.WeightsShift` | core/aweights.hpp:23-55 | shifting the origin by whole cells shifts the cells and keeps the weights |
| `AssignMass.WeightsInSubcube` | analysis/assignmass.cxx:115-120 | every index written for a particle between the corners lies in the subcube |
| `AssignMass.SubcubeWrappable` | analysis/assignmass.cxx:68-72 | with more than order/2 cells per side, every cell of the subcube of a tree cell in the box needs at most one wrap |
| `AssignMass.WrapsOnceIff` | analysis/assignmass.cxx:67-72 | one wrap is enough for the subcubes of all tree cells in the box if and only if the grid has more than order/2 cells per side |
| `AssignMass.CornerNeedsMore` | analysis/assignmass.cxx:67-72 | on a smaller grid the subcube at the upper corner of the box needs a second wrap |
| `AssignMass.Assign` | analysis/assignmass.cxx:43-54 | for every weighting of the cells, the block changes by the weighted sum over the particle's cells; indices in bounds, no negative cell |
| `AssignMass.Pkd.FlushMasses` | analysis/assignmass.cxx:67-79 | every cell of the buffer is added to its cell on the periodic grid; skipping empty cells loses nothing |
| `AssignMass.LocalIsGlobal` | analysis/assignmass.cxx:151-157 | working in a subcube does not change what a particle contributes |
| `AssignMass.Pkd.AssignNode` | analysis/assignmass.cxx:146-159 | all particles of the node contribute to the grid once |
| `AssignMass.Pkd.AssignHuge` | analysis/assignmass.cxx:127-144 | particle by particle for an enormous bucket; the truncation to int is the floor in the box |
| `AssignMass.Pkd.AssignMass` | analysis/assignmass.cxx:110-160 | the worklist terminates and, whatever the tree, the grid receives each particle below the root exactly once |
| `AssignMass.CellsReceived` | analysis/assignmass.cxx:110-160 | cell by cell the grid is the one direct assignment of each particle to the periodic grid gives |
| `Splines.CellGains` | analysis/assignmass.cxx:110-160 | each cell of the periodic grid gains, for every particle, its mass times the product of the three splines at the distances of the cell and its images |
| `Splines.ContributionAt` | analysis/assignmass.cxx:43-54 | what one particle gives one cell |
| `Splines.OneAxis` | analysis/assignmass.cxx:67-72 | along one axis the weights that wrap to a cell add up to the spline at its images |
| `AssignMass.MassConserved` | analysis/assignmass.cxx:110-160 | the total on the grid grows by exactly the mass of the particles |
| `AssignMass.IndexOk` | analysis/assignmass.cxx:50 | a cell of a block and its place in memory determine each other |
| `AssignMass.ScaleInGrid` | analysis/assignmass.cxx:132 | a position in the box is between 0 and nGrid + 1 in units of cells |
| `AssignMass.ReachesGrid` | analysis/assignmass.cxx:68 | with more than order/2 cells per side, every cell a particle in the box reaches is on the grid after one wrap |
| `AssignMass.ContributionTotal` | analysis/assignmass.cxx:43-54 | the contributions of one particle add up to its mass |
| `AssignMass.OwnSubcube` | analysis/assignmass.cxx:132-138 | the subcube of a single particle holds all its cells, and truncation is the floor |
| `AssignMass.SplitCell` | analysis/assignmass.cxx:122-126 | replacing a cell by its two children keeps the particles on the worklist and makes it smaller |
| `StarForm.Pkd.ScanOn` | pkd.c:2532-2589 | one particle of the scan, from one state of the scan to the next; the store is too small only if it is for the whole scan |
| `StarForm.Pkd.StarForm` | pkd.c:2532-2589 | terminates although it appends to the array it scans; fails exactly if the store is too small; the old particles consumed or kept in place, the new stars behind them, total mass conserved, reported numbers and mass right |
| `StarForm.MassMoves` | pkd.c:2562-2568 | mass only moves from gas to its star, also when the gas has less than a star's mass |
| `StarForm.MassesStayPositive` | pkd.c:2562-2568 | no mass becomes negative |
| `StarForm.FormsWithinCuts` | pkd.c:2535-2573 | a particle forms a star exactly if it is active gas, not below dDenMin, not expanding where that counts, not above dTMax, and the draw succeeds; the star has the smaller of the gas mass and dInitStarMass, the gas keeps the rest and is deleted exactly if that is below dMinGasMass; all other particles stay as they were |
| `StarForm.EveryStarHasItsGas` | pkd.c:2535-2573 | every star comes from one such gas particle, in the order of the particles |
| `StarForm.DeletionsAreCounted` | pkd.c:2569-2572 | the number reported as deleted is the growth of the number of deleted particles |
| `StarForm.ScanStar` | pkd.c:2532-2535 | the appended stars are looked at and change nothing |
| `StarForm.Pkd.NewParticle` | pkd.c:2676-2684 | appended with the mark of a new particle if there is room |
| `StarForm.Pkd.CompactOn` | pkd.c:2686-2744 | one particle of the loop: survivors so far stand at the front in order, and what is reported so far is right |
| `StarForm.Pkd.ColNParts` | pkd.c:2686-2744 | exactly the surviving particles, in order; reported changes and the number of active particles right |
| `StarForm.CountsBalance` | pkd.c:2701-2738 | the reported changes turn the old numbers of each species into the new ones when only gas was deleted |
| `StarForm.SurvivorAt` | pkd.c:2701-2738 | exactly the particles that are new or not deleted survive, each behind the survivors among the particles before it |
| `StarForm.ActiveBalances` | pkd.c:2701-2738 | the change of nActive turns the number of old active particles into that of the active survivors |
| `StarForm.MassOfSurvivors` | pkd.c:2701-2738 | the mass that disappears is that of the deleted particles |
| `StarForm.Pkd.NewOrder` | pkd.c:2746-2756 | new particles are numbered consecutively from the given start, as far as an int carries it |
| `StarForm.FitsIff` | pkd.c:2746-2753 | a particle gets the order the master meant if and only if it fits an int or lies in the top 2^31 of the 43-bit orders |
| `StarForm.LargeNumbersCollide` | pkd.c:2746-2753 | concrete particles where a new one gets the order of an old one |
| `StarForm.Msr.AddDelParticles` | master.cxx:3459-3503 | every processor keeps its survivors, N and the numbers of each species are those of the survivors, new orders continue over all processors |
| `StarForm.Msr.Starts` | master.cxx:3471-3490 | starting numbers and totals follow the reported changes |
| `StarForm.TotalsBalance` | master.cxx:3483-3490 | summed over processors the changes give the new totals |
| `StarForm.OrdersDistinctIff` | master.cxx:3483-3494 | over all processors the orders after the pass are different if and only if there are at most 2^32 new particles and none of them gets the order of an old one |
| `StarForm.TakenIff` | pkd.c:2746-2753 | which orders the new particles get, as a test on the order, the largest old order and the number of new particles |
| `StarForm.NoneLeftNewIff` | pkd.c:2746-2753 | no particle keeps the mark of a new one if and only if the numbering stops before the next number whose lower 32 bits are all ones |
| `StarForm.SameOrderIff` | pkd.c:2746-2753 | two numbers arrive as the same order exactly when they agree modulo 2^32 |
| `StarForm.OrdersDistinct` | master.cxx:3483-3494 | as long as they fit an int, all orders on all processors are different and none is left marked new |
| `StarForm.OrdersAscend` | master.cxx:3483-3494 | as long as they fit an int, new particles are numbered without gaps from nMaxOrder + 1 on, in the order of the processors and of their places |
| `StarForm.NumberedAt` | pkd.c:2750-2755 | the order of each particle: its own, or the start plus the number of new particles before it |
| `Layout.Particles.AddDouble` | pkd.c:140-152 | passes exactly if the offset is, or with no open hole can be made, a multiple of 8; the new field is aligned, disjoint from all others and inside the particle; exact size, hole and alignment afterwards |
| `Layout.Particles.AddInt64` | pkd.c:170-182 | likewise |
| `Layout.Particles.AddFloat` | pkd.c:155-167 | a single float fills the hole, which is then gone; otherwise a new field at the end |
| `Layout.Particles.AddInt32` | pkd.c:185-197 | likewise for integers |
| `Layout.Particles.AddStruct` | pkd.c:130-137 | a structure at an 8-byte boundary |
| `Layout.Particles.LayOut` | pkd.c:351-427 | for every sequence of requests: passes if and only if each assert holds in turn, and then all fields are pairwise disjoint, aligned and inside, and no byte is wasted but the four of a hole still open at the end |
| `Layout.AlignedInEveryParticle` | pkd.c:478 | with the rounded particle size every field of every particle in the store is aligned and inside its own particle |
| `Layout.Particles.RoundToPages` | pkd.c:484-490 | the store is a whole number of pages, holds at least the requested number besides the reserved particle, and no smaller such store fills whole pages |
| `Layout.GcdGivesLeast` | pkd.c:485 | the page size divided by the greatest common divisor is the least number of particles that fills whole pages |
| `Layout.FillingIsMultiple` | pkd.c:486-488 | every number of particles that fills whole pages is a multiple of the least one |
| `Layout.Gcd` | pkd.c:224-229 | the common divisors of the two numbers are the divisors of the result |

## Left out

- The MDL layer, MPI, threads, CUDA and SIMD: a service request is a call on the state of another processor.
- Floating-point rounding, the conversion of coordinates from float bits in the Hilbert keys (the model starts from the integer words), and cosmological kick and drift factors (taken as additive over time intervals).
- The gravity walk, smoothing, tree build and group finders: only what they do to rungs and kicks is modelled, as a contract.
- The dual tree (`bDualTree` is 0), light cones, linear species, group finding and analysis inside `NewTopStepKDK`; `iRungDT` and `iRungDD`.
- `Simulate` without gravity, with `bGravStep`, with gas, or with the older scheduler.
- NewKdk.Msr.Drift: records one position time for all particles; the drift of single particles is not modelled.
- NewKdk.Msr.Simulate: `iMaxRung` is at least 1 and there is at least one particle; the integer width of `1 << m` for rungs above 30 is not modelled.
- TopStep.Msr.TopStepKDK: requests are below `MaxRung()` and the truncation threshold is 0 (what happens otherwise is stated in separate lemmas on the adjustment); star formation, gas and cooling inside the step are left out.
- TopStep.Msr.Criteria: what the time step criteria ask for is an arbitrary function.
- Hilbert.Hilbert3d: the two leading bits of the machine words that the code ignores are any bits; the depth is a parameter where the code fixes 21.
- TiledList.TileStore.NewTile: pointers are indices into the memory of all tiles, the several areas of a tile are one array of records, all lists have the same tile geometry, and the widths of the 16- and 32-bit counters are not modelled.
- TiledList.TileStore.Clone: the pointer to the last tile is kept up to date during the copy; the code sets it at the end.  Source and target are different lists.
- TiledList.TileStore.Destroy: when the final assert of the code fails the program stops, and nothing is said about the memory.
- TopStep.TruncationEndsIff: requests are below `MaxRung()`; the loop is a sequence of states, as a method could not run it when it does not end.
- TiledList.TileStore.Execute: a list is not cleared or cloned into between its checkpoint and the restore, and not cloned onto itself.
- Other members of `lst.c` that only report memory use.
- Pst.Machine.SetAdd: the number of cores is the same on every node; addresses of contexts are indices.
- Pst.Machine.OneNodeReadInit: the truncation of a part to 32 bits is not modelled.
- Pst.Machine.ReadFile: reading and moving particles is recorded as the range each thread ends up with; `SwapAll` and `SwapClasses` are left out.
- The reductions of `pstCalcEandL`, `pstGetFFTMaxSizes` and `pstSetWriteSpeciesCounts`.
- ClassTable.GetClasses: when a merge would leave its buffer the model stops there; what the write beyond it does is not modelled.  All processors share one memory model.
- ClassTable.Pkd.SetClasses: only the call with `bUpdate`; swapping tables between processors is left out.
- ParticleStore.Store.SwapParticle: particles are copied as values, not byte by byte through the save area.
- ParticleStore.Store.LocalOrder: the orders are a permutation of the given range, which the code asserts only in part.
- The sums of weights in `pkdWeight`, `pkdSwapRejects` and `pkdSwapAll`.
- AssignMass.Pkd.AssignMass: positions and tree bounds are in the box, bounds contain their particles, 0 <= fDelta < 1 and the grid has more than order/2 cells per side (on smaller ones a second wrap would be needed, as stated in a lemma); the distributed grid and its cache are one array.
- AssignMass.Pkd.AssignNode: the buffer is cleared before use and not resized.
- StarForm.Pkd.StarForm: the random draw and the probability are an arbitrary answer for each particle; ages, timers, energies, softening and the class table of the star are left out.
- StarForm.Msr.AddDelParticles: only gas is deleted, which is what the code assumes.
- StarForm.Pkd.NewOrder: incrementing past the largest int wraps, where C leaves it undefined.
- Layout.Particles.LayOut: the order in which `pkdInitialize` asks for fields and the node layout are left out: any sequence of requests is covered.
- File formats, checkpoints on disk, logging, parameters, Python bindings, FFTs and power spectra.
