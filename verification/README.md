# Towers of Hanoi scene: playback core

This project models the core of a browser scene that animates the Towers of Hanoi. The
scene precomputes the whole move list with the recursive algorithm. It keeps the three rods
as stacks of disk objects. On every animation frame it dispatches at most one move. Two
dispatches are at least 1250 ms apart unless a reload or a disk-count change comes between
them: loading clears the pending dispatch time. Each moved disk is given a three-keyframe
arc (lift, traverse, lower) on a per-disk keyframe cursor. Installing the arc keeps a timer
the disk may still have pending, so with sparse frames the lift key can expire on the
dispatch frame itself (`StaleTimerSkipsLift`). A start/stop button, a reload button and a
disk-count field clamped to [3, 25] control playback.

The model is written in Dafny in six modules:

- `Rods`: the rods `A`, `B`, `C`, moves, and the column a rod is drawn in.
- `Solver`: the recursive move generator `Hanoi`, and the plan `Simulate(n)` from A to C
  through B. `SimulateWorklist` is an iterative version with an explicit frame stack, proved
  to produce the same moves.
- `TowerState`: the three stacks (generic in the element type), the pop/push of one move
  (`Apply`), and replaying a plan (`Replay`). Its main theorem is `SimulateSolves`: replaying
  the plan from the prepared scene never pops an empty rod and never puts a disk on a
  smaller one, and it ends with every disk on rod C in the original order.
- `Keyframes`: one disk's cursor: its keyframe durations, the current index, and the expiry
  time of the current keyframe.
- `Playback`: the scene's state record (disk count, running flag, remaining plan, dispatch
  timer, towers of disks). It covers loading, start/stop, the per-frame step `Tick`, and the
  page's event listeners. Its invariant `Consistent` says two things:
  - the remaining plan is a suffix of `Simulate(n)`;
  - the towers are the replay of the moves already taken.

  `BootReachable` shows that every event sequence from the page as booted keeps this
  invariant, so no frame ever pops an empty rod.

Disks are identified by rank, their creation index: rank 0 is the largest disk, created
first, at the bottom of rod A. A rod is well stacked when ranks increase from bottom to top.
`SortedMeansShrinking` connects this to the radii the scene gives the disks.

The model follows these behaviours of the code:

- `load` does not change the running flag. The reload button and the disk-count listener
  call `stop` first, and `Handle` does the same.
- Only `load` clears the dispatch timer. Stopping and starting keep it (`PauseResume`).
- Disk keyframes advance only while the scene is running: the `forEach(update)` calls sit
  inside the `if (this.running)` block (`StoppedFramesChangeNothing`).
- `setTarget` resets the keyframe list and index but keeps the disk's timer (`SetTarget`).
- A frame whose due move finds the source rod empty would fail. The move has already been
  taken off the plan. The failure happens when the missing disk is dereferenced, before the
  timer is set and before any disk update. `Tick` models this outcome, and the predicate
  `Throws` names the case. `NeverThrows` and `BootReachable` prove it never happens in
  a reachable state.
- The page boots by constructing the scene (three disks, stopped), calling `load(3)` and
  rendering one frame. That first frame does nothing because the scene is stopped
  (`Boot`).
- Frame times (`delta`) are natural numbers chosen by the environment. Nothing assumes they
  increase, except where a lemma states it (`NonDecreasing`).

## Model

| member | source | states |
|---|---|---|
| Solver.Hanoi | src/Hanoi.js:132-138 | The plan for n disks has exactly 2^n - 1 moves. |
| Solver.SimulateLength | src/Hanoi.js:128-143 | The scene's plan for n disks has 2^n - 1 moves, and it is empty exactly when n is 0. |
| Solver.MovesChangeRod | src/Hanoi.js:132-140 | Over three distinct rods, every generated move has a source different from its target. |
| Solver.MiddleMove | src/Hanoi.js:132-138 | The move at index 2^(n-1) - 1, exactly halfway, carries the largest disk from source to target. |
| Solver.ThreeDiskPlan | src/Hanoi.js:140 | The default three-disk scene plays A→C, A→B, C→B, A→C, B→A, B→C, A→C. |
| Solver.SimulateWorklist | src/Hanoi.js:128-143 | An iterative solver with an explicit worklist of pending sub-problems returns exactly the recursive plan. |
| Rods.Column | src/Hanoi.js:174 | A rod's column (its label's character code minus 65) lies in 0..2; it is 0 only for A and 2 only for C. |
| Rods.ColumnInjective | src/Hanoi.js:174-177 | Two rods share a column exactly when they are the same rod. |
| TowerState.Apply | src/Hanoi.js:179-192 | A move fails exactly when its source rod is empty, and the failure names that rod. |
| TowerState.ApplyMovesTop | src/Hanoi.js:179-192 | The source loses its top disk and the target gains it on top. The third rod is untouched, no disk appears or disappears, and a move onto the same rod changes nothing. |
| TowerState.SlotRowIsNewIndex | src/Hanoi.js:177-192 | The slot row computed before the pop (the target's height) is the index at which the moved disk ends up on the target. |
| TowerState.ReplayConcat | src/Hanoi.js:152-155 | Replaying two plans one after the other is replaying their concatenation, including where the first one fails. |
| TowerState.ReplayKeepsContents | src/Hanoi.js:179-192 | A successful replay keeps the multiset of disks on the rods. |
| TowerState.LegalMoveKeepsStacked | src/Hanoi.js:179-192 | A move that puts a disk only on a larger one or on an empty rod keeps every rod ordered. |
| TowerState.LegalRunStaysStacked | src/Hanoi.js:152-155 | Along a legal plan from an ordered state, every prefix replays successfully into an ordered state. |
| TowerState.HanoiReplay | src/Hanoi.js:132-138 | When the top n disks of a rod are exactly the ranks k..k+n-1, increasing up the rod, and every other disk on the rods has a smaller rank than k (is larger), the n-disk plan is legal throughout. It moves exactly those disks onto the target, in order, and leaves the rest untouched. |
| TowerState.Initial | src/Hanoi.js:237-249 | The prepared scene is ordered and holds exactly the ranks 0..n-1. |
| TowerState.Solved | src/Hanoi.js:140 | The goal state is ordered and holds the same disks as the prepared scene. |
| TowerState.SimulateSolves | src/Hanoi.js:128-143 | Replaying the scene's plan from the prepared scene is legal at every move and ends with all disks on C in the original order. |
| TowerState.PlanStepSucceeds | src/Hanoi.js:152-155 | Every move of the plan, taken after the moves before it, finds a disk on its source rod. |
| TowerState.SimulateStaysStacked | src/Hanoi.js:150-163 | Every intermediate state of the plan is ordered and holds exactly the ranks 0..n-1. |
| TowerState.SortedMeansShrinking | src/Hanoi.js:237-238 | Ranks increase up a rod exactly when the radii, proportional to n - rank, strictly decrease up that rod. |
| Keyframes.SetTarget | src/HanoiDisk.js:32-35 | A new arc installs its keys and restarts at index 0. The disk's timer is kept. |
| Keyframes.Update | src/HanoiDisk.js:37-54 | Past the last key nothing changes. Otherwise the first frame on a key starts its timer at delta + duration. The index advances, and the timer is cleared, exactly when the frame time reaches the timer. Nothing else changes. |
| Keyframes.Run | src/HanoiDisk.js:37-54 | Over any frames the key list is kept, the index never goes back, and it never runs past the end. |
| Keyframes.KeysTakeTheirTime | src/HanoiDisk.js:37-54 | With non-decreasing frame times, reaching key k takes at least the durations of the keys before it, counted from when the current key started. |
| Keyframes.ArcLastsItsDuration | src/Hanoi.js:185-189 | A move's arc of 250 + 500 + 250, installed on a disk with no running timer, completes no earlier than 1000 after its first frame. |
| Playback.PrepDisks | src/Hanoi.js:237-249 | The scene creates n disks on rod A, and the one at height i has rank i and a fresh cursor. |
| Playback.PreparedIsInitial | src/Hanoi.js:237-249 | The prepared disks, read as ranks, are the puzzle's initial state, and the disk at height i on rod A has rank i. |
| Playback.Load | src/Hanoi.js:106-114 | Loading sets the count, clears the timer, installs the full plan of 2^n - 1 moves and fresh disks on A, and keeps the running flag. |
| Playback.Reload | src/Hanoi.js:119-121 | Reloading keeps the count and running flag, clears the timer, and installs the full plan and the initial towers. Every disk has a fresh keyframe cursor, so no keyframe state carries over. |
| Playback.LoadForgetsHistory | src/Hanoi.js:106-121 | The result of a load depends only on the count and the running flag. Loading twice, or reloading after a load, changes nothing. |
| Playback.Start | src/Hanoi.js:256-257 | Starting sets the running flag and nothing else. |
| Playback.Stop | src/Hanoi.js:265-266 | Stopping clears the running flag and nothing else. |
| Playback.PauseResume | src/Hanoi.js:63-69 | Stopping and starting again restores the running state exactly, including plan and timer. |
| Playback.ClampDiskCount | src/Hanoi.js:76-85 | The clamped count lies in [3, 25] and equals the input when the input is in range. Below the range it is 3, above it is 25. |
| Playback.ClampIdempotentMonotone | src/Hanoi.js:78-83 | Clamping twice is clamping once, and clamping preserves order. |
| Playback.AnimateIsMove | src/Hanoi.js:173-193 | On ranks, animating a move is exactly the pop/push move. The moved disk lands at the slot row computed before the push, restarted on the three-key arc. |
| Playback.UpdateDisks | src/Hanoi.js:159-162 | A frame's disk updates keep every disk on its rod and place, and step every cursor once. |
| Playback.Tick | src/Hanoi.js:150-163 | While stopped a frame changes nothing. While running, a due move is dropped from the plan, applied to the towers, and sets the next dispatch at delta + 1250. A frame with nothing due keeps plan, timer and towers. A failing pop leaves towers and timer as they were. On a running frame with nothing due, every disk takes one keyframe step. On a dispatching frame, the moved disk lands at its slot row with `Update(SetTarget(c, Arc), delta)`, and every other disk keeps its place and takes one step `Update(c, delta)`. |
| Playback.StoppedFramesChangeNothing | src/Hanoi.js:150-163 | Any number of frames while stopped leave the whole state, disk keyframes included, unchanged. |
| Playback.FramesConcat | src/Hanoi.js:145-146 | Running two batches of frames one after the other is running their concatenation. |
| Playback.TimerNeverDrops | src/Hanoi.js:152-156 | Once a dispatch time is pending, no later frame moves it earlier or clears it. |
| Playback.Handle | src/Hanoi.js:58-91 | The toggle flips only the running flag. Reload stops playback and loads the current count afresh, with fresh cursors on every disk. A disk-count input sets the clamped count. A changed count stops playback and loads a fresh plan and towers with fresh cursors; an unchanged count does nothing. A frame event is one `Tick`. |
| Playback.Boot | src/index.js:6-10 | The page starts stopped with three disks loaded: the full seven-move plan, no pending dispatch time, ranks 0..2 on rod A, and fresh cursors on every disk. |
| Playback.LoadConsistent | src/Hanoi.js:106-114 | A freshly loaded scene satisfies the playback invariant. |
| Playback.TickConsistent | src/Hanoi.js:150-163 | From a state satisfying the invariant, a frame never meets an empty source rod and keeps the invariant. |
| Playback.HandleConsistent | src/Hanoi.js:58-91 | Every event keeps the playback invariant, and no frame event fails. |
| Playback.RunReachable | src/Hanoi.js:58-91 | Any sequence of events from a reachable state ends in a reachable state. |
| Playback.NeverThrows | src/Hanoi.js:179-184 | No frame of any event sequence from a reachable state pops an empty rod. |
| Playback.BootReachable | src/index.js:6-10 | From the booted page, every event sequence stays reachable and no frame pops an empty rod. |
| Playback.ConsistentIsStacked | src/Hanoi.js:150-163 | In every reachable state each rod is ordered and the disks are exactly ranks 0..n-1. Once the plan is drained, the tower stands on C. |
| Playback.DispatchSpacing | src/Hanoi.js:151-157 | After a frame that dispatches a move without failing, no later frame dispatches a move before 1250 more time has passed, whatever the frames in between. |
| Playback.AnimateKeepsOthers | src/Hanoi.js:177-192 | A move leaves every disk except the top of the source where and as it was, and lands the moved disk at the target's height with its cursor restarted on the arc. |
| Playback.EventsKeepTimer | src/Hanoi.js:63-69 | Over frames and start/stop clicks, a pending dispatch time never moves earlier or disappears. |
| Playback.RunEventsConcat | src/Hanoi.js:58-91 | Handling two batches of events one after the other is handling their concatenation. |
| Playback.ReachableDispatchSpacing | src/Hanoi.js:151-157 | In any event run from a reachable state, two frames that both dispatch a move are at least 1250 apart when only frames and start/stop clicks come between them. |
| Playback.ReloadRestartsClock | src/Hanoi.js:106-121 | Reloading clears the dispatch time: after a move at time 0, a reload and a restart, another move goes out at time 1. |
| Playback.StaleTimerSkipsLift | src/HanoiDisk.js:32-35 | From the booted page, started and given frames at 0, 300, 1250 and 2500, the smallest disk is moved again while a timer of its previous arc is pending. Its new lift key expires on the dispatch frame, so both disks on rod B are already on their traverse key. |

## Left out

- Rendering: the Three.js scene, camera, lights, orbit controls and renderer calls. The
  model keeps only the state they read.
- Geometry: slot coordinates, rod height, gap and disk size, and the 0.3 exponential
  smoothing of disk positions. These are floating-point values that no control decision
  depends on. A keyframe is modelled by its duration only, and a disk's radius by its
  rank (`SortedMeansShrinking`).
- DOM work: button labels and classes, writing the clamped value back into the input,
  `preventDefault`, and the resize listener.
- `parseInt`: the disk-count input is modelled as an integer. A non-numeric value (NaN)
  passes both comparisons unclamped in the code, and it is not modelled.
- `requestAnimationFrame`: the clock appears only as the `delta` of each frame. The first
  `render()` of the boot sequence gets no time, and the model treats it as a frame of a
  stopped scene.
- `clean()`, which empties the Three.js scene graph. The disk objects it removes are
  replaced by `load`.
- The `if (disk)` guard in `animate`: it comes after `disk.getPosition()`, so an empty
  pop fails before the guard is reached. The model follows that failure (`Throws`) and
  proves it unreachable.
- `HanoiRod`, `utility` and the bundler configuration: they are presentation or build
  code.
- Keyframes.ArcLastsItsDuration: assumes the disk has no keyframe timer pending when the arc
  is installed. That fails in some reachable runs, because `setTarget` keeps the timer; there
  the lift key can expire at once (`StaleTimerSkipsLift`), and the arc's duration is not
  bounded below.
- Keyframes.KeysTakeTheirTime: gives a lower bound only. How soon a key advances after
  its timer expires depends on when the next frame comes, which the environment controls.
