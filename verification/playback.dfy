/**
 * The scene's playback state machine: the precomputed plan, the running flag, the dispatch
 * timer and the towers of disks, advanced once per animation frame, plus the user events
 * (start/stop toggle, reload, disk-count change) that drive it.
 */
module Playback {
  import opened Optional
  import opened Rods
  import opened Solver
  import opened TowerState
  import opened Keyframes

  /** Time between two dispatched moves. */
  const MovePeriod: nat := 1250

  /** The range the disk-count input is clamped to. */
  const MinDisks: nat := 3
  const MaxDisks: nat := 25

  /** A disk of the scene: its rank (creation index, 0 = largest) and its keyframe cursor. */
  datatype Disk = Disk(rank: nat, cursor: Cursor)

  datatype Player = Player(
    diskNb: nat,
    running: bool,
    animations: seq<Move>,
    timer: Option<nat>,
    towers: Towers<Disk>)

  // ----- disk ranks -----

  function Ranks(s: seq<Disk>): (r: seq<nat>)
    ensures |r| == |s|
    ensures forall i :: 0 <= i < |s| ==> r[i] == s[i].rank
  {
    seq(|s|, i requires 0 <= i < |s| => s[i].rank)
  }

  /** The logical tower state behind the scene's disks. */
  function RankTowers(t: Towers<Disk>): (r: Towers<nat>)
    ensures forall q :: r.Stack(q) == Ranks(t.Stack(q))
  {
    Towers(Ranks(t.a), Ranks(t.b), Ranks(t.c))
  }

  // ----- loading -----

  /** The disks the scene creates for n disks, all on rod A, rank i at height i. */
  function PrepDisks(n: nat): (s: seq<Disk>)
    ensures |s| == n
    ensures forall i :: 0 <= i < n ==> s[i] == Disk(i, Fresh)
  {
    seq(n, i requires 0 <= i < n => Disk(i, Fresh))
  }

  /**
   * The initial tower state of the scene is the puzzle's initial state, and disk i is
   * placed at the slot of row i in column 0: its index on rod A, on rod A's column.
   */
  lemma PreparedIsInitial(n: nat)
    ensures RankTowers(Towers(PrepDisks(n), [], [])) == Initial(n)
    ensures forall i :: 0 <= i < n ==> Towers(PrepDisks(n), [], []).Stack(A)[i].rank == i
  {
    var r := Ranks(PrepDisks(n));
    assert |r| == |Range(0, n)|;
    assert forall i :: 0 <= i < n ==> r[i] == Range(0, n)[i];
  }

  /** Load a puzzle of n disks: fresh plan, fresh disks on rod A, no pending dispatch time. */
  function Load(p: Player, n: nat): (r: Player)
    ensures r.diskNb == n && r.running == p.running
    ensures r.timer == None
    ensures r.animations == Simulate(n) && |r.animations| == Pow2(n) - 1
    ensures RankTowers(r.towers) == Initial(n)
    ensures forall q, i :: 0 <= i < |r.towers.Stack(q)| ==> r.towers.Stack(q)[i].cursor == Fresh
  {
    PreparedIsInitial(n);
    p.(diskNb := n, timer := None, animations := Simulate(n), towers := Towers(PrepDisks(n), [], []))
  }

  /** Load the puzzle again with the current disk count. */
  function Reload(p: Player): (r: Player)
    ensures r.diskNb == p.diskNb && r.running == p.running
    ensures r.timer == None && r.animations == Simulate(p.diskNb)
    ensures RankTowers(r.towers) == Initial(p.diskNb)
    ensures forall q, i :: 0 <= i < |r.towers.Stack(q)| ==> r.towers.Stack(q)[i].cursor == Fresh
  {
    Load(p, p.diskNb)
  }

  /** Loading forgets everything but the running flag: no plan, timer or disk state carries over. */
  lemma LoadForgetsHistory(p: Player, q: Player, n: nat)
    ensures Load(p, n) == Load(q, n).(running := p.running)
    ensures Load(Load(p, n), n) == Load(p, n)
    ensures Reload(Load(p, n)) == Load(p, n)
  {
  }

  function Start(p: Player): (r: Player)
    ensures r.running
    ensures r.(running := p.running) == p
  {
    p.(running := true)
  }

  function Stop(p: Player): (r: Player)
    ensures !r.running
    ensures r.(running := p.running) == p
  {
    p.(running := false)
  }

  /** Stopping and starting again gives back the running state untouched: timer and plan included. */
  lemma PauseResume(p: Player)
    requires p.running
    ensures Start(Stop(p)) == p
  {
  }

  /** The disk-count input, forced into [3, 25]. */
  function ClampDiskCount(v: int): (n: nat)
    ensures MinDisks <= n <= MaxDisks
    ensures MinDisks <= v <= MaxDisks ==> n == v
    ensures v < MinDisks ==> n == MinDisks
    ensures v > MaxDisks ==> n == MaxDisks
  {
    if v < 3 then 3 else if v > 25 then 25 else v
  }

  /** Clamping is idempotent and keeps the order of its inputs. */
  lemma ClampIdempotentMonotone(v: int, w: int)
    ensures ClampDiskCount(ClampDiskCount(v)) == ClampDiskCount(v)
    ensures v <= w ==> ClampDiskCount(v) <= ClampDiskCount(w)
  {
  }

  // ----- one move -----

  /**
   * Pop the top disk of the source rod, give it the three-keyframe arc, and push it on the
   * target rod. The source rod must not be empty (the scene would fail on the missing disk).
   */
  function Animate(t: Towers<Disk>, m: Move): (r: Towers<Disk>)
    requires t.Stack(m.source) != []
  {
    var src := t.Stack(m.source);
    var d := Last(src);
    var popped := t.With(m.source, src[..|src| - 1]);
    popped.With(m.target, popped.Stack(m.target) + [d.(cursor := SetTarget(d.cursor, Arc))])
  }

  lemma RanksPop(s: seq<Disk>)
    requires s != []
    ensures Ranks(s[..|s| - 1]) == Ranks(s)[..|s| - 1]
  {
  }

  lemma RanksPush(s: seq<Disk>, d: Disk)
    ensures Ranks(s + [d]) == Ranks(s) + [d.rank]
  {
  }

  /**
   * Animating a move changes the logical towers exactly as the plain move does, and the
   * moved disk ends at index `|target stack|` (the slot row the scene computes before the
   * push), restarted on the lift/traverse/lower arc.
   */
  lemma AnimateIsMove(t: Towers<Disk>, m: Move)
    requires t.Stack(m.source) != []
    ensures Apply(RankTowers(t), m).Ok?
    ensures RankTowers(Animate(t, m)) == Apply(RankTowers(t), m).value
    ensures m.source != m.target ==>
              && |t.Stack(m.target)| < |Animate(t, m).Stack(m.target)|
              && Animate(t, m).Stack(m.target)[|t.Stack(m.target)|].rank == Last(t.Stack(m.source)).rank
              && Animate(t, m).Stack(m.target)[|t.Stack(m.target)|].cursor.keys == Arc
              && Animate(t, m).Stack(m.target)[|t.Stack(m.target)|].cursor.keyIndex == 0
  {
    var src := t.Stack(m.source);
    var d := Last(src);
    var d' := d.(cursor := SetTarget(d.cursor, Arc));
    var popped := t.With(m.source, src[..|src| - 1]);
    RanksPop(src);
    RanksPush(popped.Stack(m.target), d');
    var rt := RankTowers(t);
    var rpopped := rt.With(m.source, Ranks(src)[..|src| - 1]);
    assert RankTowers(popped) == rpopped;
    assert RankTowers(Animate(t, m)) == rpopped.With(m.target, rpopped.Stack(m.target) + [d.rank]);
  }

  /** Where the moved disk lands: the target's height, less one when it was popped from that same rod. */
  function LandingRow(t: Towers<Disk>, m: Move): nat
    requires t.Stack(m.source) != []
  {
    if m.source == m.target then |t.Stack(m.target)| - 1 else |t.Stack(m.target)|
  }

  /** A disk kept in place by a move: every disk except the top of the source rod. */
  predicate Stays(t: Towers<Disk>, m: Move, q: Rod, i: int)
  {
    0 <= i < |t.Stack(q)| && (q == m.source ==> i < |t.Stack(q)| - 1)
  }

  /** Animating leaves every other disk where and as it was, and lands the moved one at its row. */
  lemma AnimateKeepsOthers(t: Towers<Disk>, m: Move)
    requires t.Stack(m.source) != []
    ensures LandingRow(t, m) < |Animate(t, m).Stack(m.target)|
    ensures Animate(t, m).Stack(m.target)[LandingRow(t, m)] ==
              Last(t.Stack(m.source)).(cursor := SetTarget(Last(t.Stack(m.source)).cursor, Arc))
    ensures forall q, i :: Stays(t, m, q, i) ==>
              i < |Animate(t, m).Stack(q)| && Animate(t, m).Stack(q)[i] == t.Stack(q)[i]
  {
  }

  // ----- per-frame disk updates -----

  function UpdateSeq(s: seq<Disk>, delta: nat): (r: seq<Disk>)
    ensures |r| == |s|
    ensures forall i :: 0 <= i < |s| ==> r[i] == Disk(s[i].rank, Update(s[i].cursor, delta))
  {
    seq(|s|, i requires 0 <= i < |s| => s[i].(cursor := Update(s[i].cursor, delta)))
  }

  /** Every disk on every rod takes one keyframe step; no disk changes rod or place. */
  function UpdateDisks(t: Towers<Disk>, delta: nat): (r: Towers<Disk>)
    ensures RankTowers(r) == RankTowers(t)
    ensures forall q :: |r.Stack(q)| == |t.Stack(q)|
    ensures forall q, i :: 0 <= i < |t.Stack(q)| ==>
              r.Stack(q)[i].cursor == Update(t.Stack(q)[i].cursor, delta)
  {
    var r := Towers(UpdateSeq(t.a, delta), UpdateSeq(t.b, delta), UpdateSeq(t.c, delta));
    assert Ranks(r.a) == Ranks(t.a) && Ranks(r.b) == Ranks(t.b) && Ranks(r.c) == Ranks(t.c);
    r
  }

  // ----- one frame -----

  /** The frame at time `delta` finds a move due: one is left and no dispatch time is pending or it has come. */
  predicate Due(p: Player, delta: nat)
  {
    |p.animations| > 0 && (p.timer == None || delta >= p.timer.value)
  }

  /** The frame at time `delta` dispatches a move. */
  predicate Dispatches(p: Player, delta: nat)
  {
    p.running && Due(p, delta)
  }

  /**
   * The frame at time `delta` fails: the due move's source rod is empty, so the popped disk
   * is missing. The failure comes after the move was taken off the plan.
   */
  predicate Throws(p: Player, delta: nat)
  {
    Dispatches(p, delta) && p.towers.Stack(p.animations[0].source) == []
  }

  /**
   * One animation frame. While stopped nothing changes, disk keyframes included. While
   * running, a due move is taken off the plan and animated, the next dispatch is set
   * 1250 later, and then every disk takes one keyframe step.
   */
  function Tick(p: Player, delta: nat): (r: Player)
    ensures !p.running ==> r == p
    ensures r.running == p.running && r.diskNb == p.diskNb
    ensures Dispatches(p, delta) ==> r.animations == p.animations[1..]
    ensures Dispatches(p, delta) && !Throws(p, delta) ==>
              && r.timer == Some(delta + MovePeriod)
              && Apply(RankTowers(p.towers), p.animations[0]).Ok?
              && RankTowers(r.towers) == Apply(RankTowers(p.towers), p.animations[0]).value
    ensures Throws(p, delta) ==> r.timer == p.timer && r.towers == p.towers
    ensures !Dispatches(p, delta) ==>
              r.animations == p.animations && r.timer == p.timer && RankTowers(r.towers) == RankTowers(p.towers)
    ensures p.running && !Dispatches(p, delta) ==>
              forall q, i :: 0 <= i < |p.towers.Stack(q)| ==>
                i < |r.towers.Stack(q)| && r.towers.Stack(q)[i].cursor == Update(p.towers.Stack(q)[i].cursor, delta)
    ensures Dispatches(p, delta) && !Throws(p, delta) ==>
              var m := p.animations[0];
              var d := Last(p.towers.Stack(m.source));
              && LandingRow(p.towers, m) < |r.towers.Stack(m.target)|
              && r.towers.Stack(m.target)[LandingRow(p.towers, m)].cursor == Update(SetTarget(d.cursor, Arc), delta)
              && forall q, i :: Stays(p.towers, m, q, i) ==>
                   i < |r.towers.Stack(q)| && r.towers.Stack(q)[i].cursor == Update(p.towers.Stack(q)[i].cursor, delta)
  {
    if !p.running then p
    else if Due(p, delta) then
      var m := p.animations[0];
      if p.towers.Stack(m.source) == [] then
        p.(animations := p.animations[1..])
      else
        AnimateIsMove(p.towers, m);
        AnimateKeepsOthers(p.towers, m);
        p.(animations := p.animations[1..],
           timer := Some(delta + MovePeriod),
           towers := UpdateDisks(Animate(p.towers, m), delta))
    else
      p.(towers := UpdateDisks(p.towers, delta))
  }

  /** The player after one frame at each of the times in `ds`, in order. */
  function Frames(p: Player, ds: seq<nat>): Player
    decreases ds
  {
    if ds == [] then p else Frames(Tick(p, ds[0]), ds[1..])
  }

  /** However many frames pass while stopped, nothing changes: plan, timer, towers and disk keyframes. */
  lemma {:induction false} StoppedFramesChangeNothing(p: Player, ds: seq<nat>)
    requires !p.running
    ensures Frames(p, ds) == p
    decreases ds
  {
    if ds != [] {
      StoppedFramesChangeNothing(Tick(p, ds[0]), ds[1..]);
    }
  }

  lemma {:induction false} FramesConcat(p: Player, xs: seq<nat>, ys: seq<nat>)
    ensures Frames(p, xs + ys) == Frames(Frames(p, xs), ys)
    decreases xs
  {
    if xs == [] {
      assert xs + ys == ys;
    } else {
      ConcatTail(xs, ys);
      FramesConcat(Tick(p, xs[0]), xs[1..], ys);
    }
  }

  /** A pending dispatch time never moves earlier while frames pass. */
  lemma {:induction false} TimerNeverDrops(p: Player, ds: seq<nat>, bound: nat)
    requires p.timer.Some? && p.timer.value >= bound
    ensures Frames(p, ds).timer.Some? && Frames(p, ds).timer.value >= bound
    decreases ds
  {
    if ds != [] {
      TimerNeverDrops(Tick(p, ds[0]), ds[1..], bound);
    }
  }

  // ----- user events -----

  datatype Event =
    | Frame(delta: nat)          // one animation frame at time delta
    | ToggleClick                // the start/stop button
    | ReloadClick                // the reload button
    | DiskCountInput(value: int) // a new value typed in the disk-count field

  /**
   * The page's listeners. The toggle flips only the running flag; reload stops and loads the
   * current count afresh; a disk-count input is clamped, and a changed count stops and loads,
   * while an unchanged one does nothing.
   */
  function Handle(p: Player, e: Event): (r: Player)
    ensures e.ToggleClick? ==> r.running == !p.running && r.(running := p.running) == p
    ensures e.Frame? ==> r == Tick(p, e.delta)
    ensures e.ReloadClick? ==> !r.running && r.timer == None && r.diskNb == p.diskNb
                               && r.animations == Simulate(p.diskNb)
                               && RankTowers(r.towers) == Initial(p.diskNb)
                               && forall q, i :: 0 <= i < |r.towers.Stack(q)| ==> r.towers.Stack(q)[i].cursor == Fresh
    ensures e.DiskCountInput? ==> r.diskNb == ClampDiskCount(e.value)
    ensures e.DiskCountInput? && r.diskNb != p.diskNb ==>
              !r.running && r.timer == None && r.animations == Simulate(r.diskNb)
              && RankTowers(r.towers) == Initial(r.diskNb)
              && forall q, i :: 0 <= i < |r.towers.Stack(q)| ==> r.towers.Stack(q)[i].cursor == Fresh
    ensures e.DiskCountInput? && r.diskNb == p.diskNb ==> r == p
  {
    match e
    case Frame(delta) => Tick(p, delta)
    case ToggleClick => if p.running then Stop(p) else Start(p)
    case ReloadClick => Reload(Stop(p))
    case DiskCountInput(v) => ChangeDiskCount(p, ClampDiskCount(v))
  }

  /** The disk-count change handler after clamping: a new count stops playback and loads afresh. */
  function ChangeDiskCount(p: Player, n: nat): Player
  {
    if n != p.diskNb then Load(Stop(p), n) else p
  }

  function RunEvents(p: Player, es: seq<Event>): Player
    decreases es
  {
    if es == [] then p else RunEvents(Handle(p, es[0]), es[1..])
  }

  /** The scene as the page leaves it: constructed (three disks, stopped) and loaded with three disks. */
  function Boot(): (r: Player)
    ensures !r.running && r.diskNb == 3
    ensures r.timer == None && r.animations == Simulate(3) && RankTowers(r.towers) == Initial(3)
    ensures forall q, i :: 0 <= i < |r.towers.Stack(q)| ==> r.towers.Stack(q)[i].cursor == Fresh
  {
    Load(Player(3, false, [], None, Towers([], [], [])), 3)
  }

  // ----- the playback invariant -----

  /** How many moves of the plan have been taken. */
  function Done(p: Player): nat
  {
    if |p.animations| <= |Simulate(p.diskNb)| then |Simulate(p.diskNb)| - |p.animations| else 0
  }

  /**
   * The remaining moves are a suffix of the plan for the current disk count, and the towers
   * are what replaying the moves taken so far from the initial state gives.
   */
  predicate Consistent(p: Player)
  {
    && |p.animations| <= |Simulate(p.diskNb)|
    && p.animations == Simulate(p.diskNb)[Done(p)..]
    && Replay(Initial(p.diskNb), Simulate(p.diskNb)[..Done(p)]) == Ok(RankTowers(p.towers))
  }

  lemma LoadConsistent(p: Player, n: nat)
    ensures Consistent(Load(p, n))
  {
    assert Simulate(n)[..0] == [];
  }

  /** From a consistent state the next due move always finds a disk, and the state stays consistent. */
  lemma TickConsistent(p: Player, delta: nat)
    requires Consistent(p)
    ensures !Throws(p, delta)
    ensures Consistent(Tick(p, delta))
  {
    if Dispatches(p, delta) {
      DispatchConsistent(p, delta);
    } else {
      var r := Tick(p, delta);
      assert r.diskNb == p.diskNb && r.animations == p.animations;
      assert Done(r) == Done(p);
    }
  }

  /** In a consistent state the due move is the plan's next one, and its source rod holds a disk. */
  lemma DispatchFinds(p: Player, delta: nat)
    requires Consistent(p) && Dispatches(p, delta)
    ensures Done(p) < |Simulate(p.diskNb)|
    ensures p.animations[0] == Simulate(p.diskNb)[Done(p)]
    ensures p.towers.Stack(p.animations[0].source) != []
  {
    var n, k, plan := p.diskNb, Done(p), Simulate(p.diskNb);
    PlanStepSucceeds(n, k);
    var before := Replay(Initial(n), plan[..k]).value;
    var m := plan[k];
    assert Ranks(p.towers.Stack(m.source)) == before.Stack(m.source) != [];
  }

  lemma DispatchConsistent(p: Player, delta: nat)
    requires Consistent(p) && Dispatches(p, delta)
    ensures !Throws(p, delta)
    ensures Consistent(Tick(p, delta))
  {
    DispatchFinds(p, delta);
    var n, k, plan := p.diskNb, Done(p), Simulate(p.diskNb);
    PlanStepSucceeds(n, k);
    var r := Tick(p, delta);
    assert r.animations == plan[k + 1..];
    assert Done(r) == k + 1;
  }

  /** Consistency does not depend on the running flag. */
  lemma ToggleConsistent(p: Player, b: bool)
    requires Consistent(p)
    ensures Consistent(p.(running := b))
  {
    var q := p.(running := b);
    assert q.diskNb == p.diskNb && q.animations == p.animations && q.towers == p.towers;
    assert Done(q) == Done(p);
  }

  lemma HandleConsistent(p: Player, e: Event)
    requires Consistent(p)
    ensures Consistent(Handle(p, e))
    ensures e.Frame? ==> !Throws(p, e.delta)
  {
    match e
    case Frame(delta) => TickConsistent(p, delta);
    case ToggleClick => ToggleClickConsistent(p);
    case ReloadClick => LoadConsistent(Stop(p), p.diskNb);
    case DiskCountInput(v) => InputConsistent(p, ClampDiskCount(v));
  }

  lemma ToggleClickConsistent(p: Player)
    requires Consistent(p)
    ensures Consistent(Handle(p, ToggleClick))
  {
    ToggleConsistent(p, !p.running);
    assert Handle(p, ToggleClick) == p.(running := !p.running);
  }

  lemma InputConsistent(p: Player, n: nat)
    requires Consistent(p)
    ensures Consistent(ChangeDiskCount(p, n))
  {
    if n != p.diskNb {
      LoadConsistent(Stop(p), n);
    }
  }

  /** A state the page can reach: consistent, with a disk count in the input's range. */
  predicate Reachable(p: Player)
  {
    Consistent(p) && MinDisks <= p.diskNb <= MaxDisks
  }

  lemma HandleReachable(p: Player, e: Event)
    requires Reachable(p)
    ensures Reachable(Handle(p, e))
  {
    HandleConsistent(p, e);
  }

  /** Whatever the user does and however frames arrive, the page stays in a reachable state. */
  lemma {:induction false} RunReachable(p: Player, es: seq<Event>)
    requires Reachable(p)
    ensures Reachable(RunEvents(p, es))
    decreases es
  {
    if es != [] {
      HandleReachable(p, es[0]);
      RunReachable(Handle(p, es[0]), es[1..]);
    }
  }

  /** No frame of any run from a reachable state pops an empty rod. */
  lemma NeverThrows(p: Player, es: seq<Event>, i: nat)
    requires Reachable(p)
    requires i < |es| && es[i].Frame?
    ensures !Throws(RunEvents(p, es[..i]), es[i].delta)
  {
    RunReachable(p, es[..i]);
    TickConsistent(RunEvents(p, es[..i]), es[i].delta);
  }

  /** From the page as loaded, every reachable state is consistent and no frame pops an empty rod. */
  lemma BootReachable(es: seq<Event>, i: nat)
    requires i < |es| && es[i].Frame?
    ensures Reachable(RunEvents(Boot(), es))
    ensures !Throws(RunEvents(Boot(), es[..i]), es[i].delta)
  {
    LoadConsistent(Player(3, false, [], None, Towers([], [], [])), 3);
    RunReachable(Boot(), es);
    NeverThrows(Boot(), es, i);
  }

  /**
   * In a consistent state every rod holds its disks largest-first, the disks on the rods are
   * exactly ranks 0 .. n-1, and once the plan is drained the tower stands on rod C.
   */
  lemma ConsistentIsStacked(p: Player)
    requires Consistent(p)
    ensures Stacked(RankTowers(p.towers))
    ensures RankTowers(p.towers).Contents() == multiset(Range(0, p.diskNb))
    ensures p.animations == [] ==> RankTowers(p.towers) == Solved(p.diskNb)
  {
    var plan := Simulate(p.diskNb);
    SimulateStaysStacked(p.diskNb, Done(p));
    if p.animations == [] {
      SimulateSolves(p.diskNb);
      assert plan[..Done(p)] == plan;
    }
  }

  /**
   * After a frame that dispatches a move without failing, no later frame dispatches before
   * 1250 has passed, whatever the frame times in between.
   */
  lemma DispatchSpacing(q: Player, d: nat, xs: seq<nat>, e: nat)
    requires Dispatches(q, d) && !Throws(q, d)
    requires Dispatches(Frames(Tick(q, d), xs), e)
    ensures e >= d + MovePeriod
  {
    TimerNeverDrops(Tick(q, d), xs, d + MovePeriod);
  }

  /** The events that leave the dispatch clock alone: frames and the start/stop toggle. */
  predicate KeepsClock(e: Event)
  {
    e.Frame? || e.ToggleClick?
  }

  lemma HandleKeepsTimer(p: Player, e: Event, bound: nat)
    requires KeepsClock(e) && p.timer.Some? && p.timer.value >= bound
    ensures Handle(p, e).timer.Some? && Handle(p, e).timer.value >= bound
  {
  }

  /** Over frames and toggles, a pending dispatch time never moves earlier or disappears. */
  lemma {:induction false} EventsKeepTimer(p: Player, es: seq<Event>, bound: nat)
    requires p.timer.Some? && p.timer.value >= bound
    requires forall k :: 0 <= k < |es| ==> KeepsClock(es[k])
    ensures RunEvents(p, es).timer.Some? && RunEvents(p, es).timer.value >= bound
    decreases es
  {
    if es != [] {
      HandleKeepsTimer(p, es[0], bound);
      assert forall k :: 0 <= k < |es[1..]| ==> es[1..][k] == es[k + 1];
      EventsKeepTimer(Handle(p, es[0]), es[1..], bound);
    }
  }

  lemma {:induction false} RunEventsConcat(p: Player, xs: seq<Event>, ys: seq<Event>)
    ensures RunEvents(p, xs + ys) == RunEvents(RunEvents(p, xs), ys)
    decreases xs
  {
    if xs == [] {
      assert xs + ys == ys;
    } else {
      ConcatTail(xs, ys);
      RunEventsConcat(Handle(p, xs[0]), xs[1..], ys);
    }
  }

  /** The events before j are the events before i, the event i, and the events strictly between. */
  lemma RunEventsSplit(p: Player, es: seq<Event>, i: nat, j: nat)
    requires i < j <= |es|
    ensures RunEvents(p, es[..j]) == RunEvents(Handle(RunEvents(p, es[..i]), es[i]), es[i + 1..j])
  {
    var before, after := es[..i], es[i + 1..j];
    assert es[..j] == before + ([es[i]] + after);
    RunEventsConcat(p, before, [es[i]] + after);
    RunEventsCons(RunEvents(p, before), es[i], after);
  }

  lemma RunEventsCons(p: Player, e: Event, rest: seq<Event>)
    ensures RunEvents(p, [e] + rest) == RunEvents(Handle(p, e), rest)
  {
    assert ([e] + rest)[0] == e && ([e] + rest)[1..] == rest;
  }

  /** The events strictly between i and j, taken as a run of their own, all leave the clock alone. */
  lemma BetweenKeepsClock(es: seq<Event>, i: nat, j: nat, between: seq<Event>)
    requires i < j <= |es| && between == es[i + 1..j]
    requires forall k :: i < k < j ==> KeepsClock(es[k])
    ensures forall k :: 0 <= k < |between| ==> KeepsClock(between[k])
  {
    forall k | 0 <= k < |between|
      ensures KeepsClock(between[k])
    {
      assert between[k] == es[i + 1 + k];
    }
  }

  /** A dispatching frame from a consistent state sets the next dispatch 1250 later. */
  lemma DispatchSetsClock(q: Player, d: nat)
    requires Consistent(q) && Dispatches(q, d)
    ensures Tick(q, d).timer == Some(d + MovePeriod)
  {
    TickConsistent(q, d);
  }

  /**
   * In a run from a reachable state, two frames that both dispatch a move are at least 1250
   * apart, provided only frames and start/stop clicks come between them.
   */
  lemma ReachableDispatchSpacing(p: Player, es: seq<Event>, i: nat, j: nat)
    requires Reachable(p)
    requires i < j < |es| && es[i].Frame? && es[j].Frame?
    requires forall k :: i < k < j ==> KeepsClock(es[k])
    requires Dispatches(RunEvents(p, es[..i]), es[i].delta)
    requires Dispatches(RunEvents(p, es[..j]), es[j].delta)
    ensures es[j].delta >= es[i].delta + MovePeriod
  {
    var q, d := RunEvents(p, es[..i]), es[i].delta;
    RunReachable(p, es[..i]);
    DispatchSetsClock(q, d);
    RunEventsSplit(p, es, i, j);
    assert Handle(q, es[i]) == Tick(q, d);
    BetweenKeepsClock(es, i, j, es[i + 1..j]);
    EventsKeepTimer(Tick(q, d), es[i + 1..j], d + MovePeriod);
  }

  /**
   * A reload clears the dispatch time: started, one move at time 0, reloaded and restarted,
   * the page dispatches again at time 1.
   */
  lemma ReloadRestartsClock()
    ensures Dispatches(Handle(Boot(), ToggleClick), 0)
    ensures Dispatches(Handle(Handle(Tick(Handle(Boot(), ToggleClick), 0), ReloadClick), ToggleClick), 1)
  {
    SimulateLength(3);
  }

  // ----- a run where a disk is moved again while a keyframe timer is pending -----

  const Untouched: Disk := Disk(0, Fresh)

  lemma StartedThree()
    ensures Handle(Boot(), ToggleClick) ==
              Player(3, true, Simulate(3), None, Towers([Untouched, Disk(1, Fresh), Disk(2, Fresh)], [], []))
  {
  }

  lemma FirstMoveAtZero()
    ensures Tick(Player(3, true, Simulate(3), None, Towers([Untouched, Disk(1, Fresh), Disk(2, Fresh)], [], [])), 0) ==
              Player(3, true, Simulate(3)[1..], Some(1250),
                     Towers([Untouched, Disk(1, Fresh)], [], [Disk(2, Cursor(Arc, 0, Some(250)))]))
  {
    ThreeDiskPlan();
  }

  lemma LiftDoneAt300()
    ensures Tick(Player(3, true, Simulate(3)[1..], Some(1250),
                        Towers([Untouched, Disk(1, Fresh)], [], [Disk(2, Cursor(Arc, 0, Some(250)))])), 300) ==
              Player(3, true, Simulate(3)[1..], Some(1250),
                     Towers([Untouched, Disk(1, Fresh)], [], [Disk(2, Cursor(Arc, 1, None))]))
  {
    ThreeDiskPlan();
  }

  lemma SecondMoveAt1250()
    ensures Tick(Player(3, true, Simulate(3)[1..], Some(1250),
                        Towers([Untouched, Disk(1, Fresh)], [], [Disk(2, Cursor(Arc, 1, None))])), 1250) ==
              Player(3, true, Simulate(3)[2..], Some(2500),
                     Towers([Untouched], [Disk(1, Cursor(Arc, 0, Some(1500)))], [Disk(2, Cursor(Arc, 1, Some(1750)))]))
  {
    ThreeDiskPlan();
    var before := Towers([Untouched, Disk(1, Fresh)], [], [Disk(2, Cursor(Arc, 1, None))]);
    var moved := Towers([Untouched], [Disk(1, Cursor(Arc, 0, None))], [Disk(2, Cursor(Arc, 1, None))]);
    assert Simulate(3)[1..][0] == Move(A, B);
    assert Animate(before, Move(A, B)) == moved;
    assert UpdateSeq(moved.a, 1250) == [Untouched];
    assert UpdateSeq(moved.b, 1250) == [Disk(1, Cursor(Arc, 0, Some(1500)))];
    assert UpdateSeq(moved.c, 1250) == [Disk(2, Cursor(Arc, 1, Some(1750)))];
    assert Simulate(3)[1..][1..] == Simulate(3)[2..];
  }

  lemma ThirdMoveAt2500()
    ensures Tick(Player(3, true, Simulate(3)[2..], Some(2500),
                        Towers([Untouched], [Disk(1, Cursor(Arc, 0, Some(1500)))], [Disk(2, Cursor(Arc, 1, Some(1750)))])), 2500).towers.Stack(B) ==
              [Disk(1, Cursor(Arc, 1, None)), Disk(2, Cursor(Arc, 1, None))]
  {
    ThreeDiskPlan();
  }

  /**
   * `setTarget` keeps a pending keyframe timer. Started with three disks and given frames at
   * 0, 300, 1250 and 2500, the smallest disk is moved again at 2500 while its earlier arc
   * still has a timer at 1750: the new arc's lift key expires on its first frame, and both
   * disks on rod B are already on their traverse key.
   */
  lemma StaleTimerSkipsLift()
    ensures Tick(Tick(Tick(Tick(Handle(Boot(), ToggleClick), 0), 300), 1250), 2500).towers.Stack(B)
              == [Disk(1, Cursor(Arc, 1, None)), Disk(2, Cursor(Arc, 1, None))]
  {
    StartedThree();
    FirstMoveAtZero();
    LiftDoneAt300();
    SecondMoveAt1250();
    ThirdMoveAt2500();
  }
}
