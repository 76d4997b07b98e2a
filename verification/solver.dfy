/** The recursive Towers of Hanoi move generator and an explicit-worklist equivalent. */
module Solver {
  import opened Rods

  /** 2 to the power n. */
  function Pow2(n: nat): (r: nat)
    ensures r >= 1
  {
    if n == 0 then 1 else 2 * Pow2(n - 1)
  }

  /**
   * The moves that carry the top `n` disks from `source` to `target` through `spare`:
   * first the `n - 1` smaller disks to the spare rod, then the disk itself, then the
   * `n - 1` smaller disks back on top of it.
   */
  function Hanoi(n: nat, source: Rod, target: Rod, spare: Rod): (r: seq<Move>)
    ensures |r| == Pow2(n) - 1
  {
    if n == 0 then []
    else Hanoi(n - 1, source, spare, target) + [Move(source, target)] + Hanoi(n - 1, spare, target, source)
  }

  /** The plan the scene plays: all disks from rod A to rod C, with B as the spare. */
  function Simulate(diskNb: nat): seq<Move>
  {
    Hanoi(diskNb, A, C, B)
  }

  /** The plan has 2^n - 1 moves, and none at all for zero disks. */
  lemma SimulateLength(n: nat)
    ensures |Simulate(n)| == Pow2(n) - 1
    ensures Simulate(n) == [] <==> n == 0
  {
    if n > 0 {
      assert Pow2(n) >= 2;
    }
  }

  /** Over three distinct rods, no generated move leaves a disk where it was. */
  lemma {:induction false} MovesChangeRod(n: nat, source: Rod, target: Rod, spare: Rod)
    requires Distinct(source, target, spare)
    ensures forall i :: 0 <= i < |Hanoi(n, source, target, spare)| ==>
              Hanoi(n, source, target, spare)[i].source != Hanoi(n, source, target, spare)[i].target
  {
    if n > 0 {
      MovesChangeRod(n - 1, source, spare, target);
      MovesChangeRod(n - 1, spare, target, source);
    }
  }

  /** The largest of the n disks moves exactly half way through the plan, straight from source to target. */
  lemma MiddleMove(n: nat, source: Rod, target: Rod, spare: Rod)
    requires n > 0
    ensures Pow2(n - 1) - 1 < |Hanoi(n, source, target, spare)|
    ensures Hanoi(n, source, target, spare)[Pow2(n - 1) - 1] == Move(source, target)
  {
    var left := Hanoi(n - 1, source, spare, target);
    assert Hanoi(n, source, target, spare) == left + [Move(source, target)] + Hanoi(n - 1, spare, target, source);
    assert |left| == Pow2(n - 1) - 1;
  }

  /** The default scene of three disks. */
  lemma ThreeDiskPlan()
    ensures Simulate(3) == [Move(A, C), Move(A, B), Move(C, B), Move(A, C), Move(B, A), Move(B, C), Move(A, C)]
  {
    assert Hanoi(1, A, C, B) == [Move(A, C)];
    assert Hanoi(1, C, B, A) == [Move(C, B)];
    assert Hanoi(1, B, A, C) == [Move(B, A)];
    assert Hanoi(2, A, B, C) == [Move(A, C), Move(A, B), Move(C, B)];
    assert Hanoi(2, B, C, A) == [Move(B, A), Move(B, C), Move(A, C)];
  }

  /** A pending piece of work in the iterative solver. */
  datatype Frame = Solve(n: nat, source: Rod, target: Rod, spare: Rod) | Emit(m: Move)

  /** The moves one frame stands for. */
  function FrameMoves(f: Frame): seq<Move>
  {
    match f
    case Solve(n, s, t, a) => Hanoi(n, s, t, a)
    case Emit(m) => [m]
  }

  /** A measure that every worklist step lowers: a Solve frame outweighs the three frames it splits into. */
  function FrameWeight(f: Frame): nat
  {
    match f
    case Solve(n, _, _, _) => 4 * Pow2(n) - 2
    case Emit(_) => 1
  }

  /** The moves a worklist still stands for, first frame first. */
  function Expand(work: seq<Frame>): seq<Move>
  {
    if work == [] then [] else FrameMoves(work[0]) + Expand(work[1..])
  }

  function Weight(work: seq<Frame>): nat
  {
    if work == [] then 0 else FrameWeight(work[0]) + Weight(work[1..])
  }

  /** A worklist with a frame in front stands for that frame's moves, then the rest. */
  lemma ExpandCons(f: Frame, rest: seq<Frame>)
    ensures Expand([f] + rest) == FrameMoves(f) + Expand(rest)
    ensures Weight([f] + rest) == FrameWeight(f) + Weight(rest)
  {
    assert ([f] + rest)[0] == f;
    assert ([f] + rest)[1..] == rest;
  }

  /** The three frames a Solve frame of n > 0 disks is replaced by, in front of the rest. */
  function Split(n: nat, s: Rod, t: Rod, a: Rod, rest: seq<Frame>): seq<Frame>
    requires n > 0
  {
    [Solve(n - 1, s, a, t)] + ([Emit(Move(s, t))] + ([Solve(n - 1, a, t, s)] + rest))
  }

  /** Splitting a Solve frame into its three parts keeps the moves. */
  lemma SplitSolve(n: nat, s: Rod, t: Rod, a: Rod, rest: seq<Frame>)
    requires n > 0
    ensures Expand(Split(n, s, t, a, rest)) == Hanoi(n, s, t, a) + Expand(rest)
  {
    var x, y, z := Solve(n - 1, s, a, t), Emit(Move(s, t)), Solve(n - 1, a, t, s);
    var hx, hz, e := Hanoi(n - 1, s, a, t), Hanoi(n - 1, a, t, s), Expand(rest);
    var m := Move(s, t);
    ExpandCons(z, rest);
    var ez := Expand([z] + rest);
    assert ez == hz + e;
    ExpandCons(y, [z] + rest);
    var ey := Expand([y] + ([z] + rest));
    assert ey == [m] + ez;
    ExpandCons(x, [y] + ([z] + rest));
    assert Expand(Split(n, s, t, a, rest)) == hx + ey;
    Associative([m], hz, e);
    Associative(hx, [m] + hz, e);
    Associative(hx, [m], hz);
    assert Hanoi(n, s, t, a) == hx + [m] + hz;
  }

  /** Splitting a Solve frame into its three parts lowers the weight. */
  lemma SplitLighter(n: nat, s: Rod, t: Rod, a: Rod, rest: seq<Frame>)
    requires n > 0
    ensures Weight(Split(n, s, t, a, rest)) < FrameWeight(Solve(n, s, t, a)) + Weight(rest)
  {
    var x, y, z := Solve(n - 1, s, a, t), Emit(Move(s, t)), Solve(n - 1, a, t, s);
    ExpandCons(z, rest);
    ExpandCons(y, [z] + rest);
    ExpandCons(x, [y] + ([z] + rest));
  }

  lemma Associative<T>(x: seq<T>, y: seq<T>, z: seq<T>)
    ensures x + y + z == x + (y + z)
  {
  }

  /**
   * The recursion replaced by an explicit worklist of frames: the same moves in the same
   * order, without a native call stack.
   */
  method SimulateWorklist(diskNb: nat) returns (plan: seq<Move>)
    ensures plan == Simulate(diskNb)
  {
    ghost var goal := Simulate(diskNb);
    plan := [];
    var work := [Solve(diskNb, A, C, B)];
    ExpandCons(work[0], []);
    assert [work[0]] + [] == work;
    while work != []
      invariant plan + Expand(work) == goal
      decreases Weight(work)
    {
      var head, rest := work[0], work[1..];
      assert work == [head] + rest;
      ExpandCons(head, rest);
      match head
      case Emit(m) =>
        assert plan + Expand(work) == (plan + [m]) + Expand(rest);
        plan := plan + [m];
        work := rest;
      case Solve(n, s, t, a) =>
        if n == 0 {
          work := rest;
        } else {
          SplitSolve(n, s, t, a, rest);
          SplitLighter(n, s, t, a, rest);
          work := Split(n, s, t, a, rest);
        }
    }
  }
}
