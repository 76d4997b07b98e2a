/**
 * The logical tower state: three stacks, bottom first, and the pop/push move application.
 * Disks are generic here; the solver's correctness is stated over disk ranks (`Towers<nat>`),
 * where rank i is the disk created i-th, and a higher rank is a smaller disk.
 */
module TowerState {
  import opened Rods
  import opened Solver

  datatype Towers<D(==)> = Towers(a: seq<D>, b: seq<D>, c: seq<D>)
  {
    /** The stack on rod r, bottom first. */
    function Stack(r: Rod): seq<D>
    {
      match r
      case A => a
      case B => b
      case C => c
    }

    /** These towers with the stack on rod r replaced. */
    function With(r: Rod, s: seq<D>): (t: Towers<D>)
      ensures t.Stack(r) == s
      ensures forall q :: q != r ==> t.Stack(q) == Stack(q)
    {
      match r
      case A => this.(a := s)
      case B => this.(b := s)
      case C => this.(c := s)
    }

    /** Every disk on every rod, counted with multiplicity. */
    function Contents(): multiset<D>
    {
      multiset(a) + multiset(b) + multiset(c)
    }
  }

  /** The outcome of applying a move: popping an empty rod is the one failure. */
  datatype Outcome<T> = Ok(value: T) | EmptyRod(rod: Rod)

  function Last<D>(s: seq<D>): D
    requires s != []
  {
    s[|s| - 1]
  }

  /** Pop the top of `m.source` and push it on `m.target`; nothing else is checked. */
  function Apply<D(==)>(t: Towers<D>, m: Move): (r: Outcome<Towers<D>>)
    ensures r.EmptyRod? <==> t.Stack(m.source) == []
    ensures r.EmptyRod? ==> r.rod == m.source
  {
    var src := t.Stack(m.source);
    if src == [] then EmptyRod(m.source)
    else
      var popped := t.With(m.source, src[..|src| - 1]);
      Ok(popped.With(m.target, popped.Stack(m.target) + [Last(src)]))
  }

  /**
   * A move between two different rods takes the top disk of the source and puts it on top
   * of the target; the third rod is untouched and no disk appears or disappears.
   */
  lemma ApplyMovesTop<D>(t: Towers<D>, m: Move)
    requires t.Stack(m.source) != []
    ensures Apply(t, m).value.Contents() == t.Contents()
    ensures m.source != m.target ==>
              && t.Stack(m.source) == Apply(t, m).value.Stack(m.source) + [Last(t.Stack(m.source))]
              && Apply(t, m).value.Stack(m.target) == t.Stack(m.target) + [Last(t.Stack(m.source))]
              && forall q :: q != m.source && q != m.target ==> Apply(t, m).value.Stack(q) == t.Stack(q)
    ensures m.source == m.target ==> Apply(t, m).value == t
  {
    var src := t.Stack(m.source);
    assert src == src[..|src| - 1] + [Last(src)];
    var r := Apply(t, m).value;
    assert r.Contents() == t.Contents() by {
      assert multiset(r.Stack(A)) + multiset(r.Stack(B)) + multiset(r.Stack(C)) == r.Contents();
      assert multiset(t.Stack(A)) + multiset(t.Stack(B)) + multiset(t.Stack(C)) == t.Contents();
    }
  }

  /**
   * The row of the slot a moved disk is sent to is the target's height before the push;
   * after the move the disk sits exactly at that index of the target stack.
   */
  lemma SlotRowIsNewIndex<D>(t: Towers<D>, m: Move)
    requires t.Stack(m.source) != [] && m.source != m.target
    ensures |t.Stack(m.target)| < |Apply(t, m).value.Stack(m.target)|
    ensures Apply(t, m).value.Stack(m.target)[|t.Stack(m.target)|] == Last(t.Stack(m.source))
  {
  }

  /** Replaying a plan move by move; the first empty pop stops the replay. */
  function Replay<D(==)>(t: Towers<D>, plan: seq<Move>): Outcome<Towers<D>>
    decreases plan
  {
    if plan == [] then Ok(t)
    else
      match Apply(t, plan[0])
      case Ok(t1) => Replay(t1, plan[1..])
      case EmptyRod(r) => EmptyRod(r)
  }

  lemma ConcatTail<T>(x: seq<T>, y: seq<T>)
    requires x != []
    ensures (x + y)[0] == x[0]
    ensures (x + y)[1..] == x[1..] + y
  {
  }

  /** Replaying two plans one after the other is replaying their concatenation. */
  lemma {:induction false} ReplayConcat<D>(t: Towers<D>, p1: seq<Move>, p2: seq<Move>)
    decreases p1
    ensures Replay(t, p1 + p2) ==
              (match Replay(t, p1)
               case Ok(t1) => Replay(t1, p2)
               case EmptyRod(r) => EmptyRod(r))
  {
    if p1 == [] {
      assert p1 + p2 == p2;
    } else {
      ConcatTail(p1, p2);
      match Apply(t, p1[0])
      case Ok(t1) => ReplayConcat(t1, p1[1..], p2);
      case EmptyRod(r) =>
    }
  }

  /** A successful replay keeps every disk: it only moves them between rods. */
  lemma {:induction false} ReplayKeepsContents<D>(t: Towers<D>, plan: seq<Move>)
    requires Replay(t, plan).Ok?
    ensures Replay(t, plan).value.Contents() == t.Contents()
    decreases plan
  {
    if plan != [] {
      ApplyMovesTop(t, plan[0]);
      ReplayKeepsContents(Apply(t, plan[0]).value, plan[1..]);
    }
  }

  /** Ranks strictly increase from bottom to top, i.e. every disk rests on a larger one. */
  predicate Sorted(s: seq<nat>)
  {
    forall i :: 0 < i < |s| ==> s[i - 1] < s[i]
  }

  /** The stacking invariant on all three rods. */
  predicate Stacked(t: Towers<nat>)
  {
    Sorted(t.a) && Sorted(t.b) && Sorted(t.c)
  }

  /** A physical move: the source has a disk, and the target is empty or topped by a larger disk. */
  predicate LegalMove(t: Towers<nat>, m: Move)
  {
    && t.Stack(m.source) != []
    && (t.Stack(m.target) == [] || Last(t.Stack(m.target)) < Last(t.Stack(m.source)))
  }

  /** Every move of the plan is legal in the state the previous moves leave. */
  predicate LegalRun(t: Towers<nat>, plan: seq<Move>)
    decreases plan
  {
    plan == [] || (LegalMove(t, plan[0]) && LegalRun(Apply(t, plan[0]).value, plan[1..]))
  }

  lemma SortedPop(s: seq<nat>)
    requires Sorted(s) && s != []
    ensures Sorted(s[..|s| - 1])
  {
  }

  lemma SortedPush(s: seq<nat>, d: nat)
    requires Sorted(s) && (s == [] || Last(s) < d)
    ensures Sorted(s + [d])
  {
    var r := s + [d];
    forall i | 0 < i < |r|
      ensures r[i - 1] < r[i]
    {
      if i < |s| {
        assert r[i - 1] == s[i - 1] && r[i] == s[i];
      }
    }
  }

  /** A legal move keeps the stacking invariant. */
  lemma LegalMoveKeepsStacked(t: Towers<nat>, m: Move)
    requires Stacked(t) && LegalMove(t, m)
    ensures Stacked(Apply(t, m).value)
  {
    var r := Apply(t, m).value;
    var src, dst := t.Stack(m.source), t.Stack(m.target);
    assert Sorted(t.Stack(A)) && Sorted(t.Stack(B)) && Sorted(t.Stack(C));
    SortedPop(src);
    SortedPush(dst, Last(src));
    assert r.Stack(m.source) == src[..|src| - 1];
    assert Sorted(r.Stack(A)) && Sorted(r.Stack(B)) && Sorted(r.Stack(C));
  }

  /** A legal run from a stacked state passes only through stacked states. */
  lemma {:induction false} LegalRunStaysStacked(t: Towers<nat>, plan: seq<Move>, i: nat)
    requires Stacked(t) && LegalRun(t, plan)
    requires i <= |plan|
    ensures Replay(t, plan[..i]).Ok?
    ensures Stacked(Replay(t, plan[..i]).value)
    decreases i
  {
    if i > 0 {
      var t1 := Apply(t, plan[0]).value;
      assert LegalMove(t, plan[0]) && LegalRun(t1, plan[1..]);
      LegalMoveKeepsStacked(t, plan[0]);
      LegalRunStaysStacked(t1, plan[1..], i - 1);
      ReplayPrefix(t, plan, i);
    } else {
      assert plan[..i] == [];
    }
  }

  /** Replaying a non-empty prefix is one move followed by the rest of that prefix. */
  lemma ReplayPrefix<D>(t: Towers<D>, plan: seq<Move>, i: nat)
    requires 0 < i <= |plan| && t.Stack(plan[0].source) != []
    ensures Replay(t, plan[..i]) == Replay(Apply(t, plan[0]).value, plan[1..][..i - 1])
  {
    PrefixTail(plan, i);
  }

  lemma PrefixTail<T>(s: seq<T>, i: nat)
    requires 0 < i <= |s|
    ensures s[..i][0] == s[0]
    ensures s[..i][1..] == s[1..][..i - 1]
    ensures s[1..][i - 1..] == s[i..]
  {
  }

  /** The ranks lo, lo + 1, ..., hi - 1. */
  function Range(lo: nat, hi: nat): (r: seq<nat>)
    decreases hi - lo
    ensures |r| == if lo <= hi then hi - lo else 0
    ensures forall i :: 0 <= i < |r| ==> r[i] == lo + i
  {
    if lo >= hi then [] else [lo] + Range(lo + 1, hi)
  }

  /** Every disk on the rods is below the bound, i.e. larger than the disks being moved. */
  predicate Below(s: seq<nat>, k: nat)
  {
    forall i :: 0 <= i < |s| ==> s[i] < k
  }

  /**
   * The n disks of ranks k .. k+n-1 top `source`, and every other disk on the three rods is
   * larger (has a smaller rank).
   */
  predicate Movable(n: nat, k: nat, source: Rod, target: Rod, spare: Rod, t: Towers<nat>)
  {
    && Distinct(source, target, spare)
    && |t.Stack(source)| >= n
    && t.Stack(source)[|t.Stack(source)| - n..] == Range(k, k + n)
    && Below(t.Stack(source)[..|t.Stack(source)| - n], k)
    && Below(t.Stack(target), k) && Below(t.Stack(spare), k)
  }

  /** Those n disks now top `target`, in the same order, and nothing else changed. */
  predicate Moved(n: nat, k: nat, source: Rod, target: Rod, spare: Rod, t: Towers<nat>, r: Towers<nat>)
    requires |t.Stack(source)| >= n
  {
    && r.Stack(source) == t.Stack(source)[..|t.Stack(source)| - n]
    && r.Stack(target) == t.Stack(target) + Range(k, k + n)
    && r.Stack(spare) == t.Stack(spare)
  }

  /**
   * The Hanoi plan for n disks is legal throughout from t and ends with the disks carried
   * from `source` to `target`.
   */
  predicate Carries(n: nat, k: nat, source: Rod, target: Rod, spare: Rod, t: Towers<nat>)
    requires |t.Stack(source)| >= n
  {
    && LegalRun(t, Hanoi(n, source, target, spare))
    && Replay(t, Hanoi(n, source, target, spare)).Ok?
    && Moved(n, k, source, target, spare, t, Replay(t, Hanoi(n, source, target, spare)).value)
  }

  /** Moving n movable disks with the Hanoi plan succeeds. */
  lemma {:induction false} HanoiReplay(n: nat, k: nat, source: Rod, target: Rod, spare: Rod, t: Towers<nat>)
    requires Movable(n, k, source, target, spare, t)
    ensures Carries(n, k, source, target, spare, t)
  {
    if n == 0 {
      var src := t.Stack(source);
      assert src[..|src| - n] == src;
      assert t.Stack(target) + Range(k, k) == t.Stack(target);
    } else {
      FirstHalfMovable(n, k, source, target, spare, t);
      HanoiReplay(n - 1, k + 1, source, spare, target, t);
      var t2 := AfterMiddle(n, k, source, target, spare, t);
      HanoiReplay(n - 1, k + 1, spare, target, source, t2);
      HanoiCompose(n, k, source, target, spare, t, t2);
    }
  }

  /** The state after the first half of the plan and the middle move; the second half can start from it. */
  lemma AfterMiddle(n: nat, k: nat, source: Rod, target: Rod, spare: Rod, t: Towers<nat>) returns (t2: Towers<nat>)
    requires Movable(n, k, source, target, spare, t) && n > 0
    requires Carries(n - 1, k + 1, source, spare, target, t)
    ensures Replay(t, Hanoi(n - 1, source, spare, target)).Ok?
    ensures Apply(Replay(t, Hanoi(n - 1, source, spare, target)).value, Move(source, target)) == Ok(t2)
    ensures Movable(n - 1, k + 1, spare, target, source, t2)
  {
    var t1 := Replay(t, Hanoi(n - 1, source, spare, target)).value;
    t2 := MiddleStep(t, t1, n, k, source, target, spare);
    SecondHalfMovable(t, t2, n, k, source, target, spare);
  }

  /** The two halves and the middle move together carry all n disks. */
  lemma HanoiCompose(n: nat, k: nat, source: Rod, target: Rod, spare: Rod, t: Towers<nat>, t2: Towers<nat>)
    requires Movable(n, k, source, target, spare, t) && n > 0
    requires Carries(n - 1, k + 1, source, spare, target, t)
    requires Replay(t, Hanoi(n - 1, source, spare, target)).Ok?
    requires Apply(Replay(t, Hanoi(n - 1, source, spare, target)).value, Move(source, target)) == Ok(t2)
    requires Movable(n - 1, k + 1, spare, target, source, t2)
    requires Carries(n - 1, k + 1, spare, target, source, t2)
    ensures Carries(n, k, source, target, spare, t)
  {
    var left := Hanoi(n - 1, source, spare, target);
    var mid := Move(source, target);
    var right := Hanoi(n - 1, spare, target, source);
    assert Hanoi(n, source, target, spare) == left + [mid] + right;
    var t1 := Replay(t, left).value;
    var t2' := MiddleStep(t, t1, n, k, source, target, spare);
    assert t2' == t2;
    var t3 := Replay(t2, right).value;
    Glue(t, left, mid, right, t1, t2);
    LastHalfMoved(n, k, source, target, spare, t, t2, t3);
  }

  lemma FirstHalfMovable(n: nat, k: nat, source: Rod, target: Rod, spare: Rod, t: Towers<nat>)
    requires Movable(n, k, source, target, spare, t) && n > 0
    ensures Movable(n - 1, k + 1, source, spare, target, t)
  {
    var src := t.Stack(source);
    SuffixSplit(src, n, k);
    assert k + 1 + (n - 1) == k + n;
    assert src[|src| - (n - 1)..] == Range(k + 1, k + 1 + (n - 1));
    BelowWeaken(t.Stack(target), k);
    BelowWeaken(t.Stack(spare), k);
  }

  lemma LastHalfMoved(n: nat, k: nat, source: Rod, target: Rod, spare: Rod, t: Towers<nat>, t2: Towers<nat>, t3: Towers<nat>)
    requires Distinct(source, target, spare) && n > 0
    requires |t.Stack(source)| >= n
    requires t2.Stack(source) == t.Stack(source)[..|t.Stack(source)| - n]
    requires t2.Stack(target) == t.Stack(target) + [k]
    requires t2.Stack(spare) == t.Stack(spare) + Range(k + 1, k + n)
    requires |t2.Stack(spare)| >= n - 1
    requires Moved(n - 1, k + 1, spare, target, source, t2, t3)
    ensures Moved(n, k, source, target, spare, t, t3)
  {
    var s2 := t2.Stack(spare);
    assert s2[..|s2| - (n - 1)] == t.Stack(spare);
    RangeCons(k, n);
    Associative(t.Stack(target), [k], Range(k + 1, k + n));
  }

  /** A plan made of a first part, one move and a last part, replayed in sequence. */
  lemma Glue(t: Towers<nat>, left: seq<Move>, mid: Move, right: seq<Move>, t1: Towers<nat>, t2: Towers<nat>)
    requires Replay(t, left) == Ok(t1) && LegalRun(t, left)
    requires Apply(t1, mid) == Ok(t2) && LegalMove(t1, mid)
    requires LegalRun(t2, right)
    ensures Replay(t, left + [mid] + right) == Replay(t2, right)
    ensures LegalRun(t, left + [mid] + right)
  {
    Associative(left, [mid], right);
    ReplayConcat(t, left, [mid] + right);
    ConcatTail([mid], right);
    assert [mid][1..] == [];
    LegalRunConcat(t, left, [mid] + right);
  }

  lemma BelowWeaken(s: seq<nat>, k: nat)
    requires Below(s, k)
    ensures Below(s, k + 1)
  {
  }

  lemma RangeCons(k: nat, n: nat)
    requires n > 0
    ensures Range(k, k + n) == [k] + Range(k + 1, k + n)
  {
  }

  lemma SuffixSplit(src: seq<nat>, n: nat, k: nat)
    requires 0 < n <= |src|
    requires src[|src| - n..] == Range(k, k + n)
    requires Below(src[..|src| - n], k)
    ensures src[|src| - (n - 1)..] == Range(k + 1, k + n)
    ensures src[..|src| - (n - 1)] == src[..|src| - n] + [k]
    ensures Below(src[..|src| - (n - 1)], k + 1)
  {
    RangeCons(k, n);
    assert src[|src| - n..] == [src[|src| - n]] + src[|src| - (n - 1)..];
    assert src[..|src| - (n - 1)] == src[..|src| - n] + [src[|src| - n]];
  }

  /**
   * The step in the middle of the Hanoi plan: with the n - 1 smaller disks parked on the
   * spare rod, disk k moves legally from source to target.
   */
  lemma MiddleStep(t: Towers<nat>, t1: Towers<nat>, n: nat, k: nat, source: Rod, target: Rod, spare: Rod)
    returns (t2: Towers<nat>)
    requires Movable(n, k, source, target, spare, t) && n > 0
    requires Moved(n - 1, k + 1, source, spare, target, t, t1)
    ensures LegalMove(t1, Move(source, target))
    ensures Apply(t1, Move(source, target)) == Ok(t2)
    ensures t2.Stack(source) == t.Stack(source)[..|t.Stack(source)| - n]
    ensures t2.Stack(target) == t.Stack(target) + [k]
    ensures t2.Stack(spare) == t.Stack(spare) + Range(k + 1, k + n)
  {
    var m := Move(source, target);
    var rest := t.Stack(source)[..|t.Stack(source)| - n];
    SuffixSplit(t.Stack(source), n, k);
    assert t1.Stack(source) == rest + [k];
    assert Last(t1.Stack(source)) == k;
    assert t1.Stack(target) != [] ==> Last(t1.Stack(target)) < k;
    ApplyMovesTop(t1, m);
    t2 := Apply(t1, m).value;
    assert t2.Stack(source) + [k] == rest + [k];
    assert t2.Stack(source) == rest;
  }

  lemma SecondHalfMovable(t: Towers<nat>, t2: Towers<nat>, n: nat, k: nat, source: Rod, target: Rod, spare: Rod)
    requires Movable(n, k, source, target, spare, t) && n > 0
    requires t2.Stack(source) == t.Stack(source)[..|t.Stack(source)| - n]
    requires t2.Stack(target) == t.Stack(target) + [k]
    requires t2.Stack(spare) == t.Stack(spare) + Range(k + 1, k + n)
    ensures Movable(n - 1, k + 1, spare, target, source, t2)
  {
    BelowWeaken(t.Stack(spare), k);
    BelowWeaken(t.Stack(target), k);
    BelowWeaken(t.Stack(source)[..|t.Stack(source)| - n], k);
    var s2 := t2.Stack(spare);
    assert s2[|s2| - (n - 1)..] == Range(k + 1, k + n);
    assert s2[..|s2| - (n - 1)] == t.Stack(spare);
    assert Below(t2.Stack(target), k + 1);
  }

  /** Legal runs compose. */
  lemma {:induction false} LegalRunConcat(t: Towers<nat>, p1: seq<Move>, p2: seq<Move>)
    requires LegalRun(t, p1) && Replay(t, p1).Ok? && LegalRun(Replay(t, p1).value, p2)
    ensures LegalRun(t, p1 + p2)
    decreases p1
  {
    if p1 == [] {
      assert p1 + p2 == p2;
    } else {
      var t1 := Apply(t, p1[0]).value;
      assert LegalMove(t, p1[0]) && LegalRun(t1, p1[1..]);
      assert Replay(t, p1) == Replay(t1, p1[1..]);
      LegalRunConcat(t1, p1[1..], p2);
      ConcatTail(p1, p2);
    }
  }

  /** The freshly prepared scene: disks 0 .. n-1 on rod A, largest (rank 0) at the bottom. */
  function Initial(n: nat): (t: Towers<nat>)
    ensures Stacked(t)
    ensures t.Contents() == multiset(Range(0, n))
  {
    Towers(Range(0, n), [], [])
  }

  /** The goal: every disk on rod C, in the order it had on rod A. */
  function Solved(n: nat): (t: Towers<nat>)
    ensures t.Contents() == Initial(n).Contents()
    ensures Stacked(t)
  {
    Towers([], [], Range(0, n))
  }

  /**
   * The main correctness statement: replaying the whole plan from the prepared scene never
   * pops an empty rod, never puts a disk on a smaller one, and ends with the tower on rod C.
   */
  lemma SimulateSolves(n: nat)
    ensures LegalRun(Initial(n), Simulate(n))
    ensures Replay(Initial(n), Simulate(n)) == Ok(Solved(n))
  {
    var t := Initial(n);
    assert t.Stack(A)[|t.Stack(A)| - n..] == Range(0, n);
    assert Movable(n, 0, A, C, B, t);
    HanoiReplay(n, 0, A, C, B, t);
    assert Carries(n, 0, A, C, B, t);
    var r := Replay(t, Simulate(n)).value;
    assert r.Stack(A) == [] && r.Stack(B) == [] && r.Stack(C) == Range(0, n);
  }

  /**
   * In a plan that replays successfully, every move, taken after the moves before it, finds
   * a disk on its source rod, and replaying one move more is applying that move.
   */
  lemma ReplayStep<D>(t: Towers<D>, plan: seq<Move>, k: nat)
    requires Replay(t, plan).Ok? && k < |plan|
    ensures Replay(t, plan[..k]).Ok?
    ensures Apply(Replay(t, plan[..k]).value, plan[k]).Ok?
    ensures Replay(t, plan[..k + 1]) == Apply(Replay(t, plan[..k]).value, plan[k])
  {
    ReplayPrefixOk(t, plan, k);
    PrefixSnoc(plan, k);
    ReplayConcat(t, plan[..k], [plan[k]]);
    ReplaySingle(Replay(t, plan[..k]).value, plan[k]);
  }

  /** If a plan replays, so does every prefix, and the move after the prefix finds a disk. */
  lemma ReplayPrefixOk<D>(t: Towers<D>, plan: seq<Move>, k: nat)
    requires Replay(t, plan).Ok? && k < |plan|
    ensures Replay(t, plan[..k]).Ok?
    ensures Apply(Replay(t, plan[..k]).value, plan[k]).Ok?
  {
    PrefixSuffix(plan, k);
    ReplayConcat(t, plan[..k], plan[k..]);
  }

  lemma PrefixSuffix<T>(s: seq<T>, k: nat)
    requires k < |s|
    ensures s == s[..k] + s[k..]
    ensures s[k..][0] == s[k]
  {
  }

  lemma PrefixSnoc<T>(s: seq<T>, k: nat)
    requires k < |s|
    ensures s[..k + 1] == s[..k] + [s[k]]
  {
  }

  lemma ReplaySingle<D>(t: Towers<D>, m: Move)
    ensures Replay(t, [m]) == Apply(t, m)
  {
    assert [m][1..] == [];
  }

  /** Every move of the scene's plan finds a disk on its source rod. */
  lemma PlanStepSucceeds(n: nat, k: nat)
    requires k < |Simulate(n)|
    ensures Replay(Initial(n), Simulate(n)[..k]).Ok?
    ensures Apply(Replay(Initial(n), Simulate(n)[..k]).value, Simulate(n)[k]).Ok?
    ensures Replay(Initial(n), Simulate(n)[..k + 1]) ==
              Apply(Replay(Initial(n), Simulate(n)[..k]).value, Simulate(n)[k])
  {
    SimulateSolves(n);
    ReplayStep(Initial(n), Simulate(n), k);
  }

  /** Every intermediate state of the plan's replay satisfies the stacking invariant. */
  lemma SimulateStaysStacked(n: nat, i: nat)
    requires i <= |Simulate(n)|
    ensures Replay(Initial(n), Simulate(n)[..i]).Ok?
    ensures Stacked(Replay(Initial(n), Simulate(n)[..i]).value)
    ensures Replay(Initial(n), Simulate(n)[..i]).value.Contents() == multiset(Range(0, n))
  {
    SimulateSolves(n);
    LegalRunStaysStacked(Initial(n), Simulate(n), i);
    ReplayKeepsContents(Initial(n), Simulate(n)[..i]);
  }

  /**
   * The prepared disk of rank i gets radius (n - i) disk-size units: on a stack whose ranks
   * increase from bottom to top, each disk is narrower than the one it rests on.
   */
  function RadiusUnits(n: nat, rank: nat): int
  {
    n - rank
  }

  lemma {:induction false} SortedMeansShrinking(n: nat, s: seq<nat>)
    ensures Sorted(s) <==> forall i, j :: 0 <= i < j < |s| ==> RadiusUnits(n, s[i]) > RadiusUnits(n, s[j])
  {
    if Sorted(s) {
      forall i, j | 0 <= i < j < |s|
        ensures s[i] < s[j]
      {
        SortedPairs(s, i, j);
      }
    }
    if forall i, j :: 0 <= i < j < |s| ==> RadiusUnits(n, s[i]) > RadiusUnits(n, s[j]) {
      forall i | 0 < i < |s|
        ensures s[i - 1] < s[i]
      {
        assert RadiusUnits(n, s[i - 1]) > RadiusUnits(n, s[i]);
      }
    }
  }

  /** Adjacent ranks increasing means all ranks increasing. */
  lemma {:induction false} SortedPairs(s: seq<nat>, i: nat, j: nat)
    requires Sorted(s) && i < j < |s|
    ensures s[i] < s[j]
    decreases j - i
  {
    if i + 1 < j {
      SortedPairs(s, i + 1, j);
    }
  }
}
