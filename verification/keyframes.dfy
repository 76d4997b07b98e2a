/**
 * The keyframe cursor of one disk: the list of keyframes of its current arc, the index of
 * the keyframe it is heading for, and the absolute time at which that keyframe expires.
 * A keyframe is modelled by its duration only; positions and smoothing are not modelled.
 */
module Keyframes {
  import opened Optional

  datatype Cursor = Cursor(keys: seq<nat>, keyIndex: nat, timer: Option<nat>)

  /** A freshly created disk: no keyframes, index 0, no timer. */
  const Fresh: Cursor := Cursor([], 0, None)

  /** Install a new arc: the cursor restarts at its first keyframe; the timer is kept as it was. */
  function SetTarget(c: Cursor, keys: seq<nat>): (r: Cursor)
    ensures r.keys == keys && r.keyIndex == 0
    ensures r.timer == c.timer
  {
    c.(keys := keys, keyIndex := 0)
  }

  /** The cursor heads for an existing keyframe. */
  predicate Active(c: Cursor)
  {
    c.keyIndex < |c.keys|
  }

  /**
   * One frame at time `delta`: on a current keyframe, start its timer if none is running,
   * and step to the next keyframe once `delta` has reached the timer.
   */
  function Update(c: Cursor, delta: nat): (r: Cursor)
    ensures r.keys == c.keys
    ensures !Active(c) ==> r == c
    ensures r.keyIndex == c.keyIndex || r.keyIndex == c.keyIndex + 1
    ensures c.keyIndex <= |c.keys| ==> r.keyIndex <= |c.keys|
    ensures r.keyIndex == c.keyIndex + 1 ==> r.timer == None
    ensures Active(c) && c.timer == None ==>
              (r.keyIndex == c.keyIndex + 1 <==> c.keys[c.keyIndex] == 0)
    ensures Active(c) && c.timer == None && c.keys[c.keyIndex] > 0 ==>
              r.timer == Some(delta + c.keys[c.keyIndex])
    ensures Active(c) && c.timer.Some? ==>
              (r.keyIndex == c.keyIndex + 1 <==> delta >= c.timer.value)
    ensures Active(c) && c.timer.Some? && delta < c.timer.value ==> r == c
  {
    if Active(c) then
      var deadline := if c.timer == None then delta + c.keys[c.keyIndex] else c.timer.value;
      if delta >= deadline then c.(keyIndex := c.keyIndex + 1, timer := None)
      else c.(timer := Some(deadline))
    else c
  }

  /** The cursor after one frame at each of the times in `ds`, in order. */
  function Run(c: Cursor, ds: seq<nat>): (r: Cursor)
    ensures r.keys == c.keys
    ensures r.keyIndex >= c.keyIndex
    ensures c.keyIndex <= |c.keys| ==> r.keyIndex <= |c.keys|
    decreases ds
  {
    if ds == [] then c else Run(Update(c, ds[0]), ds[1..])
  }

  /** Frame times never go backwards. */
  predicate NonDecreasing(ds: seq<nat>)
  {
    forall i, j :: 0 <= i <= j < |ds| ==> ds[i] <= ds[j]
  }

  /** The three-keyframe arc of a move (lift, traverse, lower) lasts 1000 time units in all. */
  const Arc: seq<nat> := [250, 500, 250]

  /** The summed duration of a run of keyframes. */
  function Total(keys: seq<nat>): nat
  {
    if keys == [] then 0 else keys[0] + Total(keys[1..])
  }

  /**
   * When the current keyframe started: the first frame's time when no timer runs yet,
   * otherwise the expiry time less the keyframe's duration.
   */
  function Started(c: Cursor, now: nat): int
    requires Active(c)
  {
    if c.timer == None then now else c.timer.value - c.keys[c.keyIndex]
  }

  lemma TotalStep(keys: seq<nat>, i: nat, k: nat)
    requires i < k <= |keys|
    ensures Total(keys[i..k]) == keys[i] + Total(keys[i + 1..k])
  {
    assert keys[i..k][0] == keys[i];
    assert keys[i..k][1..] == keys[i + 1..k];
  }

  /**
   * With frame times that never go backwards, a cursor reaches keyframe index k no earlier
   * than the current keyframe's start plus the durations of every keyframe before k.
   */
  lemma {:induction false} KeysTakeTheirTime(c: Cursor, ds: seq<nat>, j: nat, k: nat)
    requires c.keyIndex < k <= |c.keys|
    requires NonDecreasing(ds) && j < |ds|
    requires Run(c, ds[..j + 1]).keyIndex >= k
    ensures ds[j] >= Started(c, ds[0]) + Total(c.keys[c.keyIndex..k])
    decreases j
  {
    var i := c.keyIndex;
    var c1 := Update(c, ds[0]);
    assert ds[..j + 1][0] == ds[0];
    assert ds[..j + 1][1..] == ds[1..][..j];
    TotalStep(c.keys, i, k);
    if c1.keyIndex == i + 1 {
      if i + 1 < k {
        if j > 0 {
          KeysTakeTheirTime(c1, ds[1..], j - 1, k);
          assert ds[1..][0] == ds[1];
        }
      }
    } else if j > 0 {
      KeysTakeTheirTime(c1, ds[1..], j - 1, k);
      assert ds[1..][0] == ds[1];
      assert ds[1..][j - 1] == ds[j];
    }
  }

  /**
   * A move's arc (lift, traverse, lower) installed on a disk whose timer is idle finishes
   * no earlier than 1000 time units after its first frame.
   */
  lemma ArcLastsItsDuration(c: Cursor, ds: seq<nat>, j: nat)
    requires c.timer == None
    requires NonDecreasing(ds) && j < |ds|
    requires Run(SetTarget(c, Arc), ds[..j + 1]).keyIndex >= |Arc|
    ensures ds[j] >= ds[0] + 1000
  {
    var c0 := SetTarget(c, Arc);
    KeysTakeTheirTime(c0, ds, j, |Arc|);
    assert Arc[0..3] == Arc;
    assert Arc[1..] == [500, 250] && Arc[1..][1..] == [250] && Arc[1..][1..][1..] == [];
  }
}
