/**
 The fixed-size queue of qs_server/src/queue.c: a ring whose length is a power of two, so that an
 index can be stepped with a mask. `enqueue` does not copy anything: it hands out the slot, with
 whatever an earlier message has left in it, for the caller to fill.
 */
module RingQueue {
  import opened Arithmetic
  import Capacity

  // ---------------------------------------------------------------- windows of a ring

  /** The index `k` places behind `tail`. */
  function Place(tail: nat, k: nat, len: nat): (i: nat)
    requires len > 0
    ensures i < len
  {
    (tail + k) % len
  }

  /** The `count` elements of a ring from index `tail` on. */
  function Window<T>(items: seq<T>, tail: nat, count: nat): (w: seq<T>)
    requires count <= |items|
    ensures |w| == count
    ensures forall k | 0 <= k < count :: w[k] == items[Place(tail, k, |items|)]
  {
    seq(count, k requires 0 <= k < count => items[Place(tail, k, |items|)])
  }

  lemma PlacesDiffer(tail: nat, k: nat, l: nat, len: nat)
    requires tail < len && k < l < len
    ensures Place(tail, k, len) != Place(tail, l, len)
  {
    ModSmall(tail + k, len);
    ModSmall(tail + l, len);
  }

  lemma PlaceNext(tail: nat, k: nat, len: nat)
    requires tail < len && k < len
    ensures Place(Place(tail, 1, len), k, len) == Place(tail, k + 1, len)
    ensures Place(Place(tail, k, len), 1, len) == Place(tail, k + 1, len)
    ensures Place(tail, 0, len) == tail
  {
    ModSmall(tail, len);
    ModSmall(tail + 1, len);
    ModSmall(tail + k, len);
    ModSmall(Place(tail, 1, len) + k, len);
    ModSmall(Place(tail, k, len) + 1, len);
    if k + 1 < len || tail + k + 1 < 2 * len { ModSmall(tail + (k + 1), len); }
  }

  lemma WindowPut<T>(items: seq<T>, tail: nat, count: nat, v: T)
    requires count < |items| && tail < |items|
    ensures Window(items[Place(tail, count, |items|) := v], tail, count + 1) == Window(items, tail, count) + [v]
  {
    hide Place;
    var n := |items|;
    var after := items[Place(tail, count, n) := v];
    forall k | 0 <= k < count
      ensures after[Place(tail, k, n)] == items[Place(tail, k, n)]
    {
      PlacesDiffer(tail, k, count, n);
    }
  }

  lemma WindowNext<T>(items: seq<T>, tail: nat, count: nat)
    requires 0 < count <= |items| && tail < |items|
    ensures Window(items, tail, count)[0] == items[tail]
    ensures Window(items, Place(tail, 1, |items|), count - 1) == Window(items, tail, count)[1..]
  {
    hide Place;
    var n := |items|;
    PlaceNext(tail, 0, n);
    forall k | 0 <= k < count - 1
      ensures Place(Place(tail, 1, n), k, n) == Place(tail, k + 1, n)
    {
      PlaceNext(tail, k, n);
    }
  }

  // ---------------------------------------------------------------- the queue

  datatype Option<T> = None | Some(value: T)

  class RingQueue<T> {
    const items: array<T>
    const len: nat
    const blank: T
    var head: nat
    var tail: nat
    var count: nat

    ghost predicate Valid()
      reads this
    {
      && items.Length == len && count <= len
      && (len > 0 ==> Capacity.IsPower(len) && tail < len && head == Place(tail, count, len))
      && (len == 0 ==> head == 0 == tail)
    }

    /** What is queued, oldest first. */
    ghost function Contents(): seq<T>
      requires Valid()
      reads this, items
    {
      Window(items[..], tail, count)
    }

    /** queue_init, once its test has succeeded. */
    constructor (len: nat, blank: T)
      requires len > 0 ==> Capacity.IsPower(len)
      ensures Valid() && this.len == len && this.blank == blank && fresh(items)
      ensures Contents() == [] && forall i | 0 <= i < len :: items[i] == blank
    {
      items := new T[len](_ => blank);
      this.len := len;
      this.blank := blank;
      head, tail, count := 0, 0, 0;
    }

    /** queue_reset: every slot is zeroed. */
    method Reset()
      requires Valid()
      modifies this`head, this`tail, this`count, items
      ensures Valid() && Contents() == [] && forall i | 0 <= i < len :: items[i] == blank
    {
      hide Capacity.Masked, Capacity.Pow2, Capacity.WIDTH, Capacity.IsPower;
      var i := 0;
      while i < len
        invariant i <= len && Valid()
        invariant forall j | 0 <= j < i :: items[j] == blank
      {
        items[i] := blank;
        i := i + 1;
      }
      head, tail, count := 0, 0, 0;
      if len > 0 { PlaceNext(0, 0, len); }
    }

    predicate Empty()
      reads this`count
    {
      count == 0
    }

    predicate Full()
      reads this`count
    {
      count == len
    }

    /** The step that `(i + 1) & (len - 1)` makes. */
    function Step(i: nat): nat
      requires len > 0
    {
      Capacity.Masked(i + 1, len - 1)
    }

    lemma StepIs(i: nat)
      requires Valid() && i < len
      ensures Step(i) == Place(i, 1, len)
    {
      hide Capacity.Masked, Capacity.Pow2, Capacity.WIDTH;
      Capacity.PowerFits(len);
      Capacity.MaskedIsModulo(i + 1, len);
    }

    /** enqueue: the index of the slot to fill, or none when the queue is full. */
    method Enqueue() returns (slot: Option<nat>)
      requires Valid()
      modifies this`head, this`count
      ensures Valid() && (slot.None? <==> old(Full()))
      ensures slot.None? ==> Contents() == old(Contents())
      ensures slot.Some? ==> slot.value < len && count == old(count) + 1
      ensures slot.Some? ==> slot.value == old(head) && slot.value == Place(tail, count - 1, len)
      ensures slot.Some? ==> Contents() == old(Contents()) + [items[slot.value]]
    {
      hide Capacity.Masked, Capacity.Pow2, Capacity.WIDTH, Capacity.IsPower, Place;
      if Full() {
        return None;
      }
      StepIs(head);
      WindowPut(items[..], tail, count, items[head]);
      assert items[..][head := items[head]] == items[..];
      PlaceNext(tail, count, len);
      slot := Some(head);
      head := Step(head);
      count := count + 1;
    }

    /** Filling the slot that the last enqueue has handed out. */
    method Fill(slot: nat, v: T)
      requires Valid() && count > 0 && slot == Place(tail, count - 1, len)
      modifies items
      ensures Valid() && Contents() == old(Contents())[..count - 1] + [v]
      ensures items[slot] == v && forall i | 0 <= i < len && i != slot :: items[i] == old(items[i])
    {
      hide Capacity.Masked, Capacity.Pow2, Capacity.WIDTH, Capacity.IsPower, Place;
      ghost var was := items[..];
      WindowPut(was, tail, count - 1, v);
      items[slot] := v;
      assert items[..] == was[slot := v];
      assert Window(was, tail, count - 1) == Window(was, tail, count)[..count - 1];
    }

    /** queue_peek. */
    method Peek() returns (v: Option<T>)
      requires Valid()
      ensures v == if Contents() == [] then None else Some(Contents()[0])
    {
      if Empty() {
        return None;
      }
      WindowNext(items[..], tail, count);
      v := Some(items[tail]);
    }

    /** dequeue; what was in the slot stays in it. */
    method Dequeue() returns (v: Option<T>)
      requires Valid()
      modifies this`tail, this`count
      ensures Valid()
      ensures v == if old(Contents()) == [] then None else Some(old(Contents())[0])
      ensures Contents() == if old(Contents()) == [] then [] else old(Contents())[1..]
    {
      hide Capacity.Masked, Capacity.Pow2, Capacity.WIDTH, Capacity.IsPower, Place;
      if Empty() {
        return None;
      }
      StepIs(tail);
      WindowNext(items[..], tail, count);
      PlaceNext(tail, count - 1, len);
      v := Some(items[tail]);
      tail := Step(tail);
      count := count - 1;
    }
  }

  /** queue_init: refused unless the length passes the power-of-two test. */
  method Init<T>(len: nat, blank: T) returns (q: RingQueue?<T>)
    requires len <= Capacity.INT_MAX
    ensures q != null <==> len == 0 || Capacity.IsPower(len)
    ensures q != null ==> q.Valid() && fresh(q) && fresh(q.items) && q.len == len && q.Contents() == []
  {
    hide Capacity.Masked, Capacity.Pow2, Capacity.WIDTH, Capacity.IsPower, Place;
    if len > 0 {
      Capacity.IntFits(len);
      Capacity.LengthTest(len);
      if Capacity.Masked(len, len - 1) != 0 {
        return null;
      }
    }
    q := new RingQueue(len, blank);
  }
}
