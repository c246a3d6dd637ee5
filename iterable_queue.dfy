/**
 * IterableQueue (topo/switch.py:171-178): a FIFO queue closed by putting a
 * distinguished sentinel; iterating it takes items off the front until the
 * sentinel comes out. Python's Queue blocks its consumer while the queue is
 * empty; in this sequential model an empty queue ends the iteration with
 * "not stopped", the point where the real consumer would wait.
 */
module Queues {
  import opened Wrappers

  /** A queue slot: an item put by a producer, or the sentinel put by close. */
  datatype Slot<T> = Item(value: T) | Sentinel

  /** The slots that putting `xs` one by one appends. */
  function Items<T>(xs: seq<T>): seq<Slot<T>>
  {
    seq(|xs|, i requires 0 <= i < |xs| => Item(xs[i]))
  }

  /** The items an iteration over `slots` yields: those before the first sentinel. */
  function Yielded<T>(slots: seq<Slot<T>>): seq<T>
  {
    if slots == [] then []
    else match slots[0]
      case Sentinel => []
      case Item(x) => [x] + Yielded(slots[1..])
  }

  /** What is left in the queue once an iteration over `slots` has stopped. */
  function Remaining<T>(slots: seq<Slot<T>>): seq<Slot<T>>
  {
    if slots == [] then []
    else if slots[0] == Sentinel then slots[1..]
    else Remaining(slots[1..])
  }

  /** Iterating a concatenation: the second part is reached only without a sentinel in the first. */
  lemma {:induction false} YieldedAppend<T>(s: seq<Slot<T>>, t: seq<Slot<T>>)
    ensures Sentinel in s ==> Yielded(s + t) == Yielded(s) && Remaining(s + t) == Remaining(s) + t
    ensures Sentinel !in s ==> Yielded(s + t) == Yielded(s) + Yielded(t) && Remaining(s + t) == Remaining(t)
  {
    if s != [] {
      assert (s + t)[1..] == s[1..] + t;
      assert s[0] != Sentinel ==> (Sentinel in s <==> Sentinel in s[1..]);
      YieldedAppend(s[1..], t);
    } else {
      assert s + t == t;
    }
  }

  /** Items put one by one are yielded back, in put order. */
  lemma {:induction false} YieldedItems<T>(xs: seq<T>)
    ensures Yielded(Items(xs)) == xs
    ensures Sentinel !in Items(xs)
    ensures Remaining(Items(xs)) == []
  {
    if xs != [] {
      assert Items(xs)[1..] == Items(xs[1..]);
      YieldedItems(xs[1..]);
    }
  }

  /**
   * After N puts and then close, iteration yields exactly those N items in
   * put order and stops; whatever is put after the close is never yielded
   * and stays in the queue.
   */
  lemma PutThenCloseYields<T>(before: seq<Slot<T>>, xs: seq<T>, after: seq<Slot<T>>)
    requires Sentinel !in before
    ensures Yielded(before + Items(xs) + [Sentinel] + after) == Yielded(before) + xs
    ensures Remaining(before + Items(xs) + [Sentinel] + after) == after
  {
    YieldedItems(xs);
    var head := before + Items(xs);
    assert Sentinel !in head;
    YieldedAppend(before, Items(xs));
    YieldedAppend(head, [Sentinel] + after);
    assert ([Sentinel] + after)[1..] == after;
    assert head + [Sentinel] + after == head + ([Sentinel] + after);
  }

  class IterableQueue<T> {
    /** The slots in the queue, front first. */
    var slots: seq<Slot<T>>

    constructor ()
      ensures slots == []
    {
      slots := [];
    }

    /** Queue.put: append at the tail; the queue is unbounded. */
    method Put(x: T)
      modifies this
      ensures slots == old(slots) + [Item(x)]
    {
      slots := slots + [Item(x)];
    }

    /** Queue.get: take the front slot; None where the real queue would block on emptiness. */
    method Get() returns (s: Option<Slot<T>>)
      modifies this
      ensures old(slots) == [] ==> s == None && slots == []
      ensures old(slots) != [] ==> s == Some(old(slots)[0]) && slots == old(slots)[1..]
    {
      if slots == [] {
        s := None;
      } else {
        s := Some(slots[0]);
        slots := slots[1..];
      }
    }

    /** close: put the sentinel. */
    method Close()
      modifies this
      ensures slots == old(slots) + [Sentinel]
    {
      slots := slots + [Sentinel];
    }

    /**
     * __iter__, that is iter(self.get, sentinel), run to its end: `yielded`
     * is what the loop produced, and `stopped` says whether it met the
     * sentinel (otherwise it ran the queue dry and would now block).
     */
    method Iterate() returns (yielded: seq<T>, stopped: bool)
      modifies this
      ensures yielded == Yielded(old(slots))
      ensures stopped == (Sentinel in old(slots))
      ensures slots == Remaining(old(slots))
    {
      yielded := [];
      while true
        invariant Yielded(old(slots)) == yielded + Yielded(slots)
        invariant (Sentinel in old(slots)) == (Sentinel in slots)
        invariant Remaining(old(slots)) == Remaining(slots)
        decreases |slots|
      {
        ghost var before := slots;
        var s := Get();
        match s
        case None =>
          stopped := false;
          return;
        case Some(Sentinel) =>
          stopped := true;
          return;
        case Some(Item(x)) =>
          assert before == [Item(x)] + slots;
          yielded := yielded + [x];
      }
    }
  }

  /** A client of IterableQueue: two puts, a close, a put too late, then one iteration. */
  method PutCloseIterate<T>(x: T, y: T, late: T)
  {
    var q := new IterableQueue<T>();
    q.Put(x);
    q.Put(y);
    q.Close();
    q.Put(late);
    assert q.slots == [] + Items([x, y]) + [Sentinel] + [Item(late)];
    PutThenCloseYields([], [x, y], [Item(late)]);
    var yielded, stopped := q.Iterate();
    assert yielded == [x, y] && stopped && q.slots == [Item(late)];
  }
}
