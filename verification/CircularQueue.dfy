/** The ring buffer under the log queue (spdlog's circular_q): one marker slot separates
    full from empty, and a push into a full ring overruns the oldest item. */
module CircularQueue {
  import opened Common

  // ---------------------------------------------------------------- specification

  /** A bounded sequence that makes room by dropping its oldest item. */
  function Push<T>(items: seq<T>, capacity: nat, x: T): (r: seq<T>)
    ensures |items| <= capacity ==> |r| <= capacity
  {
    if |items| < capacity then items + [x] else (items + [x])[1..]
  }

  function Overruns<T>(items: seq<T>, capacity: nat): nat {
    if |items| < capacity then 0 else 1
  }

  /** What a ring over the slots `v` holds. */
  function RingView<T>(v: seq<T>, head: nat, tail: nat): (s: seq<T>)
    requires head <= |v| && tail <= |v|
    ensures |s| == if tail >= head then tail - head else |v| - (head - tail)
  {
    if tail >= head then v[head..tail] else v[head..] + v[..tail]
  }

  function Next(i: nat, n: nat): nat {
    if i + 1 < n then i + 1 else 0
  }

  method Advance(i: nat, n: nat) returns (j: nat)
    requires i < n
    ensures j == Next(i, n)
  {
    ModOnce(i + 1, n);
    j := (i + 1) % n;
  }

  /** Writing the marker slot and moving the tail appends, as long as the tail stays off the head. */
  lemma AppendSlot<T>(v: seq<T>, h: nat, t: nat, x: T)
    requires h < |v| && t < |v| && Next(t, |v|) != h
    ensures RingView(v[t := x], h, Next(t, |v|)) == RingView(v, h, t) + [x]
  {
    var s, s' := RingView(v, h, t), RingView(v[t := x], h, Next(t, |v|));
    forall i | 0 <= i < |s'| ensures s'[i] == (s + [x])[i] {
    }
  }

  /** When the tail meets the head, moving the head as well drops the oldest item. */
  lemma OverrunSlot<T>(v: seq<T>, h: nat, t: nat, x: T)
    requires h < |v| && t < |v| && Next(t, |v|) == h
    ensures RingView(v[t := x], Next(h, |v|), h) == (RingView(v, h, t) + [x])[1..]
  {
    var s, s' := RingView(v, h, t), RingView(v[t := x], Next(h, |v|), h);
    assert |s| == |s'| == |v| - 1;
    forall i | 0 <= i < |s'| ensures s'[i] == (s + [x])[i + 1] {
    }
  }

  // ---------------------------------------------------------------- the ring itself

  class CircularQ<T(0)> {
    var maxItems: nat        // slots, marker included; 0 is the disabled queue
    var head: nat
    var tail: nat
    var overrunCounter: nat
    var v: array<T>

    ghost predicate Valid()
      reads this
    {
      v.Length == maxItems &&
      if maxItems == 0 then head == tail == 0 else head < maxItems && tail < maxItems
    }

    ghost function Contents(): (s: seq<T>)
      requires Valid()
      reads this, v
      ensures |s| == if tail >= head then tail - head else maxItems - (head - tail)
    {
      RingView(v[..], head, tail)
    }

    /** What `Push` does to this ring; the disabled ring ignores it. */
    ghost function AfterPush(x: T): seq<T>
      requires Valid()
      reads this, v
    {
      if maxItems == 0 then [] else Push(Contents(), maxItems - 1, x)
    }

    constructor Disabled()
      ensures Valid() && fresh(v) && maxItems == 0 && Contents() == [] && overrunCounter == 0
    {
      maxItems, head, tail, overrunCounter := 0, 0, 0, 0;
      v := new T[0];
    }

    constructor (capacity: nat)
      ensures Valid() && fresh(v) && maxItems == capacity + 1
      ensures Contents() == [] && overrunCounter == 0
    {
      maxItems, head, tail, overrunCounter := capacity + 1, 0, 0, 0;
      v := new T[capacity + 1];
    }

    method PushBack(x: T)
      requires Valid()
      modifies this`head, this`tail, this`overrunCounter, v
      ensures Valid()
      ensures Contents() == old(AfterPush(x))
      ensures overrunCounter == old(overrunCounter) +
                                (if maxItems == 0 then 0 else Overruns(old(Contents()), maxItems - 1))
    {
      if maxItems > 0 {
        if Next(tail, maxItems) == head {
          OverrunSlot(v[..], head, tail, x);
        } else {
          AppendSlot(v[..], head, tail, x);
        }
        v[tail] := x;
        tail := Advance(tail, maxItems);
        if tail == head {
          head := Advance(head, maxItems);
          overrunCounter := overrunCounter + 1;
        }
      }
    }

    method Front() returns (x: T)
      requires Valid() && Contents() != []
      ensures x == Contents()[0]
    {
      x := v[head];
    }

    method Size() returns (n: nat)
      requires Valid()
      ensures n == |Contents()|
    {
      if tail >= head {
        n := tail - head;
      } else {
        n := maxItems - (head - tail);
      }
    }

    method At(i: nat) returns (x: T)
      requires Valid() && i < |Contents()|
      ensures x == Contents()[i]
    {
      ModOnce(head + i, maxItems);
      x := v[(head + i) % maxItems];
    }

    method PopFront()
      requires Valid() && Contents() != []
      modifies this`head
      ensures Valid() && Contents() == old(Contents())[1..]
    {
      head := Advance(head, maxItems);
      assert forall k :: 0 <= k < |Contents()| ==> Contents()[k] == old(Contents())[k + 1];
    }

    method Empty() returns (b: bool)
      requires Valid()
      ensures b <==> Contents() == []
    {
      b := tail == head;
    }

    /** The disabled ring is never full; any other is full exactly at its capacity. */
    method Full() returns (b: bool)
      requires Valid()
      ensures b <==> maxItems > 0 && |Contents()| == maxItems - 1
    {
      if maxItems > 0 {
        var next := Advance(tail, maxItems);
        b := next == head;
      } else {
        b := false;
      }
    }

    method ResetOverrunCounter()
      requires Valid()
      modifies this`overrunCounter
      ensures Valid() && Contents() == old(Contents()) && overrunCounter == 0
    {
      overrunCounter := 0;
    }

    /** Takes over `other`, which is left disabled but usable. */
    method MoveFrom(other: CircularQ<T>)
      requires Valid() && other.Valid() && other != this
      modifies this, other
      ensures Valid() && other.Valid()
      ensures Contents() == old(other.Contents())
      ensures maxItems == old(other.maxItems) && overrunCounter == old(other.overrunCounter)
      ensures other.maxItems == 0 && other.Contents() == [] && other.overrunCounter == 0
    {
      maxItems := other.maxItems;
      head := other.head;
      tail := other.tail;
      overrunCounter := other.overrunCounter;
      v := other.v;
      other.maxItems := 0;
      other.head, other.tail := 0, 0;
      other.overrunCounter := 0;
      other.v := new T[0];
    }
  }

  // ---------------------------------------------------------------- whole runs

  datatype Op<T> = PushOp(x: T) | PopOp

  /** The bounded sequence together with everything that ever happened to it. */
  datatype Run<T> = Run(stored: seq<T>, pushed: seq<T>, departed: seq<T>, popped: nat, overrun: nat)
  {
    ghost predicate Conserved(capacity: nat)
    {
      && pushed == departed + stored
      && |departed| == popped + overrun
      && |pushed| == popped + |stored| + overrun
      && |stored| <= capacity
    }

    function AfterPush(capacity: nat, x: T): Run<T> {
      var lost := Overruns(stored, capacity);
      Run(Push(stored, capacity, x), pushed + [x], departed + (stored + [x])[..lost], popped, overrun + lost)
    }

    function AfterPop(): Run<T>
      requires stored != []
    {
      Run(stored[1..], pushed, departed + stored[..1], popped + 1, overrun)
    }
  }

  predicate PopsOnlyWhenNonEmpty<T>(ops: seq<Op<T>>, capacity: nat)
    decreases |ops|, 0
  {
    ops == [] ||
    (PopsOnlyWhenNonEmpty(ops[..|ops| - 1], capacity) &&
     (ops[|ops| - 1].PopOp? ==> After(ops[..|ops| - 1], capacity).stored != []))
  }

  function After<T>(ops: seq<Op<T>>, capacity: nat): Run<T>
    requires PopsOnlyWhenNonEmpty(ops, capacity)
    decreases |ops|, 1
  {
    if ops == [] then Run([], [], [], 0, 0)
    else
      var r := After(ops[..|ops| - 1], capacity);
      match ops[|ops| - 1]
      case PushOp(x) => r.AfterPush(capacity, x)
      case PopOp => r.AfterPop()
  }

  /** Nothing is lost, duplicated or reordered: what was pushed is exactly what left (popped or
      overrun), in order, followed by what is stored. */
  lemma {:induction false} ConservesItems<T>(ops: seq<Op<T>>, capacity: nat)
    requires PopsOnlyWhenNonEmpty(ops, capacity)
    ensures After(ops, capacity).Conserved(capacity)
    decreases |ops|
  {
    if ops != [] {
      var r := After(ops[..|ops| - 1], capacity);
      ConservesItems(ops[..|ops| - 1], capacity);
      match ops[|ops| - 1]
      case PushOp(x) =>
      case PopOp =>
    }
  }

  function Pushes<T>(xs: seq<T>): (ops: seq<Op<T>>)
    ensures |ops| == |xs| && forall i :: 0 <= i < |xs| ==> ops[i] == PushOp(xs[i])
  {
    seq(|xs|, i requires 0 <= i < |xs| => PushOp(xs[i]))
  }

  function Newest<T>(xs: seq<T>, n: nat): seq<T> {
    if |xs| <= n then xs else xs[|xs| - n..]
  }

  lemma NewestPush<T>(xs: seq<T>, n: nat)
    requires xs != []
    ensures Push(Newest(xs[..|xs| - 1], n), n, xs[|xs| - 1]) == Newest(xs, n)
  {
    var k := |xs| - 1;
    var before, after := Newest(xs[..k], n), Newest(xs, n);
    if |before| < n {
      assert before + [xs[k]] == after;
    } else {
      assert |after| == n;
      forall i | 0 <= i < n ensures (before + [xs[k]])[i + 1] == after[i] {
      }
      assert (before + [xs[k]])[1..] == after;
    }
  }

  lemma PushesNext<T>(xs: seq<T>, capacity: nat)
    requires xs != [] && PopsOnlyWhenNonEmpty(Pushes(xs[..|xs| - 1]), capacity)
    ensures PopsOnlyWhenNonEmpty(Pushes(xs), capacity)
    ensures After(Pushes(xs), capacity) == After(Pushes(xs[..|xs| - 1]), capacity).AfterPush(capacity, xs[|xs| - 1])
  {
    assert Pushes(xs)[..|xs| - 1] == Pushes(xs[..|xs| - 1]);
  }

  /** Pushing alone keeps exactly the newest `capacity` items. */
  lemma {:induction false} KeepsTheNewest<T>(xs: seq<T>, capacity: nat)
    ensures PopsOnlyWhenNonEmpty(Pushes(xs), capacity)
    ensures After(Pushes(xs), capacity).stored == Newest(xs, capacity)
    decreases |xs|
  {
    if xs != [] {
      KeepsTheNewest(xs[..|xs| - 1], capacity);
      PushesNext(xs, capacity);
      NewestPush(xs, capacity);
    }
  }
}
