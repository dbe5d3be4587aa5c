/** The multi-producer multi-consumer blocking queue under the logger (spdlog's
    mpmc_blocking_queue), as a state machine over the steps its threads take: a call starts, the
    mutex is taken, the thread sleeps or changes the ring, the mutex is released, and only then
    `notify_one` runs. Any interleaving of these steps is a run. */
module BlockingQueue {
  import opened Common
  import Ring = CircularQueue

  datatype Op<T> =
    | Enqueue(item: T)          // waits on pop_cv_ while the ring is full
    | EnqueueNowait(item: T)    // overruns the oldest item
    | EnqueueIfRoom(item: T)    // discards the new item
    | Dequeue                   // waits on push_cv_ while the ring is empty
    | DequeueFor                // the same, with a timeout
  {
    predicate Consumes() { Dequeue? || DequeueFor? }
  }

  /** Where a thread stands. `woken`: it has slept in this call; `expired`: its timeout ran out. */
  datatype Pc<T> =
    | Outside(result: Option<T>)                          // in no call; what the last call returned
    | WantLock(op: Op<T>, woken: bool, expired: bool)
    | Holding(op: Op<T>, woken: bool, expired: bool)      // owns the mutex, predicate not tested yet
    | Asleep(op: Op<T>)
    | Leaving(op: Op<T>, notify: bool, result: Option<T>) // owns the mutex, ring already changed
    | Notifying(op: Op<T>, result: Option<T>)             // mutex released, notify_one still to run
  {
    predicate OwnsMutex() { Holding? || Leaving? }
    predicate SleepsOnPush() { Asleep? && op.Consumes() }
    predicate SleepsOnPop() { Asleep? && op.Enqueue? }
  }

  datatype Departure<T> = Popped(thread: nat, item: T) | Overrun(item: T)

  /** `pushed` and `departed` record the whole history of the ring. */
  datatype State<T> = State(capacity: nat, q: seq<T>, owner: Option<nat>, pcs: seq<Pc<T>>,
                            discards: nat, pushed: seq<T>, departed: seq<Departure<T>>)

  datatype Step<T> =
    | Call(t: nat, op: Op<T>)
    | Lock(t: nat)
    | Wait(t: nat)                            // release the mutex and sleep, atomically
    | Change(t: nat)
    | Unlock(t: nat)
    | Notify(t: nat, target: Option<nat>)
    | SpuriousWake(t: nat)
    | Expire(t: nat)

  function Init<T>(capacity: nat, threads: nat): State<T> {
    State(capacity, [], None, seq(threads, _ => Outside(None)), 0, [], [])
  }

  /** The predicate the condition variable waits for is false. */
  predicate MustWait<T>(s: State<T>, op: Op<T>) {
    match op
    case Enqueue(_) => |s.q| == s.capacity
    case Dequeue => |s.q| == 0
    case DequeueFor => |s.q| == 0
    case _ => false
  }

  predicate HasSleeper<T>(s: State<T>, push: bool) {
    exists u :: 0 <= u < |s.pcs| && Sleeps(s, u, push)
  }

  predicate Sleeps<T>(s: State<T>, u: nat, push: bool)
    requires u < |s.pcs|
  {
    if push then s.pcs[u].SleepsOnPush() else s.pcs[u].SleepsOnPop()
  }

  predicate Enabled<T>(s: State<T>, e: Step<T>) {
    e.t < |s.pcs| &&
    var pc := s.pcs[e.t];
    match e
    case Call(_, _) => pc.Outside?
    case Lock(_) => pc.WantLock? && s.owner.None?
    case Wait(_) => pc.Holding? && MustWait(s, pc.op) && !(pc.op.DequeueFor? && pc.expired)
    case Change(_) => pc.Holding? && (MustWait(s, pc.op) ==> pc.op.DequeueFor? && pc.expired)
    case Unlock(_) => pc.Leaving?
    case Notify(_, target) =>
      pc.Notifying? &&
      (match target
       case None => !HasSleeper(s, !pc.op.Consumes())
       case Some(u) => u < |s.pcs| && Sleeps(s, u, !pc.op.Consumes()))
    case SpuriousWake(_) => pc.Asleep?
    case Expire(_) => pc.Asleep? && pc.op.DequeueFor?
  }

  function Move<T>(s: State<T>, t: nat, pc: Pc<T>): State<T>
    requires t < |s.pcs|
  {
    s.(pcs := s.pcs[t := pc])
  }

  function Insert<T>(s: State<T>, t: nat, op: Op<T>, x: T): State<T>
    requires t < |s.pcs|
  {
    var lost := Ring.Overruns(s.q, s.capacity);
    s.(q := Ring.Push(s.q, s.capacity, x),
       pushed := s.pushed + [x],
       departed := if lost == 0 then s.departed else s.departed + [Overrun((s.q + [x])[0])],
       pcs := s.pcs[t := Leaving(op, true, None)])
  }

  function Remove<T>(s: State<T>, t: nat, op: Op<T>): State<T>
    requires t < |s.pcs| && s.q != []
  {
    s.(q := s.q[1..],
       departed := s.departed + [Popped(t, s.q[0])],
       pcs := s.pcs[t := Leaving(op, true, Some(s.q[0]))])
  }

  /** The critical section, once the thread need not wait. */
  function ChangeRing<T>(s: State<T>, t: nat): State<T>
    requires Enabled(s, Change(t))
  {
    var op := s.pcs[t].op;
    match op
    case Enqueue(x) => Insert(s, t, op, x)
    case EnqueueNowait(x) => Insert(s, t, op, x)
    case EnqueueIfRoom(x) => if |s.q| < s.capacity then Insert(s, t, op, x) else Move(s, t, Leaving(op, false, None))
    case Dequeue => Remove(s, t, op)
    case DequeueFor => if s.q != [] then Remove(s, t, op) else Move(s, t, Leaving(op, false, None))
  }

  function Release<T>(s: State<T>, t: nat): State<T>
    requires Enabled(s, Unlock(t))
  {
    var pc := s.pcs[t];
    var free := s.(owner := None);
    if pc.notify then Move(free, t, Notifying(pc.op, pc.result))
    else Move(free, t, Outside(pc.result)).(discards := s.discards + if pc.op.EnqueueIfRoom? then 1 else 0)
  }

  function Apply<T>(s: State<T>, e: Step<T>): (r: State<T>)
    requires Enabled(s, e)
    ensures |r.pcs| == |s.pcs| && r.capacity == s.capacity
  {
    var pc := s.pcs[e.t];
    match e
    case Call(t, op) => Move(s, t, WantLock(op, false, false))
    case Lock(t) => Move(s, t, Holding(pc.op, pc.woken, pc.expired)).(owner := Some(t))
    case Wait(t) => Move(s, t, Asleep(pc.op)).(owner := None)
    case Change(t) => ChangeRing(s, t)
    case Unlock(t) => Release(s, t)
    case Notify(t, target) =>
      var done := Move(s, t, Outside(pc.result));
      if target.None? then done else Move(done, target.value, WantLock(s.pcs[target.value].op, true, false))
    case SpuriousWake(t) => Move(s, t, WantLock(pc.op, true, false))
    case Expire(t) => Move(s, t, WantLock(pc.op, true, true))
  }

  // ---------------------------------------------------------------- the shared ring

  /** The queue object: what a thread does to the ring while it owns the mutex is what the steps above
      say about the sequence `q`. */
  class MpmcBlockingQueue<T(0)> {
    const ring: Ring.CircularQ<T>
    var discardCounter: nat

    ghost predicate Shows(s: State<T>)
      reads this, ring, ring.v
    {
      && ring.Valid() && ring.maxItems == s.capacity + 1
      && ring.Contents() == s.q && discardCounter == s.discards
    }

    constructor (maxItems: nat)
      ensures fresh(ring) && fresh(ring.v)
      ensures forall threads: nat :: Shows(Init(maxItems, threads))
    {
      ring := new Ring.CircularQ<T>(maxItems);
      discardCounter := 0;
    }

    /** The predicate handed to the condition variable, negated. */
    method TestWait(ghost s: State<T>, op: Op<T>) returns (mustWait: bool)
      requires Shows(s)
      ensures mustWait <==> MustWait(s, op)
    {
      match op
      case Enqueue(_) => mustWait := ring.Full();
      case Dequeue => mustWait := ring.Empty();
      case DequeueFor => mustWait := ring.Empty();
      case _ => mustWait := false;
    }

    /** The rest of an enqueuer's critical section, once it need not wait. */
    method Put(ghost s: State<T>, ghost t: nat, op: Op<T>) returns (notify: bool)
      requires Shows(s) && Enabled(s, Change(t)) && s.pcs[t].op == op && !op.Consumes()
      modifies ring, ring.v
      ensures Shows(ChangeRing(s, t)) && ring.v == old(ring.v)
      ensures ChangeRing(s, t).pcs == s.pcs[t := Leaving(op, notify, None)]
      ensures ring.overrunCounter == old(ring.overrunCounter) + |ChangeRing(s, t).departed| - |s.departed|
    {
      notify := true;
      if op.EnqueueIfRoom? {
        var full := ring.Full();
        notify := !full;
      }
      if notify {
        ring.PushBack(op.item);
      }
    }

    /** The same for a dequeuer, which may also have timed out. */
    method Take(ghost s: State<T>, ghost t: nat, op: Op<T>) returns (result: Option<T>)
      requires Shows(s) && Enabled(s, Change(t)) && s.pcs[t].op == op && op.Consumes()
      modifies ring, ring.v
      ensures Shows(ChangeRing(s, t)) && ring.v == old(ring.v)
      ensures ChangeRing(s, t).pcs == s.pcs[t := Leaving(op, result.Some?, result)]
      ensures ring.overrunCounter == old(ring.overrunCounter)
    {
      var empty := ring.Empty();
      if empty {
        return None;
      }
      var x := ring.Front();
      result := Some(x);
      ring.PopFront();
    }

    /** After the mutex is released: a refused item is counted as discarded. */
    method CountDiscard(ghost s: State<T>, ghost t: nat, op: Op<T>, notify: bool)
      requires Shows(s) && Enabled(s, Unlock(t)) && s.pcs[t].op == op && s.pcs[t].notify == notify
      modifies this`discardCounter
      ensures Shows(Release(s, t))
    {
      if !notify && op.EnqueueIfRoom? {
        discardCounter := discardCounter + 1;
      }
    }
  }

  // ---------------------------------------------------------------- counting threads

  function Total<T>(pcs: seq<Pc<T>>, w: Pc<T> -> nat): nat {
    if pcs == [] then 0 else w(pcs[0]) + Total(pcs[1..], w)
  }

  lemma {:induction false} TotalUpdate<T>(pcs: seq<Pc<T>>, i: nat, pc: Pc<T>, w: Pc<T> -> nat)
    requires i < |pcs|
    ensures Total(pcs[i := pc], w) == Total(pcs, w) - w(pcs[i]) + w(pc)
    ensures Total(pcs, w) >= w(pcs[i])
  {
    if i == 0 {
      assert pcs[0 := pc][1..] == pcs[1..];
    } else {
      TotalUpdate(pcs[1..], i - 1, pc, w);
      assert pcs[i := pc][1..] == pcs[1..][i - 1 := pc];
    }
  }

  lemma {:induction false} TotalZero<T>(pcs: seq<Pc<T>>, w: Pc<T> -> nat)
    requires forall i :: 0 <= i < |pcs| ==> w(pcs[i]) == 0
    ensures Total(pcs, w) == 0
  {
    if pcs != [] {
      TotalZero(pcs[1..], w);
    }
  }

  /** Pending push notifications, and consumers that woke and have not tested the ring yet. */
  function PushCredit<T>(pc: Pc<T>): nat {
    match pc
    case WantLock(op, woken, _) => if op.Consumes() && woken then 1 else 0
    case Holding(op, woken, _) => if op.Consumes() && woken then 1 else 0
    case Leaving(op, notify, _) => if !op.Consumes() && notify then 1 else 0
    case Notifying(op, _) => if op.Consumes() then 0 else 1
    case _ => 0
  }

  /** Pending pop notifications, and producers that woke and have not tested the ring yet. */
  function PopCredit<T>(pc: Pc<T>): nat {
    match pc
    case WantLock(op, woken, _) => if op.Enqueue? && woken then 1 else 0
    case Holding(op, woken, _) => if op.Enqueue? && woken then 1 else 0
    case Leaving(op, notify, _) => if op.Consumes() && notify then 1 else 0
    case Notifying(op, _) => if op.Consumes() then 1 else 0
    case _ => 0
  }

  // ---------------------------------------------------------------- the invariant

  function Items<T>(d: seq<Departure<T>>): (r: seq<T>)
    ensures |r| == |d| && forall i :: 0 <= i < |d| ==> r[i] == d[i].item
  {
    seq(|d|, i requires 0 <= i < |d| => d[i].item)
  }

  /** Exactly the recorded owner is inside a critical section. */
  ghost predicate MutualExclusion<T>(s: State<T>) {
    forall t :: 0 <= t < |s.pcs| ==> (s.pcs[t].OwnsMutex() <==> s.owner == Some(t))
  }

  ghost predicate OwnerExists<T>(s: State<T>) {
    s.owner.Some? ==> s.owner.value < |s.pcs|
  }

  ghost predicate History<T>(s: State<T>) {
    |s.q| <= s.capacity && s.pushed == Items(s.departed) + s.q
  }

  /** A sleeper is covered: every item (free slot) is matched by a notification still to be sent or
      by a woken thread that has still to look. */
  ghost predicate NoLostWakeup<T>(s: State<T>) {
    && (HasSleeper(s, true) ==> |s.q| <= Total(s.pcs, PushCredit))
    && (HasSleeper(s, false) ==> s.capacity - |s.q| <= Total(s.pcs, PopCredit))
  }

  ghost predicate Inv<T>(s: State<T>) {
    MutualExclusion(s) && OwnerExists(s) && History(s) && NoLostWakeup(s)
  }

  lemma InitInv<T>(capacity: nat, threads: nat)
    ensures Inv(Init<T>(capacity, threads))
  {
    var s := Init<T>(capacity, threads);
    assert s.pushed == Items(s.departed) + s.q;
  }

  lemma MoveCredits<T>(s: State<T>, t: nat, pc: Pc<T>)
    requires t < |s.pcs|
    ensures Total(s.pcs[t := pc], PushCredit) == Total(s.pcs, PushCredit) - PushCredit(s.pcs[t]) + PushCredit(pc)
    ensures Total(s.pcs[t := pc], PopCredit) == Total(s.pcs, PopCredit) - PopCredit(s.pcs[t]) + PopCredit(pc)
  {
    TotalUpdate(s.pcs, t, pc, PushCredit);
    TotalUpdate(s.pcs, t, pc, PopCredit);
  }

  /** Moving a thread to a place where it does not sleep can only remove sleepers. */
  lemma NoNewSleeper<T>(s: State<T>, t: nat, pc: Pc<T>, push: bool)
    requires t < |s.pcs| && !pc.Asleep?
    ensures forall s': State<T> :: s'.pcs == s.pcs[t := pc] && HasSleeper(s', push) ==> HasSleeper(s, push)
  {
    forall s': State<T> | s'.pcs == s.pcs[t := pc] && HasSleeper(s', push)
      ensures HasSleeper(s, push)
    {
      var u :| 0 <= u < |s'.pcs| && Sleeps(s', u, push);
      assert Sleeps(s, u, push);
    }
  }

  /** A thread that moves on without sleeping and without giving up credit leaves every sleeper covered. */
  lemma CreditKeepsWakeups<T>(s: State<T>, s': State<T>, t: nat, pc: Pc<T>)
    requires NoLostWakeup(s) && t < |s.pcs| && !pc.Asleep?
    requires s'.pcs == s.pcs[t := pc] && s'.q == s.q && s'.capacity == s.capacity
    requires PushCredit(pc) >= PushCredit(s.pcs[t]) && PopCredit(pc) >= PopCredit(s.pcs[t])
    ensures NoLostWakeup(s')
  {
    MoveCredits(s, t, pc);
    NoNewSleeper(s, t, pc, true);
    NoNewSleeper(s, t, pc, false);
  }

  lemma CallKeepsInv<T>(s: State<T>, t: nat, op: Op<T>)
    requires Inv(s) && Enabled(s, Call(t, op))
    ensures Inv(Apply(s, Call(t, op)))
  {
    CreditKeepsWakeups(s, Apply(s, Call(t, op)), t, WantLock(op, false, false));
  }

  lemma LockKeepsInv<T>(s: State<T>, t: nat)
    requires Inv(s) && Enabled(s, Lock(t))
    ensures Inv(Apply(s, Lock(t)))
  {
    CreditKeepsWakeups(s, Apply(s, Lock(t)), t, Holding(s.pcs[t].op, s.pcs[t].woken, s.pcs[t].expired));
  }

  lemma UnlockKeepsInv<T>(s: State<T>, t: nat)
    requires Inv(s) && Enabled(s, Unlock(t))
    ensures Inv(Apply(s, Unlock(t)))
  {
    var pc := s.pcs[t];
    CreditKeepsWakeups(s, Apply(s, Unlock(t)), t,
                       if pc.notify then Notifying(pc.op, pc.result) else Outside(pc.result));
  }

  lemma StepKeepsInv<T>(s: State<T>, e: Step<T>)
    requires Inv(s) && Enabled(s, e)
    ensures Inv(Apply(s, e))
  {
    match e
    case Call(t, op) => CallKeepsInv(s, t, op);
    case Lock(t) => LockKeepsInv(s, t);
    case Wait(t) => WaitKeepsInv(s, t);
    case Change(t) => ChangeKeepsInv(s, t);
    case Unlock(t) => UnlockKeepsInv(s, t);
    case Notify(t, target) => NotifyKeepsInv(s, t, target);
    case SpuriousWake(t) => WakeKeepsInv(s, t, false);
    case Expire(t) => WakeKeepsInv(s, t, true);
  }

  lemma WaitKeepsInv<T>(s: State<T>, t: nat)
    requires Inv(s) && Enabled(s, Wait(t))
    ensures Inv(Apply(s, Wait(t)))
  {
    var s' := Apply(s, Wait(t));
    MoveCredits(s, t, Asleep(s.pcs[t].op));
    var push := s.pcs[t].op.Consumes();
    if HasSleeper(s', !push) {
      var u :| 0 <= u < |s'.pcs| && Sleeps(s', u, !push);
      assert Sleeps(s, u, !push);
    }
  }

  lemma WakeKeepsInv<T>(s: State<T>, t: nat, expired: bool)
    requires Inv(s) && t < |s.pcs| && s.pcs[t].Asleep?
    ensures Inv(Move(s, t, WantLock(s.pcs[t].op, true, expired)))
  {
    var pc := WantLock(s.pcs[t].op, true, expired);
    CreditKeepsWakeups(s, Move(s, t, pc), t, pc);
  }

  lemma ChangeKeepsInv<T>(s: State<T>, t: nat)
    requires Inv(s) && Enabled(s, Change(t))
    ensures Inv(ChangeRing(s, t))
  {
    var s' := ChangeRing(s, t);
    assert s'.pcs == s.pcs[t := s'.pcs[t]] && s'.owner == s.owner;
    ChangeKeepsWakeups(s, t);
  }

  /** A pushed item (freed slot) brings its own notification, and a woken thread has used its credit up. */
  lemma ChangeKeepsWakeups<T>(s: State<T>, t: nat)
    requires NoLostWakeup(s) && |s.q| <= s.capacity && Enabled(s, Change(t))
    ensures NoLostWakeup(ChangeRing(s, t))
  {
    var s' := ChangeRing(s, t);
    var pc := s'.pcs[t];
    assert s'.pcs == s.pcs[t := pc];
    MoveCredits(s, t, pc);
    NoNewSleeper(s, t, pc, true);
    NoNewSleeper(s, t, pc, false);
  }

  /** `notify_one` hands its credit to the thread it wakes, and loses it only if nobody sleeps. */
  lemma NotifyKeepsWakeups<T>(s: State<T>, t: nat, target: Option<nat>)
    requires NoLostWakeup(s) && Enabled(s, Notify(t, target))
    ensures NoLostWakeup(Apply(s, Notify(t, target)))
  {
    var pc := Outside(s.pcs[t].result);
    var done := Move(s, t, pc);
    MoveCredits(s, t, pc);
    NoNewSleeper(s, t, pc, true);
    NoNewSleeper(s, t, pc, false);
    if target.Some? {
      WokenKeepsWakeups(s, t, target.value);
    }
  }

  lemma WokenKeepsWakeups<T>(s: State<T>, t: nat, u: nat)
    requires NoLostWakeup(s) && Enabled(s, Notify(t, Some(u)))
    ensures NoLostWakeup(Apply(s, Notify(t, Some(u))))
  {
    var pc, woken := Outside(s.pcs[t].result), WantLock(s.pcs[u].op, true, false);
    var done := Move(s, t, pc);
    MoveCredits(s, t, pc);
    MoveCredits(done, u, woken);
    NoNewSleeper(s, t, pc, true);
    NoNewSleeper(s, t, pc, false);
    NoNewSleeper(done, u, woken, true);
    NoNewSleeper(done, u, woken, false);
    assert done.pcs[u] == s.pcs[u];
  }

  lemma NotifyKeepsInv<T>(s: State<T>, t: nat, target: Option<nat>)
    requires Inv(s) && Enabled(s, Notify(t, target))
    ensures Inv(Apply(s, Notify(t, target)))
  {
    NotifyKeepsWakeups(s, t, target);
  }

  // ---------------------------------------------------------------- runs

  /** Steps a thread inside a call takes by itself. */
  predicate Internal<T>(e: Step<T>) {
    e.Lock? || e.Wait? || e.Change? || e.Unlock? || e.Notify?
  }

  predicate Feasible<T>(s: State<T>, es: seq<Step<T>>)
    decreases |es|
  {
    es == [] || (Enabled(s, es[0]) && Feasible(Apply(s, es[0]), es[1..]))
  }

  function After<T>(s: State<T>, es: seq<Step<T>>): State<T>
    requires Feasible(s, es)
    decreases |es|
  {
    if es == [] then s else After(Apply(s, es[0]), es[1..])
  }

  lemma {:induction false} RunKeepsInv<T>(s: State<T>, es: seq<Step<T>>)
    requires Inv(s) && Feasible(s, es)
    ensures Inv(After(s, es))
    decreases |es|
  {
    if es != [] {
      StepKeepsInv(s, es[0]);
      RunKeepsInv(Apply(s, es[0]), es[1..]);
    }
  }

  /** No wake-up is lost in any interleaving, even though notify_one runs outside the mutex. */
  lemma NoWakeupIsEverLost<T>(capacity: nat, threads: nat, es: seq<Step<T>>)
    requires Feasible(Init(capacity, threads), es)
    ensures NoLostWakeup(After(Init(capacity, threads), es))
    ensures History(After(Init(capacity, threads), es))
  {
    InitInv<T>(capacity, threads);
    RunKeepsInv(Init(capacity, threads), es);
  }

  // ---------------------------------------------------------------- progress

  predicate Busy<T>(pc: Pc<T>) {
    !pc.Outside? && !pc.Asleep?
  }

  /** As long as some thread is inside a call and awake, some thread can move by itself. */
  lemma BusyQueueMoves<T>(s: State<T>, t: nat) returns (e: Step<T>)
    requires Inv(s) && t < |s.pcs| && Busy(s.pcs[t])
    ensures Internal(e) && Enabled(s, e)
  {
    if s.owner.Some? {
      e := MutexOwnerMoves(s, s.owner.value);
    } else {
      match s.pcs[t]
      case WantLock(_, _, _) => e := Lock(t);
      case Notifying(op, _) =>
        if HasSleeper(s, !op.Consumes()) {
          var u :| 0 <= u < |s.pcs| && Sleeps(s, u, !op.Consumes());
          e := Notify(t, Some(u));
        } else {
          e := Notify(t, None);
        }
    }
  }

  lemma MutexOwnerMoves<T>(s: State<T>, t: nat) returns (e: Step<T>)
    requires t < |s.pcs| && s.pcs[t].OwnsMutex()
    ensures Internal(e) && Enabled(s, e)
  {
    if s.pcs[t].Leaving? {
      e := Unlock(t);
    } else if Enabled(s, Wait(t)) {
      e := Wait(t);
    } else {
      e := Change(t);
    }
  }

  /** Once nobody is awake inside a call, consumers sleep only over an empty ring and producers
      only over a full one; so with room for one item they never sleep together. */
  lemma QuietQueueIsSettled<T>(s: State<T>)
    requires Inv(s)
    requires forall t :: 0 <= t < |s.pcs| ==> !Busy(s.pcs[t])
    ensures HasSleeper(s, true) ==> s.q == []
    ensures HasSleeper(s, false) ==> |s.q| == s.capacity
    ensures s.capacity >= 1 ==> !(HasSleeper(s, true) && HasSleeper(s, false))
  {
    TotalZero(s.pcs, PushCredit);
    TotalZero(s.pcs, PopCredit);
  }

  // ---------------------------------------------------------------- boundedness

  /** Internal steps a call may still cost, notifications to others included. */
  function Work<T>(pc: Pc<T>): nat {
    match pc
    case Outside(_) => 0
    case WantLock(_, _, _) => 6
    case Holding(_, _, _) => 5
    case Asleep(_) => 4
    case Leaving(_, _, _) => 4
    case Notifying(_, _) => 3
  }

  lemma NotifyCosts<T>(s: State<T>, t: nat, u: nat)
    requires Enabled(s, Notify(t, Some(u)))
    ensures Total(Apply(s, Notify(t, Some(u))).pcs, Work) < Total(s.pcs, Work)
  {
    var pc, woken := Outside(s.pcs[t].result), WantLock(s.pcs[u].op, true, false);
    var done := s.pcs[t := pc];
    TotalUpdate(s.pcs, t, pc, Work);
    TotalUpdate(done, u, woken, Work);
    assert done[u] == s.pcs[u];
  }

  lemma StepWork<T>(s: State<T>, e: Step<T>)
    requires Enabled(s, e)
    ensures Internal(e) ==> Total(Apply(s, e).pcs, Work) < Total(s.pcs, Work)
    ensures e.Call? ==> Total(Apply(s, e).pcs, Work) == Total(s.pcs, Work) + 6
    ensures e.SpuriousWake? || e.Expire? ==> Total(Apply(s, e).pcs, Work) == Total(s.pcs, Work) + 2
  {
    if e.Notify? && e.target.Some? {
      NotifyCosts(s, e.t, e.target.value);
    } else {
      var s' := Apply(s, e);
      assert s'.pcs == s.pcs[e.t := s'.pcs[e.t]];
      TotalUpdate(s.pcs, e.t, s'.pcs[e.t], Work);
    }
  }

  function CountIf<T>(es: seq<Step<T>>, p: Step<T> -> bool): nat {
    if es == [] then 0 else (if p(es[0]) then 1 else 0) + CountIf(es[1..], p)
  }

  predicate IsCall<T>(e: Step<T>) { e.Call? }
  predicate IsSelfWake<T>(e: Step<T>) { e.SpuriousWake? || e.Expire? }

  /** Every call costs at most six steps and every spurious or timed-out wake-up two more: the
      queue cannot keep its threads running for ever. */
  lemma {:induction false} RunsAreBounded<T>(s: State<T>, es: seq<Step<T>>)
    requires Feasible(s, es)
    ensures CountIf(es, Internal) + Total(After(s, es).pcs, Work)
         <= Total(s.pcs, Work) + 6 * CountIf(es, IsCall) + 2 * CountIf(es, IsSelfWake)
    decreases |es|
  {
    if es != [] {
      StepWork(s, es[0]);
      RunsAreBounded(Apply(s, es[0]), es[1..]);
    }
  }
}
