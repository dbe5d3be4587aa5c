/** What becomes of every item given to the blocking queue, and where every item it returns comes from. */
module QueueAccounts {
  import opened Common
  import opened BlockingQueue

  // ---------------------------------------------------------------- items given to the queue

  /** One item on its way in: the thread is in a call that has not pushed it yet. */
  ghost function Carries<T>(x: T): Pc<T> -> nat {
    (pc: Pc<T>) =>
      if (pc.WantLock? || pc.Holding? || pc.Asleep?) && !pc.op.Consumes() && pc.op.item == x then 1 else 0
  }

  /** The step gives item `x` to the queue. */
  ghost predicate Gives<T>(e: Step<T>, x: T) {
    e.Call? && !e.op.Consumes() && e.op.item == x
  }

  /** The step finds no room for an item that is pushed only if there is room. */
  predicate Refuses<T>(s: State<T>, e: Step<T>) {
    && e.Change? && e.t < |s.pcs| && s.pcs[e.t].Holding?
    && s.pcs[e.t].op.EnqueueIfRoom? && |s.q| >= s.capacity
  }

  ghost predicate RefusesItem<T>(s: State<T>, e: Step<T>, x: T) {
    Refuses(s, e) && s.pcs[e.t].op.item == x
  }

  ghost function Given<T>(es: seq<Step<T>>, x: T): nat {
    if es == [] then 0 else (if Gives(es[0], x) then 1 else 0) + Given(es[1..], x)
  }

  ghost function Refused<T>(s: State<T>, es: seq<Step<T>>, x: T): nat
    requires Feasible(s, es)
    decreases |es|
  {
    if es == [] then 0
    else (if RefusesItem(s, es[0], x) then 1 else 0) + Refused(Apply(s, es[0]), es[1..], x)
  }

  /** Item `x`, pushed or on its way. */
  ghost function Inside<T>(s: State<T>, x: T): nat {
    multiset(s.pushed)[x] + Total(s.pcs, Carries(x))
  }

  /** What the critical section does with the item of an enqueue: it is pushed unless it is refused. */
  lemma ChangePushes<T>(s: State<T>, t: nat)
    requires Enabled(s, Change(t))
    ensures var s', op := Apply(s, Change(t)), s.pcs[t].op;
            && s'.pcs == s.pcs[t := s'.pcs[t]] && s'.pcs[t].Leaving?
            && s'.pushed == s.pushed + (if op.Consumes() || Refuses(s, Change(t)) then [] else [op.item])
  {
  }

  lemma ChangeInside<T>(s: State<T>, t: nat, x: T)
    requires Enabled(s, Change(t))
    ensures Inside(Apply(s, Change(t)), x) + (if RefusesItem(s, Change(t), x) then 1 else 0) == Inside(s, x)
  {
    var s', pc := Apply(s, Change(t)), s.pcs[t];
    ChangePushes(s, t);
    TotalUpdate(s.pcs, t, s'.pcs[t], Carries(x));
    MovesInside(s.pushed, pc.op, Refuses(s, Change(t)), x);
  }

  lemma MovesInside<T>(pushed: seq<T>, op: Op<T>, refused: bool, x: T)
    ensures multiset(pushed + (if op.Consumes() || refused then [] else [op.item]))[x]
         == multiset(pushed)[x] + if !op.Consumes() && !refused && op.item == x then 1 else 0
  {
    assert pushed + [] == pushed;
  }

  lemma NotifyInside<T>(s: State<T>, t: nat, u: nat, x: T)
    requires Enabled(s, Notify(t, Some(u)))
    ensures Inside(Apply(s, Notify(t, Some(u))), x) == Inside(s, x)
  {
    var pc, woken := Outside(s.pcs[t].result), WantLock(s.pcs[u].op, true, false);
    var done := s.pcs[t := pc];
    TotalUpdate(s.pcs, t, pc, Carries(x));
    TotalUpdate(done, u, woken, Carries(x));
    assert done[u] == s.pcs[u];
  }

  lemma StepInside<T>(s: State<T>, e: Step<T>, x: T)
    requires Enabled(s, e)
    ensures Inside(Apply(s, e), x) + (if RefusesItem(s, e, x) then 1 else 0)
         == Inside(s, x) + (if Gives(e, x) then 1 else 0)
  {
    if e.Change? {
      ChangeInside(s, e.t, x);
    } else if e.Notify? && e.target.Some? {
      NotifyInside(s, e.t, e.target.value, x);
    } else {
      var s' := Apply(s, e);
      assert s'.pcs == s.pcs[e.t := s'.pcs[e.t]];
      TotalUpdate(s.pcs, e.t, s'.pcs[e.t], Carries(x));
    }
  }

  /** Every item given to the queue has been pushed, is on its way, or was refused for want of room, once each. */
  lemma {:induction false} NothingIsDropped<T>(s: State<T>, es: seq<Step<T>>, x: T)
    requires Feasible(s, es)
    ensures Inside(After(s, es), x) + Refused(s, es, x) == Inside(s, x) + Given(es, x)
    decreases |es|
  {
    if es != [] {
      StepInside(s, es[0], x);
      NothingIsDropped(Apply(s, es[0]), es[1..], x);
    }
  }

  // ---------------------------------------------------------------- the discard counter

  /** A refusal that has still to be counted. */
  function Refusing<T>(pc: Pc<T>): nat {
    if pc.Leaving? && pc.op.EnqueueIfRoom? && !pc.notify then 1 else 0
  }

  function Refusals<T>(s: State<T>, es: seq<Step<T>>): nat
    requires Feasible(s, es)
    decreases |es|
  {
    if es == [] then 0 else (if Refuses(s, es[0]) then 1 else 0) + Refusals(Apply(s, es[0]), es[1..])
  }

  lemma NotifyRefusing<T>(s: State<T>, t: nat, u: nat)
    requires Enabled(s, Notify(t, Some(u)))
    ensures Total(Apply(s, Notify(t, Some(u))).pcs, Refusing) == Total(s.pcs, Refusing)
  {
    var pc, woken := Outside(s.pcs[t].result), WantLock(s.pcs[u].op, true, false);
    var done := s.pcs[t := pc];
    TotalUpdate(s.pcs, t, pc, Refusing);
    TotalUpdate(done, u, woken, Refusing);
    assert done[u] == s.pcs[u];
  }

  lemma StepRefusing<T>(s: State<T>, e: Step<T>)
    requires Enabled(s, e)
    ensures Apply(s, e).discards + Total(Apply(s, e).pcs, Refusing)
         == s.discards + Total(s.pcs, Refusing) + if Refuses(s, e) then 1 else 0
  {
    if e.Notify? && e.target.Some? {
      NotifyRefusing(s, e.t, e.target.value);
    } else {
      var s' := Apply(s, e);
      assert s'.pcs == s.pcs[e.t := s'.pcs[e.t]];
      TotalUpdate(s.pcs, e.t, s'.pcs[e.t], Refusing);
    }
  }

  /** The counter shows every refusal, once its call has released the mutex. */
  lemma {:induction false} DiscardsAreCounted<T>(s: State<T>, es: seq<Step<T>>)
    requires Feasible(s, es)
    ensures After(s, es).discards + Total(After(s, es).pcs, Refusing)
         == s.discards + Total(s.pcs, Refusing) + Refusals(s, es)
    decreases |es|
  {
    if es != [] {
      StepRefusing(s, es[0]);
      DiscardsAreCounted(Apply(s, es[0]), es[1..]);
    }
  }

  // ---------------------------------------------------------------- who waits

  /** A thread that holds the mutex goes to sleep exactly when it enqueues with waiting into a full ring, or dequeues
      from an empty one and its time, if it has one, is not up. Otherwise it changes the ring. */
  lemma WaitsExactly<T>(s: State<T>, t: nat)
    requires Inv(s) && t < |s.pcs| && s.pcs[t].Holding?
    ensures var pc := s.pcs[t];
            && (Enabled(s, Wait(t)) <==>
                  || (pc.op.Enqueue? && |s.q| == s.capacity)
                  || (pc.op.Dequeue? && s.q == [])
                  || (pc.op.DequeueFor? && s.q == [] && !pc.expired))
            && (Enabled(s, Change(t)) <==> !Enabled(s, Wait(t)))
  {
  }

  /** A dequeue comes back with nothing only from an empty ring. */
  lemma EmptyHandedExactly<T>(s: State<T>, t: nat)
    requires Enabled(s, Change(t)) && s.pcs[t].op.Consumes()
    ensures Apply(s, Change(t)).pcs[t].Leaving? && (Apply(s, Change(t)).pcs[t].result.None? <==> s.q == [])
  {
  }

  // ---------------------------------------------------------------- items the queue returns

  /** The item thread `t` took out last. */
  function LastTaken<T>(d: seq<Departure<T>>, t: nat): Option<T> {
    if d == [] then None
    else if d[|d| - 1].Popped? && d[|d| - 1].thread == t then Some(d[|d| - 1].item)
    else LastTaken(d[..|d| - 1], t)
  }

  function ResultOf<T>(pc: Pc<T>): Option<T> {
    match pc
    case Outside(r) => r
    case Leaving(_, _, r) => r
    case Notifying(_, r) => r
    case _ => None
  }

  /** What a thread's last call returned is what the thread took out, and a wait without a timeout returns something. */
  ghost predicate OwnResult<T>(s: State<T>, t: nat)
    requires t < |s.pcs|
  {
    var pc := s.pcs[t];
    && (ResultOf(pc).Some? ==> ResultOf(pc) == LastTaken(s.departed, t))
    && ((pc.Leaving? || pc.Notifying?) && pc.op.Dequeue? ==> pc.result.Some?)
    && ((pc.Leaving? || pc.Notifying?) && !pc.op.Consumes() ==> pc.result.None?)
  }

  ghost predicate OwnResults<T>(s: State<T>) {
    forall t :: 0 <= t < |s.pcs| ==> OwnResult(s, t)
  }

  lemma LastTakenNext<T>(d: seq<Departure<T>>, x: Departure<T>, t: nat)
    ensures LastTaken(d + [x], t) == if x.Popped? && x.thread == t then Some(x.item) else LastTaken(d, t)
  {
    assert (d + [x])[..|d|] == d;
  }

  /** What the critical section takes out: a consumer the oldest item, if there is one, and nobody else anything. */
  lemma ChangeTakes<T>(s: State<T>, t: nat)
    requires Enabled(s, Change(t))
    ensures var s' := Apply(s, Change(t));
            && s'.pcs == s.pcs[t := s'.pcs[t]] && s'.pcs[t].Leaving? && s'.pcs[t].op == s.pcs[t].op
            && (if s.pcs[t].op.Consumes() && s.q != []
                then s'.departed == s.departed + [Popped(t, s.q[0])] && s'.pcs[t].result == Some(s.q[0])
                else s'.pcs[t].result == None &&
                     (s'.departed == s.departed || s'.departed == s.departed + [Overrun((s.q + [s.pcs[t].op.item])[0])]))
  {
  }

  lemma ChangeOwnResult<T>(s: State<T>, t: nat, u: nat)
    requires u < |s.pcs| && OwnResult(s, u) && Enabled(s, Change(t))
    ensures OwnResult(Apply(s, Change(t)), u)
  {
    ChangeTakes(s, t);
    if s.pcs[t].op.Consumes() && s.q != [] {
      LastTakenNext(s.departed, Popped(t, s.q[0]), u);
    } else if Apply(s, Change(t)).departed != s.departed {
      LastTakenNext(s.departed, Overrun((s.q + [s.pcs[t].op.item])[0]), u);
    }
  }

  lemma StepOwnResults<T>(s: State<T>, e: Step<T>)
    requires OwnResults(s) && Enabled(s, e)
    ensures OwnResults(Apply(s, e))
  {
    forall u | 0 <= u < |s.pcs| ensures OwnResult(Apply(s, e), u) {
      assert OwnResult(s, u);
      if e.Change? {
        ChangeOwnResult(s, e.t, u);
      }
    }
  }

  /** Over any run of a new queue: what a dequeue returns is what its thread took out of the ring, which is what was
      pushed first and had not left; a dequeue without a timeout never comes back with nothing. */
  lemma {:induction false} ResultsAreTaken<T>(s: State<T>, es: seq<Step<T>>)
    requires OwnResults(s) && Feasible(s, es)
    ensures OwnResults(After(s, es))
    decreases |es|
  {
    if es != [] {
      StepOwnResults(s, es[0]);
      ResultsAreTaken(Apply(s, es[0]), es[1..]);
    }
  }

  /** All of it, for a new queue. */
  lemma NewQueueAccounts<T>(capacity: nat, threads: nat, es: seq<Step<T>>, x: T)
    requires Feasible(Init<T>(capacity, threads), es)
    ensures var s0 := Init<T>(capacity, threads);
            var s := After(s0, es);
            && Given(es, x) == multiset(s.pushed)[x] + Total(s.pcs, Carries(x)) + Refused(s0, es, x)
            && s.discards + Total(s.pcs, Refusing) == Refusals(s0, es)
            && OwnResults(s)
  {
    var s := Init<T>(capacity, threads);
    TotalZero(s.pcs, Carries(x));
    TotalZero(s.pcs, Refusing);
    NothingIsDropped(s, es, x);
    DiscardsAreCounted(s, es);
    ResultsAreTaken(s, es);
  }
}
