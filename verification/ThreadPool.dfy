/** The logger's worker pool (spdlog's thread_pool) over the blocking queue: workers dequeue until
    they are told to stop, clients post messages, and the destructor posts one terminate message
    per worker and joins them.

    Threads 0..workers-1 are the workers, thread `workers` runs the destructor, the others are
    clients, which may go on posting while the pool shuts down. */
module ThreadPool {
  import opened Common
  import opened BlockingQueue

  datatype Msg = Log(id: nat) | Flush(id: nat) | Terminate

  datatype Policy = Block | OverrunOldest | DiscardNew

  /** `posted`: terminate messages the destructor has started to post; `joined`: workers it has
      joined; `processed`: log and flush messages in the order their handling started. */
  datatype Pool = Pool(bq: State<Msg>, workers: nat, exited: set<nat>,
                       destroying: bool, posted: nat, joined: nat, processed: seq<Msg>)

  datatype PoolStep =
    | Queue(e: Step<Msg>)
    | WorkerDequeues(w: nat)
    | WorkerProcesses(w: nat)
    | Post(t: nat, msg: Msg, policy: Policy)
    | BeginShutdown
    | PostTerminate
    | Join

  /** The constructor: it throws unless there are 1 to 1000 workers. */
  function Construct(capacity: nat, workers: nat, clients: nat): (r: Option<Pool>)
    ensures r.Some? <==> 1 <= workers <= 1000
  {
    if workers == 0 || workers > 1000 then None
    else Some(Pool(Init(capacity, workers + 1 + clients), workers, {}, false, 0, 0, []))
  }

  function PostOp(msg: Msg, policy: Policy): Op<Msg> {
    match policy
    case Block => Enqueue(msg)
    case OverrunOldest => EnqueueNowait(msg)
    case DiscardNew => EnqueueIfRoom(msg)
  }

  predicate CanStep(s: Pool, e: PoolStep) {
    && s.workers < |s.bq.pcs|
    && match e
       case Queue(qe) => !qe.Call? && Enabled(s.bq, qe)
       case WorkerDequeues(w) => w < s.workers && w !in s.exited && s.bq.pcs[w] == Outside(None)
       case WorkerProcesses(w) =>
         w < s.workers && w !in s.exited && s.bq.pcs[w].Outside? && s.bq.pcs[w].result.Some?
       case Post(t, msg, _) =>
         s.workers < t < |s.bq.pcs| && s.bq.pcs[t].Outside? && !msg.Terminate?
       case BeginShutdown => !s.destroying
       case PostTerminate => s.destroying && s.posted < s.workers && s.bq.pcs[s.workers].Outside?
       case Join =>
         && s.destroying && s.posted == s.workers && s.bq.pcs[s.workers].Outside?
         && s.joined < s.workers && s.joined in s.exited
  }

  function Do(s: Pool, e: PoolStep): (r: Pool)
    requires CanStep(s, e)
    ensures |r.bq.pcs| == |s.bq.pcs| && r.workers == s.workers && r.bq.capacity == s.bq.capacity
  {
    match e
    case Queue(qe) => s.(bq := Apply(s.bq, qe))
    case WorkerDequeues(w) => s.(bq := Apply(s.bq, Call(w, Dequeue)))
    case WorkerProcesses(w) =>
      var m := s.bq.pcs[w].result.value;
      if m.Terminate? then s.(exited := s.exited + {w})
      else s.(processed := s.processed + [m], bq := Move(s.bq, w, Outside(None)))
    case Post(t, msg, policy) => s.(bq := Apply(s.bq, Call(t, PostOp(msg, policy))))
    case BeginShutdown => s.(destroying := true)
    case PostTerminate =>
      s.(posted := s.posted + 1, bq := Apply(s.bq, Call(s.workers, PostOp(Terminate, Block))))
    case Join => s.(joined := s.joined + 1)
  }

  predicate Run(s: Pool, es: seq<PoolStep>)
    decreases |es|
  {
    es == [] || (CanStep(s, es[0]) && Run(Do(s, es[0]), es[1..]))
  }

  function End(s: Pool, es: seq<PoolStep>): Pool
    requires Run(s, es)
    decreases |es|
  {
    if es == [] then s else End(Do(s, es[0]), es[1..])
  }

  // ---------------------------------------------------------------- what the counts count

  function Terminates(ms: seq<Msg>): nat {
    if ms == [] then 0 else Terminates(ms[..|ms| - 1]) + if ms[|ms| - 1].Terminate? then 1 else 0
  }

  /** The message a thread took out of the ring and still has in its hands. */
  function Held(pc: Pc<Msg>): Option<Msg> {
    match pc
    case Outside(r) => r
    case Leaving(_, _, r) => r
    case Notifying(_, r) => r
    case _ => None
  }

  /** One terminate message on its way: in a worker's hands, or in a call that has not pushed it. */
  function TermWeight(pc: Pc<Msg>): nat {
    match pc
    case WantLock(op, _, _) => if op == Enqueue(Terminate) then 1 else 0
    case Holding(op, _, _) => if op == Enqueue(Terminate) then 1 else 0
    case Asleep(op) => if op == Enqueue(Terminate) then 1 else 0
    case _ => if Held(pc) == Some(Terminate) then 1 else 0
  }

  function Holds(m: Msg): Pc<Msg> -> nat {
    pc => if Held(pc) == Some(m) then 1 else 0
  }

  /** The messages that were dequeued, as opposed to overrun. */
  function Taken(d: seq<Departure<Msg>>): seq<Msg> {
    if d == [] then []
    else Taken(d[..|d| - 1]) + if d[|d| - 1].Popped? then [d[|d| - 1].item] else []
  }

  /** Terminate messages that a client's message overran. */
  function Lost(d: seq<Departure<Msg>>): nat {
    if d == [] then 0 else Lost(d[..|d| - 1]) + if d[|d| - 1] == Overrun(Terminate) then 1 else 0
  }

  /** Terminate messages thread `w` has taken out of the ring. */
  function TerminatesTakenBy(d: seq<Departure<Msg>>, w: nat): nat {
    if d == [] then 0
    else TerminatesTakenBy(d[..|d| - 1], w) + if d[|d| - 1] == Popped(w, Terminate) then 1 else 0
  }

  // ---------------------------------------------------------------- the invariant

  /** A worker is only ever inside `dequeue`, which always comes back with a message. */
  predicate WorkerPc(pc: Pc<Msg>) {
    match pc
    case Outside(_) => true
    case Leaving(op, notify, r) => op.Dequeue? && notify && r.Some?
    case Notifying(op, r) => op.Dequeue? && r.Some?
    case _ => pc.op.Dequeue?
  }

  /** The destructor enqueues terminate messages and may block; clients enqueue anything else in any way. */
  predicate ProducerOp(op: Op<Msg>, destructor: bool) {
    if destructor then op == Enqueue(Terminate) else !op.Consumes() && !op.item.Terminate?
  }

  predicate ProducerPc(pc: Pc<Msg>, destructor: bool) {
    match pc
    case Outside(r) => r.None?
    case Leaving(op, notify, r) => ProducerOp(op, destructor) && (notify || op.EnqueueIfRoom?) && r.None?
    case Notifying(op, r) => ProducerOp(op, destructor) && r.None?
    case _ => ProducerOp(pc.op, destructor)
  }

  ghost predicate Roles(s: Pool) {
    && 1 <= s.workers < |s.bq.pcs|
    && (forall w :: 0 <= w < s.workers ==> WorkerPc(s.bq.pcs[w]))
    && (forall t :: s.workers <= t < |s.bq.pcs| ==> ProducerPc(s.bq.pcs[t], t == s.workers))
  }

  ghost predicate Counts(s: Pool) {
    && Terminates(s.bq.q) + Total(s.bq.pcs, TermWeight) + Lost(s.bq.departed) == s.posted <= s.workers
    && (s.posted > 0 ==> s.destroying)
    && s.joined <= s.workers
    && (s.joined > 0 ==> s.posted == s.workers)
  }

  ghost predicate Exits(s: Pool)
    requires s.workers < |s.bq.pcs|
  {
    && (forall w :: w in s.exited ==> w < s.workers && s.bq.pcs[w] == Outside(Some(Terminate)))
    && (forall w :: 0 <= w < s.joined ==> w in s.exited)
  }

  /** Every message dequeued has been processed or is in a worker's hands. */
  ghost predicate Handled(s: Pool)
    requires s.workers < |s.bq.pcs|
  {
    && (forall m :: HandledOnce(s, m))
    && (forall w :: 0 <= w < s.workers ==>
          TerminatesTakenBy(s.bq.departed, w) == if Held(s.bq.pcs[w]) == Some(Terminate) then 1 else 0)
  }

  ghost predicate HandledOnce(s: Pool, m: Msg) {
    multiset(s.processed)[m] + Total(s.bq.pcs, Holds(m)) == multiset(Taken(s.bq.departed))[m]
  }

  /** With a single worker, messages are processed in the order in which they were dequeued. */
  ghost predicate Ordered(s: Pool) {
    s.workers == 1 && |s.bq.pcs| > 0 ==>
      var h := Held(s.bq.pcs[0]);
      s.processed + (if h.Some? then [h.value] else []) == Taken(s.bq.departed)
  }

  /** The pool's invariant beyond the queue's own. */
  ghost predicate Rest(s: Pool) {
    Roles(s) && Counts(s) && Exits(s) && Handled(s) && Ordered(s)
  }

  ghost predicate PoolInv(s: Pool) {
    Inv(s.bq) && Rest(s)
  }

  lemma ConstructInv(capacity: nat, workers: nat, clients: nat)
    requires 1 <= workers <= 1000
    ensures PoolInv(Construct(capacity, workers, clients).value)
  {
    var s := Construct(capacity, workers, clients).value;
    InitInv<Msg>(capacity, workers + 1 + clients);
    TotalZero(s.bq.pcs, TermWeight);
    forall m ensures HandledOnce(s, m) {
      TotalZero(s.bq.pcs, Holds(m));
    }
  }

  /** What one thread moving changes in the books for message `m`. */
  lemma HandledStep(s: Pool, s': Pool, t: nat, pc: Pc<Msg>, m: Msg)
    requires HandledOnce(s, m) && t < |s.bq.pcs| && s'.bq.pcs == s.bq.pcs[t := pc]
    requires multiset(s'.processed)[m] + Holds(m)(pc) + multiset(Taken(s.bq.departed))[m]
          == multiset(s.processed)[m] + Holds(m)(s.bq.pcs[t]) + multiset(Taken(s'.bq.departed))[m]
    ensures HandledOnce(s', m)
  {
    TotalUpdate(s.bq.pcs, t, pc, Holds(m));
  }

  lemma {:induction false} TerminatesPop(ms: seq<Msg>)
    requires ms != []
    ensures Terminates(ms) == (if ms[0].Terminate? then 1 else 0) + Terminates(ms[1..])
  {
    var n := |ms| - 1;
    if n > 0 {
      TerminatesPop(ms[..n]);
      assert ms[..n][1..] == ms[1..][..n - 1];
    }
  }

  lemma DepartureNext(d: seq<Departure<Msg>>, x: Departure<Msg>)
    ensures Taken(d + [x]) == if x.Popped? then Taken(d) + [x.item] else Taken(d)
    ensures Lost(d + [x]) == Lost(d) + if x == Overrun(Terminate) then 1 else 0
    ensures forall w :: TerminatesTakenBy(d + [x], w) == TerminatesTakenBy(d, w) + if x == Popped(w, Terminate) then 1 else 0
  {
    assert (d + [x])[..|d|] == d;
    assert Taken(d) + [] == Taken(d);
  }

  /** Steps that only move a thread, holding what it held and carrying what it carried. */
  lemma MoveKeepsHandled(s: Pool, s': Pool, t: nat, pc: Pc<Msg>)
    requires (forall m :: HandledOnce(s, m)) && t < |s.bq.pcs| && Held(pc) == Held(s.bq.pcs[t])
    requires s'.bq.departed == s.bq.departed && s'.bq.pcs == s.bq.pcs[t := pc] && s'.processed == s.processed
    ensures forall m :: HandledOnce(s', m)
  {
    forall m ensures HandledOnce(s', m) {
      assert HandledOnce(s, m);
      HandledStep(s, s', t, pc, m);
    }
  }

  lemma MoveKeepsRest(s: Pool, bq: State<Msg>, t: nat, pc: Pc<Msg>)
    requires Rest(s) && t < |s.bq.pcs|
    requires bq.q == s.bq.q && bq.departed == s.bq.departed && bq.pcs == s.bq.pcs[t := pc]
    requires Held(pc) == Held(s.bq.pcs[t]) && TermWeight(pc) == TermWeight(s.bq.pcs[t])
    requires t < s.workers ==> WorkerPc(pc) && t !in s.exited
    requires t >= s.workers ==> ProducerPc(pc, t == s.workers)
    ensures Rest(s.(bq := bq))
  {
    TotalUpdate(s.bq.pcs, t, pc, TermWeight);
    MoveKeepsHandled(s, s.(bq := bq), t, pc);
  }

  lemma StepKeepsPoolInv(s: Pool, e: PoolStep)
    requires PoolInv(s) && CanStep(s, e)
    ensures PoolInv(Do(s, e))
  {
    match e
    case Queue(qe) => QueueStepKeepsInv(s, qe);
    case WorkerDequeues(w) => DequeueKeepsInv(s, w);
    case WorkerProcesses(w) => ProcessKeepsInv(s, w);
    case Post(t, msg, policy) => PostKeepsInv(s, t, msg, policy);
    case BeginShutdown => SameQueueKeepsInv(s, Do(s, e));
    case PostTerminate => PostTerminateKeepsInv(s);
    case Join => SameQueueKeepsInv(s, Do(s, e));
  }

  lemma DequeueKeepsInv(s: Pool, w: nat)
    requires PoolInv(s) && CanStep(s, WorkerDequeues(w))
    ensures PoolInv(Do(s, WorkerDequeues(w)))
  {
    CallKeepsInv(s.bq, w, Dequeue);
    MoveKeepsRest(s, Do(s, WorkerDequeues(w)).bq, w, WantLock(Dequeue, false, false));
  }

  lemma PostKeepsInv(s: Pool, t: nat, msg: Msg, policy: Policy)
    requires PoolInv(s) && CanStep(s, Post(t, msg, policy))
    ensures PoolInv(Do(s, Post(t, msg, policy)))
  {
    CallKeepsInv(s.bq, t, PostOp(msg, policy));
    MoveKeepsRest(s, Do(s, Post(t, msg, policy)).bq, t, WantLock(PostOp(msg, policy), false, false));
  }

  lemma SameQueueKeepsInv(s: Pool, s': Pool)
    requires PoolInv(s) && s'.bq == s.bq && s'.workers == s.workers && s'.processed == s.processed
    requires s'.exited == s.exited && Counts(s') && Exits(s')
    ensures PoolInv(s')
  {
    forall m ensures HandledOnce(s', m) {
      assert HandledOnce(s, m);
    }
  }

  lemma PostTerminateKeepsInv(s: Pool)
    requires PoolInv(s) && CanStep(s, PostTerminate)
    ensures PoolInv(Do(s, PostTerminate))
  {
    var s' := Do(s, PostTerminate);
    var pc := WantLock(Enqueue(Terminate), false, false);
    CallKeepsInv(s.bq, s.workers, Enqueue(Terminate));
    TotalUpdate(s.bq.pcs, s.workers, pc, TermWeight);
    MoveKeepsHandled(s, s', s.workers, pc);
  }

  lemma OutsideKeepsInv(s: State<Msg>, t: nat, r: Option<Msg>)
    requires Inv(s) && t < |s.pcs| && s.pcs[t].Outside?
    ensures Inv(Move(s, t, Outside(r)))
  {
    MoveCredits(s, t, Outside(r));
    NoNewSleeper(s, t, Outside(r), true);
    NoNewSleeper(s, t, Outside(r), false);
  }

  lemma ProcessKeepsHandled(s: Pool, w: nat)
    requires (forall m :: HandledOnce(s, m)) && CanStep(s, WorkerProcesses(w))
    requires !s.bq.pcs[w].result.value.Terminate?
    ensures forall m :: HandledOnce(Do(s, WorkerProcesses(w)), m)
  {
    var s' := Do(s, WorkerProcesses(w));
    forall m ensures HandledOnce(s', m) {
      assert HandledOnce(s, m);
      HandledStep(s, s', w, Outside(None), m);
    }
  }

  lemma ProcessKeepsRest(s: Pool, w: nat)
    requires Rest(s) && CanStep(s, WorkerProcesses(w)) && !s.bq.pcs[w].result.value.Terminate?
    ensures Rest(Do(s, WorkerProcesses(w)))
  {
    TotalUpdate(s.bq.pcs, w, Outside(None), TermWeight);
    ProcessKeepsHandled(s, w);
  }

  lemma ProcessKeepsInv(s: Pool, w: nat)
    requires PoolInv(s) && CanStep(s, WorkerProcesses(w))
    ensures PoolInv(Do(s, WorkerProcesses(w)))
  {
    if s.bq.pcs[w].result.value.Terminate? {
      var s' := Do(s, WorkerProcesses(w));
      forall m ensures HandledOnce(s', m) {
        assert HandledOnce(s, m);
      }
    } else {
      OutsideKeepsInv(s.bq, w, None);
      ProcessKeepsRest(s, w);
    }
  }

  /** A step of the queue that neither changes the ring nor wakes another thread. */
  predicate Alone(e: Step<Msg>) {
    e.Lock? || e.Wait? || e.Unlock? || e.SpuriousWake? || e.Expire?
  }

  lemma AloneMoves(s: Pool, e: Step<Msg>)
    requires Roles(s) && CanStep(s, Queue(e)) && Alone(e)
    ensures var s', t := Do(s, Queue(e)), e.t;
            && t < |s.bq.pcs| && s'.bq.q == s.bq.q && s'.bq.departed == s.bq.departed
            && s'.bq.pcs == s.bq.pcs[t := s'.bq.pcs[t]] && !s.bq.pcs[t].Outside?
            && Held(s'.bq.pcs[t]) == Held(s.bq.pcs[t]) && TermWeight(s'.bq.pcs[t]) == TermWeight(s.bq.pcs[t])
            && (t < s.workers ==> WorkerPc(s'.bq.pcs[t]))
            && (t >= s.workers ==> ProducerPc(s'.bq.pcs[t], t == s.workers))
  {
  }

  lemma AloneKeepsRest(s: Pool, e: Step<Msg>)
    requires Rest(s) && CanStep(s, Queue(e)) && Alone(e)
    ensures Rest(Do(s, Queue(e)))
  {
    AloneMoves(s, e);
    MoveKeepsRest(s, Do(s, Queue(e)).bq, e.t, Do(s, Queue(e)).bq.pcs[e.t]);
  }

  lemma QueueStepKeepsInv(s: Pool, e: Step<Msg>)
    requires PoolInv(s) && CanStep(s, Queue(e))
    ensures PoolInv(Do(s, Queue(e)))
  {
    StepKeepsInv(s.bq, e);
    match e
    case Change(t) => ChangeKeepsPoolInv(s, t);
    case Notify(t, target) => NotifyKeepsPoolInv(s, t, target);
    case _ => AloneKeepsRest(s, e);
  }

  lemma NotifyKeepsPoolInv(s: Pool, t: nat, target: Option<nat>)
    requires PoolInv(s) && CanStep(s, Queue(Notify(t, target)))
    requires Inv(Do(s, Queue(Notify(t, target))).bq)
    ensures PoolInv(Do(s, Queue(Notify(t, target))))
  {
    var pc := Outside(s.bq.pcs[t].result);
    var done := Move(s.bq, t, pc);
    MoveKeepsRest(s, done, t, pc);
    if target.Some? {
      var u := target.value;
      var woken := WantLock(s.bq.pcs[u].op, true, false);
      MoveKeepsRest(s.(bq := done), Move(done, u, woken), u, woken);
    }
  }

  lemma ChangeKeepsPoolInv(s: Pool, t: nat)
    requires PoolInv(s) && CanStep(s, Queue(Change(t)))
    requires Inv(Do(s, Queue(Change(t))).bq)
    ensures PoolInv(Do(s, Queue(Change(t))))
  {
    var s' := Do(s, Queue(Change(t)));
    if t < s.workers {
      PopKeepsRest(s, s', t);
    } else if s'.bq.pushed == s.bq.pushed {
      MoveKeepsRest(s, s'.bq, t, s'.bq.pcs[t]);
    } else {
      PushKeepsRest(s, s', t, s.bq.pcs[t].op.item);
    }
  }

  /** Thread `t` takes the oldest message. */
  predicate Pops(s: Pool, s': Pool, t: nat) {
    && t < |s.bq.pcs| && Held(s.bq.pcs[t]).None? && TermWeight(s.bq.pcs[t]) == 0 && s.bq.q != []
    && s' == s.(bq := s'.bq) && s'.bq.q == s.bq.q[1..]
    && s'.bq.departed == s.bq.departed + [Popped(t, s.bq.q[0])]
    && s'.bq.pcs == s.bq.pcs[t := Leaving(Dequeue, true, Some(s.bq.q[0]))]
  }

  /** Thread `t` puts message `x` in, and an older one may be overrun. */
  predicate Pushes(s: Pool, s': Pool, t: nat, x: Msg) {
    && t < |s.bq.pcs| && Held(s.bq.pcs[t]).None? && TermWeight(s.bq.pcs[t]) == (if x.Terminate? then 1 else 0)
    && s' == s.(bq := s'.bq) && |s'.bq.pcs| == |s.bq.pcs| && s'.bq.pcs == s.bq.pcs[t := s'.bq.pcs[t]]
    && Held(s'.bq.pcs[t]).None? && TermWeight(s'.bq.pcs[t]) == 0
    && (|| (s'.bq.q == s.bq.q + [x] && s'.bq.departed == s.bq.departed)
        || (s'.bq.q == (s.bq.q + [x])[1..] && s'.bq.departed == s.bq.departed + [Overrun((s.bq.q + [x])[0])]))
  }

  lemma PushKeepsCounts(s: Pool, s': Pool, t: nat, x: Msg)
    requires Pushes(s, s', t, x)
    ensures Terminates(s'.bq.q) + Lost(s'.bq.departed)
         == Terminates(s.bq.q) + Lost(s.bq.departed) + (if x.Terminate? then 1 else 0)
    ensures Taken(s'.bq.departed) == Taken(s.bq.departed)
    ensures forall w :: TerminatesTakenBy(s'.bq.departed, w) == TerminatesTakenBy(s.bq.departed, w)
  {
    if s'.bq.departed != s.bq.departed {
      TerminatesPop(s.bq.q + [x]);
      DepartureNext(s.bq.departed, Overrun((s.bq.q + [x])[0]));
    }
  }

  lemma PushKeepsHandled(s: Pool, s': Pool, t: nat, x: Msg)
    requires (forall m :: HandledOnce(s, m)) && Pushes(s, s', t, x)
    ensures forall m :: HandledOnce(s', m)
  {
    PushKeepsCounts(s, s', t, x);
    forall m ensures HandledOnce(s', m) {
      assert HandledOnce(s, m);
      HandledStep(s, s', t, s'.bq.pcs[t], m);
    }
  }

  lemma PushKeepsRest(s: Pool, s': Pool, t: nat, x: Msg)
    requires Rest(s) && Pushes(s, s', t, x) && t >= s.workers && ProducerPc(s'.bq.pcs[t], t == s.workers)
    ensures Rest(s')
  {
    TotalUpdate(s.bq.pcs, t, s'.bq.pcs[t], TermWeight);
    PushKeepsCounts(s, s', t, x);
    PushKeepsHandled(s, s', t, x);
  }

  lemma PopKeepsHandled(s: Pool, s': Pool, t: nat)
    requires (forall m :: HandledOnce(s, m)) && Pops(s, s', t)
    ensures forall m :: HandledOnce(s', m)
  {
    DepartureNext(s.bq.departed, Popped(t, s.bq.q[0]));
    forall m ensures HandledOnce(s', m) {
      assert HandledOnce(s, m);
      HandledStep(s, s', t, s'.bq.pcs[t], m);
    }
  }

  lemma PopKeepsCounts(s: Pool, s': Pool, t: nat)
    requires Counts(s) && Pops(s, s', t)
    ensures Counts(s')
  {
    TerminatesPop(s.bq.q);
    DepartureNext(s.bq.departed, Popped(t, s.bq.q[0]));
    TotalUpdate(s.bq.pcs, t, s'.bq.pcs[t], TermWeight);
  }

  lemma PopKeepsTaken(s: Pool, s': Pool, t: nat)
    requires Ordered(s) && Pops(s, s', t) && t < s.workers < |s.bq.pcs|
    requires forall w :: 0 <= w < s.workers ==>
               TerminatesTakenBy(s.bq.departed, w) == if Held(s.bq.pcs[w]) == Some(Terminate) then 1 else 0
    ensures Ordered(s')
    ensures forall w :: 0 <= w < s.workers ==>
              TerminatesTakenBy(s'.bq.departed, w) == if Held(s'.bq.pcs[w]) == Some(Terminate) then 1 else 0
  {
    DepartureNext(s.bq.departed, Popped(t, s.bq.q[0]));
  }

  lemma PopKeepsRest(s: Pool, s': Pool, t: nat)
    requires Rest(s) && Pops(s, s', t) && t < s.workers
    ensures Rest(s')
  {
    PopKeepsCounts(s, s', t);
    PopKeepsHandled(s, s', t);
    PopKeepsTaken(s, s', t);
  }

  lemma {:induction false} RunKeepsPoolInv(s: Pool, es: seq<PoolStep>)
    requires PoolInv(s) && Run(s, es)
    ensures PoolInv(End(s, es))
    decreases |es|
  {
    if es != [] {
      StepKeepsPoolInv(s, es[0]);
      RunKeepsPoolInv(Do(s, es[0]), es[1..]);
    }
  }

  // ---------------------------------------------------------------- shutdown cannot get stuck

  /** A step some worker or the destructor takes by itself. */
  predicate Progress(e: PoolStep) {
    match e
    case Queue(qe) => Internal(qe)
    case Post(_, _, _) => false
    case BeginShutdown => false
    case _ => true
  }

  lemma {:induction false} TotalAtLeast(pcs: seq<Pc<Msg>>, n: nat)
    requires n <= |pcs| && forall i :: 0 <= i < n ==> TermWeight(pcs[i]) == 1
    ensures Total(pcs, TermWeight) >= n
    ensures forall i :: n <= i < |pcs| ==> Total(pcs, TermWeight) >= n + TermWeight(pcs[i])
    decreases n, |pcs|
  {
    if pcs != [] {
      TotalAtLeast(pcs[1..], if n == 0 then 0 else n - 1);
    }
  }

  /** Threads beyond the first `n` carry nothing and `n` messages are carried: one each. */
  lemma {:induction false} OneEach(pcs: seq<Pc<Msg>>, n: nat)
    requires n <= |pcs| && Total(pcs, TermWeight) >= n
    requires forall i :: n <= i < |pcs| ==> TermWeight(pcs[i]) == 0
    ensures forall i :: 0 <= i < n ==> TermWeight(pcs[i]) == 1
  {
    if n == 0 {
    } else {
      if TermWeight(pcs[0]) == 0 {
        TotalAtMost(pcs[1..], n - 1);
      }
      OneEach(pcs[1..], n - 1);
    }
  }

  lemma {:induction false} TotalAtMost(pcs: seq<Pc<Msg>>, n: nat)
    requires n <= |pcs|
    requires forall i :: n <= i < |pcs| ==> TermWeight(pcs[i]) == 0
    ensures Total(pcs, TermWeight) <= n
  {
    if pcs != [] {
      TotalAtMost(pcs[1..], if n == 0 then 0 else n - 1);
    }
  }

  lemma {:induction false} NoTerminates(ms: seq<Msg>)
    requires Terminates(ms) == 0
    ensures forall i :: 0 <= i < |ms| ==> !ms[i].Terminate?
  {
    if ms != [] {
      NoTerminates(ms[..|ms| - 1]);
    }
  }

  /** Unless a terminate message was overrun: until the destructor has joined every worker, some worker or the
      destructor can move. */
  lemma ShutdownNeverDeadlocks(s: Pool) returns (e: PoolStep)
    requires PoolInv(s) && s.destroying && s.bq.capacity >= 1 && s.joined < s.workers
    requires Lost(s.bq.departed) == 0
    ensures Progress(e) && CanStep(s, e)
  {
    var d := s.workers;
    if t :| 0 <= t < |s.bq.pcs| && Busy(s.bq.pcs[t]) {
      var qe := BusyQueueMoves(s.bq, t);
      e := Queue(qe);
    } else if w :| 0 <= w < s.workers && w !in s.exited && s.bq.pcs[w].Outside? {
      e := if s.bq.pcs[w].result.None? then WorkerDequeues(w) else WorkerProcesses(w);
    } else if s.bq.pcs[d].Outside? && s.posted < s.workers {
      e := PostTerminate;
    } else {
      QuietQueueIsSettled(s.bq);
      if s.bq.pcs[d].Asleep? {
        DestructorCannotSleep(s);
      } else if s.joined !in s.exited {
        WorkerCannotSleep(s, s.joined);
      }
      e := Join;
    }
  }

  lemma DestructorCannotSleep(s: Pool)
    requires PoolInv(s) && s.bq.capacity >= 1
    requires HasSleeper(s.bq, true) ==> s.bq.q == []
    requires HasSleeper(s.bq, false) ==> |s.bq.q| == s.bq.capacity
    requires forall w :: 0 <= w < s.workers && w !in s.exited ==> s.bq.pcs[w].Asleep?
    ensures !s.bq.pcs[s.workers].Asleep?
  {
    if s.bq.pcs[s.workers].Asleep? {
      assert Sleeps(s.bq, s.workers, false);
      forall w | 0 <= w < s.workers ensures TermWeight(s.bq.pcs[w]) == 1 {
        if w !in s.exited {
          assert Sleeps(s.bq, w, true);
        }
      }
      TotalAtLeast(s.bq.pcs, s.workers);
    }
  }

  lemma WorkerCannotSleep(s: Pool, w: nat)
    requires PoolInv(s) && w < s.workers && s.posted == s.workers && Lost(s.bq.departed) == 0
    requires s.bq.pcs[s.workers].Outside?
    requires HasSleeper(s.bq, true) ==> s.bq.q == []
    requires forall t :: 0 <= t < |s.bq.pcs| ==> !Busy(s.bq.pcs[t])
    ensures !s.bq.pcs[w].Asleep?
  {
    if s.bq.pcs[w].Asleep? {
      assert Sleeps(s.bq, w, true);
      OneEach(s.bq.pcs, s.workers);
    }
  }

  // ---------------------------------------------------------------- shutdown ends

  function WorkerWork(pc: Pc<Msg>): nat {
    match pc
    case Outside(r) => if r.None? then 7 else 8
    case _ => Work(pc) + if Held(pc).Some? then 8 else 0
  }

  function ProducerWork(pc: Pc<Msg>): nat {
    match pc
    case WantLock(_, _, _) => 14
    case Holding(_, _, _) => 13
    case Asleep(_) => 12
    case _ => Work(pc)
  }

  /** Bounds the steps the pool can still take unless clients post or threads wake by chance. */
  function PoolWork(s: Pool): int
    requires s.workers <= |s.bq.pcs|
  {
    Total(s.bq.pcs[..s.workers], WorkerWork) + Total(s.bq.pcs[s.workers..], ProducerWork) +
    8 * |s.bq.q| + 15 * (s.workers - s.posted) + (s.workers - s.joined) + (s.workers - |s.exited|)
  }

  lemma {:induction false} SubsetOfRange(x: set<nat>, n: nat)
    requires forall i :: i in x ==> i < n
    ensures |x| <= n
  {
    if n > 0 {
      SubsetOfRange(x - {n - 1}, n - 1);
    }
  }

  lemma PoolWorkIsNatural(s: Pool)
    requires PoolInv(s)
    ensures PoolWork(s) >= 0
  {
    SubsetOfRange(s.exited, s.workers);
  }

  /** What one thread moving changes in the work. */
  lemma MoveWork(s: Pool, bq: State<Msg>, t: nat, pc: Pc<Msg>)
    requires s.workers <= |s.bq.pcs| && t < |s.bq.pcs| && bq.pcs == s.bq.pcs[t := pc]
    ensures PoolWork(s.(bq := bq)) - PoolWork(s) == 8 * (|bq.q| - |s.bq.q|) +
              if t < s.workers then WorkerWork(pc) - WorkerWork(s.bq.pcs[t])
              else ProducerWork(pc) - ProducerWork(s.bq.pcs[t])
  {
    var pcs, n := s.bq.pcs, s.workers;
    if t < n {
      TotalUpdate(pcs[..n], t, pc, WorkerWork);
      assert bq.pcs[..n] == pcs[..n][t := pc] && bq.pcs[n..] == pcs[n..];
    } else {
      TotalUpdate(pcs[n..], t - n, pc, ProducerWork);
      assert bq.pcs[n..] == pcs[n..][t - n := pc] && bq.pcs[..n] == pcs[..n];
    }
  }

  lemma StepPoolWork(s: Pool, e: PoolStep)
    requires Roles(s) && CanStep(s, e)
    ensures Progress(e) ==> PoolWork(Do(s, e)) < PoolWork(s)
    ensures e.Post? ==> PoolWork(Do(s, e)) == PoolWork(s) + 14
    ensures e.Queue? && e.e.SpuriousWake? ==> PoolWork(Do(s, e)) == PoolWork(s) + 2
    ensures e.BeginShutdown? ==> PoolWork(Do(s, e)) == PoolWork(s)
  {
    var s' := Do(s, e);
    match e
    case Queue(qe) => QueueStepWork(s, qe);
    case WorkerDequeues(w) => MoveWork(s, s'.bq, w, s'.bq.pcs[w]);
    case WorkerProcesses(w) =>
      if !s.bq.pcs[w].result.value.Terminate? {
        MoveWork(s, s'.bq, w, Outside(None));
      }
    case Post(t, _, _) => MoveWork(s, s'.bq, t, s'.bq.pcs[t]);
    case BeginShutdown =>
    case PostTerminate => MoveWork(s, s'.bq, s.workers, s'.bq.pcs[s.workers]);
    case Join =>
  }

  lemma AloneWork(s: Pool, e: Step<Msg>)
    requires Roles(s) && CanStep(s, Queue(e)) && Alone(e)
    ensures Internal(e) ==> PoolWork(Do(s, Queue(e))) < PoolWork(s)
    ensures e.SpuriousWake? ==> PoolWork(Do(s, Queue(e))) == PoolWork(s) + 2
  {
    var s' := Do(s, Queue(e));
    AloneMoves(s, e);
    MoveWork(s, s'.bq, e.t, s'.bq.pcs[e.t]);
  }

  lemma QueueStepWork(s: Pool, e: Step<Msg>)
    requires Roles(s) && CanStep(s, Queue(e))
    ensures Internal(e) ==> PoolWork(Do(s, Queue(e))) < PoolWork(s)
    ensures e.SpuriousWake? ==> PoolWork(Do(s, Queue(e))) == PoolWork(s) + 2
  {
    match e
    case Change(t) => ChangeWork(s, t);
    case Notify(t, target) => NotifyWork(s, t, target);
    case _ => AloneWork(s, e);
  }

  lemma ChangeWork(s: Pool, t: nat)
    requires Roles(s) && CanStep(s, Queue(Change(t)))
    ensures PoolWork(Do(s, Queue(Change(t)))) < PoolWork(s)
  {
    var bq := ChangeRing(s.bq, t);
    MoveWork(s, bq, t, bq.pcs[t]);
  }

  lemma NotifyWork(s: Pool, t: nat, target: Option<nat>)
    requires Roles(s) && CanStep(s, Queue(Notify(t, target)))
    ensures PoolWork(Do(s, Queue(Notify(t, target)))) < PoolWork(s)
  {
    var pc := Outside(s.bq.pcs[t].result);
    MoveWork(s, Move(s.bq, t, pc), t, pc);
    if target.Some? {
      assert Move(s.bq, t, pc).pcs[target.value] == s.bq.pcs[target.value];
      WokenWork(s.(bq := Move(s.bq, t, pc)), target.value);
    }
  }

  lemma WokenWork(done: Pool, u: nat)
    requires done.workers <= |done.bq.pcs| && u < |done.bq.pcs| && done.bq.pcs[u].Asleep?
    ensures PoolWork(done.(bq := Move(done.bq, u, WantLock(done.bq.pcs[u].op, true, false)))) == PoolWork(done) + 2
  {
    var woken := WantLock(done.bq.pcs[u].op, true, false);
    MoveWork(done, Move(done.bq, u, woken), u, woken);
  }

  function CountSteps(es: seq<PoolStep>, p: PoolStep -> bool): nat {
    if es == [] then 0 else (if p(es[0]) then 1 else 0) + CountSteps(es[1..], p)
  }

  predicate IsPost(e: PoolStep) { e.Post? }
  predicate IsChanceWake(e: PoolStep) { e.Queue? && e.e.SpuriousWake? }

  lemma StepBound(s: Pool, e: PoolStep)
    requires Roles(s) && CanStep(s, e)
    ensures PoolWork(Do(s, e)) + (if Progress(e) then 1 else 0)
         <= PoolWork(s) + (if IsPost(e) then 14 else 0) + (if IsChanceWake(e) then 2 else 0)
  {
    StepPoolWork(s, e);
  }

  lemma {:induction false} PoolStepsAreBounded(s: Pool, es: seq<PoolStep>)
    requires PoolInv(s) && Run(s, es)
    ensures PoolInv(End(s, es))
    ensures CountSteps(es, Progress) + PoolWork(End(s, es))
         <= PoolWork(s) + 14 * CountSteps(es, IsPost) + 2 * CountSteps(es, IsChanceWake)
    ensures PoolWork(End(s, es)) >= 0
    decreases |es|
  {
    if es == [] {
      PoolWorkIsNatural(s);
    } else {
      StepBound(s, es[0]);
      StepKeepsPoolInv(s, es[0]);
      PoolStepsAreBounded(Do(s, es[0]), es[1..]);
    }
  }

  // ---------------------------------------------------------------- the shutdown theorem

  ghost predicate AllExited(s: Pool) {
    forall w :: 0 <= w < s.workers ==> w in s.exited
  }

  /** Nothing was overrun. */
  ghost predicate NoneOverrun(d: seq<Departure<Msg>>) {
    forall i :: 0 <= i < |d| ==> d[i].Popped?
  }

  lemma {:induction false} AllTaken(d: seq<Departure<Msg>>)
    requires NoneOverrun(d)
    ensures Taken(d) == Items(d) && Lost(d) == 0
  {
    if d != [] {
      var n := |d| - 1;
      AllTaken(d[..n]);
      assert Items(d) == Items(d[..n]) + [d[n].item];
    }
  }

  /** Each worker holds the terminate message it took, so none is anywhere else. */
  lemma ExitedTerminates(s: Pool)
    requires PoolInv(s) && AllExited(s)
    ensures s.posted == s.workers && Lost(s.bq.departed) == 0 && Terminates(s.bq.q) == 0
    ensures forall w :: 0 <= w < s.workers ==> TerminatesTakenBy(s.bq.departed, w) == 1
  {
    TotalAtLeast(s.bq.pcs, s.workers);
  }

  lemma DepartedInOrder(bq: State<Msg>)
    requires History(bq) && Terminates(bq.q) == 0
    ensures |bq.departed| <= |bq.pushed|
    ensures forall i :: 0 <= i < |bq.departed| ==> bq.departed[i].item == bq.pushed[i]
    ensures forall i :: 0 <= i < |bq.pushed| && bq.pushed[i].Terminate? ==> i < |bq.departed|
  {
    NoTerminates(bq.q);
    var n := |bq.departed|;
    forall i | n <= i < |bq.pushed| ensures !bq.pushed[i].Terminate? {
      assert bq.pushed[i] == bq.q[i - n];
    }
  }

  lemma ExitedHandled(s: Pool, m: Msg)
    requires PoolInv(s) && AllExited(s) && !m.Terminate?
    ensures multiset(s.processed)[m] == multiset(Taken(s.bq.departed))[m]
  {
    var pcs := s.bq.pcs;
    assert HandledOnce(s, m);
    forall i | 0 <= i < |pcs| ensures Holds(m)(pcs[i]) == 0 {
      if i < s.workers {
        assert pcs[i] == Outside(Some(Terminate));
      }
    }
    TotalZero(pcs, Holds(m));
  }

  /** Once the last worker has exited, whatever the clients' policies: each worker has consumed exactly one
      terminate message and none was overrun; every message pushed up to the last terminate message has left
      the ring, in push order; each message dequeued has been processed exactly once, in that order when there
      is one worker. If nothing was overrun, as with the block policy, the messages dequeued are all that left. */
  lemma ShutdownDrains(s: Pool)
    requires PoolInv(s) && AllExited(s)
    ensures s.posted == s.workers && Lost(s.bq.departed) == 0
    ensures forall w :: 0 <= w < s.workers ==> TerminatesTakenBy(s.bq.departed, w) == 1
    ensures forall i :: 0 <= i < |s.bq.pushed| && s.bq.pushed[i].Terminate? ==> i < |s.bq.departed|
    ensures |s.bq.departed| <= |s.bq.pushed|
    ensures forall i :: 0 <= i < |s.bq.departed| ==> s.bq.departed[i].item == s.bq.pushed[i]
    ensures forall m: Msg :: !m.Terminate? ==> multiset(s.processed)[m] == multiset(Taken(s.bq.departed))[m]
    ensures s.workers == 1 ==> s.processed + [Terminate] == Taken(s.bq.departed)
    ensures NoneOverrun(s.bq.departed) ==> Taken(s.bq.departed) == s.bq.pushed[..|s.bq.departed|]
  {
    ExitedTerminates(s);
    DepartedInOrder(s.bq);
    forall m: Msg | !m.Terminate? ensures multiset(s.processed)[m] == multiset(Taken(s.bq.departed))[m] {
      ExitedHandled(s, m);
    }
    if NoneOverrun(s.bq.departed) {
      AllTaken(s.bq.departed);
      assert Items(s.bq.departed) == s.bq.pushed[..|s.bq.departed|];
    }
  }

  /** From any reachable state of a pool being destroyed, in every run without further posts and chance
      wake-ups: the run cannot be longer than `PoolWork`; and if it stops because nothing can move, then every
      worker has exited and been joined if and only if no terminate message was overrun. */
  lemma ShutdownCompletes(s: Pool, es: seq<PoolStep>)
    requires PoolInv(s) && s.destroying && s.bq.capacity >= 1 && Run(s, es)
    requires forall i :: 0 <= i < |es| ==> Progress(es[i])
    ensures |es| <= PoolWork(s)
    ensures (forall e :: Progress(e) ==> !CanStep(End(s, es), e)) ==>
              var f := End(s, es);
              && (f.joined == f.workers <==> AllExited(f))
              && (AllExited(f) <==> Lost(f.bq.departed) == 0)
  {
    PoolStepsAreBounded(s, es);
    AllCounted(es);
    RunKeepsPoolInv(s, es);
    RunKeepsShape(s, es);
    var f := End(s, es);
    if AllExited(f) {
      ExitedTerminates(f);
    }
    if Lost(f.bq.departed) == 0 && f.joined < f.workers {
      var e := ShutdownNeverDeadlocks(f);
    }
  }

  // ---------------------------------------------------------------- which policies are safe

  /** Clients post with these policies only. */
  predicate PostsIn(es: seq<PoolStep>, policies: set<Policy>) {
    forall i :: 0 <= i < |es| ==> PostIn(es[i], policies)
  }

  predicate PostIn(e: PoolStep, policies: set<Policy>) {
    e.Post? ==> e.policy in policies
  }

  predicate Spares(pc: Pc<Msg>) {
    pc.Outside? || !pc.op.EnqueueNowait?
  }

  /** Nothing was overrun, and no thread is in a call that could. */
  ghost predicate AllSpare(s: Pool) {
    NoneOverrun(s.bq.departed) && forall t :: 0 <= t < |s.bq.pcs| ==> Spares(s.bq.pcs[t])
  }

  lemma ChangeKeepsAllSpare(s: Pool, t: nat)
    requires AllSpare(s) && PoolInv(s) && CanStep(s, Queue(Change(t)))
    ensures AllSpare(Do(s, Queue(Change(t))))
  {
  }

  lemma QueueKeepsAllSpare(s: Pool, e: Step<Msg>)
    requires AllSpare(s) && PoolInv(s) && CanStep(s, Queue(e))
    ensures AllSpare(Do(s, Queue(e)))
  {
    match e
    case Change(t) => ChangeKeepsAllSpare(s, t);
    case Notify(_, _) =>
    case _ => AloneMoves(s, e);
  }

  lemma StepKeepsAllSpare(s: Pool, e: PoolStep, policies: set<Policy>)
    requires AllSpare(s) && PoolInv(s) && CanStep(s, e) && PostIn(e, policies)
    requires OverrunOldest !in policies || s.workers + 1 == |s.bq.pcs|
    ensures AllSpare(Do(s, e))
  {
    match e
    case Queue(qe) => QueueKeepsAllSpare(s, qe);
    case _ =>
  }

  /** Without the overrun policy, or without clients, nothing is ever overrun. */
  lemma {:induction false} SparingOverrunsNothing(s: Pool, es: seq<PoolStep>, policies: set<Policy>)
    requires PoolInv(s) && AllSpare(s) && Run(s, es) && PostsIn(es, policies)
    requires OverrunOldest !in policies || s.workers + 1 == |s.bq.pcs|
    ensures AllSpare(End(s, es)) && Lost(End(s, es).bq.departed) == 0
    decreases |es|
  {
    if es == [] {
      AllTaken(s.bq.departed);
    } else {
      StepKeepsAllSpare(s, es[0], policies);
      StepKeepsPoolInv(s, es[0]);
      SparingOverrunsNothing(Do(s, es[0]), es[1..], policies);
    }
  }

  /** Over a ring without room no terminate message ever gets in, so none is overrun and none arrives. */
  lemma {:induction false} NoRoomNoTerminates(s: Pool, es: seq<PoolStep>)
    requires PoolInv(s) && Run(s, es) && s.bq.capacity == 0
    requires Taken(s.bq.departed) == [] && Lost(s.bq.departed) == 0
    ensures Taken(End(s, es).bq.departed) == [] && Lost(End(s, es).bq.departed) == 0
    decreases |es|
  {
    if es != [] {
      StepWithoutRoom(s, es[0]);
      NoRoomNoTerminates(Do(s, es[0]), es[1..]);
    }
  }

  lemma StepWithoutRoom(s: Pool, e: PoolStep)
    requires PoolInv(s) && CanStep(s, e) && s.bq.capacity == 0
    ensures var s' := Do(s, e);
            PoolInv(s') && Taken(s'.bq.departed) == Taken(s.bq.departed) && Lost(s'.bq.departed) == Lost(s.bq.departed)
  {
    StepKeepsPoolInv(s, e);
    if e.Queue? && e.e.Change? {
      ChangeWithoutRoom(s, e.e.t);
    }
  }

  lemma ChangeWithoutRoom(s: Pool, t: nat)
    requires Roles(s) && CanStep(s, Queue(Change(t))) && s.bq.capacity == 0 && s.bq.q == []
    ensures var d := Do(s, Queue(Change(t))).bq.departed;
            Taken(d) == Taken(s.bq.departed) && Lost(d) == Lost(s.bq.departed)
  {
    var pc := s.bq.pcs[t];
    if pc.op.EnqueueNowait? {
      assert !pc.op.item.Terminate? && (s.bq.q + [pc.op.item])[0] == pc.op.item;
      DepartureNext(s.bq.departed, Overrun(pc.op.item));
    }
  }

  /** Runs of a new pool, as RenderX makes them: its clients use the block policy, and nothing is ever overrun. */
  lemma ReachedByBlocking(capacity: nat, workers: nat, clients: nat, s: Pool, es: seq<PoolStep>)
    requires Construct(capacity, workers, clients) == Some(s) && Run(s, es) && PostsIn(es, {Block})
    ensures PoolInv(End(s, es)) && NoneOverrun(End(s, es).bq.departed) && Lost(End(s, es).bq.departed) == 0
  {
    ConstructInv(capacity, workers, clients);
    RunKeepsPoolInv(s, es);
    SparingOverrunsNothing(s, es, {Block});
  }

  lemma {:induction false} RunAppends(s: Pool, es: seq<PoolStep>, e: PoolStep)
    requires Run(s, es) && CanStep(End(s, es), e)
    ensures Run(s, es + [e]) && End(s, es + [e]) == Do(End(s, es), e)
    decreases |es|
  {
    if es == [] {
      assert [e][1..] == [] && [] + [e] == [e];
    } else {
      RunAppends(Do(s, es[0]), es[1..], e);
      assert (es + [e])[1..] == es[1..] + [e];
    }
  }

  // ---------------------------------------------------------------- a run that loses a terminate message

  /** The destructor's first terminate message is in the ring with `k` messages behind it, the client is
      outside and nobody sleeps. */
  ghost predicate Behind(s: Pool, k: nat) {
    && s.workers + 1 < |s.bq.pcs| && s.destroying && s.bq.owner.None? && s.bq.departed == []
    && s.bq.q == [Terminate] + seq(k, _ => Log(0))
    && s.bq.pcs[s.workers + 1].Outside?
    && (forall t :: 0 <= t < |s.bq.pcs| ==> !s.bq.pcs[t].Asleep?)
  }

  /** `es` leads from `s` to `s'`, with posts of the overrun policy only. */
  ghost predicate Leads(s: Pool, es: seq<PoolStep>, s': Pool) {
    Run(s, es) && End(s, es) == s' && PostsIn(es, {OverrunOldest})
  }

  lemma LeadsOn(s: Pool, es: seq<PoolStep>, s': Pool, e: PoolStep)
    requires Leads(s, es, s') && CanStep(s', e) && PostIn(e, {OverrunOldest})
    ensures Leads(s, es + [e], Do(s', e))
  {
    RunAppends(s, es, e);
  }

  lemma DestructorPosts(capacity: nat, workers: nat, clients: nat, s: Pool) returns (es: seq<PoolStep>, s': Pool)
    requires Construct(capacity, workers, clients) == Some(s) && capacity >= 1 && clients >= 1
    ensures Leads(s, es, s') && Behind(s', 0) && s'.bq.capacity == capacity
  {
    es, s' := [], s;
    LeadsOn(s, es, s', BeginShutdown);
    es, s' := es + [BeginShutdown], Do(s', BeginShutdown);
    LeadsOn(s, es, s', PostTerminate);
    es, s' := es + [PostTerminate], Do(s', PostTerminate);
    var lock, change, unlock := Queue(Lock(workers)), Queue(Change(workers)), Queue(Unlock(workers));
    LeadsOn(s, es, s', lock);
    es, s' := es + [lock], Do(s', lock);
    LeadsOn(s, es, s', change);
    es, s' := es + [change], Do(s', change);
    LeadsOn(s, es, s', unlock);
    es, s' := es + [unlock], Do(s', unlock);
  }

  /** The client holds the mutex, about to push. */
  ghost predicate AboutToPush(s: Pool, k: nat) {
    && s.workers + 1 < |s.bq.pcs| && s.destroying && s.bq.departed == []
    && s.bq.q == [Terminate] + seq(k, _ => Log(0))
    && s.bq.owner == Some(s.workers + 1)
    && s.bq.pcs[s.workers + 1] == Holding(EnqueueNowait(Log(0)), false, false)
    && (forall t :: 0 <= t < |s.bq.pcs| ==> !s.bq.pcs[t].Asleep?)
  }

  lemma ClientLocks(s0: Pool, es0: seq<PoolStep>, s: Pool, k: nat) returns (es: seq<PoolStep>, s': Pool)
    requires Leads(s0, es0, s) && Behind(s, k)
    ensures Leads(s0, es, s') && AboutToPush(s', k) && s'.bq.capacity == s.bq.capacity
  {
    var c := s.workers + 1;
    var post, lock := Post(c, Log(0), OverrunOldest), Queue(Lock(c));
    LeadsOn(s0, es0, s, post);
    es, s' := es0 + [post], Do(s, post);
    LeadsOn(s0, es, s', lock);
    es, s' := es + [lock], Do(s', lock);
  }

  lemma ClientPushes(s0: Pool, es0: seq<PoolStep>, s: Pool, k: nat) returns (es: seq<PoolStep>, s': Pool)
    requires Leads(s0, es0, s) && AboutToPush(s, k) && k + 1 < s.bq.capacity
    ensures Leads(s0, es, s') && Behind(s', k + 1) && s'.bq.capacity == s.bq.capacity
  {
    var c := s.workers + 1;
    var change, unlock, notify := Queue(Change(c)), Queue(Unlock(c)), Queue(Notify(c, None));
    LeadsOn(s0, es0, s, change);
    es, s' := es0 + [change], Do(s, change);
    assert s'.bq.q == [Terminate] + seq(k + 1, _ => Log(0));
    LeadsOn(s0, es, s', unlock);
    es, s' := es + [unlock], Do(s', unlock);
    LeadsOn(s0, es, s', notify);
    es, s' := es + [notify], Do(s', notify);
  }

  /** Pushing until the ring overruns the terminate message. */
  lemma {:induction false} ClientOverruns(s0: Pool, es0: seq<PoolStep>, s: Pool, k: nat)
    returns (es: seq<PoolStep>, s': Pool)
    requires Leads(s0, es0, s) && Behind(s, k) && k + 1 <= s.bq.capacity
    ensures Leads(s0, es, s') && Lost(s'.bq.departed) == 1 && s'.destroying
    decreases s.bq.capacity - k
  {
    es, s' := ClientLocks(s0, es0, s, k);
    if k + 1 < s.bq.capacity {
      es, s' := ClientPushes(s0, es, s', k);
      es, s' := ClientOverruns(s0, es, s', k + 1);
    } else {
      var change := Queue(Change(s'.workers + 1));
      LeadsOn(s0, es, s', change);
      es, s' := es + [change], Do(s', change);
      DepartureNext([], Overrun(Terminate));
      assert s'.bq.departed == [] + [Overrun(Terminate)];
    }
  }

  /** Whatever the sizes of ring and pool, one client with the overrun policy is enough: it pushes onto the
      destructor's first terminate message until the ring drops it. */
  lemma OverrunCanLoseTerminate(capacity: nat, workers: nat, clients: nat, s: Pool) returns (es: seq<PoolStep>)
    requires Construct(capacity, workers, clients) == Some(s) && capacity >= 1 && clients >= 1
    ensures Run(s, es) && PostsIn(es, {OverrunOldest})
    ensures End(s, es).destroying && Lost(End(s, es).bq.departed) == 1
  {
    var posted, s1 := DestructorPosts(capacity, workers, clients, s);
    var s2: Pool;
    es, s2 := ClientOverruns(s, posted, s1, 0);
  }

  /** No terminate message is lost in any run whose clients use these policies, if and only if the overrun policy
      is not one of them (or there is no client, or no room in the ring). */
  lemma LosesExactly(capacity: nat, workers: nat, clients: nat, s: Pool, policies: set<Policy>)
    requires Construct(capacity, workers, clients) == Some(s)
    ensures (forall es :: Run(s, es) && PostsIn(es, policies) ==> Lost(End(s, es).bq.departed) == 0) <==>
            OverrunOldest !in policies || clients == 0 || capacity == 0
  {
    ConstructInv(capacity, workers, clients);
    if OverrunOldest !in policies || clients == 0 || capacity == 0 {
      forall es | Run(s, es) && PostsIn(es, policies) ensures Lost(End(s, es).bq.departed) == 0 {
        if capacity == 0 {
          NoRoomNoTerminates(s, es);
        } else {
          SparingOverrunsNothing(s, es, policies);
        }
      }
    } else {
      var es := OverrunCanLoseTerminate(capacity, workers, clients, s);
      assert PostsIn(es, policies);
    }
  }

  // ---------------------------------------------------------------- when the destructor always returns

  ghost predicate Stuck(s: Pool) {
    forall e :: Progress(e) ==> !CanStep(s, e)
  }

  predicate AllProgress(es: seq<PoolStep>) {
    forall i :: 0 <= i < |es| ==> Progress(es[i])
  }

  lemma ProgressIsWork(s: Pool, e: PoolStep)
    requires PoolInv(s) && CanStep(s, e) && Progress(e)
    ensures PoolInv(Do(s, e)) && 0 <= PoolWork(Do(s, e)) < PoolWork(s)
  {
    StepKeepsPoolInv(s, e);
    StepBound(s, e);
    PoolWorkIsNatural(Do(s, e));
  }

  /** Any state runs on until nothing can move. */
  lemma {:induction false} RunsOut(s: Pool) returns (es: seq<PoolStep>)
    requires PoolInv(s)
    ensures Run(s, es) && AllProgress(es) && Stuck(End(s, es))
    decreases PoolWork(s)
  {
    es := [];
    if e :| Progress(e) && CanStep(s, e) {
      ProgressIsWork(s, e);
      var rest := RunsOut(Do(s, e));
      es := [e] + rest;
      assert es[1..] == rest;
    }
  }

  /** A shutdown that has come to a stop: `es` with clients of these policies, the destructor called somewhere in it,
      and then `fs` until nothing can move. */
  ghost predicate Stopped(s: Pool, policies: set<Policy>, es: seq<PoolStep>, fs: seq<PoolStep>) {
    && Run(s, es) && PostsIn(es, policies) && End(s, es).destroying
    && Run(End(s, es), fs) && AllProgress(fs) && Stuck(End(End(s, es), fs))
  }

  ghost predicate Returned(s: Pool) {
    s.joined == s.workers
  }

  lemma ReturnedTook(s: Pool)
    requires PoolInv(s) && Returned(s)
    ensures Taken(s.bq.departed) != []
  {
    assert HandledOnce(s, Terminate) && s.bq.pcs[0] == Outside(Some(Terminate));
    TotalUpdate(s.bq.pcs, 0, Outside(None), Holds(Terminate));
    assert multiset(Taken(s.bq.departed))[Terminate] > 0;
  }

  /** Whether the destructor returns is decided when the pool is made and the policies are chosen: every shutdown ends
      with all workers joined if and only if the ring has room and no client uses the overrun policy. */
  lemma ReturnsExactly(capacity: nat, workers: nat, clients: nat, s: Pool, policies: set<Policy>)
    requires Construct(capacity, workers, clients) == Some(s)
    ensures (forall es, fs :: Stopped(s, policies, es, fs) ==> Returned(End(End(s, es), fs))) <==>
            capacity >= 1 && (OverrunOldest !in policies || clients == 0)
  {
    if capacity >= 1 && (OverrunOldest !in policies || clients == 0) {
      forall es, fs | Stopped(s, policies, es, fs) ensures Returned(End(End(s, es), fs)) {
        SparingReturns(capacity, workers, clients, s, policies, es, fs);
      }
    } else {
      var es, fs := NeverReturns(capacity, workers, clients, s, policies);
    }
  }

  lemma SparingReturns(capacity: nat, workers: nat, clients: nat, s: Pool, policies: set<Policy>,
                       es: seq<PoolStep>, fs: seq<PoolStep>)
    requires Construct(capacity, workers, clients) == Some(s) && Stopped(s, policies, es, fs)
    requires capacity >= 1 && (OverrunOldest !in policies || clients == 0)
    ensures Returned(End(End(s, es), fs))
  {
    ConstructInv(capacity, workers, clients);
    RunKeepsPoolInv(s, es);
    RunKeepsShape(s, es);
    SparingOverrunsNothing(s, es, policies);
    ProgressSpares(End(s, es), fs);
    ShutdownCompletes(End(s, es), fs);
  }

  lemma ProgressSpares(s: Pool, fs: seq<PoolStep>)
    requires PoolInv(s) && AllSpare(s) && Run(s, fs) && AllProgress(fs)
    ensures Lost(End(s, fs).bq.departed) == 0
  {
    forall i | 0 <= i < |fs| ensures PostIn(fs[i], {}) {
    }
    SparingOverrunsNothing(s, fs, {});
  }

  lemma NeverReturns(capacity: nat, workers: nat, clients: nat, s: Pool, policies: set<Policy>)
    returns (es: seq<PoolStep>, fs: seq<PoolStep>)
    requires Construct(capacity, workers, clients) == Some(s)
    requires capacity == 0 || (OverrunOldest in policies && clients >= 1)
    ensures Stopped(s, policies, es, fs) && !Returned(End(End(s, es), fs))
  {
    ConstructInv(capacity, workers, clients);
    if capacity == 0 {
      es := [BeginShutdown];
      assert Run(s, es) && End(s, es) == Do(s, BeginShutdown);
    } else {
      es := OverrunCanLoseTerminate(capacity, workers, clients, s);
    }
    assert PostsIn(es, policies);
    RunKeepsPoolInv(s, es);
    var m := End(s, es);
    fs := RunsOut(m);
    RunKeepsPoolInv(m, fs);
    if capacity == 0 {
      NoRoomNoTerminates(m, fs);
      if Returned(End(m, fs)) {
        ReturnedTook(End(m, fs));
      }
    } else {
      LostIsForever(m, fs);
    }
  }

  lemma ChangeKeepsLost(s: Pool, t: nat)
    requires CanStep(s, Queue(Change(t)))
    ensures Lost(Do(s, Queue(Change(t))).bq.departed) >= Lost(s.bq.departed)
  {
    var d := Do(s, Queue(Change(t))).bq.departed;
    if d != s.bq.departed {
      DepartureNext(s.bq.departed, d[|d| - 1]);
    }
  }

  /** Once a terminate message was overrun, no run whatever lets the destructor finish: a worker is left. */
  lemma {:induction false} LostIsForever(s: Pool, es: seq<PoolStep>)
    requires PoolInv(s) && Run(s, es) && Lost(s.bq.departed) > 0
    ensures !AllExited(End(s, es)) && End(s, es).joined < End(s, es).workers
    decreases |es|
  {
    if es == [] {
      if AllExited(s) {
        ExitedTerminates(s);
      }
    } else {
      if es[0].Queue? && es[0].e.Change? {
        ChangeKeepsLost(s, es[0].e.t);
      }
      StepKeepsPoolInv(s, es[0]);
      LostIsForever(Do(s, es[0]), es[1..]);
    }
  }

  lemma {:induction false} AllCounted(es: seq<PoolStep>)
    requires forall i :: 0 <= i < |es| ==> Progress(es[i])
    ensures CountSteps(es, Progress) == |es|
    ensures CountSteps(es, IsPost) == CountSteps(es, IsChanceWake) == 0
  {
    if es != [] {
      AllCounted(es[1..]);
    }
  }

  lemma {:induction false} RunKeepsShape(s: Pool, es: seq<PoolStep>)
    requires Run(s, es)
    ensures End(s, es).bq.capacity == s.bq.capacity
    ensures s.destroying ==> End(s, es).destroying
    decreases |es|
  {
    if es != [] {
      RunKeepsShape(Do(s, es[0]), es[1..]);
    }
  }
}
