/** What clients post to the worker pool, and what enters the ring. */
module PoolAccounts {
  import opened Common
  import opened BlockingQueue
  import opened QueueAccounts
  import opened ThreadPool

  /** How often clients post message `m` in this run. */
  function Posts(es: seq<PoolStep>, m: Msg): nat {
    if es == [] then 0 else (if es[0].Post? && es[0].msg == m then 1 else 0) + Posts(es[1..], m)
  }

  /** The step refuses message `m`: a client found the ring full. */
  ghost predicate RefusesMsg(s: Pool, e: PoolStep, m: Msg) {
    e.Queue? && RefusesItem(s.bq, e.e, m)
  }

  ghost function MsgRefusals(s: Pool, es: seq<PoolStep>, m: Msg): nat
    requires Run(s, es)
    decreases |es|
  {
    if es == [] then 0
    else (if RefusesMsg(s, es[0], m) then 1 else 0) + MsgRefusals(Do(s, es[0]), es[1..], m)
  }

  /** A client's post, whatever its policy, gives that message to the queue. */
  lemma PostInside(s: Pool, t: nat, msg: Msg, policy: Policy, m: Msg)
    requires CanStep(s, Post(t, msg, policy))
    ensures Inside(Do(s, Post(t, msg, policy)).bq, m) == Inside(s.bq, m) + if msg == m then 1 else 0
  {
    StepInside(s.bq, Call(t, PostOp(msg, policy)), m);
  }

  lemma ProcessInside(s: Pool, w: nat, m: Msg)
    requires CanStep(s, WorkerProcesses(w))
    ensures Inside(Do(s, WorkerProcesses(w)).bq, m) == Inside(s.bq, m)
  {
    TotalUpdate(s.bq.pcs, w, Outside(None), Carries(m));
  }

  lemma PoolStepInside(s: Pool, e: PoolStep, m: Msg)
    requires CanStep(s, e) && !m.Terminate?
    ensures Inside(Do(s, e).bq, m) + (if RefusesMsg(s, e, m) then 1 else 0)
         == Inside(s.bq, m) + (if e.Post? && e.msg == m then 1 else 0)
  {
    match e
    case Queue(qe) => StepInside(s.bq, qe, m);
    case WorkerDequeues(w) => StepInside(s.bq, Call(w, Dequeue), m);
    case WorkerProcesses(w) => ProcessInside(s, w, m);
    case Post(t, msg, policy) => PostInside(s, t, msg, policy, m);
    case PostTerminate => StepInside(s.bq, Call(s.workers, PostOp(Terminate, Block)), m);
    case _ =>
  }

  lemma {:induction false} PostsAreInside(s: Pool, es: seq<PoolStep>, m: Msg)
    requires Run(s, es) && !m.Terminate?
    ensures Inside(End(s, es).bq, m) + MsgRefusals(s, es, m) == Inside(s.bq, m) + Posts(es, m)
    decreases |es|
  {
    if es != [] {
      PoolStepInside(s, es[0], m);
      PostsAreInside(Do(s, es[0]), es[1..], m);
    }
  }

  // ---------------------------------------------------------------- policies

  /** No thread is in a call that could refuse, and none was refused. */
  ghost predicate NoneRefuses(s: Pool) {
    s.bq.discards == 0 && forall t :: 0 <= t < |s.bq.pcs| ==> Insists(s.bq.pcs[t])
  }

  predicate Insists(pc: Pc<Msg>) {
    pc.Outside? || !pc.op.EnqueueIfRoom?
  }

  lemma QueueKeepsNoneRefuses(s: Pool, e: Step<Msg>)
    requires NoneRefuses(s) && CanStep(s, Queue(e))
    ensures NoneRefuses(Do(s, Queue(e))) && !Refuses(s.bq, e)
  {
    var s' := Do(s, Queue(e));
    forall t | 0 <= t < |s'.bq.pcs| ensures Insists(s'.bq.pcs[t]) {
      assert Insists(s.bq.pcs[t]);
    }
    assert Insists(s.bq.pcs[e.t]);
  }

  lemma StepKeepsNoneRefuses(s: Pool, e: PoolStep, policies: set<Policy>)
    requires NoneRefuses(s) && CanStep(s, e) && PostIn(e, policies) && DiscardNew !in policies
    ensures NoneRefuses(Do(s, e)) && (e.Queue? ==> !Refuses(s.bq, e.e))
  {
    match e
    case Queue(qe) => QueueKeepsNoneRefuses(s, qe);
    case _ =>
  }

  lemma {:induction false} NothingRefused(s: Pool, es: seq<PoolStep>, policies: set<Policy>, m: Msg)
    requires NoneRefuses(s) && Run(s, es) && PostsIn(es, policies) && DiscardNew !in policies
    ensures End(s, es).bq.discards == 0 && MsgRefusals(s, es, m) == 0
    decreases |es|
  {
    if es != [] {
      StepKeepsNoneRefuses(s, es[0], policies);
      NothingRefused(Do(s, es[0]), es[1..], policies, m);
    }
  }

  /** No client is in a call that could wait for room. */
  ghost predicate NoneWaits(s: Pool) {
    forall t :: s.workers < t < |s.bq.pcs| ==> GoesOn(s.bq.pcs[t])
  }

  predicate GoesOn(pc: Pc<Msg>) {
    pc.Outside? || (!pc.Asleep? && (pc.op.EnqueueNowait? || pc.op.EnqueueIfRoom?))
  }

  lemma StepKeepsNoneWaits(s: Pool, e: PoolStep, policies: set<Policy>)
    requires NoneWaits(s) && CanStep(s, e) && PostIn(e, policies) && Block !in policies
    ensures NoneWaits(Do(s, e))
  {
    forall t | s.workers < t < |s.bq.pcs| ensures GoesOn(Do(s, e).bq.pcs[t]) {
      assert GoesOn(s.bq.pcs[t]);
    }
  }

  lemma {:induction false} ClientsGoOn(s: Pool, es: seq<PoolStep>, policies: set<Policy>)
    requires NoneWaits(s) && Run(s, es) && PostsIn(es, policies) && Block !in policies
    ensures NoneWaits(End(s, es)) && End(s, es).workers == s.workers
    decreases |es|
  {
    if es != [] {
      StepKeepsNoneWaits(s, es[0], policies);
      ClientsGoOn(Do(s, es[0]), es[1..], policies);
    }
  }

  /** In every run of a new pool, each message as often as clients post it: pushed, on its way into the ring, or refused
      because the ring was full. Without the discard policy nothing is refused and nothing counted as discarded; without
      the overrun policy nothing is overrun; without the block policy no client ever sleeps. */
  lemma PostsAreAccounted(capacity: nat, workers: nat, clients: nat, s: Pool, es: seq<PoolStep>, policies: set<Policy>,
                          m: Msg)
    requires Construct(capacity, workers, clients) == Some(s) && Run(s, es) && PostsIn(es, policies) && !m.Terminate?
    ensures var f := End(s, es);
            && Posts(es, m) == multiset(f.bq.pushed)[m] + Total(f.bq.pcs, Carries(m)) + MsgRefusals(s, es, m)
            && (DiscardNew !in policies ==> MsgRefusals(s, es, m) == 0 && f.bq.discards == 0)
            && (OverrunOldest !in policies ==> NoneOverrun(f.bq.departed))
            && (Block !in policies ==> forall t :: workers < t < |f.bq.pcs| ==> !f.bq.pcs[t].Asleep?)
  {
    var f := End(s, es);
    TotalZero(s.bq.pcs, Carries(m));
    PostsAreInside(s, es, m);
    if DiscardNew !in policies {
      NothingRefused(s, es, policies, m);
    }
    if OverrunOldest !in policies {
      ConstructInv(capacity, workers, clients);
      SparingOverrunsNothing(s, es, policies);
    }
    if Block !in policies {
      ClientsGoOn(s, es, policies);
      assert forall t :: workers < t < |f.bq.pcs| ==> GoesOn(f.bq.pcs[t]);
    }
  }

  /** The pool as RenderX uses it, with blocking clients, at any time of any run: each message as often as it was posted
      is on its way into the ring, in the ring, in a worker's hands or processed, and none was discarded. */
  lemma BlockingLosesNothing(capacity: nat, workers: nat, clients: nat, s: Pool, es: seq<PoolStep>, m: Msg)
    requires Construct(capacity, workers, clients) == Some(s) && Run(s, es) && PostsIn(es, {Block}) && !m.Terminate?
    ensures var f := End(s, es);
            && Posts(es, m) == multiset(f.bq.pushed)[m] + Total(f.bq.pcs, Carries(m))
            && multiset(f.bq.pushed)[m] == multiset(Items(f.bq.departed))[m] + multiset(f.bq.q)[m]
            && multiset(Items(f.bq.departed))[m] == multiset(f.processed)[m] + Total(f.bq.pcs, Holds(m))
            && f.bq.discards == 0
  {
    PostsAreAccounted(capacity, workers, clients, s, es, {Block}, m);
    ConstructInv(capacity, workers, clients);
    RunKeepsPoolInv(s, es);
    var f := End(s, es);
    AllTaken(f.bq.departed);
    assert HandledOnce(f, m) && f.bq.pushed == Items(f.bq.departed) + f.bq.q;
  }
}
