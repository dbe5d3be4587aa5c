/** When the GPU comes to rest with work left: the exact condition, without any assumption about the order
    in which dependencies were submitted. */
module TimelineStall {
  import opened Common
  import opened TimelineQueue

  /** No wait names a value that its queue has not handed out yet. */
  ghost predicate WaitsSubmitted(s: State) {
    var log := s.device.log;
    forall i, k :: 0 <= i < |log| && 0 <= k < |log[i].waits| ==> WaitSubmitted(s, log[i].waits[k])
  }

  predicate WaitSubmitted(s: State, w: SemaphoreInfo) {
    w.semaphore.Timeline? ==> w.value <= s.hosts.Get(w.semaphore.queue).submitted
  }

  /** Submissions that depend on each other in a circle, or one that depends on itself. */
  ghost predicate Cycle(log: seq<Submission>, path: seq<nat>) {
    |path| >= 2 && Chain(log, path) && path[0] == path[|path| - 1]
  }

  ghost predicate NoneFinished(d: Device, path: seq<nat>) {
    forall k :: 0 <= k < |path| ==> path[k] < |d.phases| && !d.phases[path[k]].Finished?
  }

  ghost predicate EverythingFinished(d: Device) {
    forall i :: 0 <= i < |d.phases| ==> d.phases[i].Finished?
  }

  /** The GPU cannot take a step. */
  ghost predicate AtRest(s: State) {
    forall e :: GpuStep(e) ==> !Enabled(s, e)
  }

  // ---------------------------------------------------------------- cycles never finish

  /** A cycle finishes as a whole or not at all. */
  lemma CycleTogether(s: State, path: seq<nat>, k: nat)
    requires Inv(s) && Cycle(s.device.log, path) && k < |path| && s.device.phases[path[k]].Finished?
    ensures forall j :: 0 <= j < |path| ==> s.device.phases[path[j]].Finished?
  {
    var rest := path[k..|path|];
    TransitiveCompletion(s, rest);
    assert rest[|rest| - 1] == path[|path| - 1] == path[0];
    TransitiveCompletion(s, path);
  }

  /** Of every cycle among the submissions, nothing has finished. */
  ghost predicate CyclesStuck(s: State) {
    forall path :: Cycle(s.device.log, path) ==> NoneFinished(s.device, path)
  }

  lemma FinishKeepsCycle(s: State, i: nat, path: seq<nat>)
    requires Inv(s) && Enabled(s, Finish(i)) && Cycle(s.device.log, path) && NoneFinished(s.device, path)
    ensures NoneFinished(Apply(s, Finish(i)).device, path)
  {
    forall k | 0 <= k < |path| ensures path[k] != i {
      var next := if k + 1 < |path| then k + 1 else 1;
      assert DependsOn(s.device.log, path[next - 1], path[next]);
    }
  }

  lemma SubmitKeepsCycle(s: State, q: QueueType, info: SubmitInfo, path: seq<nat>)
    requires Inv(s) && CyclesStuck(s) && Enabled(s, Submit(q, info))
    requires Cycle(Apply(s, Submit(q, info)).device.log, path)
    ensures NoneFinished(Apply(s, Submit(q, info)).device, path)
  {
    var s' := Apply(s, Submit(q, info));
    var log, log' := s.device.log, s'.device.log;
    SubmitKeepsInv(s, q, info);
    if n :| 0 <= n < |path| && path[n] == |log| {
      forall k | 0 <= k < |path| ensures !s'.device.phases[path[k]].Finished? {
        if s'.device.phases[path[k]].Finished? {
          CycleTogether(s', path, k);
        }
      }
    } else {
      forall k | 1 <= k < |path| ensures DependsOn(log, path[k - 1], path[k]) {
        assert DependsOn(log', path[k - 1], path[k]);
      }
      assert Cycle(log, path);
    }
  }

  lemma StepKeepsCyclesStuck(s: State, e: Step)
    requires Inv(s) && CyclesStuck(s) && Enabled(s, e)
    ensures CyclesStuck(Apply(s, e))
  {
    forall path | Cycle(Apply(s, e).device.log, path) ensures NoneFinished(Apply(s, e).device, path) {
      match e
      case Submit(q, info) => SubmitKeepsCycle(s, q, info, path);
      case Finish(i) => FinishKeepsCycle(s, i, path);
      case _ => assert NoneFinished(s.device, path);
    }
  }

  lemma {:induction false} RunKeepsCyclesStuck(s: State, es: seq<Step>)
    requires Inv(s) && CyclesStuck(s) && Run(s, es)
    ensures CyclesStuck(End(s, es)) && Inv(End(s, es))
    decreases |es|
  {
    if es != [] {
      StepKeepsInv(s, es[0]);
      StepKeepsCyclesStuck(s, es[0]);
      RunKeepsCyclesStuck(Apply(s, es[0]), es[1..]);
    }
  }

  // ---------------------------------------------------------------- nothing else is stuck

  /** At rest, what holds an unfinished submission back is another unfinished one. */
  lemma Blocker(s: State, i: nat) returns (j: nat)
    requires Inv(s) && AtRest(s) && WaitsSubmitted(s) && Unfinished(s.device, i)
    ensures Unfinished(s.device, j) && DependsOn(s.device.log, i, j)
  {
    var d := s.device;
    if d.phases[i].Started? {
      assert !Enabled(s, Finish(i));
      j :| 0 <= j < i && SameVkQueueBefore(d.log, j, i) && !d.phases[j].Finished?;
    } else {
      assert !Enabled(s, Start(i));
      if k :| 0 <= k < |d.log[i].waits| && !Satisfied(d.log[i].waits[k], d.counter) {
        j := Awaited(s, i, k);
      } else {
        j :| 0 <= j < i && SameVkQueueBefore(d.log, j, i) && d.phases[j].Pending?;
      }
    }
  }

  lemma Awaited(s: State, i: nat, k: nat) returns (j: nat)
    requires Inv(s) && WaitsSubmitted(s) && i < |s.device.log| && k < |s.device.log[i].waits|
    requires !Satisfied(s.device.log[i].waits[k], s.device.counter)
    ensures Unfinished(s.device, j) && DependsOn(s.device.log, i, j)
  {
    var d := s.device;
    var w := d.log[i].waits[k];
    assert WaitSubmitted(s, w);
    assert IsSubmitted(d.log, w.semaphore.queue, w.value);
    j :| 0 <= j < |d.log| && d.log[j].queue == w.semaphore.queue && d.log[j].value == w.value;
    assert WaitsFor(w, d.log[j]);
  }

  lemma {:induction false} BlockedPath(s: State, i: nat, n: nat) returns (path: seq<nat>)
    requires Inv(s) && AtRest(s) && WaitsSubmitted(s) && Unfinished(s.device, i)
    ensures |path| == n + 1 && Chain(s.device.log, path)
    ensures Unfinished(s.device, path[n])
  {
    if n == 0 {
      path := [i];
    } else {
      var before := BlockedPath(s, i, n - 1);
      var j := Blocker(s, before[n - 1]);
      path := before + [j];
      forall k | 1 <= k < |path| ensures DependsOn(s.device.log, path[k - 1], path[k]) {
        if k < n {
          assert DependsOn(s.device.log, before[k - 1], before[k]);
        }
      }
    }
  }

  lemma BlockedCycle(s: State, i: nat) returns (path: seq<nat>)
    requires Inv(s) && AtRest(s) && WaitsSubmitted(s) && Unfinished(s.device, i)
    ensures Cycle(s.device.log, path)
  {
    var n := |s.device.log|;
    var long := BlockedPath(s, i, n);
    var a, b := Pigeonhole(long, n);
    path := long[a..b + 1];
  }

  /** After any run at whose end the GPU is at rest: everything has finished if and only if every wait names a
      value that was handed out and no submissions depend on each other in a circle. */
  lemma StallsExactly(vkQueues: PerQueue<nat>, es: seq<Step>)
    requires Run(Init(vkQueues), es) && AtRest(End(Init(vkQueues), es))
    ensures var s := End(Init(vkQueues), es);
            EverythingFinished(s.device) <==> WaitsSubmitted(s) && forall path :: !Cycle(s.device.log, path)
  {
    var s := End(Init(vkQueues), es);
    InitInv(vkQueues);
    RunKeepsCyclesStuck(Init(vkQueues), es);
    if EverythingFinished(s.device) {
      forall i, k | 0 <= i < |s.device.log| && 0 <= k < |s.device.log[i].waits|
        ensures WaitSubmitted(s, s.device.log[i].waits[k])
      {
        assert Satisfied(s.device.log[i].waits[k], s.device.counter);
      }
      forall path ensures !Cycle(s.device.log, path) {
      }
    } else if WaitsSubmitted(s) {
      var i :| 0 <= i < |s.device.phases| && !s.device.phases[i].Finished?;
      var path := BlockedCycle(s, i);
    }
  }

  // ---------------------------------------------------------------- both ways to stall

  /** Waiting for one submission of a queue, and nothing else. */
  function WaitFor(queue: QueueType, value: nat): SubmitInfo {
    SubmitInfo(false, [QueueDependency(queue, value)])
  }

  lemma WaitForWaits(queue: QueueType, value: nat)
    ensures Waits(WaitFor(queue, value)) == [SemaphoreInfo(Timeline(queue), value, AllCommands)]
  {
  }

  /** Submission `i` has not started, and its first wait is not satisfied. */
  predicate Blocked(s: State, i: nat) {
    && i < |s.device.log| == |s.device.phases| && s.device.phases[i].Pending?
    && |s.device.log[i].waits| >= 1 && !Satisfied(s.device.log[i].waits[0], s.device.counter)
  }

  lemma BlockedRests(s: State)
    requires forall i :: 0 <= i < |s.device.log| ==> Blocked(s, i)
    ensures AtRest(s)
  {
    forall e | GpuStep(e) ensures !Enabled(s, e) {
      if e.Start? && e.i < |s.device.log| {
        assert Blocked(s, e.i);
      } else if e.Finish? && e.i < |s.device.log| {
        assert Blocked(s, e.i);
      }
    }
  }

  /** Graphics and compute wait for each other's first submission: every value waited for is handed out, and the GPU
      rests with both left, whatever VkQueues they share. */
  lemma CircleStalls(vkQueues: PerQueue<nat>) returns (es: seq<Step>)
    ensures Run(Init(vkQueues), es) && AtRest(End(Init(vkQueues), es))
    ensures WaitsSubmitted(End(Init(vkQueues), es)) && !EverythingFinished(End(Init(vkQueues), es).device)
  {
    var s := Init(vkQueues);
    var first, second := Submit(GRAPHICS, WaitFor(COMPUTE, 1)), Submit(COMPUTE, WaitFor(GRAPHICS, 1));
    WaitForWaits(COMPUTE, 1);
    WaitForWaits(GRAPHICS, 1);
    RunAppends(s, [], first);
    es := [] + [first];
    RunAppends(s, es, second);
    es := es + [second];
    BlockedRests(End(s, es));
  }

  lemma LoneCycle(log: seq<Submission>, path: seq<nat>)
    requires |log| == 1 && Cycle(log, path)
    ensures DependsOn(log, 0, 0)
  {
    assert DependsOn(log, path[1 - 1], path[1]);
  }

  /** One submission that waits for a value never handed out: no circle, and the GPU rests with it left. */
  lemma UnsubmittedStalls(vkQueues: PerQueue<nat>) returns (es: seq<Step>)
    ensures Run(Init(vkQueues), es) && AtRest(End(Init(vkQueues), es))
    ensures !WaitsSubmitted(End(Init(vkQueues), es)) && !EverythingFinished(End(Init(vkQueues), es).device)
    ensures forall path :: !Cycle(End(Init(vkQueues), es).device.log, path)
  {
    var s := Init(vkQueues);
    var only := Submit(GRAPHICS, WaitFor(COMPUTE, 1));
    WaitForWaits(COMPUTE, 1);
    RunAppends(s, [], only);
    es := [] + [only];
    BlockedRests(End(s, es));
    var log := End(s, es).device.log;
    assert Blocked(End(s, es), 0) && |log[0].waits| == 1 && !WaitSubmitted(End(s, es), log[0].waits[0]);
    if path :| Cycle(log, path) {
      LoneCycle(log, path);
    }
  }
}
