/** What a submission waits for, said in terms of the caller's request. */
module TimelineWaits {
  import opened TimelineQueue

  /** Every dependency of the request has been reached. */
  predicate Reached(info: SubmitInfo, counter: PerQueue<nat>) {
    forall k :: 0 <= k < |info.waitDependencies| ==> ReachedAt(info.waitDependencies[k], counter)
  }

  predicate ReachedAt(dep: QueueDependency, counter: PerQueue<nat>) {
    counter.Get(dep.waitQueue) >= dep.waitValue
  }

  /** All earlier submissions to the VkQueue of queue `q` have started. */
  ghost predicate EarlierStarted(s: State, q: QueueType, i: nat)
    requires i <= |s.device.log| == |s.device.phases|
  {
    forall j :: 0 <= j < i && s.vkQueues.Get(s.device.log[j].queue) == s.vkQueues.Get(q) ==>
      !s.device.phases[j].Pending?
  }

  /** One wait for each dependency, in the caller's order and at all stages; a wait for the swapchain image, at colour
      output, comes last if the swapchain is written, and there is no other. */
  lemma WaitsAsAsked(info: SubmitInfo)
    ensures var deps, waits := info.waitDependencies, Waits(info);
            && |waits| == |deps| + (if info.writesToSwapchain then 1 else 0)
            && (forall k :: 0 <= k < |deps| ==>
                  waits[k] == SemaphoreInfo(Timeline(deps[k].waitQueue), deps[k].waitValue, AllCommands))
            && (info.writesToSwapchain ==> waits[|deps|] == SemaphoreInfo(ImageAvailable, 0, ColorAttachmentOutput))
            && (forall k :: 0 <= k < |waits| && waits[k].semaphore == ImageAvailable ==>
                  info.writesToSwapchain && k == |deps|)
  {
  }

  /** A request is possible if its waits fit the four places there are. */
  lemma FourWaits(s: State, q: QueueType, info: SubmitInfo)
    requires Inv(s)
    ensures Enabled(s, Submit(q, info)) <==> |info.waitDependencies| + (if info.writesToSwapchain then 1 else 0) <= 4
  {
    WaitsAsAsked(info);
  }

  lemma SatisfiedMeansReached(info: SubmitInfo, counter: PerQueue<nat>)
    ensures (forall k :: 0 <= k < |Waits(info)| ==> Satisfied(Waits(info)[k], counter)) <==> Reached(info, counter)
  {
    WaitsAsAsked(info);
    var deps, waits := info.waitDependencies, Waits(info);
    if forall k :: 0 <= k < |waits| ==> Satisfied(waits[k], counter) {
      forall k | 0 <= k < |deps| ensures ReachedAt(deps[k], counter) {
        assert Satisfied(waits[k], counter);
      }
    }
    if Reached(info, counter) {
      forall k | 0 <= k < |waits| ensures Satisfied(waits[k], counter) {
        assert k < |deps| ==> ReachedAt(deps[k], counter);
      }
    }
  }

  lemma {:induction false} RunKeepsLog(s: State, es: seq<Step>)
    requires Inv(s) && Run(s, es)
    ensures Inv(End(s, es)) && s.device.log <= End(s, es).device.log && End(s, es).vkQueues == s.vkQueues
    decreases |es|
  {
    if es != [] {
      StepKeepsInv(s, es[0]);
      RunKeepsLog(Apply(s, es[0]), es[1..]);
    }
  }

  /** In any state whose log has the waits of this request at `i`. */
  lemma RequestAt(t: State, i: nat, q: QueueType, info: SubmitInfo)
    requires Inv(t) && i < |t.device.log| && t.device.log[i].queue == q && t.device.log[i].waits == Waits(info)
    ensures !t.device.phases[i].Pending? ==> Reached(info, t.device.counter)
    ensures Enabled(t, Start(i)) <==>
            t.device.phases[i].Pending? && Reached(info, t.device.counter) && EarlierStarted(t, q, i)
  {
    SatisfiedMeansReached(info, t.device.counter);
    var log := t.device.log;
    forall j | 0 <= j < i
      ensures SameVkQueueBefore(log, j, i) <==> t.vkQueues.Get(log[j].queue) == t.vkQueues.Get(q)
    {
    }
  }

  /** After any run, a submission, and any further run: the new submission is the queue's next, it has started only if
      all dependencies of the request have been reached, and it can start exactly when they have and the earlier work of
      its VkQueue has started. */
  lemma StartsExactly(vkQueues: PerQueue<nat>, es: seq<Step>, q: QueueType, info: SubmitInfo, fs: seq<Step>)
    requires Run(Init(vkQueues), es) && Enabled(End(Init(vkQueues), es), Submit(q, info))
    requires Run(Apply(End(Init(vkQueues), es), Submit(q, info)), fs)
    ensures var before := End(Init(vkQueues), es);
            var t := End(Apply(before, Submit(q, info)), fs);
            var i := |before.device.log|;
            && i < |t.device.log| == |t.device.phases| && t.vkQueues == vkQueues
            && t.device.log[i].queue == q && t.device.log[i].value == before.hosts.Get(q).submitted + 1
            && (!t.device.phases[i].Pending? ==> Reached(info, t.device.counter))
            && (Enabled(t, Start(i)) <==>
                  t.device.phases[i].Pending? && Reached(info, t.device.counter) && EarlierStarted(t, q, i))
  {
    var before := End(Init(vkQueues), es);
    InitInv(vkQueues);
    RunKeepsLog(Init(vkQueues), es);
    StepKeepsInv(before, Submit(q, info));
    var s := Apply(before, Submit(q, info));
    RunKeepsLog(s, fs);
    var t, i := End(s, fs), |before.device.log|;
    assert t.device.log[i] == s.device.log[i];
    RequestAt(t, i, q, info);
  }

  /** `WaitIdle` can return exactly when everything its queue was given has finished. */
  lemma IdleExactly(s: State, q: QueueType)
    requires Inv(s)
    ensures Enabled(s, WaitIdleReturns(q)) <==>
            forall i :: 0 <= i < |s.device.log| && s.device.log[i].queue == q ==> s.device.phases[i].Finished?
  {
    var d, last := s.device, s.hosts.Get(q).submitted;
    if d.counter.Get(q) < last {
      assert IsSubmitted(d.log, q, last);
    }
  }
}
