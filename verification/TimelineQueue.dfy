/** The multi-queue submission protocol: every command queue owns a timeline semaphore, each
    submission waits for values of other queues and signals the next value of its own.

    Semaphores follow section 7.4 of the Vulkan 1.3 specification: a wait orders all later work of
    its VkQueue behind it, and a signal happens after all earlier work of its VkQueue. Several
    command queues may share one VkQueue. */
module TimelineQueue {

  datatype QueueType = GRAPHICS | COMPUTE | TRANSFER

  datatype PerQueue<T> = PerQueue(graphics: T, compute: T, transfer: T)
  {
    function Get(q: QueueType): T {
      match q
      case GRAPHICS => graphics
      case COMPUTE => compute
      case TRANSFER => transfer
    }

    function Set(q: QueueType, x: T): (p: PerQueue<T>)
      ensures p.Get(q) == x
      ensures forall r :: r != q ==> p.Get(r) == Get(r)
    {
      match q
      case GRAPHICS => this.(graphics := x)
      case COMPUTE => this.(compute := x)
      case TRANSFER => this.(transfer := x)
    }
  }

  datatype Semaphore = Timeline(queue: QueueType) | ImageAvailable | RenderComplete
  datatype Stage = AllCommands | ColorAttachmentOutput
  datatype SemaphoreInfo = SemaphoreInfo(semaphore: Semaphore, value: nat, stage: Stage)

  datatype QueueDependency = QueueDependency(waitQueue: QueueType, waitValue: nat)
  datatype SubmitInfo = SubmitInfo(writesToSwapchain: bool, waitDependencies: seq<QueueDependency>)

  const MAX_WAITS: nat := 4
  const MAX_SIGNALS: nat := 2

  /** One vkQueueSubmit call: it signals `value` on the timeline of `queue`. */
  datatype Submission = Submission(queue: QueueType, value: nat, vkQueue: nat, waits: seq<SemaphoreInfo>)

  datatype Phase = Pending | Started | Finished

  /** Everything ever submitted, in submission order, and how far the GPU is with it. */
  datatype Device = Device(log: seq<Submission>, phases: seq<Phase>, counter: PerQueue<nat>)

  /** m_Submitted and m_Completed of one command queue. */
  datatype Host = Host(submitted: nat, completed: nat)

  datatype State = State(device: Device, hosts: PerQueue<Host>, vkQueues: PerQueue<nat>)

  // ---------------------------------------------------------------- what one call does

  function DependencyWaits(deps: seq<QueueDependency>): (r: seq<SemaphoreInfo>)
    ensures |r| == |deps|
  {
    seq(|deps|, i requires 0 <= i < |deps| =>
      SemaphoreInfo(Timeline(deps[i].waitQueue), deps[i].waitValue, AllCommands))
  }

  function Waits(info: SubmitInfo): (r: seq<SemaphoreInfo>)
    ensures |r| == |info.waitDependencies| + if info.writesToSwapchain then 1 else 0
  {
    DependencyWaits(info.waitDependencies) +
    if info.writesToSwapchain then [SemaphoreInfo(ImageAvailable, 0, ColorAttachmentOutput)] else []
  }

  function Enqueue(d: Device, sub: Submission): Device {
    d.(log := d.log + [sub], phases := d.phases + [Pending])
  }

  function PollResult(value: nat, submitted: nat, counter: nat): bool {
    if value == 0 || value > submitted then false else value < counter
  }

  class Gpu {
    var log: seq<Submission>
    var phases: seq<Phase>
    var counter: PerQueue<nat>

    function View(): Device
      reads this
    {
      Device(log, phases, counter)
    }

    constructor ()
      ensures View() == Device([], [], PerQueue(0, 0, 0))
    {
      log, phases, counter := [], [], PerQueue(0, 0, 0);
    }

    method QueueSubmit(sub: Submission)
      modifies this
      ensures View() == Enqueue(old(View()), sub)
    {
      log := log + [sub];
      phases := phases + [Pending];
    }
  }

  class CommandQueue {
    const gpu: Gpu
    const kind: QueueType
    const vkQueue: nat

    var submitted: nat
    var completed: nat
    var waitCount: nat
    var signalCount: nat
    const waitInfos: array<SemaphoreInfo>
    const signalInfos: array<SemaphoreInfo>

    ghost predicate Valid()
      reads this
    {
      && waitInfos.Length == MAX_WAITS && signalInfos.Length == MAX_SIGNALS && waitInfos != signalInfos
      && waitCount <= MAX_WAITS && signalCount <= MAX_SIGNALS
    }

    ghost function View(): Host
      reads this
    {
      Host(submitted, completed)
    }

    /** This queue is queue `kind` of the device state `s`. */
    ghost predicate Shows(s: State)
      reads this, gpu
    {
      && gpu.View() == s.device && |s.device.phases| == |s.device.log|
      && View() == s.hosts.Get(kind) && vkQueue == s.vkQueues.Get(kind)
    }

    constructor (gpu: Gpu, kind: QueueType, vkQueue: nat)
      ensures Valid() && fresh(waitInfos) && fresh(signalInfos)
      ensures this.gpu == gpu && this.kind == kind && this.vkQueue == vkQueue
      ensures View() == Host(0, 0)
    {
      this.gpu := gpu;
      this.kind := kind;
      this.vkQueue := vkQueue;
      submitted, completed, waitCount, signalCount := 0, 0, 0, 0;
      var none := SemaphoreInfo(ImageAvailable, 0, AllCommands);
      waitInfos := new SemaphoreInfo[MAX_WAITS](_ => none);
      signalInfos := new SemaphoreInfo[MAX_SIGNALS](_ => none);
    }

    method AddWait2(semaphore: Semaphore, value: nat, stage: Stage)
      requires Valid() && waitCount < MAX_WAITS
      modifies this`waitCount, waitInfos
      ensures Valid() && waitCount == old(waitCount) + 1
      ensures waitInfos[..waitCount] == old(waitInfos[..waitCount]) + [SemaphoreInfo(semaphore, value, stage)]
    {
      waitInfos[waitCount] := SemaphoreInfo(semaphore, value, stage);
      waitCount := waitCount + 1;
    }

    method AddSignal2(semaphore: Semaphore, value: nat, stage: Stage)
      requires Valid() && signalCount < MAX_SIGNALS
      modifies this`signalCount, signalInfos
      ensures Valid() && signalCount == old(signalCount) + 1
      ensures signalInfos[..signalCount] == old(signalInfos[..signalCount]) + [SemaphoreInfo(semaphore, value, stage)]
    {
      signalInfos[signalCount] := SemaphoreInfo(semaphore, value, stage);
      signalCount := signalCount + 1;
    }

    /** The waits share a four-entry array, so a caller may ask for at most four. */
    method Submit(info: SubmitInfo) returns (timeline: nat)
      requires Valid() && |Waits(info)| <= MAX_WAITS
      modifies this, waitInfos, signalInfos, gpu
      ensures Valid() && timeline == old(submitted) + 1
      ensures View() == Host(timeline, old(completed))
      ensures waitInfos[..waitCount] == Waits(info)
      ensures signalInfos[..signalCount] ==
              [SemaphoreInfo(Timeline(kind), timeline, AllCommands)] +
              (if info.writesToSwapchain then [SemaphoreInfo(RenderComplete, 0, AllCommands)] else [])
      ensures gpu.View() == Enqueue(old(gpu.View()), Submission(kind, timeline, vkQueue, Waits(info)))
      ensures forall s: State :: old(Shows(s)) ==> Shows(Apply(s, Step.Submit(kind, info)))
    {
      waitCount := 0;
      signalCount := 0;
      var deps := info.waitDependencies;
      for i := 0 to |deps|
        modifies this`waitCount, waitInfos
        invariant Valid() && waitCount == i
        invariant waitInfos[..waitCount] == DependencyWaits(deps)[..i]
      {
        AddWait2(Timeline(deps[i].waitQueue), deps[i].waitValue, AllCommands);
      }
      submitted := submitted + 1;
      timeline := submitted;
      AddSignal2(Timeline(kind), timeline, AllCommands);
      if info.writesToSwapchain {
        AddWait2(ImageAvailable, 0, ColorAttachmentOutput);
        AddSignal2(RenderComplete, 0, AllCommands);
      }
      gpu.QueueSubmit(Submission(kind, timeline, vkQueue, waitInfos[..waitCount]));
    }

    method SubmitList() returns (timeline: nat)
      modifies this`submitted, gpu
      ensures forall s: State :: old(Shows(s)) ==> Shows(Apply(s, Step.Submit(kind, SubmitInfo(false, []))))
      ensures timeline == old(submitted) + 1
      ensures View() == Host(timeline, old(completed))
      ensures gpu.View() == Enqueue(old(gpu.View()), Submission(kind, timeline, vkQueue, []))
    {
      submitted := submitted + 1;
      timeline := submitted;
      assert Waits(SubmitInfo(false, [])) == [];
      gpu.QueueSubmit(Submission(kind, timeline, vkQueue, []));
    }

    method Poll(value: nat) returns (done: bool)
      modifies this`completed
      ensures done == PollResult(value, submitted, gpu.counter.Get(kind))
      ensures completed == if value == 0 || value > submitted then old(completed) else gpu.counter.Get(kind)
      ensures forall s: State :: old(Shows(s)) ==> Shows(Apply(s, Step.Poll(kind, value)))
      ensures forall s: State :: old(Shows(s)) && Inv(s) ==>
                (done <==> Done(s, kind, value) && value != gpu.counter.Get(kind))
    {
      forall s: State | Shows(s) && Inv(s) ensures Done(s, kind, value) <==> 1 <= value <= gpu.counter.Get(kind) {
        DoneUpToCounter(s, kind, value);
      }
      if value == 0 || value > submitted {
        return false;
      }
      completed := gpu.counter.Get(kind);
      return value < completed;
    }

    method Completed() returns (timeline: nat)
      modifies this`completed
      ensures timeline == completed == gpu.counter.Get(kind)
      ensures forall s: State :: old(Shows(s)) ==> Shows(Apply(s, Step.Completed(kind)))
      ensures forall s: State, v: nat :: old(Shows(s)) && Inv(s) ==> (Done(s, kind, v) <==> 1 <= v <= timeline)
    {
      forall s: State, v: nat | Shows(s) && Inv(s) ensures Done(s, kind, v) <==> 1 <= v <= gpu.counter.Get(kind) {
        DoneUpToCounter(s, kind, v);
      }
      completed := gpu.counter.Get(kind);
      return completed;
    }

    /** The answer of a wait that is over, because the value was reached or because of the timeout. */
    method Wait(value: nat) returns (ok: bool)
      ensures forall s: State :: Shows(s) ==> (ok <==> Enabled(s, WaitReturns(kind, value)))
      ensures forall s: State :: Shows(s) && Inv(s) ==> (ok <==> value == 0 || Done(s, kind, value))
    {
      forall s: State | Shows(s) && Inv(s)
        ensures gpu.counter.Get(kind) >= value <==> value == 0 || Done(s, kind, value)
      {
        DoneUpToCounter(s, kind, value);
      }
      ok := gpu.counter.Get(kind) >= value;
    }
  }

  // ---------------------------------------------------------------- host and GPU interleaved

  datatype Step =
    | Submit(q: QueueType, info: SubmitInfo)
    | Poll(q: QueueType, value: nat)
    | Completed(q: QueueType)
    | WaitReturns(q: QueueType, value: nat)
    | WaitIdleReturns(q: QueueType)
    | Start(i: nat)
    | Finish(i: nat)

  function Init(vkQueues: PerQueue<nat>): State {
    State(Device([], [], PerQueue(0, 0, 0)), PerQueue(Host(0, 0), Host(0, 0), Host(0, 0)), vkQueues)
  }

  /** A wait is over; an acquired swapchain image is taken as signalled. */
  predicate Satisfied(w: SemaphoreInfo, counter: PerQueue<nat>) {
    w.semaphore.Timeline? ==> counter.Get(w.semaphore.queue) >= w.value
  }

  predicate SameVkQueueBefore(log: seq<Submission>, j: nat, i: nat)
    requires i < |log|
  {
    j < i && log[j].vkQueue == log[i].vkQueue
  }

  predicate Enabled(s: State, e: Step) {
    var d := s.device;
    |d.phases| == |d.log| &&
    match e
    case Submit(_, info) => |Waits(info)| <= MAX_WAITS
    case Poll(_, _) => true
    case Completed(_) => true
    case WaitReturns(q, value) => d.counter.Get(q) >= value
    case WaitIdleReturns(q) => d.counter.Get(q) >= s.hosts.Get(q).submitted
    case Start(i) =>
      && i < |d.log| && d.phases[i].Pending?
      && (forall j :: 0 <= j < i && SameVkQueueBefore(d.log, j, i) ==> !d.phases[j].Pending?)
      && (forall k :: 0 <= k < |d.log[i].waits| ==> Satisfied(d.log[i].waits[k], d.counter))
    case Finish(i) =>
      && i < |d.log| && d.phases[i].Started?
      && (forall j :: 0 <= j < i && SameVkQueueBefore(d.log, j, i) ==> d.phases[j].Finished?)
  }

  function Apply(s: State, e: Step): State
    requires Enabled(s, e)
  {
    var d := s.device;
    match e
    case Submit(q, info) =>
      var h := s.hosts.Get(q);
      var sub := Submission(q, h.submitted + 1, s.vkQueues.Get(q), Waits(info));
      s.(device := Enqueue(d, sub), hosts := s.hosts.Set(q, Host(h.submitted + 1, h.completed)))
    case Poll(q, value) =>
      var h := s.hosts.Get(q);
      if value == 0 || value > h.submitted then s
      else s.(hosts := s.hosts.Set(q, h.(completed := d.counter.Get(q))))
    case Completed(q) => s.(hosts := s.hosts.Set(q, s.hosts.Get(q).(completed := d.counter.Get(q))))
    case WaitReturns(_, _) => s
    case WaitIdleReturns(_) => s
    case Start(i) => s.(device := d.(phases := d.phases[i := Started]))
    case Finish(i) =>
      s.(device := d.(phases := d.phases[i := Finished],
                      counter := d.counter.Set(d.log[i].queue, d.log[i].value)))
  }

  // ---------------------------------------------------------------- the invariant

  /** Each queue hands out 1, 2, 3, ... in submission order, on its own VkQueue. */
  ghost predicate Numbered(s: State) {
    var log := s.device.log;
    && (forall i :: 0 <= i < |log| ==>
          && 1 <= log[i].value <= s.hosts.Get(log[i].queue).submitted
          && log[i].vkQueue == s.vkQueues.Get(log[i].queue))
    && (forall i, j :: 0 <= i < j < |log| && log[i].queue == log[j].queue ==> log[i].value < log[j].value)
    && (forall q, v: nat :: 1 <= v <= s.hosts.Get(q).submitted ==> IsSubmitted(log, q, v))
  }

  ghost predicate IsSubmitted(log: seq<Submission>, q: QueueType, v: nat) {
    exists i :: 0 <= i < |log| && log[i].queue == q && log[i].value == v
  }

  /** The counter of a queue stands exactly at its newest finished submission. */
  ghost predicate CountersExact(s: State)
    requires |s.device.phases| == |s.device.log|
  {
    var d := s.device;
    && (forall i :: 0 <= i < |d.log| ==> (d.phases[i].Finished? <==> d.log[i].value <= d.counter.Get(d.log[i].queue)))
    && (forall q :: s.hosts.Get(q).completed <= d.counter.Get(q) <= s.hosts.Get(q).submitted)
  }

  ghost predicate InOrder(s: State)
    requires |s.device.phases| == |s.device.log|
  {
    var d := s.device;
    forall j, i :: 0 <= j < i < |d.log| && SameVkQueueBefore(d.log, j, i) ==>
      && (d.phases[i].Finished? ==> d.phases[j].Finished?)
      && (!d.phases[i].Pending? ==> !d.phases[j].Pending?)
  }

  /** Whatever has started had its waits satisfied, and was not waiting for itself. */
  ghost predicate WaitsHonoured(s: State)
    requires |s.device.phases| == |s.device.log|
  {
    var d := s.device;
    forall i, k :: 0 <= i < |d.log| && !d.phases[i].Pending? && 0 <= k < |d.log[i].waits| ==>
      Satisfied(d.log[i].waits[k], d.counter) && !WaitsForItself(d.log[i], d.log[i].waits[k])
  }

  predicate WaitsForItself(sub: Submission, w: SemaphoreInfo) {
    w.semaphore == Timeline(sub.queue) && w.value >= sub.value
  }

  ghost predicate Inv(s: State) {
    && |s.device.phases| == |s.device.log|
    && Numbered(s) && CountersExact(s) && InOrder(s) && WaitsHonoured(s)
  }

  lemma StepKeepsInv(s: State, e: Step)
    requires Inv(s) && Enabled(s, e)
    ensures Inv(Apply(s, e))
  {
    match e
    case Submit(q, info) => SubmitKeepsInv(s, q, info);
    case Poll(_, _) =>
    case Completed(_) =>
    case WaitReturns(_, _) =>
    case WaitIdleReturns(_) =>
    case Start(i) => StartKeepsInv(s, i);
    case Finish(i) => FinishKeepsInv(s, i);
  }

  lemma SubmitKeepsInv(s: State, q: QueueType, info: SubmitInfo)
    requires Inv(s) && Enabled(s, Submit(q, info))
    ensures Inv(Apply(s, Submit(q, info)))
  {
    SubmitKeepsNumbered(s, q, info);
  }

  lemma SubmitKeepsNumbered(s: State, q: QueueType, info: SubmitInfo)
    requires Numbered(s) && Enabled(s, Submit(q, info))
    ensures Numbered(Apply(s, Submit(q, info)))
  {
    var s' := Apply(s, Submit(q, info));
    var log, log' := s.device.log, s'.device.log;
    forall r, v: nat | 1 <= v <= s'.hosts.Get(r).submitted
      ensures IsSubmitted(log', r, v)
    {
      if r == q && v == s'.hosts.Get(q).submitted {
        assert log'[|log|].queue == r && log'[|log|].value == v;
      } else {
        assert IsSubmitted(log, r, v);
        var i :| 0 <= i < |log| && log[i].queue == r && log[i].value == v;
        assert log'[i] == log[i];
      }
    }
  }

  lemma StartKeepsInv(s: State, i: nat)
    requires Inv(s) && Enabled(s, Start(i))
    ensures Inv(Apply(s, Start(i)))
  {
  }

  /** A queue's counter moves by one: 1, 2, 3, ... */
  lemma FinishCountsByOne(s: State, i: nat)
    requires Inv(s) && Enabled(s, Finish(i))
    ensures s.device.log[i].value == s.device.counter.Get(s.device.log[i].queue) + 1
  {
    var d := s.device;
    var q := d.log[i].queue;
    var next := d.counter.Get(q) + 1;
    assert IsSubmitted(d.log, q, next);
    var j :| 0 <= j < |d.log| && d.log[j].queue == q && d.log[j].value == next;
    assert SameVkQueueBefore(d.log, j, i) <==> j < i;
  }

  lemma FinishKeepsInv(s: State, i: nat)
    requires Inv(s) && Enabled(s, Finish(i))
    ensures Inv(Apply(s, Finish(i)))
  {
    FinishCountsByOne(s, i);
    var d, d' := s.device, Apply(s, Finish(i)).device;
    forall j | 0 <= j < |d.log|
      ensures d'.phases[j].Finished? <==> d.log[j].value <= d'.counter.Get(d.log[j].queue)
    {
    }
  }

  // ---------------------------------------------------------------- runs

  predicate Run(s: State, es: seq<Step>)
    decreases |es|
  {
    es == [] || (Enabled(s, es[0]) && Run(Apply(s, es[0]), es[1..]))
  }

  function End(s: State, es: seq<Step>): State
    requires Run(s, es)
    decreases |es|
  {
    if es == [] then s else End(Apply(s, es[0]), es[1..])
  }

  lemma InitInv(vkQueues: PerQueue<nat>)
    ensures Inv(Init(vkQueues)) && Causal(Init(vkQueues))
  {
  }

  lemma {:induction false} RunKeepsInv(s: State, es: seq<Step>)
    requires Inv(s) && Run(s, es)
    ensures Inv(End(s, es))
    decreases |es|
  {
    if es != [] {
      StepKeepsInv(s, es[0]);
      RunKeepsInv(Apply(s, es[0]), es[1..]);
    }
  }

  // ---------------------------------------------------------------- transitive completion

  /** Submission `i` cannot finish before `j`: `j` is older on the same queue or VkQueue, or `i`
      waits for a value at or above the one `j` signals. */
  predicate DependsOn(log: seq<Submission>, i: nat, j: nat)
    requires i < |log| && j < |log|
  {
    || (log[j].queue == log[i].queue && log[j].value < log[i].value)
    || SameVkQueueBefore(log, j, i)
    || (exists k :: 0 <= k < |log[i].waits| && WaitsFor(log[i].waits[k], log[j]))
  }

  predicate WaitsFor(w: SemaphoreInfo, sub: Submission) {
    w.semaphore == Timeline(sub.queue) && sub.value <= w.value
  }

  /** A chain of dependencies: each submission of `path` depends on the next one. */
  predicate Chain(log: seq<Submission>, path: seq<nat>) {
    && path != [] && (forall k :: 0 <= k < |path| ==> path[k] < |log|)
    && (forall k :: 1 <= k < |path| ==> DependsOn(log, path[k - 1], path[k]))
  }

  lemma DependencyFinished(s: State, i: nat, j: nat)
    requires Inv(s) && i < |s.device.log| && j < |s.device.log|
    requires DependsOn(s.device.log, i, j) && s.device.phases[i].Finished?
    ensures s.device.phases[j].Finished?
  {
    var log := s.device.log;
    if k :| 0 <= k < |log[i].waits| && WaitsFor(log[i].waits[k], log[j]) {
      assert Satisfied(log[i].waits[k], s.device.counter);
    }
  }

  /** When a submission has finished, so has everything it transitively depends on; no assumption
      is made about the order in which the dependencies were submitted. */
  lemma {:induction false} TransitiveCompletion(s: State, path: seq<nat>)
    requires Inv(s) && Chain(s.device.log, path) && s.device.phases[path[0]].Finished?
    ensures forall k :: 0 <= k < |path| ==> s.device.phases[path[k]].Finished?
    decreases |path|
  {
    if |path| > 1 {
      DependencyFinished(s, path[0], path[1]);
      var rest := path[1..];
      assert forall k :: 1 <= k < |rest| ==> rest[k] == path[k + 1];
      TransitiveCompletion(s, rest);
      assert forall k :: 1 <= k < |path| ==> path[k] == rest[k - 1];
    }
  }

  /** Host call `e`, made in state `s`, tells its caller that value `v` of queue `q` is complete. */
  predicate Reports(s: State, e: Step, q: QueueType, v: nat) {
    && v > 0 && Enabled(s, e)
    && match e
       case Poll(r, value) => r == q && v == value && PollResult(v, s.hosts.Get(q).submitted, s.device.counter.Get(q))
       case Completed(r) => r == q && v == Apply(s, e).hosts.Get(q).completed
       case WaitReturns(r, value) => r == q && v == value
       case WaitIdleReturns(r) => r == q && v == s.hosts.Get(q).submitted
       case _ => false
  }

  /** Whatever a host call reports as complete, at the end of any run, is a submission that has
      finished, together with all earlier ones on its queue and everything they transitively wait for. */
  lemma ReportedMeansComplete(vkQueues: PerQueue<nat>, es: seq<Step>, e: Step, q: QueueType, v: nat)
    requires Run(Init(vkQueues), es) && Reports(End(Init(vkQueues), es), e, q, v)
    ensures var d := End(Init(vkQueues), es).device;
            && |d.phases| == |d.log|
            && IsSubmitted(d.log, q, v)
            && forall path :: Chain(d.log, path) && d.log[path[0]].queue == q && d.log[path[0]].value <= v
                 ==> forall k :: 0 <= k < |path| ==> d.phases[path[k]].Finished?
  {
    InitInv(vkQueues);
    RunKeepsInv(Init(vkQueues), es);
    var s := End(Init(vkQueues), es);
    forall path | Chain(s.device.log, path) && s.device.log[path[0]].queue == q && s.device.log[path[0]].value <= v
      ensures forall k :: 0 <= k < |path| ==> s.device.phases[path[k]].Finished?
    {
      TransitiveCompletion(s, path);
    }
  }

  predicate Done(s: State, q: QueueType, v: nat)
    requires |s.device.phases| == |s.device.log|
  {
    exists i :: 0 <= i < |s.device.log| && s.device.log[i].queue == q && s.device.log[i].value == v
                && s.device.phases[i].Finished?
  }

  lemma DoneUpToCounter(s: State, q: QueueType, v: nat)
    requires Inv(s)
    ensures Done(s, q, v) <==> 1 <= v <= s.device.counter.Get(q)
  {
    if 1 <= v <= s.device.counter.Get(q) {
      assert IsSubmitted(s.device.log, q, v);
      var i :| 0 <= i < |s.device.log| && s.device.log[i].queue == q && s.device.log[i].value == v;
      assert s.device.phases[i].Finished?;
    }
  }

  /** `Poll` compares strictly, so it tells whether a submission is done for every value except the
      one the counter stands at: that one is done, and `Poll` says it is not. */
  lemma PollIsRightExcept(s: State, q: QueueType, v: nat)
    requires Inv(s)
    ensures (PollResult(v, s.hosts.Get(q).submitted, s.device.counter.Get(q)) <==> Done(s, q, v))
            <==> (v == 0 || v != s.device.counter.Get(q))
  {
    DoneUpToCounter(s, q, v);
  }

  /** In particular the newest submission of a queue is never reported by `Poll`. */
  lemma PollNeverReportsNewest(s: State, q: QueueType)
    requires Inv(s)
    ensures !PollResult(s.hosts.Get(q).submitted, s.hosts.Get(q).submitted, s.device.counter.Get(q))
  {
  }

  lemma {:induction false} RunAppends(s: State, es: seq<Step>, e: Step)
    requires Run(s, es) && Enabled(End(s, es), e)
    ensures Run(s, es + [e]) && End(s, es + [e]) == Apply(End(s, es), e)
    decreases |es|
  {
    if es == [] {
      assert [e][1..] == [] && [] + [e] == [e];
    } else {
      RunAppends(Apply(s, es[0]), es[1..], e);
      assert (es + [e])[1..] == es[1..] + [e];
    }
  }

  /** One submission, run to its end: done, and not reported. */
  lemma PollMissesFinishedSubmission(vkQueues: PerQueue<nat>) returns (es: seq<Step>)
    ensures Run(Init(vkQueues), es) && Inv(End(Init(vkQueues), es)) && Done(End(Init(vkQueues), es), GRAPHICS, 1)
    ensures var s := End(Init(vkQueues), es);
            !PollResult(1, s.hosts.Get(GRAPHICS).submitted, s.device.counter.Get(GRAPHICS))
  {
    var s := Init(vkQueues);
    var submit := Submit(GRAPHICS, SubmitInfo(false, []));
    RunAppends(s, [], submit);
    es := [] + [submit];
    RunAppends(s, es, Start(0));
    es := es + [Start(0)];
    RunAppends(s, es, Finish(0));
    es := es + [Finish(0)];
    InitInv(vkQueues);
    RunKeepsInv(s, es);
    assert End(s, es).device.log[0].queue == GRAPHICS && End(s, es).device.phases[0].Finished?;
  }

  // ---------------------------------------------------------------- progress

  /** Every wait names a value that had already been submitted. */
  ghost predicate Causal(s: State) {
    var log := s.device.log;
    forall i, k :: 0 <= i < |log| && 0 <= k < |log[i].waits| ==> WaitIsCausal(log, i, log[i].waits[k])
  }

  ghost predicate WaitIsCausal(log: seq<Submission>, i: nat, w: SemaphoreInfo)
    requires i < |log|
  {
    w.semaphore.Timeline? && w.value > 0 ==>
      exists j :: 0 <= j < i && log[j].queue == w.semaphore.queue && log[j].value == w.value
  }

  /** What a caller has to check: each dependency is 0 or was returned by that queue's `Submit`. */
  predicate CausalCall(s: State, e: Step) {
    e.Submit? ==> forall k :: 0 <= k < |e.info.waitDependencies| ==>
      e.info.waitDependencies[k].waitValue <= s.hosts.Get(e.info.waitDependencies[k].waitQueue).submitted
  }

  lemma StepKeepsCausal(s: State, e: Step)
    requires Inv(s) && Causal(s) && Enabled(s, e) && CausalCall(s, e)
    ensures Causal(Apply(s, e))
  {
    var log, log' := s.device.log, Apply(s, e).device.log;
    forall i, k | 0 <= i < |log'| && 0 <= k < |log'[i].waits|
      ensures WaitIsCausal(log', i, log'[i].waits[k])
    {
      var w := log'[i].waits[k];
      if i < |log| {
        assert log'[i] == log[i] && WaitIsCausal(log, i, w);
        if w.semaphore.Timeline? && w.value > 0 {
          var j :| 0 <= j < i && log[j].queue == w.semaphore.queue && log[j].value == w.value;
          assert log'[j] == log[j];
        }
      } else if w.semaphore.Timeline? && w.value > 0 {
        assert IsSubmitted(log, w.semaphore.queue, w.value);
        var j :| 0 <= j < |log| && log[j].queue == w.semaphore.queue && log[j].value == w.value;
        assert log'[j] == log[j] && j < i;
      }
    }
  }

  ghost predicate Unfinished(d: Device, i: nat) {
    i < |d.phases| && !d.phases[i].Finished?
  }

  /** The oldest unfinished submission can always move, whichever queues share a VkQueue. */
  lemma OldestCanMove(s: State, i: nat) returns (e: Step)
    requires Inv(s) && Causal(s) && Unfinished(s.device, i)
    requires forall j :: 0 <= j < i ==> s.device.phases[j].Finished?
    ensures (e == Start(i) || e == Finish(i)) && Enabled(s, e)
  {
    var d := s.device;
    if d.phases[i].Pending? {
      e := Start(i);
      forall k | 0 <= k < |d.log[i].waits|
        ensures Satisfied(d.log[i].waits[k], d.counter)
      {
        assert WaitIsCausal(d.log, i, d.log[i].waits[k]);
      }
    } else {
      e := Finish(i);
    }
  }

  lemma {:induction false} Oldest(d: Device, i: nat) returns (o: nat)
    requires Unfinished(d, i)
    ensures Unfinished(d, o) && forall j :: 0 <= j < o ==> d.phases[j].Finished?
    decreases i
  {
    if j :| 0 <= j < i && Unfinished(d, j) {
      o := Oldest(d, j);
    } else {
      o := i;
      forall j | 0 <= j < i ensures d.phases[j].Finished? {
        assert !Unfinished(d, j);
      }
    }
  }

  predicate GpuStep(e: Step) {
    e.Start? || e.Finish?
  }

  lemma UnfinishedWorkCanMove(s: State, i: nat) returns (e: Step)
    requires Inv(s) && Causal(s) && Unfinished(s.device, i)
    ensures GpuStep(e) && Enabled(s, e)
  {
    var o := Oldest(s.device, i);
    e := OldestCanMove(s, o);
  }

  function StepsLeft(p: Phase): nat {
    match p
    case Pending => 2
    case Started => 1
    case Finished => 0
  }

  function GpuWork(ps: seq<Phase>): nat {
    if ps == [] then 0 else GpuWork(ps[..|ps| - 1]) + StepsLeft(ps[|ps| - 1])
  }

  lemma {:induction false} GpuWorkUpdate(ps: seq<Phase>, i: nat, p: Phase)
    requires i < |ps|
    ensures GpuWork(ps[i := p]) == GpuWork(ps) - StepsLeft(ps[i]) + StepsLeft(p)
  {
    var n := |ps| - 1;
    if i == n {
      assert ps[i := p][..n] == ps[..n];
    } else {
      assert ps[i := p][..n] == ps[..n][i := p];
      GpuWorkUpdate(ps[..n], i, p);
    }
  }

  lemma StepGpuWork(s: State, e: Step)
    requires Enabled(s, e)
    ensures GpuWork(Apply(s, e).device.phases) ==
            GpuWork(s.device.phases) + (if e.Submit? then 2 else 0) - (if GpuStep(e) then 1 else 0)
  {
    var ps := s.device.phases;
    match e
    case Submit(_, _) => assert (ps + [Pending])[..|ps|] == ps;
    case Start(i) => GpuWorkUpdate(ps, i, Started);
    case Finish(i) => GpuWorkUpdate(ps, i, Finished);
    case _ =>
  }

  function Count(es: seq<Step>, p: Step -> bool): nat {
    if es == [] then 0 else (if p(es[0]) then 1 else 0) + Count(es[1..], p)
  }

  predicate IsSubmit(e: Step) { e.Submit? }

  /** Each submission costs the GPU exactly two steps, done or still to do, in every run. */
  lemma {:induction false} GpuWorkIsConserved(s: State, es: seq<Step>)
    requires Run(s, es)
    ensures Count(es, GpuStep) + GpuWork(End(s, es).device.phases)
         == GpuWork(s.device.phases) + 2 * Count(es, IsSubmit)
    decreases |es|
  {
    if es != [] {
      StepGpuWork(s, es[0]);
      GpuWorkIsConserved(Apply(s, es[0]), es[1..]);
    }
  }

  ghost predicate CausalRun(s: State, es: seq<Step>)
    decreases |es|
  {
    es == [] || (Enabled(s, es[0]) && CausalCall(s, es[0]) && CausalRun(Apply(s, es[0]), es[1..]))
  }

  lemma {:induction false} CausalRunKeepsInv(s: State, es: seq<Step>)
    requires Inv(s) && Causal(s) && CausalRun(s, es)
    ensures Run(s, es) && Inv(End(s, es)) && Causal(End(s, es))
    decreases |es|
  {
    if es != [] {
      StepKeepsInv(s, es[0]);
      StepKeepsCausal(s, es[0]);
      CausalRunKeepsInv(Apply(s, es[0]), es[1..]);
    }
  }

  /** Progress over whole runs: if every dependency names a value already handed out, the GPU takes
      at most two steps per submission, and a run it cannot extend has finished everything, so every
      wait for a submitted value returns. */
  lemma EverySubmissionFinishes(vkQueues: PerQueue<nat>, es: seq<Step>)
    requires CausalRun(Init(vkQueues), es)
    ensures Run(Init(vkQueues), es)
    ensures Count(es, GpuStep) <= 2 * Count(es, IsSubmit)
    ensures var f := End(Init(vkQueues), es);
            (forall e :: GpuStep(e) ==> !Enabled(f, e)) ==>
              && Count(es, GpuStep) == 2 * Count(es, IsSubmit)
              && (forall i :: 0 <= i < |f.device.phases| ==> f.device.phases[i].Finished?)
              && (forall q :: f.device.counter.Get(q) == f.hosts.Get(q).submitted)
  {
    var s := Init(vkQueues);
    InitInv(vkQueues);
    CausalRunKeepsInv(s, es);
    GpuWorkIsConserved(s, es);
    var f := End(s, es);
    if forall e :: GpuStep(e) ==> !Enabled(f, e) {
      forall i | 0 <= i < |f.device.phases| ensures f.device.phases[i].Finished? {
        if Unfinished(f.device, i) {
          var e := UnfinishedWorkCanMove(f, i);
        }
      }
      AllFinished(f);
    }
  }

  lemma AllFinished(s: State)
    requires Inv(s) && forall i :: 0 <= i < |s.device.phases| ==> s.device.phases[i].Finished?
    ensures GpuWork(s.device.phases) == 0
    ensures forall q :: s.device.counter.Get(q) == s.hosts.Get(q).submitted
  {
    NoWorkLeft(s.device.phases);
    forall q ensures s.device.counter.Get(q) == s.hosts.Get(q).submitted {
      var n := s.hosts.Get(q).submitted;
      if n > 0 {
        assert IsSubmitted(s.device.log, q, n);
      }
    }
  }

  lemma {:induction false} NoWorkLeft(ps: seq<Phase>)
    requires forall i :: 0 <= i < |ps| ==> ps[i].Finished?
    ensures GpuWork(ps) == 0
  {
    if ps != [] {
      NoWorkLeft(ps[..|ps| - 1]);
    }
  }

  /** Without that care a queue can block itself for good: a submission that waits for its own
      value, or a later one of its own queue, never starts. */
  lemma SelfWaitNeverStarts(s: State, i: nat, k: nat)
    requires Inv(s) && i < |s.device.log| && k < |s.device.log[i].waits|
    requires WaitsForItself(s.device.log[i], s.device.log[i].waits[k])
    ensures s.device.phases[i].Pending?
  {
  }
}
