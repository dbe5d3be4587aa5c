/** What a legal use of the validation layer is, as a specification over whole traces of events, and
    when the layer's verdict agrees with it. */
module CommandTraces {
  import opened Common
  import opened CommandValidator

  // ---------------------------------------------------------------- legal traces

  /** What the caller has registered and not unregistered, whether or not the layer recorded it. */
  datatype Registry = Registry(lists: set<nat>, buffers: map<nat, Buffer>, pipelines: set<nat>)

  function Registered(es: seq<Event>): Registry {
    if es == [] then Registry({}, map[], {}) else RegisteredNext(Registered(es[..|es| - 1]), es[|es| - 1])
  }

  function RegisteredNext(reg: Registry, e: Event): Registry {
    match e
    case RegisterBuffer(b, desc) => reg.(buffers := reg.buffers[b := Buffer(desc, false)])
    case UnregisterBuffer(b) => reg.(buffers := reg.buffers - {b})
    case MapBuffer(b) => reg.(buffers := WithMapped(reg.buffers, b, true))
    case UnmapBuffer(b) => reg.(buffers := WithMapped(reg.buffers, b, false))
    case RegisterPipeline(p) => reg.(pipelines := reg.pipelines + {p})
    case UnregisterPipeline(p) => reg.(pipelines := reg.pipelines - {p})
    case RegisterList(l) => reg.(lists := reg.lists + {l})
    case UnregisterList(l) => reg.(lists := reg.lists - {l})
    case _ => reg
  }

  function WithMapped(buffers: map<nat, Buffer>, b: nat, mapped: bool): map<nat, Buffer> {
    if b in buffers then buffers[b := buffers[b].(mapped := mapped)] else buffers
  }

  /** The calls on list `l` since it was last registered. */
  function History(es: seq<Event>, l: nat): seq<Call> {
    if es == [] then [] else HistoryAfter(History(es[..|es| - 1], l), es[|es| - 1], l)
  }

  function HistoryAfter(h: seq<Call>, e: Event, l: nat): seq<Call> {
    match e
    case Command(c) => if c.list == l then h + [c] else h
    case RegisterList(k) => if k == l then [] else h
    case UnregisterList(k) => if k == l then [] else h
    case _ => h
  }

  /** Something satisfying `p` happened, and nothing satisfying `q` after it. */
  ghost predicate Since(h: seq<Call>, p: Call -> bool, q: Call -> bool) {
    exists i :: 0 <= i < |h| && p(h[i]) && forall j :: i < j < |h| ==> !q(h[j])
  }

  predicate Lifecycle(c: Call) {
    c.Begin? || c.End? || c.Submit? || c.Reset?
  }

  predicate Restart(c: Call) {
    c.Begin? || c.Reset?
  }

  predicate IsBegin(c: Call) {
    c.Begin?
  }

  predicate IsEnd(c: Call) {
    c.End?
  }

  predicate IsSubmit(c: Call) {
    c.Submit?
  }

  predicate IsBeginPass(c: Call) {
    c.BeginPass?
  }

  predicate IsBeginRendering(c: Call) {
    c.BeginRendering?
  }

  predicate IsSetPipeline(c: Call) {
    c.SetPipeline?
  }

  predicate IsSetIndexBuffer(c: Call) {
    c.SetIndexBuffer?
  }

  predicate IsSetVertexBuffer(c: Call) {
    c.SetVertexBuffer?
  }

  predicate LeavesPass(c: Call) {
    c.EndPass? || Restart(c)
  }

  predicate LeavesRendering(c: Call) {
    c.EndRendering? || Restart(c)
  }

  ghost predicate Recording(h: seq<Call>) {
    Since(h, IsBegin, Lifecycle)
  }

  ghost predicate Executable(h: seq<Call>) {
    Since(h, IsEnd, Lifecycle)
  }

  ghost predicate Submitted(h: seq<Call>) {
    Since(h, IsSubmit, Lifecycle)
  }

  ghost predicate InPass(h: seq<Call>) {
    Since(h, IsBeginPass, LeavesPass)
  }

  ghost predicate InRendering(h: seq<Call>) {
    Since(h, IsBeginRendering, LeavesRendering)
  }

  ghost predicate PipelineSet(h: seq<Call>) {
    Since(h, IsSetPipeline, Restart)
  }

  ghost predicate IndexSet(h: seq<Call>) {
    Since(h, IsSetIndexBuffer, Restart)
  }

  ghost predicate VertexSet(h: seq<Call>) {
    Since(h, IsSetVertexBuffer, Restart)
  }

  predicate LegalHandle(reg: Registry, c: Call) {
    match c
    case SetPipeline(_, p) => p != 0 && p in reg.pipelines
    case SetVertexBuffer(_, b) => b != 0 && b in reg.buffers && reg.buffers[b].desc.vertex
    case SetIndexBuffer(_, b) => b != 0 && b in reg.buffers && reg.buffers[b].desc.index
    case BeginPass(_, pass) => pass != 0
    case _ => true
  }

  /** When a call is legal after the earlier calls `h` on the same list. */
  ghost predicate Legal(reg: Registry, h: seq<Call>, c: Call) {
    && c.list in reg.lists && LegalHandle(reg, c)
    && match c
       case Begin(_) => !Recording(h) && !Submitted(h)
       case End(_) => Recording(h) && !InPass(h) && !InRendering(h)
       case Submit(_) => Executable(h)
       case Reset(_) => true
       case Draw(_, _, _) => Recording(h) && (InPass(h) || InRendering(h)) && PipelineSet(h)
       case DrawIndexed(_, _, _) =>
         Recording(h) && (InPass(h) || InRendering(h)) && PipelineSet(h) && IndexSet(h)
       case BeginPass(_, _) => Recording(h) && !InPass(h) && !InRendering(h)
       case EndPass(_) => Recording(h) && InPass(h)
       case BeginRendering(_, _) => Recording(h) && !InPass(h) && !InRendering(h)
       case EndRendering(_) => Recording(h) && InRendering(h)
       case SetPipeline(_, _) => Recording(h)
       case SetVertexBuffer(_, _) => Recording(h)
       case SetIndexBuffer(_, _) => Recording(h)
  }

  /** When event `e` is legal after the trace `es`. */
  ghost predicate LegalEvent(es: seq<Event>, e: Event) {
    LegalNext(Registered(es), History(es, About(e)), e)
  }

  /** The list an event is about. */
  function About(e: Event): nat {
    match e
    case Command(c) => c.list
    case RegisterList(l) => l
    case UnregisterList(l) => l
    case _ => 0
  }

  ghost predicate LegalNext(reg: Registry, h: seq<Call>, e: Event) {
    match e
    case Command(c) => Legal(reg, h, c)
    case UnregisterBuffer(b) => b in reg.buffers && !reg.buffers[b].mapped
    case MapBuffer(b) => b in reg.buffers && !reg.buffers[b].mapped && !reg.buffers[b].desc.gpuOnly
    case UnmapBuffer(b) => b in reg.buffers
    case UnregisterPipeline(p) => p in reg.pipelines
    case UnregisterList(l) => l in reg.lists && !InPass(h) && !InRendering(h)
    case _ => true
  }

  ghost predicate AllLegal(es: seq<Event>) {
    forall n :: 0 <= n < |es| ==> LegalAt(es, n)
  }

  ghost predicate LegalAt(es: seq<Event>, n: nat)
    requires n < |es|
  {
    LegalEvent(es[..n], es[n])
  }

  /** The categories stay as they were given to `Initialize`. */
  predicate Fixed(es: seq<Event>) {
    forall n :: 0 <= n < |es| ==> !es[n].Enable? && !es[n].Disable?
  }

  // ---------------------------------------------------------------- verdicts on single events

  function Run(v: Layer, es: seq<Event>): Layer {
    if es == [] then v else AfterEvent(Run(v, es[..|es| - 1]), es[|es| - 1])
  }

  predicate NoError(v: Layer) {
    forall k :: 0 <= k < |v.messages| ==> v.messages[k].severity == WARNING
  }

  lemma CheckClean(v: Layer, bad: bool, m: Message)
    ensures var w := Check(v, bad, m);
            && w.(messages := v.messages, errorCount := v.errorCount, warningCount := v.warningCount) == v
            && (NoError(w) <==> NoError(v) && !(bad && m.severity.ERROR? && v.initialized && m.category in v.enabled))
  {
    var w := Check(v, bad, m);
    if w != v {
      assert w.messages == v.messages + [m];
      assert w.messages[|v.messages|] == m;
      forall k | 0 <= k < |v.messages| ensures w.messages[k] == v.messages[k] {
      }
    }
  }

  lemma SinceSnoc(h: seq<Call>, c: Call, p: Call -> bool, q: Call -> bool)
    ensures Since(h + [c], p, q) <==> p(c) || (!q(c) && Since(h, p, q))
  {
    var g := h + [c];
    if p(c) {
      assert p(g[|h|]);
    } else if !q(c) && Since(h, p, q) {
      var i :| 0 <= i < |h| && p(h[i]) && forall j :: i < j < |h| ==> !q(h[j]);
      assert p(g[i]);
      forall j | i < j < |g| ensures !q(g[j]) {
        assert j < |h| ==> g[j] == h[j];
      }
    }
    if Since(g, p, q) {
      var i :| 0 <= i < |g| && p(g[i]) && forall j :: i < j < |g| ==> !q(g[j]);
      if i < |h| {
        assert g[i] == h[i] && !q(g[|h|]);
        forall j | i < j < |h| ensures !q(h[j]) {
          assert g[j] == h[j];
        }
      }
    }
  }

  lemma HistoryNext(h: seq<Call>, c: Call)
    ensures Recording(h + [c]) <==> c.Begin? || (!Lifecycle(c) && Recording(h))
    ensures Executable(h + [c]) <==> c.End? || (!Lifecycle(c) && Executable(h))
    ensures Submitted(h + [c]) <==> c.Submit? || (!Lifecycle(c) && Submitted(h))
    ensures InPass(h + [c]) <==> c.BeginPass? || (!LeavesPass(c) && InPass(h))
    ensures InRendering(h + [c]) <==> c.BeginRendering? || (!LeavesRendering(c) && InRendering(h))
    ensures PipelineSet(h + [c]) <==> c.SetPipeline? || (!Restart(c) && PipelineSet(h))
    ensures IndexSet(h + [c]) <==> c.SetIndexBuffer? || (!Restart(c) && IndexSet(h))
    ensures VertexSet(h + [c]) <==> c.SetVertexBuffer? || (!Restart(c) && VertexSet(h))
  {
    SinceSnoc(h, c, IsBegin, Lifecycle);
    SinceSnoc(h, c, IsEnd, Lifecycle);
    SinceSnoc(h, c, IsSubmit, Lifecycle);
    SinceSnoc(h, c, IsBeginPass, LeavesPass);
    SinceSnoc(h, c, IsBeginRendering, LeavesRendering);
    SinceSnoc(h, c, IsSetPipeline, Restart);
    SinceSnoc(h, c, IsSetIndexBuffer, Restart);
    SinceSnoc(h, c, IsSetVertexBuffer, Restart);
  }

  predicate ErrorFree(on: set<Category>, category: Category, bad: bool) {
    category in on ==> !bad
  }

  /** Whether a call on a known list passes without an error, in terms of the list's flags. */
  predicate Accepts(v: Layer, i: Info, c: Call) {
    match c
    case Begin(_) => ErrorFree(v.enabled, STATE, i.state.RECORDING? || i.state.SUBMITTED?)
    case Submit(_) => ErrorFree(v.enabled, STATE, !i.state.EXECUTABLE?)
    case Reset(_) => true
    case _ => if i.state.RECORDING? then AcceptsRecording(v, i, c) else STATE !in v.enabled
  }

  predicate AcceptsRecording(v: Layer, i: Info, c: Call) {
    match c
    case End(_) => ErrorFree(v.enabled, RENDER_PASS, i.insidePass || i.insideRendering)
    case Draw(_, _, _) => AcceptsDraw(v, i, false)
    case DrawIndexed(_, _, _) => AcceptsDraw(v, i, true)
    case BeginPass(_, pass) =>
      && ErrorFree(v.enabled, RENDER_PASS, i.insidePass || i.insideRendering)
      && (!i.insidePass && !i.insideRendering ==> ErrorFree(v.enabled, HANDLE, pass == 0))
    case EndPass(_) => ErrorFree(v.enabled, RENDER_PASS, !i.insidePass)
    case BeginRendering(_, _) => ErrorFree(v.enabled, RENDER_PASS, i.insidePass || i.insideRendering)
    case EndRendering(_) => ErrorFree(v.enabled, RENDER_PASS, !i.insideRendering)
    case SetVertexBuffer(_, b) => ErrorFree(v.enabled, RESOURCE, b in v.buffers && !v.buffers[b].desc.vertex)
    case SetIndexBuffer(_, b) => ErrorFree(v.enabled, RESOURCE, b in v.buffers && !v.buffers[b].desc.index)
    case _ => true
  }

  predicate AcceptsDraw(v: Layer, i: Info, indexed: bool) {
    && ErrorFree(v.enabled, RENDER_PASS, !i.insidePass && !i.insideRendering)
    && ErrorFree(v.enabled, PIPELINE, i.pipeline == 0)
    && ErrorFree(v.enabled, STATE, indexed && i.indexBuffer == 0)
  }

  lemma DrawVerdict(v: Layer, i: Info, indexed: bool)
    requires v.initialized
    ensures NoError(DrawChecks(v, i, indexed)) <==> NoError(v) && AcceptsDraw(v, i, indexed)
  {
    var bracket := Check(v, !i.insidePass && !i.insideRendering, Message(ERROR, RENDER_PASS));
    var pipeline := Check(bracket, i.pipeline == 0, Message(ERROR, PIPELINE));
    var index := Check(pipeline, indexed && i.indexBuffer == 0, Message(ERROR, STATE));
    CheckClean(v, !i.insidePass && !i.insideRendering, Message(ERROR, RENDER_PASS));
    CheckClean(bracket, i.pipeline == 0, Message(ERROR, PIPELINE));
    CheckClean(pipeline, indexed && i.indexBuffer == 0, Message(ERROR, STATE));
    CheckClean(index, i.vertexBuffers == [], Message(WARNING, STATE));
  }

  lemma RecordingVerdict(v: Layer, i: Info, c: Call)
    requires v.initialized
    ensures NoError(NotedRecording(v, i, c)) <==> NoError(v) && AcceptsRecording(v, i, c)
  {
    match c
    case End(_) =>
      CheckClean(v, i.insidePass, Message(ERROR, RENDER_PASS));
      CheckClean(Check(v, i.insidePass, Message(ERROR, RENDER_PASS)), i.insideRendering, Message(ERROR, RENDER_PASS));
    case Draw(_, vertexCount, instanceCount) =>
      DrawVerdict(v, i, false);
      CheckClean(DrawChecks(v, i, false), vertexCount == 0, Message(WARNING, COMMAND_LIST));
      CheckClean(Check(DrawChecks(v, i, false), vertexCount == 0, Message(WARNING, COMMAND_LIST)),
                 instanceCount == 0, Message(WARNING, COMMAND_LIST));
    case DrawIndexed(_, indexCount, _) =>
      DrawVerdict(v, i, true);
      CheckClean(DrawChecks(v, i, true), indexCount == 0, Message(WARNING, COMMAND_LIST));
    case BeginPass(_, pass) =>
      CheckClean(v, true, Message(ERROR, RENDER_PASS));
      CheckClean(v, pass == 0, Message(ERROR, HANDLE));
    case EndPass(_) => CheckClean(v, !i.insidePass, Message(ERROR, RENDER_PASS));
    case BeginRendering(_, hasAttachments) =>
      CheckClean(v, true, Message(ERROR, RENDER_PASS));
      CheckClean(v, !hasAttachments, Message(WARNING, RENDER_PASS));
    case EndRendering(_) => CheckClean(v, !i.insideRendering, Message(ERROR, RENDER_PASS));
    case SetVertexBuffer(_, b) => CheckClean(v, b in v.buffers && !v.buffers[b].desc.vertex, Message(ERROR, RESOURCE));
    case SetIndexBuffer(_, b) => CheckClean(v, b in v.buffers && !v.buffers[b].desc.index, Message(ERROR, RESOURCE));
    case _ =>
  }

  lemma ListVerdict(v: Layer, i: Info, c: Call)
    requires v.initialized
    ensures NoError(Noted(v, i, c)) <==> NoError(v) && Accepts(v, i, c)
  {
    match c
    case Begin(_) => CheckClean(v, i.state.RECORDING? || i.state.SUBMITTED?, Message(ERROR, STATE));
    case Submit(_) => CheckClean(v, !i.state.EXECUTABLE?, Message(ERROR, STATE));
    case Reset(_) =>
    case _ =>
      CheckClean(v, true, Message(ERROR, STATE));
      RecordingVerdict(v, i, c);
  }

  lemma Verdict(v: Layer, c: Call)
    requires v.initialized && Gate(c) in v.enabled
    ensures NoError(After(v, c)) <==>
            && NoError(v) && ErrorFree(v.enabled, HANDLE, !Known(v, c))
            && (c.list !in v.lists ==> COMMAND_LIST !in v.enabled)
            && (c.list in v.lists ==> Accepts(v, v.lists[c.list], c))
  {
    CheckClean(v, true, Message(ERROR, HANDLE));
    CheckClean(v, true, Message(ERROR, COMMAND_LIST));
    if c.list in v.lists {
      ListVerdict(v, v.lists[c.list], c);
    }
  }

  /** Whether any other event passes without an error. */
  predicate Admits(v: Layer, e: Event) {
    match e
    case UnregisterBuffer(b) =>
      RESOURCE in v.enabled ==>
        if b in v.buffers then !v.buffers[b].mapped else HANDLE !in v.enabled
    case MapBuffer(b) =>
      MEMORY in v.enabled ==>
        if b in v.buffers then !v.buffers[b].mapped && !v.buffers[b].desc.gpuOnly else HANDLE !in v.enabled
    case UnmapBuffer(b) => MEMORY in v.enabled && HANDLE in v.enabled ==> b in v.buffers
    case UnregisterPipeline(p) => PIPELINE in v.enabled && HANDLE in v.enabled ==> p in v.pipelines
    case UnregisterList(l) =>
      COMMAND_LIST in v.enabled ==> l in v.lists && !v.lists[l].insidePass && !v.lists[l].insideRendering
    case _ => true
  }

  lemma EventVerdict(v: Layer, e: Event)
    requires v.initialized && !e.Command?
    ensures NoError(AfterEvent(v, e)) <==> NoError(v) && Admits(v, e)
  {
    CheckClean(v, true, Message(ERROR, HANDLE));
    CheckClean(v, true, Message(ERROR, MEMORY));
    CheckClean(v, true, Message(WARNING, MEMORY));
    CheckClean(v, true, Message(ERROR, COMMAND_LIST));
    CheckClean(v, true, Message(ERROR, RESOURCE));
  }

  lemma ErrorsStay(v: Layer, e: Event)
    requires v.initialized && NoError(AfterEvent(v, e))
    ensures NoError(v)
  {
    match e
    case Command(c) =>
      if Gate(c) in v.enabled {
        Verdict(v, c);
      }
    case _ => EventVerdict(v, e);
  }

  // ---------------------------------------------------------------- the tables and the trace

  /** What the flags of a list have to do with its history, for the categories that are on. */
  ghost predicate Tracks(h: seq<Call>, i: Info, on: set<Category>) {
    && (i.state.RECORDING? <==> Recording(h))
    && (i.state.EXECUTABLE? <==> Executable(h))
    && (i.state.SUBMITTED? <==> Submitted(h))
    && (i.insidePass <==> RENDER_PASS in on && InPass(h))
    && (i.insideRendering <==> RENDER_PASS in on && InRendering(h))
    && (PIPELINE in on ==> (i.pipeline != 0 <==> PipelineSet(h)))
    && (STATE in on ==> (i.indexBuffer != 0 <==> IndexSet(h)) && (i.vertexBuffers != [] <==> VertexSet(h)))
  }

  /** What is recorded of the caller's buffers: all or nothing, and mappings only if they are followed. */
  function Recordable(buffers: map<nat, Buffer>, on: set<Category>): map<nat, Buffer> {
    if RESOURCE !in on then map[]
    else map b | b in buffers :: buffers[b].(mapped := MEMORY in on && buffers[b].mapped)
  }

  /** The layer's tables after the legal trace `es`, with the categories `on`. */
  ghost predicate Agrees(v: Layer, es: seq<Event>, on: set<Category>) {
    var reg := Registered(es);
    && v.initialized && v.enabled == on
    && v.lists.Keys == (if COMMAND_LIST in on then reg.lists else {})
    && v.buffers == Recordable(reg.buffers, on)
    && (PIPELINE in on ==> v.pipelines == reg.pipelines)
    && (forall l :: l in v.lists ==> Tracks(History(es, l), v.lists[l], on))
  }

  lemma Snoc(es: seq<Event>, e: Event)
    ensures (es + [e])[..|es|] == es && (es + [e])[|es|] == e
  {
  }

  /** What one legal call does to the flags of its list. */
  lemma CallTracks(reg: Registry, h: seq<Call>, i: Info, c: Call, on: set<Category>)
    requires Legal(reg, h, c) && Tracks(h, i, on) && COMMAND_LIST in on
    ensures Tracks(h + [c], if Gate(c) in on then NextInfo(i, c) else i, on)
  {
    HistoryNext(h, c);
  }

  lemma AfterSame(v: Layer, c: Call)
    ensures SameButMessages(v, After(v, c).(lists := v.lists))
    ensures After(v, c).lists.Keys == v.lists.Keys
    ensures forall k :: k in v.lists && k != c.list ==> After(v, c).lists[k] == v.lists[k]
    ensures c.list in v.lists && (HANDLE in v.enabled ==> Known(v, c)) ==>
              After(v, c).lists[c.list] == if Gate(c) in v.enabled then NextInfo(v.lists[c.list], c) else v.lists[c.list]
  {
  }

  /** A command that is legal keeps the tables in step with the trace. */
  lemma CommandAgrees(v: Layer, es: seq<Event>, c: Call, on: set<Category>)
    requires Agrees(v, es, on) && LegalEvent(es, Command(c)) && Quiet(on)
    ensures Agrees(After(v, c), es + [Command(c)], on)
  {
    var e := Command(c);
    var w := After(v, c);
    Snoc(es, e);
    AfterSame(v, c);
    assert Registered(es + [e]) == Registered(es);
    forall l | l in w.lists ensures Tracks(History(es + [e], l), w.lists[l], on) {
      if l == c.list {
        CallTracks(Registered(es), History(es, l), v.lists[l], c, on);
      }
    }
  }

  /** Nothing legal is reported: bound and mapped buffers are looked up only where they are recorded. */
  predicate Quiet(on: set<Category>) {
    HANDLE in on && (STATE in on || MEMORY in on) ==> RESOURCE in on
  }

  lemma RegisterListAgrees(v: Layer, es: seq<Event>, l: nat, on: set<Category>)
    requires Agrees(v, es, on)
    ensures Agrees(AfterEvent(v, RegisterList(l)), es + [RegisterList(l)], on)
  {
    var e := RegisterList(l);
    Snoc(es, e);
    NewListTracks(on);
    forall k | k in AfterEvent(v, e).lists ensures Tracks(History(es + [e], k), AfterEvent(v, e).lists[k], on) {
    }
  }

  lemma UnregisterListAgrees(v: Layer, es: seq<Event>, l: nat, on: set<Category>)
    requires Agrees(v, es, on) && LegalEvent(es, UnregisterList(l))
    ensures Agrees(AfterEvent(v, UnregisterList(l)), es + [UnregisterList(l)], on)
  {
    var e := UnregisterList(l);
    Snoc(es, e);
    if COMMAND_LIST in on {
      assert AfterEvent(v, e).lists == v.lists - {l};
    }
    forall k | k in AfterEvent(v, e).lists ensures Tracks(History(es + [e], k), AfterEvent(v, e).lists[k], on) {
    }
  }

  lemma NewListTracks(on: set<Category>)
    ensures Tracks([], NEW_LIST, on)
  {
  }

  lemma RecordableChanges(buffers: map<nat, Buffer>, on: set<Category>, b: nat, x: Buffer)
    requires RESOURCE in on
    ensures Recordable(buffers[b := x], on) == Recordable(buffers, on)[b := x.(mapped := MEMORY in on && x.mapped)]
    ensures Recordable(buffers - {b}, on) == Recordable(buffers, on) - {b}
  {
  }

  lemma TableAgrees(v: Layer, es: seq<Event>, e: Event, on: set<Category>)
    requires Agrees(v, es, on) && !e.Command? && !e.RegisterList? && !e.UnregisterList?
    requires !e.Enable? && !e.Disable?
    requires var w := AfterEvent(v, e);
             && w.lists == v.lists && w.initialized && w.enabled == on
             && w.buffers == Recordable(Registered(es + [e]).buffers, on)
             && (PIPELINE in on ==> w.pipelines == Registered(es + [e]).pipelines)
    ensures Agrees(AfterEvent(v, e), es + [e], on)
  {
    Snoc(es, e);
    forall l | l in v.lists ensures History(es + [e], l) == History(es, l) {
    }
  }

  lemma BufferAgrees(v: Layer, es: seq<Event>, e: Event, on: set<Category>)
    requires Agrees(v, es, on) && LegalEvent(es, e)
    requires e.RegisterBuffer? || e.UnregisterBuffer? || e.MapBuffer? || e.UnmapBuffer?
    ensures Agrees(AfterEvent(v, e), es + [e], on)
  {
    Snoc(es, e);
    var reg := Registered(es);
    if RESOURCE in on {
      match e
      case RegisterBuffer(b, desc) => RecordableChanges(reg.buffers, on, b, Buffer(desc, false));
      case UnregisterBuffer(b) => RecordableChanges(reg.buffers, on, b, reg.buffers[b]);
      case MapBuffer(b) => RecordableChanges(reg.buffers, on, b, reg.buffers[b].(mapped := true));
      case UnmapBuffer(b) => RecordableChanges(reg.buffers, on, b, reg.buffers[b].(mapped := false));
    }
    assert AfterEvent(v, e).buffers == Recordable(Registered(es + [e]).buffers, on);
    TableAgrees(v, es, e, on);
  }

  lemma EventAgrees(v: Layer, es: seq<Event>, e: Event, on: set<Category>)
    requires Agrees(v, es, on) && LegalEvent(es, e) && Quiet(on) && !e.Enable? && !e.Disable?
    ensures Agrees(AfterEvent(v, e), es + [e], on)
  {
    match e
    case Command(c) => CommandAgrees(v, es, c, on);
    case RegisterList(l) => RegisterListAgrees(v, es, l, on);
    case UnregisterList(l) => UnregisterListAgrees(v, es, l, on);
    case RegisterPipeline(_) =>
      Snoc(es, e);
      TableAgrees(v, es, e, on);
    case UnregisterPipeline(_) =>
      Snoc(es, e);
      TableAgrees(v, es, e, on);
    case _ => BufferAgrees(v, es, e, on);
  }

  // ---------------------------------------------------------------- whole runs

  lemma AllLegalSnoc(es: seq<Event>, e: Event)
    ensures AllLegal(es + [e]) <==> AllLegal(es) && LegalEvent(es, e)
  {
    var all := es + [e];
    Snoc(es, e);
    forall n | 0 <= n < |es| ensures LegalAt(all, n) == LegalAt(es, n) {
      assert all[..n] == es[..n];
    }
    if AllLegal(all) {
      assert LegalAt(all, |es|);
      forall n | 0 <= n < |es| ensures LegalAt(es, n) {
        assert LegalAt(all, n);
      }
    }
  }

  lemma EventKeepsConfig(v: Layer, e: Event)
    requires !e.Enable? && !e.Disable?
    ensures AfterEvent(v, e).enabled == v.enabled && AfterEvent(v, e).initialized == v.initialized
  {
    match e
    case Command(c) => AfterSame(v, c);
    case _ =>
  }

  lemma {:induction false} RunEnabled(v: Layer, es: seq<Event>)
    requires Fixed(es)
    ensures Run(v, es).enabled == v.enabled && Run(v, es).initialized == v.initialized
  {
    if es != [] {
      RunEnabled(v, es[..|es| - 1]);
      EventKeepsConfig(Run(v, es[..|es| - 1]), es[|es| - 1]);
    }
  }

  /** The counters count, modulo 2^32, what was reported over any run under any configuration. */
  lemma {:induction false} RunCounts(v: Layer, es: seq<Event>)
    requires Counted(v)
    ensures Counted(Run(v, es))
  {
    if es != [] {
      RunCounts(v, es[..|es| - 1]);
    }
  }

  lemma {:induction false} RunAgrees(on: set<Category>, es: seq<Event>)
    requires Fixed(es) && AllLegal(es) && Quiet(on)
    ensures Agrees(Run(Initialized(on), es), es, on)
  {
    if es != [] {
      var n := |es| - 1;
      assert es == es[..n] + [es[n]];
      AllLegalSnoc(es[..n], es[n]);
      RunAgrees(on, es[..n]);
      EventAgrees(Run(Initialized(on), es[..n]), es[..n], es[n], on);
    }
  }

  /** With every category on, an event passes exactly when it is legal after the trace. */
  lemma AllOnVerdict(v: Layer, es: seq<Event>, e: Event)
    requires Agrees(v, es, ALL)
    ensures NoError(AfterEvent(v, e)) <==> NoError(v) && LegalEvent(es, e)
  {
    match e
    case Command(c) => Verdict(v, c);
    case _ => EventVerdict(v, e);
  }

  /** With every category on, a run from `Initialize` reports no error exactly when every event is legal. */
  lemma {:induction false} SoundAndComplete(es: seq<Event>)
    requires Fixed(es)
    ensures NoError(Run(Initialized(ALL), es)) <==> AllLegal(es)
  {
    if es != [] {
      var n := |es| - 1;
      var before := Run(Initialized(ALL), es[..n]);
      assert es == es[..n] + [es[n]];
      SoundAndComplete(es[..n]);
      AllLegalSnoc(es[..n], es[n]);
      if AllLegal(es[..n]) {
        RunAgrees(ALL, es[..n]);
        AllOnVerdict(before, es[..n], es[n]);
      } else {
        RunEnabled(Initialized(ALL), es[..n]);
        if NoError(AfterEvent(before, es[n])) {
          ErrorsStay(before, es[n]);
        }
      }
    }
  }

  // ---------------------------------------------------------------- other categories

  lemma LegalCommandIsSilent(v: Layer, es: seq<Event>, c: Call, on: set<Category>)
    requires Agrees(v, es, on) && LegalEvent(es, Command(c)) && Quiet(on) && NoError(v)
    ensures NoError(After(v, c))
  {
    if Gate(c) in on {
      Verdict(v, c);
    }
  }

  lemma LegalIsSilent(v: Layer, es: seq<Event>, e: Event, on: set<Category>)
    requires Agrees(v, es, on) && LegalEvent(es, e) && Quiet(on) && NoError(v)
    ensures NoError(AfterEvent(v, e))
  {
    match e
    case Command(c) => LegalCommandIsSilent(v, es, c, on);
    case _ => EventVerdict(v, e);
  }

  lemma {:induction false} NoFalseAlarms(on: set<Category>, es: seq<Event>)
    requires Fixed(es) && AllLegal(es) && Quiet(on)
    ensures NoError(Run(Initialized(on), es))
  {
    if es != [] {
      var n := |es| - 1;
      assert es == es[..n] + [es[n]];
      AllLegalSnoc(es[..n], es[n]);
      NoFalseAlarms(on, es[..n]);
      RunAgrees(on, es[..n]);
      LegalIsSilent(Run(Initialized(on), es[..n]), es[..n], es[n], on);
    }
  }

  lemma RunNext(v: Layer, es: seq<Event>, e: Event)
    ensures Run(v, es + [e]) == AfterEvent(Run(v, es), e)
  {
    Snoc(es, e);
  }

  const SHARED := BufferDesc(true, true, false)

  lemma MapRuns(v: Layer)
    ensures Run(v, [RegisterBuffer(7, SHARED), MapBuffer(7)])
         == AfterEvent(AfterEvent(v, RegisterBuffer(7, SHARED)), MapBuffer(7))
  {
    var one, two := RegisterBuffer(7, SHARED), MapBuffer(7);
    RunNext(v, [], one);
    RunNext(v, [one], two);
    assert [] + [one] == [one] && [one] + [two] == [one, two];
  }

  /** A list and a buffer are registered, and the buffer is bound. */
  function BindTrace(): seq<Event> {
    [RegisterList(1)] + [RegisterBuffer(7, SHARED)] + [Command(Begin(1))] + [Command(SetVertexBuffer(1, 7))]
  }

  lemma NothingYet()
    ensures Registered([]) == Registry({}, map[], {}) && History([], 1) == [] && AllLegal([])
  {
  }

  lemma FirstEvent(e: Event)
    ensures Registered([e]) == RegisteredNext(Registry({}, map[], {}), e) && History([e], 1) == HistoryAfter([], e, 1)
    ensures LegalEvent([], e) ==> AllLegal([e])
  {
    NothingYet();
    assert [] + [e] == [e];
    AllLegalSnoc([], e);
    Snoc([], e);
  }

  lemma ListStarts()
    ensures AllLegal([RegisterList(1)]) && History([RegisterList(1)], 1) == []
    ensures Registered([RegisterList(1)]) == Registry({1}, map[], {})
  {
    FirstEvent(RegisterList(1));
  }

  lemma BindStarts()
    ensures var two := [RegisterList(1)] + [RegisterBuffer(7, SHARED)];
            && AllLegal(two) && History(two, 1) == []
            && Registered(two) == Registry({1}, map[7 := Buffer(SHARED, false)], {})
  {
    ListStarts();
    AllLegalSnoc([RegisterList(1)], RegisterBuffer(7, SHARED));
    Snoc([RegisterList(1)], RegisterBuffer(7, SHARED));
  }

  lemma BindIsLegal()
    ensures AllLegal(BindTrace())
  {
    var two := [RegisterList(1)] + [RegisterBuffer(7, SHARED)];
    var e2, e3 := Command(Begin(1)), Command(SetVertexBuffer(1, 7));
    BindStarts();
    AllLegalSnoc(two, e2);
    Snoc(two, e2);
    AllLegalSnoc(two + [e2], e3);
    HistoryNext([], Begin(1));
  }

  lemma BindRuns(v: Layer)
    ensures var registered := AfterEvent(AfterEvent(v, RegisterList(1)), RegisterBuffer(7, SHARED));
            Run(v, BindTrace()) == After(After(registered, Begin(1)), SetVertexBuffer(1, 7))
  {
    var e0, e1, e2, e3 := RegisterList(1), RegisterBuffer(7, SHARED), Command(Begin(1)), Command(SetVertexBuffer(1, 7));
    assert [] + [e0] == [e0];
    RunNext(v, [], e0);
    RunNext(v, [e0], e1);
    RunNext(v, [e0] + [e1], e2);
    RunNext(v, [e0] + [e1] + [e2], e3);
  }

  lemma UnrecordedBufferIsReported(on: set<Category>)
    requires HANDLE in on && STATE in on && RESOURCE !in on
    ensures !NoError(Run(Initialized(on), BindTrace()))
  {
    var v := Initialized(on);
    BindRuns(v);
    var registered := AfterEvent(AfterEvent(v, RegisterList(1)), RegisterBuffer(7, SHARED));
    AfterSame(registered, Begin(1));
    Verdict(After(registered, Begin(1)), SetVertexBuffer(1, 7));
  }

  lemma UnrecordedMapIsReported(on: set<Category>)
    requires HANDLE in on && MEMORY in on && RESOURCE !in on
    ensures !NoError(Run(Initialized(on), [RegisterBuffer(7, SHARED), MapBuffer(7)]))
  {
    var v := Initialized(on);
    MapRuns(v);
    EventVerdict(AfterEvent(v, RegisterBuffer(7, SHARED)), MapBuffer(7));
  }

  /** A legal run that is reported, from `Initialize` on, for any other choice of categories: the buffer was
      never recorded. */
  lemma FalseAlarm(on: set<Category>) returns (es: seq<Event>)
    requires !Quiet(on)
    ensures Fixed(es) && AllLegal(es) && !NoError(Run(Initialized(on), es))
  {
    if STATE in on {
      es := BindTrace();
      BindIsLegal();
      UnrecordedBufferIsReported(on);
    } else {
      es := [RegisterBuffer(7, SHARED), MapBuffer(7)];
      UnrecordedMapIsReported(on);
    }
  }

  /** For fixed categories, no legal run is reported exactly when buffers are recorded, or handles are not
      checked, or nothing looks buffers up. */
  lemma AlarmsExactly(on: set<Category>)
    ensures (forall es :: Fixed(es) && AllLegal(es) ==> NoError(Run(Initialized(on), es))) <==> Quiet(on)
  {
    if Quiet(on) {
      forall es | Fixed(es) && AllLegal(es) ensures NoError(Run(Initialized(on), es)) {
        NoFalseAlarms(on, es);
      }
    } else {
      var es := FalseAlarm(on);
    }
  }

  lemma RunOne(v: Layer, e: Event)
    ensures Run(v, [e]) == AfterEvent(v, e)
    ensures AllLegal([e]) <==> LegalEvent([], e)
  {
    RunNext(v, [], e);
    AllLegalSnoc([], e);
    assert [] + [e] == [e];
  }

  /** One illegal event on an unknown thing that goes unreported when `category` is off. */
  function Unnoticed(category: Category): Event {
    match category
    case HANDLE => UnregisterPipeline(1)
    case STATE => Command(SetVertexBuffer(1, 0))
    case RESOURCE => UnregisterBuffer(1)
    case MEMORY => UnmapBuffer(1)
    case PIPELINE => UnregisterPipeline(1)
    case COMMAND_LIST => UnregisterList(1)
    case RENDER_PASS => Command(EndPass(1))
  }

  lemma NothingMissing(on: set<Category>)
    requires forall c: Category :: c in on
    ensures on == ALL
  {
    forall c: Category ensures c in ALL {
      match c
      case HANDLE | STATE | RESOURCE | MEMORY | PIPELINE | COMMAND_LIST | RENDER_PASS =>
    }
  }

  lemma MissingCategory(on: set<Category>) returns (category: Category)
    requires on != ALL
    ensures category !in on
  {
    if forall c: Category :: c in on {
      NothingMissing(on);
    }
    category :| category !in on;
  }

  lemma UnnoticedIsIllegal(on: set<Category>, category: Category)
    requires category !in on
    ensures Fixed([Unnoticed(category)]) && !AllLegal([Unnoticed(category)])
    ensures NoError(Run(Initialized(on), [Unnoticed(category)]))
  {
    var e := Unnoticed(category);
    RunOne(Initialized(on), e);
    if e.Command? {
      assert Gate(e.call) == category;
    } else {
      EventVerdict(Initialized(on), e);
    }
  }

  /** The verdict is right for every run exactly when every category is on. */
  lemma ExactOnlyWithAll(on: set<Category>)
    ensures (forall es :: Fixed(es) ==> (NoError(Run(Initialized(on), es)) <==> AllLegal(es))) <==> on == ALL
  {
    if on == ALL {
      forall es | Fixed(es) ensures NoError(Run(Initialized(on), es)) <==> AllLegal(es) {
        SoundAndComplete(es);
      }
    } else {
      var category := MissingCategory(on);
      UnnoticedIsIllegal(on, category);
    }
  }

  // ---------------------------------------------------------------- interleavings

  /** The event can matter to list `l`: it is about `l`, or about something lists share. */
  predicate Concerns(e: Event, l: nat) {
    match e
    case Command(c) => c.list == l
    case RegisterList(k) => k == l
    case UnregisterList(k) => k == l
    case _ => true
  }

  /** What list `l` sees of a trace. */
  function Project(es: seq<Event>, l: nat): seq<Event> {
    if es == [] then []
    else Project(es[..|es| - 1], l) + if Concerns(es[|es| - 1], l) then [es[|es| - 1]] else []
  }

  lemma ProjectNext(es: seq<Event>, e: Event, l: nat)
    ensures Project(es + [e], l) == if Concerns(e, l) then Project(es, l) + [e] else Project(es, l)
  {
    Snoc(es, e);
    assert Project(es, l) + [] == Project(es, l);
  }

  lemma {:induction false} ProjectSees(es: seq<Event>, l: nat)
    ensures var p := Project(es, l);
            && Registered(p).buffers == Registered(es).buffers && Registered(p).pipelines == Registered(es).pipelines
            && (l in Registered(p).lists <==> l in Registered(es).lists)
            && History(p, l) == History(es, l)
  {
    if es != [] {
      var n := |es| - 1;
      ProjectSees(es[..n], l);
      assert es == es[..n] + [es[n]];
      ProjectNext(es[..n], es[n], l);
      if Concerns(es[n], l) {
        Snoc(Project(es[..n], l), es[n]);
      }
    }
  }

  lemma LegalInProjection(es: seq<Event>, e: Event, l: nat)
    requires Concerns(e, l)
    ensures LegalEvent(Project(es, l), e) <==> LegalEvent(es, e)
  {
    ProjectSees(es, l);
  }

  ghost predicate LegalOn(es: seq<Event>, l: nat) {
    AllLegal(Project(es, l))
  }

  lemma LegalOnSnoc(es: seq<Event>, e: Event, l: nat)
    ensures LegalOn(es + [e], l) <==> LegalOn(es, l) && (Concerns(e, l) ==> LegalEvent(es, e))
  {
    ProjectNext(es, e, l);
    if Concerns(e, l) {
      AllLegalSnoc(Project(es, l), e);
      LegalInProjection(es, e, l);
    }
  }

  /** Legality is decided list by list. */
  lemma {:induction false} LegalListByList(es: seq<Event>)
    ensures AllLegal(es) <==> forall l: nat :: LegalOn(es, l)
  {
    if es == [] {
      forall l: nat ensures LegalOn(es, l) {
      }
    } else {
      var n := |es| - 1;
      var e := es[n];
      assert es == es[..n] + [e] && Concerns(e, About(e));
      LegalListByList(es[..n]);
      AllLegalSnoc(es[..n], e);
      LegalOnSnoc(es[..n], e, About(e));
      forall l: nat ensures LegalOn(es, l) <==> LegalOn(es[..n], l) && (Concerns(e, l) ==> LegalEvent(es[..n], e)) {
        LegalOnSnoc(es[..n], e, l);
      }
    }
  }

  /** The verdict does not depend on how the events of different lists are interleaved. */
  lemma InterleavingIsIrrelevant(es: seq<Event>, others: seq<Event>)
    requires Fixed(es) && Fixed(others)
    requires forall l: nat :: Project(es, l) == Project(others, l)
    ensures NoError(Run(Initialized(ALL), es)) <==> NoError(Run(Initialized(ALL), others))
  {
    LegalListByList(es);
    LegalListByList(others);
    forall l: nat ensures LegalOn(es, l) == LegalOn(others, l) {
    }
    SoundAndComplete(es);
    SoundAndComplete(others);
  }
}
