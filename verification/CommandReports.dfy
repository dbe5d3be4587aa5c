/** Every message the validation layer gives about the next event after a legal run, in order, under any
    categories: read off the run alone. */
module CommandReports {
  import opened Common
  import opened CommandValidator
  import opened CommandTraces

  /** One possible message. */
  function Says(bad: bool, severity: Severity, category: Category, on: set<Category>): seq<Message> {
    if bad && category in on then [Message(severity, category)] else []
  }

  /** The category without which the event is not looked at. */
  function Watched(e: Event): Option<Category> {
    match e
    case Command(c) =>
      (match c
       case Begin(_) => Some(COMMAND_LIST)
       case End(_) => Some(COMMAND_LIST)
       case Submit(_) => Some(COMMAND_LIST)
       case Reset(_) => Some(COMMAND_LIST)
       case Draw(_, _, _) => Some(COMMAND_LIST)
       case DrawIndexed(_, _, _) => Some(COMMAND_LIST)
       case BeginPass(_, _) => Some(RENDER_PASS)
       case EndPass(_) => Some(RENDER_PASS)
       case BeginRendering(_, _) => Some(RENDER_PASS)
       case EndRendering(_) => Some(RENDER_PASS)
       case SetPipeline(_, _) => Some(PIPELINE)
       case SetVertexBuffer(_, _) => Some(STATE)
       case SetIndexBuffer(_, _) => Some(STATE))
    case UnregisterBuffer(_) => Some(RESOURCE)
    case MapBuffer(_) => Some(MEMORY)
    case UnmapBuffer(_) => Some(MEMORY)
    case UnregisterPipeline(_) => Some(PIPELINE)
    case UnregisterList(_) => Some(COMMAND_LIST)
    case _ => None
  }

  /** The call binds something the caller has not registered. */
  predicate BindsUnknown(reg: Registry, c: Call) {
    match c
    case SetPipeline(_, p) => p == 0 || p !in reg.pipelines
    case SetVertexBuffer(_, b) => b == 0 || b !in reg.buffers
    case SetIndexBuffer(_, b) => b == 0 || b !in reg.buffers
    case _ => false
  }

  /** Messages about a draw on a recording list. */
  ghost function DrawMessages(h: seq<Call>, indexed: bool, on: set<Category>): seq<Message> {
    Says(!InPass(h) && !InRendering(h), ERROR, RENDER_PASS, on) +
    Says(!PipelineSet(h), ERROR, PIPELINE, on) +
    Says(indexed && !IndexSet(h), ERROR, STATE, on) +
    Says(!VertexSet(h), WARNING, STATE, on)
  }

  /** Messages about a call on a list that is recording. */
  ghost function RecordingMessages(reg: Registry, h: seq<Call>, c: Call, on: set<Category>): seq<Message> {
    match c
    case End(_) => Says(InPass(h), ERROR, RENDER_PASS, on) + Says(InRendering(h), ERROR, RENDER_PASS, on)
    case Draw(_, vertexCount, instanceCount) =>
      DrawMessages(h, false, on) + Says(vertexCount == 0, WARNING, COMMAND_LIST, on) +
      Says(instanceCount == 0, WARNING, COMMAND_LIST, on)
    case DrawIndexed(_, indexCount, _) => DrawMessages(h, true, on) + Says(indexCount == 0, WARNING, COMMAND_LIST, on)
    case BeginPass(_, pass) =>
      if InPass(h) || InRendering(h) then Says(true, ERROR, RENDER_PASS, on) else Says(pass == 0, ERROR, HANDLE, on)
    case EndPass(_) => Says(!InPass(h), ERROR, RENDER_PASS, on)
    case BeginRendering(_, hasAttachments) =>
      if InPass(h) || InRendering(h) then Says(true, ERROR, RENDER_PASS, on)
      else Says(!hasAttachments, WARNING, RENDER_PASS, on)
    case EndRendering(_) => Says(!InRendering(h), ERROR, RENDER_PASS, on)
    case SetVertexBuffer(_, b) => Says(b in reg.buffers && !reg.buffers[b].desc.vertex, ERROR, RESOURCE, on)
    case SetIndexBuffer(_, b) => Says(b in reg.buffers && !reg.buffers[b].desc.index, ERROR, RESOURCE, on)
    case _ => []
  }

  ghost function CallMessages(reg: Registry, h: seq<Call>, c: Call, on: set<Category>): seq<Message> {
    if HANDLE in on && BindsUnknown(reg, c) then Says(true, ERROR, HANDLE, on)
    else if c.list !in reg.lists then Says(true, ERROR, COMMAND_LIST, on)
    else ListMessages(reg, h, c, on)
  }

  /** Messages about a call on a registered list. */
  ghost function ListMessages(reg: Registry, h: seq<Call>, c: Call, on: set<Category>): seq<Message> {
    match c
    case Begin(_) => Says(Recording(h) || Submitted(h), ERROR, STATE, on)
    case Submit(_) => Says(!Executable(h), ERROR, STATE, on)
    case Reset(_) => []
    case _ => if Recording(h) then RecordingMessages(reg, h, c, on) else Says(true, ERROR, STATE, on)
  }

  ghost function EventMessages(reg: Registry, h: seq<Call>, e: Event, on: set<Category>): seq<Message> {
    match e
    case Command(c) => CallMessages(reg, h, c, on)
    case UnregisterBuffer(b) =>
      if b !in reg.buffers then Says(true, ERROR, HANDLE, on) else Says(reg.buffers[b].mapped, ERROR, RESOURCE, on)
    case MapBuffer(b) =>
      if b !in reg.buffers then Says(true, ERROR, HANDLE, on)
      else Says(reg.buffers[b].mapped || reg.buffers[b].desc.gpuOnly, ERROR, MEMORY, on)
    case UnmapBuffer(b) =>
      if b !in reg.buffers then Says(true, ERROR, HANDLE, on) else Says(!reg.buffers[b].mapped, WARNING, MEMORY, on)
    case UnregisterPipeline(p) => Says(p !in reg.pipelines, ERROR, HANDLE, on)
    case UnregisterList(l) =>
      if l !in reg.lists then Says(true, ERROR, COMMAND_LIST, on)
      else Says(InPass(h) || InRendering(h), ERROR, COMMAND_LIST, on)
    case _ => []
  }

  // ---------------------------------------------------------------- the layer says just that

  /** The flags of a list that has been followed all along. */
  ghost predicate Flags(h: seq<Call>, i: Info) {
    && (i.state.RECORDING? <==> Recording(h)) && (i.state.EXECUTABLE? <==> Executable(h))
    && (i.state.SUBMITTED? <==> Submitted(h))
    && (i.insidePass <==> InPass(h)) && (i.insideRendering <==> InRendering(h))
    && (i.pipeline != 0 <==> PipelineSet(h)) && (i.indexBuffer != 0 <==> IndexSet(h))
    && (i.vertexBuffers != [] <==> VertexSet(h))
  }

  lemma TracksFlags(h: seq<Call>, i: Info)
    requires Tracks(h, i, ALL)
    ensures Flags(h, i)
  {
  }

  lemma CheckSays(v: Layer, bad: bool, m: Message)
    requires v.initialized
    ensures Check(v, bad, m).messages == v.messages + Says(bad, m.severity, m.category, v.enabled)
    ensures SameButMessages(v, Check(v, bad, m))
  {
  }

  /** One more check after some messages. */
  lemma CheckAdds(before: seq<Message>, said: seq<Message>, v: Layer, bad: bool, m: Message)
    requires v.initialized && v.messages == before + said
    ensures Check(v, bad, m).messages == before + (said + Says(bad, m.severity, m.category, v.enabled))
    ensures SameButMessages(v, Check(v, bad, m))
  {
    CheckSays(v, bad, m);
  }

  lemma DrawSays(v: Layer, h: seq<Call>, i: Info, indexed: bool)
    requires v.initialized && Flags(h, i)
    ensures DrawChecks(v, i, indexed).messages == v.messages + DrawMessages(h, indexed, v.enabled)
    ensures SameButMessages(v, DrawChecks(v, i, indexed))
  {
    var on := v.enabled;
    var bracket := Check(v, !i.insidePass && !i.insideRendering, Message(ERROR, RENDER_PASS));
    var pipeline := Check(bracket, i.pipeline == 0, Message(ERROR, PIPELINE));
    var index := Check(pipeline, indexed && i.indexBuffer == 0, Message(ERROR, STATE));
    var said := Says(!InPass(h) && !InRendering(h), ERROR, RENDER_PASS, on);
    CheckSays(v, !i.insidePass && !i.insideRendering, Message(ERROR, RENDER_PASS));
    CheckAdds(v.messages, said, bracket, i.pipeline == 0, Message(ERROR, PIPELINE));
    said := said + Says(!PipelineSet(h), ERROR, PIPELINE, on);
    CheckAdds(v.messages, said, pipeline, indexed && i.indexBuffer == 0, Message(ERROR, STATE));
    said := said + Says(indexed && !IndexSet(h), ERROR, STATE, on);
    CheckAdds(v.messages, said, index, i.vertexBuffers == [], Message(WARNING, STATE));
  }

  lemma DrawCallSays(v: Layer, h: seq<Call>, i: Info, vertexCount: nat, instanceCount: nat, c: Call)
    requires v.initialized && Flags(h, i) && c == Draw(c.list, vertexCount, instanceCount)
    ensures NotedRecording(v, i, c).messages == v.messages +
              (DrawMessages(h, false, v.enabled) + Says(vertexCount == 0, WARNING, COMMAND_LIST, v.enabled) +
               Says(instanceCount == 0, WARNING, COMMAND_LIST, v.enabled))
  {
    var checked, said := DrawChecks(v, i, false), DrawMessages(h, false, v.enabled);
    DrawSays(v, h, i, false);
    CheckAdds(v.messages, said, checked, vertexCount == 0, Message(WARNING, COMMAND_LIST));
    CheckAdds(v.messages, said + Says(vertexCount == 0, WARNING, COMMAND_LIST, v.enabled),
              Check(checked, vertexCount == 0, Message(WARNING, COMMAND_LIST)), instanceCount == 0,
              Message(WARNING, COMMAND_LIST));
  }

  lemma RecordingSays(v: Layer, reg: Registry, h: seq<Call>, i: Info, c: Call)
    requires v.initialized && Flags(h, i) && v.buffers == reg.buffers
    ensures NotedRecording(v, i, c).messages == v.messages + RecordingMessages(reg, h, c, v.enabled)
  {
    match c
    case End(_) =>
      CheckSays(v, i.insidePass, Message(ERROR, RENDER_PASS));
      CheckAdds(v.messages, Says(InPass(h), ERROR, RENDER_PASS, v.enabled),
                Check(v, i.insidePass, Message(ERROR, RENDER_PASS)), i.insideRendering, Message(ERROR, RENDER_PASS));
    case Draw(_, vertexCount, instanceCount) => DrawCallSays(v, h, i, vertexCount, instanceCount, c);
    case DrawIndexed(_, indexCount, _) =>
      DrawSays(v, h, i, true);
      CheckAdds(v.messages, DrawMessages(h, true, v.enabled), DrawChecks(v, i, true), indexCount == 0,
                Message(WARNING, COMMAND_LIST));
    case BeginPass(_, pass) =>
      CheckSays(v, true, Message(ERROR, RENDER_PASS));
      CheckSays(v, pass == 0, Message(ERROR, HANDLE));
    case EndPass(_) => CheckSays(v, !i.insidePass, Message(ERROR, RENDER_PASS));
    case BeginRendering(_, hasAttachments) =>
      CheckSays(v, true, Message(ERROR, RENDER_PASS));
      CheckSays(v, !hasAttachments, Message(WARNING, RENDER_PASS));
    case EndRendering(_) => CheckSays(v, !i.insideRendering, Message(ERROR, RENDER_PASS));
    case SetVertexBuffer(_, b) => CheckSays(v, b in v.buffers && !v.buffers[b].desc.vertex, Message(ERROR, RESOURCE));
    case SetIndexBuffer(_, b) => CheckSays(v, b in v.buffers && !v.buffers[b].desc.index, Message(ERROR, RESOURCE));
    case _ =>
  }

  lemma RecordedBuffers(buffers: map<nat, Buffer>)
    ensures Recordable(buffers, ALL) == buffers
  {
  }

  lemma ListSays(v: Layer, reg: Registry, h: seq<Call>, i: Info, c: Call)
    requires v.initialized && Flags(h, i) && v.buffers == reg.buffers
    ensures Noted(v, i, c).messages == v.messages + ListMessages(reg, h, c, v.enabled)
  {
    CheckSays(v, i.state.RECORDING? || i.state.SUBMITTED?, Message(ERROR, STATE));
    CheckSays(v, !i.state.EXECUTABLE?, Message(ERROR, STATE));
    CheckSays(v, true, Message(ERROR, STATE));
    RecordingSays(v, reg, h, i, c);
  }

  lemma CallSays(v: Layer, es: seq<Event>, c: Call, on: set<Category>)
    requires Agrees(v, es, ALL) && Gate(c) in on
    ensures After(v.(enabled := on), c).messages
         == v.messages + CallMessages(Registered(es), History(es, c.list), c, on)
  {
    var w, reg, h := v.(enabled := on), Registered(es), History(es, c.list);
    RecordedBuffers(reg.buffers);
    assert Known(w, c) <==> !BindsUnknown(reg, c);
    CheckSays(w, true, Message(ERROR, HANDLE));
    CheckSays(w, true, Message(ERROR, COMMAND_LIST));
    if c.list in v.lists {
      TracksFlags(h, v.lists[c.list]);
      ListSays(w, reg, h, v.lists[c.list], c);
    }
  }

  /** After any legal run with every category on, and then with any categories `on`: an event that is not watched is
      passed over in silence, and about any other the layer says exactly what the run calls for, in this order. */
  lemma SaysExactly(es: seq<Event>, e: Event, on: set<Category>)
    requires Fixed(es) && AllLegal(es)
    ensures var v := Run(Initialized(ALL), es);
            AfterEvent(v.(enabled := on), e).messages == v.messages +
              if Watched(e).Some? && Watched(e).value in on
              then EventMessages(Registered(es), History(es, About(e)), e, on) else []
  {
    var v := Run(Initialized(ALL), es);
    RunAgrees(ALL, es);
    SaysOf(v, es, e, on);
  }

  lemma SaysOf(v: Layer, es: seq<Event>, e: Event, on: set<Category>)
    requires Agrees(v, es, ALL)
    ensures AfterEvent(v.(enabled := on), e).messages == v.messages +
              if Watched(e).Some? && Watched(e).value in on
              then EventMessages(Registered(es), History(es, About(e)), e, on) else []
  {
    var w, reg := v.(enabled := on), Registered(es);
    RecordedBuffers(reg.buffers);
    match e
    case Command(c) =>
      if Gate(c) in on {
        CallSays(v, es, c, on);
      }
    case UnregisterBuffer(b) =>
      CheckSays(w, true, Message(ERROR, HANDLE));
      CheckSays(w, b in w.buffers && w.buffers[b].mapped, Message(ERROR, RESOURCE));
    case MapBuffer(_) =>
      CheckSays(w, true, Message(ERROR, HANDLE));
      CheckSays(w, true, Message(ERROR, MEMORY));
    case UnmapBuffer(_) =>
      CheckSays(w, true, Message(ERROR, HANDLE));
      CheckSays(w, true, Message(WARNING, MEMORY));
    case UnregisterPipeline(_) => CheckSays(w, true, Message(ERROR, HANDLE));
    case UnregisterList(l) =>
      CheckSays(w, true, Message(ERROR, COMMAND_LIST));
      if l in w.lists {
        TracksFlags(History(es, l), w.lists[l]);
        CheckSays(w, w.lists[l].insidePass || w.lists[l].insideRendering, Message(ERROR, COMMAND_LIST));
      }
    case _ =>
  }

  // ---------------------------------------------------------------- what a reported call does to its list

  /** With every category on, whatever came before: a call that is reported leaves all lists as they were, except that
      ending a recording inside a bracket ends it, and a buffer of the wrong usage is bound. */
  lemma ReportedCallChangesNothing(v: Layer, c: Call)
    requires v.initialized && v.enabled == ALL && NoError(v) && !NoError(After(v, c))
    ensures !c.End? && !c.SetVertexBuffer? && !c.SetIndexBuffer? ==> After(v, c).lists == v.lists
    ensures c.End? ==>
              After(v, c).lists ==
                if c.list in v.lists && v.lists[c.list].state.RECORDING?
                then v.lists[c.list := v.lists[c.list].(state := EXECUTABLE)]
                else v.lists
    ensures c.SetVertexBuffer? ==>
              After(v, c).lists ==
                if c.buffer != 0 && c.buffer in v.buffers && c.list in v.lists && v.lists[c.list].state.RECORDING?
                then v.lists[c.list := v.lists[c.list].(vertexBuffers := v.lists[c.list].vertexBuffers + [c.buffer])]
                else v.lists
    ensures c.SetIndexBuffer? ==>
              After(v, c).lists ==
                if c.buffer != 0 && c.buffer in v.buffers && c.list in v.lists && v.lists[c.list].state.RECORDING?
                then v.lists[c.list := v.lists[c.list].(indexBuffer := c.buffer)]
                else v.lists
  {
    Verdict(v, c);
  }
}
