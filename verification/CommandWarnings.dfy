/** The warnings of the validation layer: what a legal run is warned about, and how often. */
module CommandWarnings {
  import opened CommandValidator
  import opened CommandTraces
  import opened CommandReports

  function One(b: bool): nat {
    if b then 1 else 0
  }

  /** The warnings a legal event deserves, after the calls `h` on its list. */
  ghost function Deserved(reg: Registry, h: seq<Call>, e: Event): nat {
    match e
    case Command(c) =>
      (match c
       case Draw(_, vertexCount, instanceCount) => One(!VertexSet(h)) + One(vertexCount == 0) + One(instanceCount == 0)
       case DrawIndexed(_, indexCount, _) => One(!VertexSet(h)) + One(indexCount == 0)
       case BeginRendering(_, hasAttachments) => One(!hasAttachments)
       case _ => 0)
    case UnmapBuffer(b) => One(b in reg.buffers && !reg.buffers[b].mapped)
    case _ => 0
  }

  /** ... and all events of a trace. */
  ghost function AllDeserved(es: seq<Event>): nat {
    if es == [] then 0
    else
      var n := |es| - 1;
      AllDeserved(es[..n]) + Deserved(Registered(es[..n]), History(es[..n], About(es[n])), es[n])
  }

  function Warnings(v: Layer): nat {
    Count(v.messages, WARNING)
  }

  lemma CheckWarns(v: Layer, bad: bool, m: Message)
    requires v.initialized && v.enabled == ALL
    ensures Warnings(Check(v, bad, m)) == Warnings(v) + One(bad && m.severity.WARNING?)
    ensures SameButMessages(v, Check(v, bad, m))
  {
    var w := Check(v, bad, m);
    assert m.category in ALL by {
      match m.category
      case HANDLE | STATE | RESOURCE | MEMORY | PIPELINE | COMMAND_LIST | RENDER_PASS =>
    }
    if bad {
      assert (v.messages + [m])[..|v.messages|] == v.messages;
    }
  }

  lemma DrawWarns(v: Layer, i: Info, indexed: bool)
    requires v.initialized && v.enabled == ALL
    ensures Warnings(DrawChecks(v, i, indexed)) == Warnings(v) + One(i.vertexBuffers == [])
  {
    var bracket := Check(v, !i.insidePass && !i.insideRendering, Message(ERROR, RENDER_PASS));
    var pipeline := Check(bracket, i.pipeline == 0, Message(ERROR, PIPELINE));
    var index := Check(pipeline, indexed && i.indexBuffer == 0, Message(ERROR, STATE));
    CheckWarns(v, !i.insidePass && !i.insideRendering, Message(ERROR, RENDER_PASS));
    CheckWarns(bracket, i.pipeline == 0, Message(ERROR, PIPELINE));
    CheckWarns(pipeline, indexed && i.indexBuffer == 0, Message(ERROR, STATE));
    CheckWarns(index, i.vertexBuffers == [], Message(WARNING, STATE));
  }

  lemma RecordingWarns(v: Layer, i: Info, c: Call)
    requires v.initialized && v.enabled == ALL
    requires c.BeginRendering? ==> !i.insidePass && !i.insideRendering
    ensures Warnings(NotedRecording(v, i, c)) == Warnings(v) +
              match c
              case Draw(_, vertexCount, instanceCount) =>
                One(i.vertexBuffers == []) + One(vertexCount == 0) + One(instanceCount == 0)
              case DrawIndexed(_, indexCount, _) => One(i.vertexBuffers == []) + One(indexCount == 0)
              case BeginRendering(_, hasAttachments) => One(!hasAttachments)
              case _ => 0
  {
    match c
    case End(_) =>
      CheckWarns(v, i.insidePass, Message(ERROR, RENDER_PASS));
      CheckWarns(Check(v, i.insidePass, Message(ERROR, RENDER_PASS)), i.insideRendering, Message(ERROR, RENDER_PASS));
    case Draw(_, vertexCount, instanceCount) =>
      var checked := DrawChecks(v, i, false);
      DrawWarns(v, i, false);
      CheckWarns(checked, vertexCount == 0, Message(WARNING, COMMAND_LIST));
      CheckWarns(Check(checked, vertexCount == 0, Message(WARNING, COMMAND_LIST)), instanceCount == 0,
                 Message(WARNING, COMMAND_LIST));
    case DrawIndexed(_, indexCount, _) =>
      DrawWarns(v, i, true);
      CheckWarns(DrawChecks(v, i, true), indexCount == 0, Message(WARNING, COMMAND_LIST));
    case BeginPass(_, pass) =>
      CheckWarns(v, true, Message(ERROR, RENDER_PASS));
      CheckWarns(v, pass == 0, Message(ERROR, HANDLE));
    case EndPass(_) => CheckWarns(v, !i.insidePass, Message(ERROR, RENDER_PASS));
    case BeginRendering(_, hasAttachments) => CheckWarns(v, !hasAttachments, Message(WARNING, RENDER_PASS));
    case EndRendering(_) => CheckWarns(v, !i.insideRendering, Message(ERROR, RENDER_PASS));
    case SetVertexBuffer(_, b) => CheckWarns(v, b in v.buffers && !v.buffers[b].desc.vertex, Message(ERROR, RESOURCE));
    case SetIndexBuffer(_, b) => CheckWarns(v, b in v.buffers && !v.buffers[b].desc.index, Message(ERROR, RESOURCE));
    case _ =>
  }

  lemma CommandWarns(v: Layer, es: seq<Event>, c: Call)
    requires Agrees(v, es, ALL) && LegalEvent(es, Command(c))
    ensures Warnings(After(v, c)) == Warnings(v) + Deserved(Registered(es), History(es, c.list), Command(c))
  {
    var i, h := v.lists[c.list], History(es, c.list);
    TracksFlags(h, i);
    match c
    case Begin(_) => CheckWarns(v, i.state.RECORDING? || i.state.SUBMITTED?, Message(ERROR, STATE));
    case Submit(_) => CheckWarns(v, !i.state.EXECUTABLE?, Message(ERROR, STATE));
    case Reset(_) =>
    case _ => RecordingWarns(v, i, c);
  }

  lemma EventWarns(v: Layer, es: seq<Event>, e: Event)
    requires Agrees(v, es, ALL) && LegalEvent(es, e)
    ensures Warnings(AfterEvent(v, e)) == Warnings(v) + Deserved(Registered(es), History(es, About(e)), e)
  {
    match e
    case Command(c) => CommandWarns(v, es, c);
    case UnregisterBuffer(b) => CheckWarns(v, v.buffers[b].mapped, Message(ERROR, RESOURCE));
    case UnmapBuffer(b) => CheckWarns(v, true, Message(WARNING, MEMORY));
    case UnregisterList(l) =>
      CheckWarns(v, v.lists[l].insidePass || v.lists[l].insideRendering, Message(ERROR, COMMAND_LIST));
    case _ =>
  }

  /** With every category on, a legal run from `Initialize` is warned exactly as often as it deserves: for each draw on a
      list without a vertex buffer set since its begin, each empty draw, each rendering without attachments and each
      unmapping of a buffer that is not mapped. */
  lemma {:induction false} WarnsExactly(es: seq<Event>)
    requires Fixed(es) && AllLegal(es)
    ensures Warnings(Run(Initialized(ALL), es)) == AllDeserved(es)
  {
    if es != [] {
      var n := |es| - 1;
      assert es == es[..n] + [es[n]];
      AllLegalSnoc(es[..n], es[n]);
      WarnsExactly(es[..n]);
      RunAgrees(ALL, es[..n]);
      EventWarns(Run(Initialized(ALL), es[..n]), es[..n], es[n]);
    }
  }
}
