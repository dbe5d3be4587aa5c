/** The validation layer, as far as it follows command lists and what they use: registration, buffer
    mapping, switching of categories, and a state machine per command list. A call is one atomic
    step; message texts, frame numbers and fields nothing reads are left out. Handle 0 is the
    invalid one. */
module CommandValidator {
  import opened Common

  datatype Severity = WARNING | ERROR

  /** The categories the calls below use. */
  datatype Category = HANDLE | STATE | RESOURCE | MEMORY | PIPELINE | COMMAND_LIST | RENDER_PASS

  const ALL: set<Category> := {HANDLE, STATE, RESOURCE, MEMORY, PIPELINE, COMMAND_LIST, RENDER_PASS}

  datatype Message = Message(severity: Severity, category: Category)

  datatype ListState = INITIAL | RECORDING | EXECUTABLE | SUBMITTED

  datatype Info = Info(state: ListState, insidePass: bool, insideRendering: bool, pipeline: nat,
                       vertexBuffers: seq<nat>, indexBuffer: nat)

  const NEW_LIST := Info(INITIAL, false, false, 0, [], 0)

  /** The usage flags and memory type of a buffer that some check reads. */
  datatype BufferDesc = BufferDesc(vertex: bool, index: bool, gpuOnly: bool)

  datatype Buffer = Buffer(desc: BufferDesc, mapped: bool)

  datatype Call =
    | Begin(list: nat)
    | End(list: nat)
    | Submit(list: nat)
    | Reset(list: nat)
    | Draw(list: nat, vertexCount: nat, instanceCount: nat)
    | DrawIndexed(list: nat, indexCount: nat, instanceCount: nat)
    | BeginPass(list: nat, pass: nat)
    | EndPass(list: nat)
    | BeginRendering(list: nat, hasAttachments: bool)
    | EndRendering(list: nat)
    | SetPipeline(list: nat, pipeline: nat)
    | SetVertexBuffer(list: nat, buffer: nat)
    | SetIndexBuffer(list: nat, buffer: nat)

  datatype Event =
    | Command(call: Call)
    | RegisterBuffer(buffer: nat, desc: BufferDesc)
    | UnregisterBuffer(buffer: nat)
    | MapBuffer(buffer: nat)
    | UnmapBuffer(buffer: nat)
    | RegisterPipeline(pipeline: nat)
    | UnregisterPipeline(pipeline: nat)
    | RegisterList(list: nat)
    | UnregisterList(list: nat)
    | Enable(category: Category)
    | Disable(category: Category)

  // ---------------------------------------------------------------- what each call does

  datatype Layer = Layer(initialized: bool, enabled: set<Category>, lists: map<nat, Info>, buffers: map<nat, Buffer>,
                         pipelines: set<nat>, messages: seq<Message>, errorCount: nat, warningCount: nat)

  /** `w` differs from `v` in messages and counters only. */
  predicate SameButMessages(v: Layer, w: Layer) {
    w.(messages := v.messages, errorCount := v.errorCount, warningCount := v.warningCount) == v
  }

  function Count(messages: seq<Message>, severity: Severity): nat {
    if messages == [] then 0
    else
      Count(messages[..|messages| - 1], severity) + if messages[|messages| - 1].severity == severity then 1 else 0
  }

  /** The 32-bit counters agree with what was reported. */
  predicate Counted(v: Layer) {
    && v.errorCount == Count(v.messages, ERROR) % TWO_32
    && v.warningCount == Count(v.messages, WARNING) % TWO_32
  }

  lemma CountNext(messages: seq<Message>, m: Message, severity: Severity, counter: nat)
    ensures counter == Count(messages, severity) % TWO_32 ==>
              Count(messages + [m], severity) % TWO_32 == if m.severity == severity then (counter + 1) % TWO_32 else counter
  {
    assert (messages + [m])[..|messages|] == messages;
  }

  function Reported(v: Layer, m: Message): (w: Layer)
    ensures SameButMessages(v, w)
    ensures Counted(v) ==> Counted(w)
  {
    CountNext(v.messages, m, ERROR, v.errorCount);
    CountNext(v.messages, m, WARNING, v.warningCount);
    if !v.initialized || m.category !in v.enabled then v
    else if m.severity.ERROR? then
      v.(messages := v.messages + [m], errorCount := (v.errorCount + 1) % TWO_32)
    else
      v.(messages := v.messages + [m], warningCount := (v.warningCount + 1) % TWO_32)
  }

  function Check(v: Layer, bad: bool, m: Message): (w: Layer)
    ensures SameButMessages(v, w)
    ensures Counted(v) ==> Counted(w)
  {
    if bad then Reported(v, m) else v
  }

  function Fails(v: Layer, category: Category): Layer {
    Reported(v, Message(ERROR, category))
  }

  /** The category without which a call is ignored. */
  function Gate(c: Call): Category {
    match c
    case Begin(_) | End(_) | Submit(_) | Reset(_) | Draw(_, _, _) | DrawIndexed(_, _, _) => COMMAND_LIST
    case BeginPass(_, _) | EndPass(_) | BeginRendering(_, _) | EndRendering(_) => RENDER_PASS
    case SetPipeline(_, _) => PIPELINE
    case SetVertexBuffer(_, _) | SetIndexBuffer(_, _) => STATE
  }

  /** Whether the handle a call binds is one the layer knows. */
  predicate Known(v: Layer, c: Call) {
    match c
    case SetPipeline(_, p) => p != 0 && p in v.pipelines
    case SetVertexBuffer(_, b) => b != 0 && b in v.buffers
    case SetIndexBuffer(_, b) => b != 0 && b in v.buffers
    case _ => true
  }

  function After(v: Layer, c: Call): (w: Layer)
    ensures Counted(v) ==> Counted(w)
  {
    if Gate(c) !in v.enabled then v
    else if HANDLE in v.enabled && !Known(v, c) then Fails(v, HANDLE)
    else if c.list !in v.lists then Fails(v, COMMAND_LIST)
    else
      var i := v.lists[c.list];
      Noted(v, i, c).(lists := v.lists[c.list := NextInfo(i, c)])
  }

  /** What is reported about a call on a known list. */
  function Noted(v: Layer, i: Info, c: Call): (w: Layer)
    ensures SameButMessages(v, w)
    ensures Counted(v) ==> Counted(w)
  {
    match c
    case Begin(_) => Check(v, i.state.RECORDING? || i.state.SUBMITTED?, Message(ERROR, STATE))
    case Submit(_) => Check(v, !i.state.EXECUTABLE?, Message(ERROR, STATE))
    case Reset(_) => v
    case _ => if !i.state.RECORDING? then Fails(v, STATE) else NotedRecording(v, i, c)
  }

  function NotedRecording(v: Layer, i: Info, c: Call): (w: Layer)
    ensures SameButMessages(v, w)
    ensures Counted(v) ==> Counted(w)
  {
    match c
    case End(_) =>
      Check(Check(v, i.insidePass, Message(ERROR, RENDER_PASS)), i.insideRendering, Message(ERROR, RENDER_PASS))
    case Draw(_, vertexCount, instanceCount) =>
      Check(Check(DrawChecks(v, i, false), vertexCount == 0, Message(WARNING, COMMAND_LIST)),
            instanceCount == 0, Message(WARNING, COMMAND_LIST))
    case DrawIndexed(_, indexCount, _) =>
      Check(DrawChecks(v, i, true), indexCount == 0, Message(WARNING, COMMAND_LIST))
    case BeginPass(_, pass) =>
      if i.insidePass || i.insideRendering then Fails(v, RENDER_PASS)
      else Check(v, pass == 0, Message(ERROR, HANDLE))
    case EndPass(_) => Check(v, !i.insidePass, Message(ERROR, RENDER_PASS))
    case BeginRendering(_, hasAttachments) =>
      if i.insidePass || i.insideRendering then Fails(v, RENDER_PASS)
      else Check(v, !hasAttachments, Message(WARNING, RENDER_PASS))
    case EndRendering(_) => Check(v, !i.insideRendering, Message(ERROR, RENDER_PASS))
    case SetVertexBuffer(_, b) => Check(v, b in v.buffers && !v.buffers[b].desc.vertex, Message(ERROR, RESOURCE))
    case SetIndexBuffer(_, b) => Check(v, b in v.buffers && !v.buffers[b].desc.index, Message(ERROR, RESOURCE))
    case _ => v
  }

  /** What becomes of the list: a call that is refused leaves it alone, but ending inside a bracket
      and binding a buffer of the wrong usage are only reported. */
  function NextInfo(i: Info, c: Call): Info {
    match c
    case Begin(_) => if i.state.RECORDING? || i.state.SUBMITTED? then i else NEW_LIST.(state := RECORDING)
    case Submit(_) => if i.state.EXECUTABLE? then i.(state := SUBMITTED) else i
    case Reset(_) => NEW_LIST
    case _ =>
      if !i.state.RECORDING? then i
      else match c
        case End(_) => i.(state := EXECUTABLE)
        case BeginPass(_, pass) => if i.insidePass || i.insideRendering || pass == 0 then i else i.(insidePass := true)
        case EndPass(_) => i.(insidePass := false)
        case BeginRendering(_, _) => if i.insidePass || i.insideRendering then i else i.(insideRendering := true)
        case EndRendering(_) => i.(insideRendering := false)
        case SetPipeline(_, p) => i.(pipeline := p)
        case SetVertexBuffer(_, b) => i.(vertexBuffers := i.vertexBuffers + [b])
        case SetIndexBuffer(_, b) => i.(indexBuffer := b)
        case _ => i
  }

  function DrawChecks(v: Layer, i: Info, indexed: bool): (w: Layer)
    ensures SameButMessages(v, w)
    ensures Counted(v) ==> Counted(w)
  {
    var bracket := Check(v, !i.insidePass && !i.insideRendering, Message(ERROR, RENDER_PASS));
    var pipeline := Check(bracket, i.pipeline == 0, Message(ERROR, PIPELINE));
    var index := Check(pipeline, indexed && i.indexBuffer == 0, Message(ERROR, STATE));
    Check(index, i.vertexBuffers == [], Message(WARNING, STATE))
  }

  function Initialized(categories: set<Category>): Layer {
    Layer(true, categories, map[], map[], {}, [], 0, 0)
  }

  /** Every table has its own category, without which nothing is recorded in it. */
  function AfterEvent(v: Layer, e: Event): (w: Layer)
    ensures Counted(v) ==> Counted(w)
  {
    match e
    case Command(c) => After(v, c)
    case RegisterBuffer(b, desc) =>
      if RESOURCE in v.enabled then v.(buffers := v.buffers[b := Buffer(desc, false)]) else v
    case UnregisterBuffer(b) => if RESOURCE in v.enabled then BufferGone(v, b) else v
    case MapBuffer(b) => if MEMORY in v.enabled then BufferMapped(v, b) else v
    case UnmapBuffer(b) => if MEMORY in v.enabled then BufferUnmapped(v, b) else v
    case RegisterPipeline(p) => if PIPELINE in v.enabled then v.(pipelines := v.pipelines + {p}) else v
    case UnregisterPipeline(p) =>
      if PIPELINE !in v.enabled then v
      else if p !in v.pipelines then Fails(v, HANDLE)
      else v.(pipelines := v.pipelines - {p})
    case RegisterList(l) => if COMMAND_LIST in v.enabled then v.(lists := v.lists[l := NEW_LIST]) else v
    case UnregisterList(l) => if COMMAND_LIST in v.enabled then ListGone(v, l) else v
    case Enable(category) => v.(enabled := v.enabled + {category})
    case Disable(category) => v.(enabled := v.enabled - {category})
  }

  function BufferGone(v: Layer, b: nat): (w: Layer)
    ensures Counted(v) ==> Counted(w)
  {
    if b !in v.buffers then Fails(v, HANDLE)
    else Check(v, v.buffers[b].mapped, Message(ERROR, RESOURCE)).(buffers := v.buffers - {b})
  }

  function BufferMapped(v: Layer, b: nat): (w: Layer)
    ensures Counted(v) ==> Counted(w)
  {
    if b !in v.buffers then Fails(v, HANDLE)
    else if v.buffers[b].mapped || v.buffers[b].desc.gpuOnly then Fails(v, MEMORY)
    else v.(buffers := v.buffers[b := Buffer(v.buffers[b].desc, true)])
  }

  function BufferUnmapped(v: Layer, b: nat): (w: Layer)
    ensures Counted(v) ==> Counted(w)
  {
    if b !in v.buffers then Fails(v, HANDLE)
    else if !v.buffers[b].mapped then Reported(v, Message(WARNING, MEMORY))
    else v.(buffers := v.buffers[b := Buffer(v.buffers[b].desc, false)])
  }

  function ListGone(v: Layer, l: nat): (w: Layer)
    ensures Counted(v) ==> Counted(w)
  {
    if l !in v.lists then Fails(v, COMMAND_LIST)
    else
      Check(v, v.lists[l].insidePass || v.lists[l].insideRendering, Message(ERROR, COMMAND_LIST))
        .(lists := v.lists - {l})
  }

  // ---------------------------------------------------------------- the layer

  class ValidationLayer {
    var initialized: bool
    var enabled: set<Category>
    var commandLists: map<nat, Info>
    var buffers: map<nat, Buffer>
    var pipelines: set<nat>
    var messages: seq<Message>
    var errorCount: nat
    var warningCount: nat

    ghost function View(): Layer
      reads this
    {
      Layer(initialized, enabled, commandLists, buffers, pipelines, messages, errorCount, warningCount)
    }

    constructor ()
      ensures View() == Initialized(ALL).(initialized := false)
    {
      initialized, enabled := false, ALL;
      commandLists, buffers, pipelines := map[], map[], {};
      messages, errorCount, warningCount := [], 0, 0;
    }

    method Initialize(categories: set<Category>)
      modifies this
      ensures View() == if old(initialized) then old(View())
                        else old(View()).(initialized := true, enabled := categories, errorCount := 0, warningCount := 0)
    {
      if initialized {
        return;
      }
      enabled := categories;
      initialized := true;
      errorCount, warningCount := 0, 0;
    }

    method EnableCategory(category: Category)
      modifies this`enabled
      ensures View() == AfterEvent(old(View()), Enable(category))
    {
      enabled := enabled + {category};
    }

    method DisableCategory(category: Category)
      modifies this`enabled
      ensures View() == AfterEvent(old(View()), Disable(category))
    {
      enabled := enabled - {category};
    }

    method Report(severity: Severity, category: Category)
      modifies this
      ensures View() == Reported(old(View()), Message(severity, category))
    {
      if !initialized || category !in enabled {
        return;
      }
      messages := messages + [Message(severity, category)];
      if severity.ERROR? {
        errorCount := (errorCount + 1) % TWO_32;
      } else {
        warningCount := (warningCount + 1) % TWO_32;
      }
    }

    method ReportIf(bad: bool, severity: Severity, category: Category)
      modifies this
      ensures View() == Check(old(View()), bad, Message(severity, category))
    {
      if bad {
        Report(severity, category);
      }
    }

    method RegisterBuffer(buffer: nat, desc: BufferDesc)
      modifies this`buffers
      ensures View() == AfterEvent(old(View()), Event.RegisterBuffer(buffer, desc))
    {
      if RESOURCE !in enabled {
        return;
      }
      buffers := buffers[buffer := Buffer(desc, false)];
    }

    method UnregisterBuffer(buffer: nat)
      modifies this
      ensures View() == AfterEvent(old(View()), Event.UnregisterBuffer(buffer))
    {
      if RESOURCE !in enabled {
        return;
      }
      if buffer !in buffers {
        Report(ERROR, HANDLE);
        return;
      }
      if buffers[buffer].mapped {
        Report(ERROR, RESOURCE);
      }
      buffers := buffers - {buffer};
    }

    method OnBufferMap(buffer: nat)
      modifies this
      ensures View() == AfterEvent(old(View()), MapBuffer(buffer))
    {
      if MEMORY !in enabled {
        return;
      }
      if buffer !in buffers {
        Report(ERROR, HANDLE);
        return;
      }
      if buffers[buffer].mapped {
        Report(ERROR, MEMORY);
        return;
      }
      if buffers[buffer].desc.gpuOnly {
        Report(ERROR, MEMORY);
        return;
      }
      buffers := buffers[buffer := buffers[buffer].(mapped := true)];
    }

    method OnBufferUnmap(buffer: nat)
      modifies this
      ensures View() == AfterEvent(old(View()), UnmapBuffer(buffer))
    {
      if MEMORY !in enabled {
        return;
      }
      if buffer !in buffers {
        Report(ERROR, HANDLE);
        return;
      }
      if !buffers[buffer].mapped {
        Report(WARNING, MEMORY);
        return;
      }
      buffers := buffers[buffer := buffers[buffer].(mapped := false)];
    }

    method RegisterPipeline(pipeline: nat)
      modifies this`pipelines
      ensures View() == AfterEvent(old(View()), Event.RegisterPipeline(pipeline))
    {
      if PIPELINE !in enabled {
        return;
      }
      pipelines := pipelines + {pipeline};
    }

    method UnregisterPipeline(pipeline: nat)
      modifies this
      ensures View() == AfterEvent(old(View()), Event.UnregisterPipeline(pipeline))
    {
      if PIPELINE !in enabled {
        return;
      }
      if pipeline !in pipelines {
        Report(ERROR, HANDLE);
        return;
      }
      pipelines := pipelines - {pipeline};
    }

    method RegisterCommandList(list: nat)
      modifies this`commandLists
      ensures View() == AfterEvent(old(View()), RegisterList(list))
    {
      if COMMAND_LIST !in enabled {
        return;
      }
      commandLists := commandLists[list := Info(INITIAL, false, false, 0, [], 0)];
    }

    method UnregisterCommandList(list: nat)
      modifies this
      ensures View() == AfterEvent(old(View()), UnregisterList(list))
    {
      if COMMAND_LIST !in enabled {
        return;
      }
      if list !in commandLists {
        Report(ERROR, COMMAND_LIST);
        return;
      }
      if commandLists[list].insidePass || commandLists[list].insideRendering {
        Report(ERROR, COMMAND_LIST);
      }
      commandLists := commandLists - {list};
    }

    method GetCommandListInfo(list: nat) returns (info: Option<Info>)
      modifies this
      ensures info.Some? <==> list in old(commandLists)
      ensures info.Some? ==> info.value == old(commandLists)[list] && View() == old(View())
      ensures info.None? ==> View() == Fails(old(View()), COMMAND_LIST)
      ensures info.Some? ==> commandLists[list := info.value] == commandLists
    {
      if list !in commandLists {
        Report(ERROR, COMMAND_LIST);
        return None;
      }
      return Some(commandLists[list]);
    }

    method ValidateBuffer(buffer: nat) returns (ok: bool)
      modifies this
      ensures ok <==> HANDLE !in old(enabled) || (buffer != 0 && buffer in old(buffers))
      ensures View() == if ok then old(View()) else Fails(old(View()), HANDLE)
    {
      if HANDLE !in enabled {
        return true;
      }
      if buffer == 0 || buffer !in buffers {
        Report(ERROR, HANDLE);
        return false;
      }
      return true;
    }

    method ValidatePipeline(pipeline: nat) returns (ok: bool)
      modifies this
      ensures ok <==> HANDLE !in old(enabled) || (pipeline != 0 && pipeline in old(pipelines))
      ensures View() == if ok then old(View()) else Fails(old(View()), HANDLE)
    {
      if HANDLE !in enabled {
        return true;
      }
      if pipeline == 0 || pipeline !in pipelines {
        Report(ERROR, HANDLE);
        return false;
      }
      return true;
    }

    method OnCommandListBegin(list: nat)
      modifies this
      ensures View() == After(old(View()), Begin(list))
    {
      if COMMAND_LIST !in enabled {
        return;
      }
      var info := GetCommandListInfo(list);
      if info.None? {
        return;
      }
      if info.value.state == RECORDING {
        Report(ERROR, STATE);
        return;
      }
      if info.value.state == SUBMITTED {
        Report(ERROR, STATE);
        return;
      }
      commandLists := commandLists[list := Info(RECORDING, false, false, 0, [], 0)];
    }

    method OnCommandListEnd(list: nat)
      modifies this
      ensures View() == After(old(View()), End(list))
    {
      if COMMAND_LIST !in enabled {
        return;
      }
      var info := GetCommandListInfo(list);
      if info.None? {
        return;
      }
      if info.value.state != RECORDING {
        Report(ERROR, STATE);
        return;
      }
      if info.value.insidePass {
        Report(ERROR, RENDER_PASS);
      }
      if info.value.insideRendering {
        Report(ERROR, RENDER_PASS);
      }
      commandLists := commandLists[list := info.value.(state := EXECUTABLE)];
    }

    method OnCommandListSubmit(list: nat)
      modifies this
      ensures View() == After(old(View()), Submit(list))
    {
      if COMMAND_LIST !in enabled {
        return;
      }
      var info := GetCommandListInfo(list);
      if info.None? {
        return;
      }
      if info.value.state != EXECUTABLE {
        Report(ERROR, STATE);
        return;
      }
      commandLists := commandLists[list := info.value.(state := SUBMITTED)];
    }

    method OnCommandListReset(list: nat)
      modifies this
      ensures View() == After(old(View()), Reset(list))
    {
      if COMMAND_LIST !in enabled {
        return;
      }
      var info := GetCommandListInfo(list);
      if info.None? {
        return;
      }
      commandLists := commandLists[list := Info(INITIAL, false, false, 0, [], 0)];
    }

    method ValidateDrawCall(list: nat, vertexCount: nat, instanceCount: nat)
      modifies this
      ensures View() == After(old(View()), Draw(list, vertexCount, instanceCount))
    {
      if COMMAND_LIST !in enabled {
        return;
      }
      var info := GetCommandListInfo(list);
      if info.None? {
        return;
      }
      if info.value.state != RECORDING {
        Report(ERROR, STATE);
        return;
      }
      ReportIf(!info.value.insidePass && !info.value.insideRendering, ERROR, RENDER_PASS);
      ReportIf(info.value.pipeline == 0, ERROR, PIPELINE);
      ReportIf(info.value.vertexBuffers == [], WARNING, STATE);
      ReportIf(vertexCount == 0, WARNING, COMMAND_LIST);
      ReportIf(instanceCount == 0, WARNING, COMMAND_LIST);
    }

    method ValidateDrawIndexed(list: nat, indexCount: nat, instanceCount: nat)
      modifies this
      ensures View() == After(old(View()), DrawIndexed(list, indexCount, instanceCount))
    {
      if COMMAND_LIST !in enabled {
        return;
      }
      var info := GetCommandListInfo(list);
      if info.None? {
        return;
      }
      if info.value.state != RECORDING {
        Report(ERROR, STATE);
        return;
      }
      ReportIf(!info.value.insidePass && !info.value.insideRendering, ERROR, RENDER_PASS);
      ReportIf(info.value.pipeline == 0, ERROR, PIPELINE);
      ReportIf(info.value.indexBuffer == 0, ERROR, STATE);
      ReportIf(info.value.vertexBuffers == [], WARNING, STATE);
      ReportIf(indexCount == 0, WARNING, COMMAND_LIST);
    }

    method ValidateBeginRenderPass(list: nat, pass: nat)
      modifies this
      ensures View() == After(old(View()), BeginPass(list, pass))
    {
      if RENDER_PASS !in enabled {
        return;
      }
      var info := GetCommandListInfo(list);
      if info.None? {
        return;
      }
      if info.value.state != RECORDING {
        Report(ERROR, STATE);
        return;
      }
      if info.value.insidePass {
        Report(ERROR, RENDER_PASS);
        return;
      }
      if info.value.insideRendering {
        Report(ERROR, RENDER_PASS);
        return;
      }
      if pass == 0 {
        Report(ERROR, HANDLE);
        return;
      }
      commandLists := commandLists[list := info.value.(insidePass := true)];
    }

    method ValidateEndRenderPass(list: nat)
      modifies this
      ensures View() == After(old(View()), EndPass(list))
    {
      if RENDER_PASS !in enabled {
        return;
      }
      var info := GetCommandListInfo(list);
      if info.None? {
        return;
      }
      if info.value.state != RECORDING {
        Report(ERROR, STATE);
        return;
      }
      if !info.value.insidePass {
        Report(ERROR, RENDER_PASS);
        return;
      }
      commandLists := commandLists[list := info.value.(insidePass := false)];
    }

    method ValidateBeginRendering(list: nat, hasAttachments: bool)
      modifies this
      ensures View() == After(old(View()), BeginRendering(list, hasAttachments))
    {
      if RENDER_PASS !in enabled {
        return;
      }
      var info := GetCommandListInfo(list);
      if info.None? {
        return;
      }
      if info.value.state != RECORDING {
        Report(ERROR, STATE);
        return;
      }
      if info.value.insideRendering {
        Report(ERROR, RENDER_PASS);
        return;
      }
      if info.value.insidePass {
        Report(ERROR, RENDER_PASS);
        return;
      }
      if !hasAttachments {
        Report(WARNING, RENDER_PASS);
      }
      commandLists := commandLists[list := info.value.(insideRendering := true)];
    }

    method ValidateEndRendering(list: nat)
      modifies this
      ensures View() == After(old(View()), EndRendering(list))
    {
      if RENDER_PASS !in enabled {
        return;
      }
      var info := GetCommandListInfo(list);
      if info.None? {
        return;
      }
      if info.value.state != RECORDING {
        Report(ERROR, STATE);
        return;
      }
      if !info.value.insideRendering {
        Report(ERROR, RENDER_PASS);
        return;
      }
      commandLists := commandLists[list := info.value.(insideRendering := false)];
    }

    method ValidateSetPipeline(list: nat, pipeline: nat)
      modifies this
      ensures View() == After(old(View()), SetPipeline(list, pipeline))
    {
      if PIPELINE !in enabled {
        return;
      }
      var ok := ValidatePipeline(pipeline);
      if !ok {
        return;
      }
      var info := GetCommandListInfo(list);
      if info.None? {
        return;
      }
      if info.value.state != RECORDING {
        Report(ERROR, STATE);
        return;
      }
      commandLists := commandLists[list := info.value.(pipeline := pipeline)];
    }

    method ValidateSetVertexBuffer(list: nat, buffer: nat)
      modifies this
      ensures View() == After(old(View()), SetVertexBuffer(list, buffer))
    {
      if STATE !in enabled {
        return;
      }
      var ok := ValidateBuffer(buffer);
      if !ok {
        return;
      }
      var info := GetCommandListInfo(list);
      if info.None? {
        return;
      }
      if info.value.state != RECORDING {
        Report(ERROR, STATE);
        return;
      }
      if buffer in buffers && !buffers[buffer].desc.vertex {
        Report(ERROR, RESOURCE);
      }
      commandLists := commandLists[list := info.value.(vertexBuffers := info.value.vertexBuffers + [buffer])];
    }

    method ValidateSetIndexBuffer(list: nat, buffer: nat)
      modifies this
      ensures View() == After(old(View()), SetIndexBuffer(list, buffer))
    {
      if STATE !in enabled {
        return;
      }
      var ok := ValidateBuffer(buffer);
      if !ok {
        return;
      }
      var info := GetCommandListInfo(list);
      if info.None? {
        return;
      }
      if info.value.state != RECORDING {
        Report(ERROR, STATE);
        return;
      }
      if buffer in buffers && !buffers[buffer].desc.index {
        Report(ERROR, RESOURCE);
      }
      commandLists := commandLists[list := info.value.(indexBuffer := buffer)];
    }
  }
}
