/** Switching validation categories in the middle of a run: which ones a client may switch without having
    legal calls reported. */
module CommandSwitching {
  import opened CommandValidator
  import opened CommandTraces

  /** Once one of these is off, no check that is still made reads what was recorded under it. */
  const SAFE: set<Category> := {HANDLE, STATE, PIPELINE}

  /** Only categories of `down` are switched off, and only those of `up` on. */
  predicate SwitchesIn(es: seq<Event>, down: set<Category>, up: set<Category>) {
    forall i :: 0 <= i < |es| ==> SwitchIn(es[i], down, up)
  }

  predicate SwitchIn(e: Event, down: set<Category>, up: set<Category>) {
    match e
    case Disable(c) => c in down
    case Enable(c) => c in up
    case _ => true
  }

  /** What may be switched off, and what may be switched on again. */
  predicate Harmless(down: set<Category>, up: set<Category>) {
    down <= SAFE && down * up <= {HANDLE}
  }

  // ---------------------------------------------------------------- harmless switches

  /** The tables are in step with the trace, and only categories of `down` are off. */
  ghost predicate Follows(v: Layer, es: seq<Event>, down: set<Category>) {
    Agrees(v, es, v.enabled) && NoError(v) && forall c: Category :: c !in down ==> c in v.enabled
  }

  lemma DisableAgrees(v: Layer, es: seq<Event>, c: Category)
    requires Agrees(v, es, v.enabled) && c in SAFE
    ensures Agrees(AfterEvent(v, Disable(c)), es + [Disable(c)], v.enabled - {c})
  {
    Snoc(es, Disable(c));
    forall l | l in v.lists ensures Tracks(History(es + [Disable(c)], l), v.lists[l], v.enabled - {c}) {
      assert Tracks(History(es, l), v.lists[l], v.enabled);
    }
  }

  lemma EnableAgrees(v: Layer, es: seq<Event>, c: Category)
    requires Agrees(v, es, v.enabled) && (c == HANDLE || c in v.enabled)
    ensures Agrees(AfterEvent(v, Enable(c)), es + [Enable(c)], v.enabled + {c})
  {
    Snoc(es, Enable(c));
    forall l | l in v.lists ensures Tracks(History(es + [Enable(c)], l), v.lists[l], v.enabled + {c}) {
      assert Tracks(History(es, l), v.lists[l], v.enabled);
    }
  }

  lemma StepFollows(v: Layer, es: seq<Event>, e: Event, down: set<Category>, up: set<Category>)
    requires Follows(v, es, down) && Harmless(down, up) && SwitchIn(e, down, up) && LegalEvent(es, e)
    ensures Follows(AfterEvent(v, e), es + [e], down)
  {
    assert RESOURCE in v.enabled;
    LegalIsSilent(v, es, e, v.enabled);
    match e
    case Disable(c) => DisableAgrees(v, es, c);
    case Enable(c) =>
      assert c in down ==> c in down * up;
      EnableAgrees(v, es, c);
    case _ =>
      EventKeepsConfig(v, e);
      EventAgrees(v, es, e, v.enabled);
  }

  lemma {:induction false} RunFollows(es: seq<Event>, down: set<Category>, up: set<Category>)
    requires SwitchesIn(es, down, up) && AllLegal(es) && Harmless(down, up)
    ensures Follows(Run(Initialized(ALL), es), es, down)
  {
    if es == [] {
      StartFollows(down);
    } else {
      var n := |es| - 1;
      assert es == es[..n] + [es[n]];
      AllLegalSnoc(es[..n], es[n]);
      RunFollows(es[..n], down, up);
      StepFollows(Run(Initialized(ALL), es[..n]), es[..n], es[n], down, up);
    }
  }

  lemma StartFollows(down: set<Category>)
    ensures Follows(Initialized(ALL), [], down)
  {
    forall c: Category ensures c in ALL {
      match c
      case HANDLE | STATE | RESOURCE | MEMORY | PIPELINE | COMMAND_LIST | RENDER_PASS =>
    }
  }

  // ---------------------------------------------------------------- following a concrete run

  /** The layer's switches and tables, what the caller has registered, and the history of list 1. */
  datatype Snap = Snap(on: set<Category>, lists: map<nat, Info>, buffers: map<nat, Buffer>, pipelines: set<nat>,
                       reg: Registry, h: seq<Call>)
  {
    /** The layer, without its messages. */
    function Bare(): Layer {
      Layer(true, on, lists, buffers, pipelines, [], 0, 0)
    }
  }

  function SnapNext(p: Snap, e: Event): Snap {
    var w := AfterEvent(p.Bare(), e);
    Snap(w.enabled, w.lists, w.buffers, w.pipelines, RegisteredNext(p.reg, e), HistoryAfter(p.h, e, 1))
  }

  const START := Snap(ALL, map[], map[], {}, Registry({}, map[], {}), [])

  /** `es` is a legal run that ends like `p`, with these switches only. */
  ghost predicate At(es: seq<Event>, p: Snap, down: set<Category>, up: set<Category>) {
    && SwitchesIn(es, down, up) && AllLegal(es) && Registered(es) == p.reg && History(es, 1) == p.h
    && SameButMessages(p.Bare(), Run(Initialized(ALL), es))
  }

  lemma ListsAfter(v: Layer, c: Call)
    ensures After(v, c).lists ==
              if Gate(c) in v.enabled && (HANDLE in v.enabled ==> Known(v, c)) && c.list in v.lists
              then v.lists[c.list := NextInfo(v.lists[c.list], c)] else v.lists
  {
  }

  /** Tables and switches change alike whatever was reported before. */
  lemma MessagesDoNotMatter(v: Layer, w: Layer, e: Event)
    requires SameButMessages(v, w)
    ensures SameButMessages(AfterEvent(v, e), AfterEvent(w, e))
  {
    match e
    case Command(c) =>
      AfterSame(v, c);
      AfterSame(w, c);
      ListsAfter(v, c);
      ListsAfter(w, c);
    case _ => TablesAlike(v, w, e);
  }

  lemma TablesAlike(v: Layer, w: Layer, e: Event)
    requires SameButMessages(v, w) && !e.Command?
    ensures SameButMessages(AfterEvent(v, e), AfterEvent(w, e))
  {
  }

  /** What may come next. */
  ghost predicate Allowed(p: Snap, e: Event, down: set<Category>, up: set<Category>) {
    LegalNext(p.reg, p.h, e) && Concerns(e, 1) && SwitchIn(e, down, up)
  }

  lemma AtNext(es: seq<Event>, p: Snap, e: Event, down: set<Category>, up: set<Category>)
    requires At(es, p, down, up) && Allowed(p, e, down, up)
    ensures At(es + [e], SnapNext(p, e), down, up)
  {
    Snoc(es, e);
    AllLegalSnoc(es, e);
    RunNext(Initialized(ALL), es, e);
    MessagesDoNotMatter(p.Bare(), Run(Initialized(ALL), es), e);
  }

  /** A legal run with these switches that is reported. */
  ghost predicate FalseAlarmOf(es: seq<Event>, down: set<Category>, up: set<Category>) {
    SwitchesIn(es, down, up) && AllLegal(es) && !NoError(Run(Initialized(ALL), es))
  }

  /** The layer reports the command: an unknown handle, or a check on the list. */
  predicate Refuses(p: Snap, c: Call) {
    && Gate(c) in p.on
    && (|| (HANDLE in p.on && !Known(p.Bare(), c))
        || (c.list in p.lists && !Accepts(p.Bare(), p.lists[c.list], c)))
  }

  lemma CommandAlarm(es: seq<Event>, p: Snap, c: Call, down: set<Category>, up: set<Category>)
    returns (es': seq<Event>)
    requires At(es, p, down, up) && Legal(p.reg, p.h, c) && c.list == 1 && Refuses(p, c)
    ensures FalseAlarmOf(es', down, up)
  {
    es' := es + [Command(c)];
    AllLegalSnoc(es, Command(c));
    RunNext(Initialized(ALL), es, Command(c));
    Verdict(Run(Initialized(ALL), es), c);
  }

  lemma TableAlarm(es: seq<Event>, p: Snap, e: Event, down: set<Category>, up: set<Category>)
    returns (es': seq<Event>)
    requires At(es, p, down, up) && Allowed(p, e, down, up) && !e.Command? && !Admits(p.Bare(), e)
    ensures FalseAlarmOf(es', down, up)
  {
    es' := es + [e];
    AllLegalSnoc(es, e);
    RunNext(Initialized(ALL), es, e);
    EventVerdict(Run(Initialized(ALL), es), e);
  }

  // ---------------------------------------------------------------- the other switches

  /** List 1 is registered on both sides, with these flags; so are buffer 7 and pipeline 9. */
  ghost predicate Ready(p: Snap, i: Info) {
    && 1 in p.reg.lists && 1 in p.lists && p.lists[1] == i
    && 7 in p.reg.buffers && p.reg.buffers[7].desc == SHARED && 7 in p.buffers && p.buffers[7].desc == SHARED
    && 9 in p.reg.pipelines && 9 in p.pipelines
  }

  /** A legal command on list 1 that binds nothing unknown. */
  lemma CommandOn(es: seq<Event>, p: Snap, i: Info, c: Call, down: set<Category>, up: set<Category>)
    returns (es': seq<Event>, p': Snap)
    requires At(es, p, down, up) && Ready(p, i) && c.list == 1 && Legal(p.reg, p.h, c) && Known(p.Bare(), c)
    ensures At(es', p', down, up) && Ready(p', if Gate(c) in p.on then NextInfo(i, c) else i)
    ensures p' == p.(lists := p'.lists, h := p.h + [c])
  {
    AtNext(es, p, Command(c), down, up);
    AfterSame(p.Bare(), c);
    es', p' := es + [Command(c)], SnapNext(p, Command(c));
  }

  /** A legal event of another kind. */
  lemma TableOn(es: seq<Event>, p: Snap, e: Event, down: set<Category>, up: set<Category>)
    returns (es': seq<Event>, p': Snap)
    requires At(es, p, down, up) && Allowed(p, e, down, up)
    ensures p' == SnapNext(p, e) && At(es', p', down, up)
  {
    AtNext(es, p, e, down, up);
    es', p' := es + [e], SnapNext(p, e);
  }

  lemma SwitchOff(es: seq<Event>, p: Snap, c: Category, down: set<Category>, up: set<Category>)
    returns (es': seq<Event>, p': Snap)
    requires At(es, p, down, up) && c in down
    ensures p' == p.(on := p.on - {c}) && At(es', p', down, up)
  {
    es', p' := TableOn(es, p, Disable(c), down, up);
  }

  lemma SwitchOn(es: seq<Event>, p: Snap, c: Category, down: set<Category>, up: set<Category>)
    returns (es': seq<Event>, p': Snap)
    requires At(es, p, down, up) && c in up
    ensures p' == p.(on := p.on + {c}) && At(es', p', down, up)
  {
    es', p' := TableOn(es, p, Enable(c), down, up);
  }

  lemma Prepared(down: set<Category>, up: set<Category>) returns (es: seq<Event>, p: Snap)
    ensures At(es, p, down, up) && Ready(p, NEW_LIST) && p.on == ALL && p.h == []
    ensures p.buffers.Keys == {7}
  {
    es, p := [], START;
    es, p := TableOn(es, p, RegisterList(1), down, up);
    es, p := TableOn(es, p, RegisterBuffer(7, SHARED), down, up);
    es, p := TableOn(es, p, RegisterPipeline(9), down, up);
  }

  const BEGUN := NEW_LIST.(state := RECORDING)

  /** The list is begun and inside a pass. */
  lemma Opened(down: set<Category>, up: set<Category>) returns (es: seq<Event>, p: Snap)
    ensures At(es, p, down, up) && Ready(p, BEGUN.(insidePass := true)) && p.on == ALL
    ensures Recording(p.h) && InPass(p.h) && !InRendering(p.h)
  {
    es, p := Prepared(down, up);
    HistoryNext([], Begin(1));
    es, p := CommandOn(es, p, NEW_LIST, Begin(1), down, up);
    HistoryNext(p.h, BeginPass(1, 1));
    es, p := CommandOn(es, p, BEGUN, BeginPass(1, 1), down, up);
  }

  lemma Unrecorded(down: set<Category>, up: set<Category>) returns (es: seq<Event>, p: Snap)
    requires RESOURCE in down
    ensures At(es, p, down, up) && Ready(p, NEW_LIST) && p.on == ALL - {RESOURCE} && p.h == []
    ensures 8 in p.reg.buffers && p.reg.buffers[8].desc == SHARED && 8 !in p.buffers
  {
    es, p := Prepared(down, up);
    es, p := SwitchOff(es, p, RESOURCE, down, up);
    es, p := TableOn(es, p, RegisterBuffer(8, SHARED), down, up);
  }

  /** A buffer registered while resources are off is unknown when it is bound. */
  lemma ResourceAlarm(down: set<Category>, up: set<Category>) returns (es: seq<Event>)
    requires RESOURCE in down
    ensures FalseAlarmOf(es, down, up)
  {
    var p: Snap;
    es, p := Unrecorded(down, up);
    HistoryNext([], Begin(1));
    es, p := CommandOn(es, p, NEW_LIST, Begin(1), down, up);
    es := CommandAlarm(es, p, SetVertexBuffer(1, 8), down, up);
  }

  /** A buffer unmapped while mappings are not followed counts as mapped when it is destroyed. */
  lemma MemoryAlarm(down: set<Category>, up: set<Category>) returns (es: seq<Event>)
    requires MEMORY in down
    ensures FalseAlarmOf(es, down, up)
  {
    var p: Snap;
    es, p := Prepared(down, up);
    es, p := TableOn(es, p, RegisterBuffer(8, SHARED), down, up);
    es, p := TableOn(es, p, MapBuffer(8), down, up);
    es, p := SwitchOff(es, p, MEMORY, down, up);
    es, p := TableOn(es, p, UnmapBuffer(8), down, up);
    es := TableAlarm(es, p, UnregisterBuffer(8), down, up);
  }

  /** A list begun while lists are not followed is refused everything. */
  lemma ListAlarm(down: set<Category>, up: set<Category>) returns (es: seq<Event>)
    requires COMMAND_LIST in down
    ensures FalseAlarmOf(es, down, up)
  {
    var p: Snap;
    es, p := Prepared(down, up);
    es, p := SwitchOff(es, p, COMMAND_LIST, down, up);
    HistoryNext([], Begin(1));
    es, p := CommandOn(es, p, NEW_LIST, Begin(1), down, up);
    es := CommandAlarm(es, p, SetVertexBuffer(1, 7), down, up);
  }

  /** A pass ended while passes are not followed still counts as open when the list is destroyed. */
  lemma PassAlarm(down: set<Category>, up: set<Category>) returns (es: seq<Event>)
    requires RENDER_PASS in down
    ensures FalseAlarmOf(es, down, up)
  {
    var p: Snap;
    es, p := Opened(down, up);
    es, p := SwitchOff(es, p, RENDER_PASS, down, up);
    HistoryNext(p.h, EndPass(1));
    es, p := CommandOn(es, p, BEGUN.(insidePass := true), EndPass(1), down, up);
    es := TableAlarm(es, p, UnregisterList(1), down, up);
  }

  /** A pipeline bound while pipelines are off is missing at the next draw once they are on again. */
  lemma PipelineAlarm(down: set<Category>, up: set<Category>) returns (es: seq<Event>)
    requires PIPELINE in down && PIPELINE in up
    ensures FalseAlarmOf(es, down, up)
  {
    var p: Snap;
    var i := BEGUN.(insidePass := true);
    es, p := Opened(down, up);
    es, p := SwitchOff(es, p, PIPELINE, down, up);
    HistoryNext(p.h, SetPipeline(1, 9));
    es, p := CommandOn(es, p, i, SetPipeline(1, 9), down, up);
    es, p := SwitchOn(es, p, PIPELINE, down, up);
    es := CommandAlarm(es, p, Draw(1, 1, 1), down, up);
  }

  /** ... and a pipeline is bound. */
  lemma Bound(down: set<Category>, up: set<Category>) returns (es: seq<Event>, p: Snap)
    ensures At(es, p, down, up) && Ready(p, BEGUN.(insidePass := true, pipeline := 9)) && p.on == ALL
    ensures Recording(p.h) && InPass(p.h) && PipelineSet(p.h)
  {
    es, p := Opened(down, up);
    HistoryNext(p.h, SetPipeline(1, 9));
    es, p := CommandOn(es, p, BEGUN.(insidePass := true), SetPipeline(1, 9), down, up);
  }

  /** So is an index buffer bound while states are off. */
  lemma StateAlarm(down: set<Category>, up: set<Category>) returns (es: seq<Event>)
    requires STATE in down && STATE in up
    ensures FalseAlarmOf(es, down, up)
  {
    var p: Snap;
    es, p := Bound(down, up);
    es, p := SwitchOff(es, p, STATE, down, up);
    HistoryNext(p.h, SetIndexBuffer(1, 7));
    es, p := CommandOn(es, p, BEGUN.(insidePass := true, pipeline := 9), SetIndexBuffer(1, 7), down, up);
    es, p := SwitchOn(es, p, STATE, down, up);
    es := CommandAlarm(es, p, DrawIndexed(1, 1, 1), down, up);
  }

  lemma SomeAlarm(down: set<Category>, up: set<Category>) returns (es: seq<Event>)
    requires !Harmless(down, up)
    ensures FalseAlarmOf(es, down, up)
  {
    if c :| c in down && c !in SAFE {
      match c
      case RESOURCE => es := ResourceAlarm(down, up);
      case MEMORY => es := MemoryAlarm(down, up);
      case COMMAND_LIST => es := ListAlarm(down, up);
      case RENDER_PASS => es := PassAlarm(down, up);
    } else {
      var c :| c in down * up && c != HANDLE;
      if c == STATE {
        es := StateAlarm(down, up);
      } else {
        es := PipelineAlarm(down, up);
      }
    }
  }

  /** Starting with every category on, and switching off only categories of `down` and on only those of `up`: no legal
      run is ever reported if and only if only handle, state and pipeline checks are switched off, and of these only
      handle checks on again. */
  lemma SwitchingExactly(down: set<Category>, up: set<Category>)
    ensures (forall es :: SwitchesIn(es, down, up) && AllLegal(es) ==> NoError(Run(Initialized(ALL), es))) <==>
            Harmless(down, up)
  {
    if Harmless(down, up) {
      forall es | SwitchesIn(es, down, up) && AllLegal(es) ensures NoError(Run(Initialized(ALL), es)) {
        RunFollows(es, down, up);
      }
    } else {
      var es := SomeAlarm(down, up);
    }
  }
}
