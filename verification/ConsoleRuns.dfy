/** Whole sessions of the fleet console: any messages and keys, in any order, until it
    quits. What always holds of the state, whose data it shows, and what it dispatches. */
module ConsoleRuns {
  import opened Sequences
  import opened Console
  import opened Keymap

  // --- What a key can do ----------------------------------------------

  /** At most one notice was added. */
  predicate Noted(a: Notices, b: Notices) {
    b == a || (b.toasts != [] && var t := b.toasts[|b.toasts| - 1]; b == PushToast(a, t.text, t.ok))
  }

  /** Only the modal and the notices may differ. */
  predicate Kept(s: State, t: State) {
    t == s.(modal := t.modal, notices := t.notices) && Noted(s.notices, t.notices)
  }

  predicate Permitted(s: State, node: NodeId, required: Role) { Can(s.nodes, s.readOnly, node, required) }

  /** What a form acts on is what the cursor is on. */
  predicate FormUnder(s: State, form: Form) {
    match s.sel.tab
    case Calls =>
      if form.kind.OriginateForm? then form.node == OriginateNode(s)
      else
        && form.callId.Some? && !form.kind.LogFilterForm?
        && Focus(s.nodes, s.sel) == Some(Key(form.node, form.callId.value))
    case Rooms =>
      && form.kind.RetrieveForm? && form.callId.Some?
      && var row := RowUnderCursor(s.nodes, s.sel);
         && row.Some? && row.value.node == form.node
         && row.value.kind.ParkedRow? && row.value.kind.callId == form.callId.value
    case System => form.kind.LogFilterForm? && NodeUnderCursor(s.nodes, s.sel) == Some(form.node)
    case _ => false
  }

  /** What an action acts on is what the cursor is on. */
  predicate Under(s: State, a: Action) {
    match s.sel.tab
    case Calls =>
      if a.Originate? then a.node == OriginateNode(s)
      else (a.Hangup? || a.Park? || a.Retrieve? || a.AddToConference?)
           && Focus(s.nodes, s.sel) == Some(Key(a.node, a.callId))
    case Rooms =>
      && var row := RowUnderCursor(s.nodes, s.sel);
         && row.Some?
         && (|| a == RowAction(row.value)
             || (&& a.Retrieve? && row.value.kind.ParkedRow?
                 && a.node == row.value.node && a.callId == row.value.kind.callId))
    case System =>
      (a.SetLogFilter? || a.HepProbe? || a.StartDrain?) && NodeUnderCursor(s.nodes, s.sel) == Some(a.node)
    case _ => false
  }

  /** The prompt ends with the node's name. */
  ghost predicate Names(prompt: string, nodeName: string) { exists what: string :: prompt == Ask(what, nodeName) }

  /** A modal as it opens: permitted at its own action's role, about what the cursor is on.
      Actions with texts to type are never merely confirmed. */
  ghost predicate Aims(s: State, m: Modal) {
    match m
    case Confirm(a, prompt) =>
      && Permitted(s, a.node, a.RequiredRole()) && Under(s, a)
      && !(a.Retrieve? || a.AddToConference? || a.Originate? || a.SetLogFilter?)
      && a.node < |s.nodes| && Names(prompt, s.nodes[a.node].name)
    case Input(form) => Permitted(s, form.node, RoleOf(form.kind)) && FormUnder(s, form) && Shaped(form)
  }

  ghost predicate Opened(s: State, t: State) {
    Kept(s, t) && (t.modal == s.modal || (t.modal.Some? && Aims(s, t.modal.value)))
  }

  lemma ToldKept(s: State, text: ToastText, ok: bool)
    ensures Kept(s, Told(s, text, ok)) && Told(s, text, ok).modal == s.modal
  {
    var n := PushToast(s.notices, text, ok);
    assert n.toasts[|n.toasts| - 1] == Toast(text, ok, TOAST_TTL);
  }

  lemma GuardedOpens(s: State, node: NodeId, required: Role, m: Modal)
    requires Permitted(s, node, required) ==> Aims(s, m)
    ensures Opened(s, Guarded(s, node, required, m))
  {
    if !Permitted(s, node, required) {
      if s.readOnly { ToldKept(s, ReadOnlyMode, false); }
      else { ToldKept(s, RoleTooLow(s.nodes[node].name, required), false); }
    }
  }

  lemma ConfirmCallOpens(s: State, build: Key -> Action)
    requires s.sel.tab.Calls?
    requires forall k :: build(k) == Hangup(k.node, k.callId) || build(k) == Park(k.node, k.callId)
    ensures Opened(s, ConfirmCall(s, build))
  {
    match Focus(s.nodes, s.sel)
    case None => ToldKept(s, NoCallSelected, false);
    case Some(k) =>
      var a := build(k);
      var what, name := Verb(a) + " " + k.callId, s.nodes[k.node].name;
      assert Names(Ask(what, name), name);
      GuardedOpens(s, k.node, a.RequiredRole(), Confirm(a, Ask(what, name)));
  }

  lemma CallFormOpens(s: State, kind: FormKind)
    requires s.sel.tab.Calls? && (kind.RetrieveForm? || kind.ConferenceForm?)
    ensures Opened(s, CallForm(s, kind))
  {
    match Focus(s.nodes, s.sel)
    case None => ToldKept(s, NoCallSelected, false);
    case Some(k) => GuardedOpens(s, k.node, Operator, Input(Form(kind, k.node, Some(k.callId), Blank(kind), 0)));
  }

  lemma OriginateOpens(s: State)
    requires s.sel.tab.Calls?
    ensures Opened(s, OriginateFormAt(s))
  {
    var node := OriginateNode(s);
    GuardedOpens(s, node, Admin, Input(Form(OriginateForm, node, None, Blank(OriginateForm), 0)));
  }

  lemma DestroyOpens(s: State)
    requires s.sel.tab.Rooms?
    ensures Opened(s, DestroyRow(s))
  {
    match RowUnderCursor(s.nodes, s.sel)
    case None => ToldKept(s, NothingSelected, false);
    case Some(row) =>
      var what, name := RowWords(row.kind), s.nodes[row.node].name;
      assert Names(Ask(what, name), name);
      GuardedOpens(s, row.node, Operator, Confirm(RowAction(row), Ask(what, name)));
  }

  lemma RetrieveRowOpens(s: State)
    requires s.sel.tab.Rooms?
    ensures Opened(s, RetrieveRow(s))
  {
    match RowUnderCursor(s.nodes, s.sel)
    case None => ToldKept(s, NothingSelected, false);
    case Some(row) =>
      if row.kind.ParkedRow? {
        GuardedOpens(s, row.node, Operator,
                     Input(Form(RetrieveForm, row.node, Some(row.kind.callId), Blank(RetrieveForm), 0)));
      } else {
        ToldKept(s, SelectParked, false);
      }
  }

  lemma ConfirmNodeOpens(s: State, build: NodeId -> Action, what: string)
    requires s.sel.tab.System?
    requires forall id: NodeId :: build(id) == HepProbe(id) || build(id) == StartDrain(id)
    ensures Opened(s, ConfirmNode(s, build, what))
  {
    match NodeUnderCursor(s.nodes, s.sel)
    case None =>
    case Some(node) =>
      var name := s.nodes[node].name;
      assert Names(Ask(what, name), name);
      GuardedOpens(s, node, Admin, Confirm(build(node), Ask(what, name)));
  }

  lemma LogFilterOpens(s: State)
    requires s.sel.tab.System?
    ensures Opened(s, LogFilterAt(s))
  {
    match NodeUnderCursor(s.nodes, s.sel)
    case None =>
    case Some(node) => GuardedOpens(s, node, Admin, Input(Form(LogFilterForm, node, None, Blank(LogFilterForm), 0)));
  }

  /** The ladder after a key on it: toggled, scrolled or unfolded. */
  predicate LadderKeyed(s: State, t: State) {
    && t == s.(ladder := t.ladder)
    && (|| t.ladder == ToggledLadder(s.ladder, Focus(s.nodes, s.sel))
        || t.ladder == LadderMoved(s.ladder, true) || t.ladder == LadderMoved(s.ladder, false)
        || t.ladder == s.ladder.(expanded := !s.ladder.expanded))
  }

  /** What an event at the keyboard can do. */
  datatype Effect = Nothing | Cycles | Selects(move: Move) | Tabs(tab: Tab) | Quits | Ladders | Opens | Answers

  ghost predicate Does(s: State, t: State, effect: Effect) {
    match effect
    case Nothing => t == s
    case Cycles => t == CycleFilter(s)
    case Selects(move) => t == Select(s, move)
    case Tabs(tab) => t == OnTab(s, tab)
    case Quits => t == s.(shouldQuit := true)
    case Ladders => LadderKeyed(s, t)
    case Opens => Opened(s, t)
    case Answers =>
      && s.modal.Some? && Kept(s, t) && FormReady(t.modal)
      && (t.modal.Some? ==> SameTarget(s.modal.value, t.modal.value))
  }

  lemma ActionPressDoes(s: State, c: char) returns (effect: Effect)
    ensures Does(s, ActionPress(s, c), effect)
    ensures effect.Nothing? || effect.Ladders? || effect.Opens?
  {
    effect := Opens;
    match s.sel.tab
    case Calls =>
      if c == 'x' { ConfirmCallOpens(s, HangupOf); }
      else if c == 'p' { ConfirmCallOpens(s, ParkOf); }
      else if c == 'u' { CallFormOpens(s, RetrieveForm); }
      else if c == 'c' { CallFormOpens(s, ConferenceForm); }
      else if c == 'o' { OriginateOpens(s); }
      else if c == 's' { effect := Ladders; }
      else { effect := Nothing; }
    case Rooms =>
      if c == 'x' { DestroyOpens(s); } else if c == 'u' { RetrieveRowOpens(s); } else { effect := Nothing; }
    case System =>
      if c == 'L' { LogFilterOpens(s); }
      else if c == 'H' { ConfirmNodeOpens(s, ProbeOf, PROBE_WORDS); }
      else if c == 'D' { ConfirmNodeOpens(s, DrainOf, DRAIN_WORDS); }
      else { effect := Nothing; }
    case _ => effect := Nothing;
  }

  /** Two modals are the same but for what was typed into the form. */
  predicate SameTarget(a: Modal, b: Modal) {
    if a.Confirm? || b.Confirm? then a == b
    else a.form.kind == b.form.kind && a.form.node == b.form.node && a.form.callId == b.form.callId
  }

  lemma EditedKeepsShape(form: Form, code: Code, ctrl: bool)
    requires Shaped(form)
    ensures Shaped(Edited(form, code, ctrl)) && SameTarget(Input(form), Input(Edited(form, code, ctrl)))
  {
  }

  /** A key in a modal closes it, with or without its action, or leaves its target alone. */
  lemma ModalPressKeeps(s: State, code: Code, ctrl: bool)
    requires s.modal.Some? && FormReady(s.modal)
    ensures var r := ModalPress(s, code, ctrl);
            && Kept(s, r.app) && FormReady(r.app.modal)
            && (r.app.modal.Some? ==> SameTarget(s.modal.value, r.app.modal.value))
  {
    if s.modal.value.Input? {
      var form := s.modal.value.form;
      if code.Enter? {
        if Submit(form).Missing? { ToldKept(s, FieldRequired(Submit(form).name), false); }
      } else {
        EditedKeepsShape(form, code, ctrl);
      }
    }
  }

  lemma CharPressDoes(s: State, c: char) returns (effect: Effect)
    ensures Does(s, CharPress(s, c), effect) && !effect.Answers?
  {
    if c == '1' { effect := Tabs(Overview); }
    else if c == '2' { effect := Tabs(Trunks); }
    else if c == '3' { effect := Tabs(Calls); }
    else if c == '4' { effect := Tabs(Rooms); }
    else if c == '5' { effect := Tabs(Errors); }
    else if c == '6' { effect := Tabs(System); }
    else if c == 'n' { effect := Cycles; }
    else if c == 'j' { effect := Selects(Next); }
    else if c == 'k' { effect := Selects(Prev); }
    else if c == 'g' { effect := Selects(First); }
    else if c == 'G' { effect := Selects(Final); }
    else { effect := ActionPressDoes(s, c); }
  }

  lemma PlainPressDoes(s: State, code: Code, ctrl: bool) returns (effect: Effect)
    ensures Does(s, PlainPress(s, code, ctrl), effect) && !effect.Answers?
  {
    match code
    case Esc => effect := Quits;
    case TabKey => effect := Tabs(NextTab(s.sel.tab));
    case BackTab => effect := Tabs(PrevTab(s.sel.tab));
    case Down => effect := Selects(Next);
    case Up => effect := Selects(Prev);
    case Home => effect := Selects(First);
    case End => effect := Selects(Final);
    case Char(c) => if c == 'q' || (c == 'c' && ctrl) { effect := Quits; } else { effect := CharPressDoes(s, c); }
    case _ => effect := Nothing;
  }

  lemma LadderPressDoes(s: State, code: Code) returns (effect: Effect)
    requires LadderTakes(code)
    ensures Does(s, LadderPress(s, code), effect) && (effect.Ladders? || effect.Opens?)
  {
    var message := SelectedMessage(s.ladder);
    ToldKept(s, if message.None? then NothingToCopy else CopiedBytes(|message.value|), message.Some?);
    effect := if code == Char('y') then Opens else Ladders;
  }

  lemma PressDoes(s: State, e: Event) returns (effect: Effect)
    requires FormReady(s.modal)
    ensures Does(s, Press(s, e).app, effect)
    ensures s.modal.Some? ==> effect.Nothing? || effect.Answers?
  {
    if e.OtherEvent? || !e.pressed { effect := Nothing; }
    else if s.modal.Some? { effect := Answers; ModalPressKeeps(s, e.code, e.ctrl); }
    else if s.ladder.open && s.sel.tab.Calls? && LadderTakes(e.code) { effect := LadderPressDoes(s, e.code); }
    else { effect := PlainPressDoes(s, e.code, e.ctrl); }
  }

  lemma PressKeepsReady(s: State, e: Event)
    requires FormReady(s.modal)
    ensures FormReady(Press(s, e).app.modal)
  {
    var effect := PressDoes(s, e);
  }

  // --- Runs -----------------------------------------------------------

  datatype Launch = Launch(names: seq<string>, readOnly: bool)

  datatype Happening = Received(msg: Msg) | Typed(event: Event)

  function Step(s: State, x: Happening): (r: Reply)
    requires FormReady(s.modal)
    ensures FormReady(r.app.modal)
  {
    if s.shouldQuit then Reply(s, None)
    else
      match x
      case Received(msg) => Reply(Reduce(s, msg), None)
      case Typed(event) => PressKeepsReady(s, event); Press(s, event)
  }

  function After(l: Launch, xs: seq<Happening>): (s: State)
    ensures FormReady(s.modal)
  {
    if xs == [] then Initial(l.names, l.readOnly)
    else Step(After(l, xs[..|xs| - 1]), xs[|xs| - 1]).app
  }

  /** The action that event `k` handed to dispatch. */
  function Fired(l: Launch, xs: seq<Happening>, k: nat): Option<Action>
    requires k < |xs|
  {
    Step(After(l, xs[..k]), xs[k]).action
  }

  function Sent(l: Launch, xs: seq<Happening>): seq<Action> {
    if xs == [] then []
    else
      var k := |xs| - 1;
      Sent(l, xs[..k]) + (match Fired(l, xs, k) case None => [] case Some(a) => [a])
  }

  // --- What every event keeps -----------------------------------------

  /** In range, or 0 when there is nothing to select. */
  predicate Fits(i: nat, len: nat) { i < len || (len == 0 && i == 0) }

  predicate Selected(nodes: seq<Node>, sel: Selection) {
    && (sel.filter.Some? ==> sel.filter.value < |nodes|)
    && Fits(sel.call, |VisibleCalls(nodes, sel.filter)|)
    && Fits(sel.room, |VisibleRooms(nodes, sel.filter)|)
    && Fits(sel.system, |VisibleSystem(|nodes|, sel.filter)|)
  }

  /** Both panes are about the focused call. */
  predicate Synced(s: State) { s.stats.key == s.ladder.key == Focus(s.nodes, s.sel) }

  predicate Inside(pane: LadderPane) { Fits(pane.selected, pane.state.Count()) }

  predicate Short(n: Notices) {
    && |n.toasts| <= 4 && |n.fleetHistory| <= 120
    && forall i :: 0 <= i < |n.toasts| ==> 1 <= n.toasts[i].ttl <= 5
  }

  /** The fleet is fixed at start, and so is the mode. */
  predicate Rostered(l: Launch, s: State) {
    && s.readOnly == l.readOnly
    && |s.nodes| == |l.names| > 0
    && forall i :: 0 <= i < |s.nodes| ==> s.nodes[i].name == l.names[i]
  }

  predicate Consistent(l: Launch, s: State) {
    Rostered(l, s) && Selected(s.nodes, s.sel) && Synced(s) && Inside(s.ladder) && Short(s.notices)
  }

  /** Learning a role changes nothing that is visible. */
  lemma {:induction false} RolesAreNotListed(a: seq<Node>, b: seq<Node>, filter: Option<NodeId>)
    requires |a| == |b| && forall i :: 0 <= i < |a| ==> a[i].shown == b[i].shown
    ensures VisibleCalls(a, filter) == VisibleCalls(b, filter)
    ensures VisibleRooms(a, filter) == VisibleRooms(b, filter)
  {
    if a != [] {
      var id := |a| - 1;
      RolesAreNotListed(a[..id], b[..id], filter);
      assert a[id].shown == b[id].shown;
    }
  }

  lemma ClampSelects(nodes: seq<Node>, sel: Selection)
    requires sel.filter.Some? ==> sel.filter.value < |nodes|
    ensures Selected(nodes, Clamp(nodes, sel))
  {
  }

  lemma SyncSyncs(s: State)
    requires Inside(s.ladder)
    ensures Synced(SyncFocus(s)) && Inside(SyncFocus(s).ladder)
  {
  }

  lemma {:induction false} AgedStaysShort(toasts: seq<Toast>)
    requires forall i :: 0 <= i < |toasts| ==> 1 <= toasts[i].ttl <= TOAST_TTL
    ensures |Aged(toasts)| <= |toasts|
    ensures forall i :: 0 <= i < |Aged(toasts)| ==> 1 <= Aged(toasts)[i].ttl <= TOAST_TTL
  {
    if toasts != [] { AgedStaysShort(toasts[..|toasts| - 1]); }
  }

  lemma MoveSelects(s: State, move: Move)
    requires Selected(s.nodes, s.sel)
    ensures Selected(s.nodes, MoveSelection(s, move))
    ensures MoveSelection(s, move).filter == s.sel.filter
    ensures s.sel.tab.System? || s.sel.tab.Rooms? ==> MoveSelection(s, move).call == s.sel.call
  {
  }

  lemma SelectKeeps(l: Launch, s: State, move: Move)
    requires Consistent(l, s)
    ensures Consistent(l, Select(s, move))
  {
    MoveSelects(s, move);
    SyncSyncs(s.(sel := MoveSelection(s, move)));
  }

  lemma CycleKeeps(l: Launch, s: State)
    requires Consistent(l, s)
    ensures Consistent(l, CycleFilter(s))
  {
    var sel := s.sel.(filter := NextFilter(s.sel.filter, |s.nodes|));
    ClampSelects(s.nodes, sel);
    SyncSyncs(s.(sel := Clamp(s.nodes, sel)));
  }

  lemma SnapshotKeeps(l: Launch, s: State, node: NodeId, result: Option<Snapshot>, error: string)
    requires Consistent(l, s)
    ensures Consistent(l, Reduce(s, SnapshotMsg(node, result, error)))
  {
    if node < |s.nodes| {
      var nodes := s.nodes[node := Polled(s.nodes[node], result, error)];
      ClampSelects(nodes, s.sel);
      SyncSyncs(s.(nodes := nodes, sel := Clamp(nodes, s.sel)));
    }
  }

  lemma RoleKeeps(l: Launch, s: State, node: NodeId, role: Role)
    requires Consistent(l, s) && node < |s.nodes|
    ensures Consistent(l, s.(nodes := s.nodes[node := s.nodes[node].(role := Some(role))]))
  {
    RolesAreNotListed(s.nodes, s.nodes[node := s.nodes[node].(role := Some(role))], s.sel.filter);
  }

  lemma TickKeeps(l: Launch, s: State)
    requires Consistent(l, s)
    ensures Consistent(l, Reduce(s, Tick))
  {
    AgedStaysShort(s.notices.toasts);
  }

  lemma OutcomeKeeps(l: Launch, s: State, msg: Msg)
    requires Consistent(l, s) && msg.ActionOutcome?
    ensures Consistent(l, Reduce(s, msg))
  {
    var s1 := s.(notices := PushToast(s.notices, OutcomeText(msg.text), msg.ok));
    assert Consistent(l, s1);
    if msg.forbidden && msg.node < |s.nodes| {
      RoleKeeps(l, s1, msg.node, Lowered(s.nodes[msg.node].role, msg.required));
    }
  }

  lemma PaneKeeps(l: Launch, s: State, msg: Msg)
    requires Consistent(l, s) && (msg.StatsMsg? || msg.LadderMsg?)
    ensures Consistent(l, Reduce(s, msg))
  {
  }

  lemma ReduceKeeps(l: Launch, s: State, msg: Msg)
    requires Consistent(l, s)
    ensures Consistent(l, Reduce(s, msg))
  {
    match msg
    case SnapshotMsg(node, result, error) => SnapshotKeeps(l, s, node, result, error);
    case Tick => TickKeeps(l, s);
    case RoleLearned(node, role) => if node < |s.nodes| { RoleKeeps(l, s, node, role); }
    case ActionOutcome(_, _, _, _, _) => OutcomeKeeps(l, s, msg);
    case _ => PaneKeeps(l, s, msg);
  }

  lemma KeptKeeps(l: Launch, s: State, t: State)
    requires Consistent(l, s) && Kept(s, t)
    ensures Consistent(l, t)
  {
    assert Short(t.notices);
  }

  lemma LadderKeeps(l: Launch, s: State, t: State)
    requires Consistent(l, s) && LadderKeyed(s, t)
    ensures Consistent(l, t)
  {
    assert Inside(t.ladder) && Synced(t);
  }

  lemma KeyKeeps(l: Launch, s: State, t: State, effect: Effect)
    requires Consistent(l, s) && Does(s, t, effect)
    ensures Consistent(l, t)
  {
    match effect
    case Cycles => CycleKeeps(l, s);
    case Selects(move) => SelectKeeps(l, s, move);
    case Ladders => LadderKeeps(l, s, t);
    case Opens => KeptKeeps(l, s, t);
    case Answers => KeptKeeps(l, s, t);
    case _ =>
  }

  lemma {:induction false} FreshShowsNothing(names: seq<string>)
    ensures VisibleCalls(Fresh(names), None) == [] && VisibleRooms(Fresh(names), None) == []
    ensures names != [] ==> VisibleSystem(|names|, None) != []
  {
    if names != [] {
      var most := names[..|names| - 1];
      FreshShowsNothing(most);
      assert Fresh(names)[..|names| - 1] == Fresh(most);
    }
  }

  lemma StepKeeps(l: Launch, s: State, x: Happening)
    requires Consistent(l, s) && FormReady(s.modal)
    ensures Consistent(l, Step(s, x).app)
  {
    if !s.shouldQuit {
      match x
      case Received(msg) => ReduceKeeps(l, s, msg);
      case Typed(event) =>
        var effect := PressDoes(s, event);
        KeyKeeps(l, s, Press(s, event).app, effect);
    }
  }

  lemma InitialConsistent(l: Launch)
    requires l.names != []
    ensures Consistent(l, Initial(l.names, l.readOnly))
  {
    FreshShowsNothing(l.names);
  }

  /** Main result: the console is consistent after any events whatever. */
  lemma {:induction false} AlwaysConsistent(l: Launch, xs: seq<Happening>)
    requires l.names != []
    ensures Consistent(l, After(l, xs))
  {
    if xs == [] {
      InitialConsistent(l);
    } else {
      AlwaysConsistent(l, xs[..|xs| - 1]);
      StepKeeps(l, After(l, xs[..|xs| - 1]), xs[|xs| - 1]);
    }
  }
}
