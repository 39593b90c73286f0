/** The fleet console's keys: what a key press does to the console, and the action,
    if any, that it hands to dispatch. */
module Keymap {
  import opened Sequences
  import opened Console
  import Base64

  datatype Code =
    | Esc | Enter | TabKey | BackTab | Up | Down | Home | End | Backspace | Char(c: char) | OtherCode

  datatype Event = KeyEvent(code: Code, ctrl: bool, pressed: bool) | OtherEvent

  /** The console after an event, and the action handed to dispatch. */
  datatype Reply = Reply(app: State, action: Option<Action>)

  // --- Forms ----------------------------------------------------------

  /** Unicode's White_Space property. */
  predicate IsSpace(c: char) {
    || '\U{9}' <= c <= '\U{D}' || c == '\U{20}' || c == '\U{85}' || c == '\U{A0}' || c == '\U{1680}'
    || '\U{2000}' <= c <= '\U{200A}' || c == '\U{2028}' || c == '\U{2029}' || c == '\U{202F}'
    || c == '\U{205F}' || c == '\U{3000}'
  }

  /** That property, character by character. */
  lemma SpacesAre(c: char)
    ensures IsSpace(c) <==>
              c as int in {9, 10, 11, 12, 13, 32, 133, 160, 5760, 8192, 8193, 8194, 8195, 8196, 8197, 8198, 8199,
                           8200, 8201, 8202, 8232, 8233, 8239, 8287, 12288}
  {
  }

  function TrimStart(s: string): string {
    if s == [] || !IsSpace(s[0]) then s else TrimStart(s[1..])
  }

  function TrimEnd(s: string): string {
    if s == [] || !IsSpace(s[|s| - 1]) then s else TrimEnd(s[..|s| - 1])
  }

  function Trim(s: string): string { TrimEnd(TrimStart(s)) }

  predicate AllSpace(s: string) { forall i :: 0 <= i < |s| ==> IsSpace(s[i]) }

  /** A string no trimming would change. */
  predicate Tight(s: string) { s == [] || (!IsSpace(s[0]) && !IsSpace(s[|s| - 1])) }

  /** Trimming takes white space, and nothing else, off the two ends. */
  lemma TrimExactly(s: string) returns (lead: string, trail: string)
    ensures s == lead + Trim(s) + trail
    ensures AllSpace(lead) && AllSpace(trail) && Tight(Trim(s))
  {
    lead := TrimStartExactly(s);
    trail := TrimEndExactly(TrimStart(s));
  }

  lemma {:induction false} TrimStartExactly(s: string) returns (lead: string)
    ensures s == lead + TrimStart(s) && AllSpace(lead)
    ensures TrimStart(s) == [] || !IsSpace(TrimStart(s)[0])
  {
    lead := [];
    if s != [] && IsSpace(s[0]) {
      lead := TrimStartExactly(s[1..]);
      lead := [s[0]] + lead;
    }
  }

  lemma {:induction false} TrimEndExactly(s: string) returns (trail: string)
    ensures s == TrimEnd(s) + trail && AllSpace(trail)
    ensures TrimEnd(s) == [] || !IsSpace(TrimEnd(s)[|TrimEnd(s)| - 1])
  {
    trail := [];
    if s != [] && IsSpace(s[|s| - 1]) {
      trail := TrimEndExactly(s[..|s| - 1]);
      trail := trail + [s[|s| - 1]];
    }
  }

  function Required(name: string): Field { Field(name, "", true) }

  function Optional(name: string): Field { Field(name, "", false) }

  /** The blank fields a form of each kind opens with. */
  function Blank(kind: FormKind): seq<Field> {
    match kind
    case RetrieveForm => [Optional("ws_url (blank = original)")]
    case ConferenceForm => [Required("room id")]
    case OriginateForm => [Required("to (number/user)"), Required("gateway"), Optional("ws_url (blank = default)")]
    case LogFilterForm => [Required("directive (e.g. siphon_ai=debug)")]
  }

  function RoleOf(kind: FormKind): Role {
    if kind.OriginateForm? || kind.LogFilterForm? then Admin else Operator
  }

  /** The form still has the fields its kind submits, whatever was typed into them, and
      its active field is one of them. */
  predicate Shaped(form: Form) {
    && |form.fields| == |Blank(form.kind)|
    && (forall i :: 0 <= i < |form.fields| ==>
          form.fields[i].(value := "") == Blank(form.kind)[i])
    && form.active < |form.fields|
  }

  predicate FormReady(modal: Option<Modal>) { modal.Some? && modal.value.Input? ==> Shaped(modal.value.form) }

  datatype Submitted = Submitted(action: Action) | Missing(name: string)

  predicate LeftBlank(f: Field) { f.required && Trim(f.value) == [] }

  /** The first required field left blank. */
  function FirstMissing(fields: seq<Field>): (first: Option<nat>)
    ensures first.Some? ==> first.value < |fields| && LeftBlank(fields[first.value])
    ensures forall j :: 0 <= j < (if first.Some? then first.value else |fields|) ==> !LeftBlank(fields[j])
  {
    if fields == [] then None
    else
      var last := |fields| - 1;
      var earlier := FirstMissing(fields[..last]);
      if earlier.Some? then earlier else if LeftBlank(fields[last]) then Some(last) else None
  }

  function Given(s: string): Option<string> { if Trim(s) == [] then None else Some(Trim(s)) }

  function CallIdOf(form: Form): string { if form.callId.Some? then form.callId.value else "" }

  function Submit(form: Form): Submitted
    requires Shaped(form)
  {
    var missing := FirstMissing(form.fields);
    if missing.Some? then Missing(form.fields[missing.value].name)
    else
      Submitted(
        match form.kind
        case RetrieveForm => Retrieve(form.node, CallIdOf(form), Given(form.fields[0].value))
        case ConferenceForm => AddToConference(form.node, CallIdOf(form), Trim(form.fields[0].value))
        case OriginateForm =>
          Originate(form.node, Trim(form.fields[0].value), Trim(form.fields[1].value), Given(form.fields[2].value))
        case LogFilterForm => SetLogFilter(form.node, Trim(form.fields[0].value)))
  }

  function Retyped(form: Form, value: string): Form
    requires form.active < |form.fields|
  {
    form.(fields := form.fields[form.active := form.fields[form.active].(value := value)])
  }

  function TypedInto(form: Form, c: char): Form
    requires form.active < |form.fields|
  {
    Retyped(form, form.fields[form.active].value + [c])
  }

  function Erased(form: Form): Form
    requires form.active < |form.fields|
  {
    var value := form.fields[form.active].value;
    Retyped(form, if value == [] then [] else value[..|value| - 1])
  }

  function FieldAfter(form: Form): Form
    requires form.fields != []
  {
    form.(active := (form.active + 1) % |form.fields|)
  }

  function FieldBefore(form: Form): Form
    requires form.fields != []
  {
    form.(active := (form.active + |form.fields| - 1) % |form.fields|)
  }

  /** What a key that neither submits nor cancels does to a form. */
  function Edited(form: Form, code: Code, ctrl: bool): Form
    requires form.active < |form.fields|
  {
    match code
    case TabKey => FieldAfter(form)
    case Down => FieldAfter(form)
    case BackTab => FieldBefore(form)
    case Up => FieldBefore(form)
    case Backspace => Erased(form)
    case Char(c) => if ctrl then form else TypedInto(form, c)
    case _ => form
  }

  // --- Openers --------------------------------------------------------

  function Told(s: State, text: ToastText, ok: bool): State { s.(notices := PushToast(s.notices, text, ok)) }

  /** What is said instead of opening a modal. */
  function Refused(s: State, node: NodeId, required: Role): State
    requires !Can(s.nodes, s.readOnly, node, required)
  {
    if s.readOnly then Told(s, ReadOnlyMode, false) else Told(s, RoleTooLow(s.nodes[node].name, required), false)
  }

  /** Open a modal, unless the console is read-only or the known role is too low. */
  function Guarded(s: State, node: NodeId, required: Role, modal: Modal): State {
    if Can(s.nodes, s.readOnly, node, required) then s.(modal := Some(modal)) else Refused(s, node, required)
  }

  function Verb(a: Action): string {
    match a
    case Hangup(_, _) => "hangup"
    case Park(_, _) => "park"
    case Retrieve(_, _, _) => "retrieve"
    case AddToConference(_, _, _) => "conference-add"
    case Originate(_, _, _, _) => "originate"
    case EndConference(_, _) => "end-room"
    case RemoveParticipant(_, _, _) => "kick"
    case SetLogFilter(_, _) => "log-filter"
    case HepProbe(_) => "hep-probe"
    case StartDrain(_) => "drain"
  }

  /** Every prompt ends with the name of the node it acts on. */
  function Ask(what: string, nodeName: string): string { what + " on " + nodeName + "? (y/n)" }

  function HangupOf(k: Key): Action { Hangup(k.node, k.callId) }
  function ParkOf(k: Key): Action { Park(k.node, k.callId) }
  function ProbeOf(node: NodeId): Action { HepProbe(node) }
  function DrainOf(node: NodeId): Action { StartDrain(node) }

  const PROBE_WORDS := "emit HEP probe packet"
  const DRAIN_WORDS := "START GRACEFUL DRAIN (stops taking calls!)"

  function ConfirmCall(s: State, build: Key -> Action): State {
    match Focus(s.nodes, s.sel)
    case None => Told(s, NoCallSelected, false)
    case Some(k) =>
      var a := build(k);
      Guarded(s, k.node, a.RequiredRole(), Confirm(a, Ask(Verb(a) + " " + k.callId, s.nodes[k.node].name)))
  }

  function CallForm(s: State, kind: FormKind): State {
    match Focus(s.nodes, s.sel)
    case None => Told(s, NoCallSelected, false)
    case Some(k) => Guarded(s, k.node, Operator, Input(Form(kind, k.node, Some(k.callId), Blank(kind), 0)))
  }

  /** Originating is not about a call: the filtered node, else the focused call's, else the first. */
  function OriginateNode(s: State): NodeId {
    if s.sel.filter.Some? then s.sel.filter.value
    else var focus := Focus(s.nodes, s.sel); if focus.Some? then focus.value.node else 0
  }

  function OriginateFormAt(s: State): State {
    var node := OriginateNode(s);
    Guarded(s, node, Admin, Input(Form(OriginateForm, node, None, Blank(OriginateForm), 0)))
  }

  function RowAction(row: RoomsRow): Action {
    match row.kind
    case RoomRow(roomId, _, _) => EndConference(row.node, roomId)
    case ParticipantRow(roomId, callId) => RemoveParticipant(row.node, roomId, callId)
    case ParkedRow(callId, _, _) => Hangup(row.node, callId)
  }

  function RowWords(kind: RowKind): string {
    match kind
    case RoomRow(roomId, _, _) => "end room " + roomId
    case ParticipantRow(roomId, callId) => "kick " + callId + " from " + roomId
    case ParkedRow(callId, _, _) => "hangup parked " + callId
  }

  function DestroyRow(s: State): State {
    match RowUnderCursor(s.nodes, s.sel)
    case None => Told(s, NothingSelected, false)
    case Some(row) =>
      Guarded(s, row.node, Operator, Confirm(RowAction(row), Ask(RowWords(row.kind), s.nodes[row.node].name)))
  }

  function RetrieveRow(s: State): State {
    match RowUnderCursor(s.nodes, s.sel)
    case None => Told(s, NothingSelected, false)
    case Some(row) =>
      if row.kind.ParkedRow? then
        Guarded(s, row.node, Operator,
                Input(Form(RetrieveForm, row.node, Some(row.kind.callId), Blank(RetrieveForm), 0)))
      else Told(s, SelectParked, false)
  }

  function ConfirmNode(s: State, build: NodeId -> Action, what: string): State {
    match NodeUnderCursor(s.nodes, s.sel)
    case None => s
    case Some(node) => Guarded(s, node, Admin, Confirm(build(node), Ask(what, s.nodes[node].name)))
  }

  function LogFilterAt(s: State): State {
    match NodeUnderCursor(s.nodes, s.sel)
    case None => s
    case Some(node) => Guarded(s, node, Admin, Input(Form(LogFilterForm, node, None, Blank(LogFilterForm), 0)))
  }

  // --- Keys -----------------------------------------------------------

  /** Keys while a modal is open all go to it. */
  function ModalPress(s: State, code: Code, ctrl: bool): Reply
    requires s.modal.Some? && FormReady(s.modal)
  {
    match s.modal.value
    case Confirm(action, _) =>
      if code == Char('y') || code.Enter? then Reply(s.(modal := None), Some(action))
      else if code == Char('n') || code.Esc? then Reply(s.(modal := None), None)
      else Reply(s, None)
    case Input(form) =>
      if code.Esc? then Reply(s.(modal := None), None)
      else if code.Enter? then
        match Submit(form)
        case Submitted(action) => Reply(s.(modal := None), Some(action))
        case Missing(name) => Reply(Told(s, FieldRequired(name), false), None)
      else Reply(s.(modal := Some(Input(Edited(form, code, ctrl)))), None)
  }

  function SelectedMessage(pane: LadderPane): Option<Payload> {
    if pane.state.Ready? && pane.selected < |pane.state.messages| then Some(pane.state.messages[pane.selected])
    else None
  }

  function Copied(s: State): State {
    match SelectedMessage(s.ladder)
    case None => Told(s, NothingToCopy, false)
    case Some(payload) => Told(s, CopiedBytes(|payload|), true)
  }

  /** The terminal escape OSC 52, which sets the clipboard. */
  function ClipboardEscape(payload: Payload): string { OSC_52 + Base64.Encoded(payload) + [BELL] }

  const OSC_52 := "\U{1B}]52;c;"
  const BELL := '\U{7}'

  /** What a key writes to the terminal besides what is drawn. */
  function Printed(s: State, event: Event): string {
    if && event.KeyEvent? && event.pressed && s.modal.None? && s.ladder.open && s.sel.tab.Calls?
       && event.code == Char('y') && SelectedMessage(s.ladder).Some?
    then ClipboardEscape(SelectedMessage(s.ladder).value)
    else ""
  }

  /** A key writes to the terminal exactly when it is `y` on the open ladder's message, and a
      terminal that decodes what it is then sent has that message. */
  lemma ClipboardHasMessage(s: State, event: Event)
    ensures var p := Printed(s, event);
            && (p != "" <==>
                  && s.modal.None? && s.ladder.open && s.sel.tab.Calls?
                  && (event == KeyEvent(Char('y'), true, true) || event == KeyEvent(Char('y'), false, true))
                  && s.ladder.state.Ready? && s.ladder.selected < |s.ladder.state.messages|)
            && (p != "" ==>
                  && 8 <= |p| && p[..7] == "\U{1B}]52;c;" && p[|p| - 1] == '\U{7}'
                  && Base64.Decoded(p[7..|p| - 1]) == Some(s.ladder.state.messages[s.ladder.selected]))
  {
    var p := Printed(s, event);
    if p != "" {
      var payload := SelectedMessage(s.ladder).value;
      assert p == OSC_52 + Base64.Encoded(payload) + [BELL] && |OSC_52| == 7;
      assert p[7..|p| - 1] == Base64.Encoded(payload);
      Base64.DecodeEncoded(payload);
    }
  }

  /** The keys the open ladder takes for itself. */
  predicate LadderTakes(code: Code) {
    code in {Esc, Char('s'), Char('j'), Code.Down, Char('k'), Code.Up, Enter, Char('y')}
  }

  function LadderPress(s: State, code: Code): State
    requires LadderTakes(code)
  {
    if code.Esc? then
      if s.ladder.expanded then s.(ladder := s.ladder.(expanded := false))
      else s.(ladder := ToggledLadder(s.ladder, Focus(s.nodes, s.sel)))
    else if code == Char('s') then s.(ladder := ToggledLadder(s.ladder, Focus(s.nodes, s.sel)))
    else if code == Char('j') || code.Down? then s.(ladder := LadderMoved(s.ladder, true))
    else if code == Char('k') || code.Up? then s.(ladder := LadderMoved(s.ladder, false))
    else if code.Enter? then s.(ladder := s.ladder.(expanded := !s.ladder.expanded))
    else Copied(s)
  }

  function NextTab(tab: Tab): Tab {
    match tab
    case Overview => Trunks case Trunks => Calls case Calls => Rooms
    case Rooms => Errors case Errors => System case System => Overview
  }

  function PrevTab(tab: Tab): Tab {
    match tab
    case Overview => System case Trunks => Overview case Calls => Trunks
    case Rooms => Calls case Errors => Rooms case System => Errors
  }

  function OnTab(s: State, tab: Tab): State { s.(sel := s.sel.(tab := tab)) }

  /** The keys that ask for an action, each on its own tab. */
  function ActionPress(s: State, c: char): State {
    match s.sel.tab
    case Calls =>
      if c == 'x' then ConfirmCall(s, HangupOf)
      else if c == 'p' then ConfirmCall(s, ParkOf)
      else if c == 'u' then CallForm(s, RetrieveForm)
      else if c == 'c' then CallForm(s, ConferenceForm)
      else if c == 'o' then OriginateFormAt(s)
      else if c == 's' then s.(ladder := ToggledLadder(s.ladder, Focus(s.nodes, s.sel)))
      else s
    case Rooms => if c == 'x' then DestroyRow(s) else if c == 'u' then RetrieveRow(s) else s
    case System =>
      if c == 'L' then LogFilterAt(s)
      else if c == 'H' then ConfirmNode(s, ProbeOf, PROBE_WORDS)
      else if c == 'D' then ConfirmNode(s, DrainOf, DRAIN_WORDS)
      else s
    case _ => s
  }

  function CharPress(s: State, c: char): State {
    if c == '1' then OnTab(s, Overview)
    else if c == '2' then OnTab(s, Trunks)
    else if c == '3' then OnTab(s, Calls)
    else if c == '4' then OnTab(s, Rooms)
    else if c == '5' then OnTab(s, Errors)
    else if c == '6' then OnTab(s, System)
    else if c == 'n' then CycleFilter(s)
    else if c == 'j' then Select(s, Next)
    else if c == 'k' then Select(s, Prev)
    else if c == 'g' then Select(s, First)
    else if c == 'G' then Select(s, Final)
    else ActionPress(s, c)
  }

  function PlainPress(s: State, code: Code, ctrl: bool): State {
    match code
    case Esc => s.(shouldQuit := true)
    case TabKey => OnTab(s, NextTab(s.sel.tab))
    case BackTab => OnTab(s, PrevTab(s.sel.tab))
    case Down => Select(s, Next)
    case Up => Select(s, Prev)
    case Home => Select(s, First)
    case End => Select(s, Final)
    case Char(c) => if c == 'q' || (c == 'c' && ctrl) then s.(shouldQuit := true) else CharPress(s, c)
    case _ => s
  }

  function Press(s: State, event: Event): Reply
    requires FormReady(s.modal)
  {
    if event.OtherEvent? || !event.pressed then Reply(s, None)
    else if s.modal.Some? then ModalPress(s, event.code, event.ctrl)
    else if s.ladder.open && s.sel.tab.Calls? && LadderTakes(event.code) then Reply(LadderPress(s, event.code), None)
    else Reply(PlainPress(s, event.code, event.ctrl), None)
  }

  // --- The same, on the application object ----------------------------

  /** Refuse with a notice, or let the caller open its modal. */
  method Guard(app: App, node: NodeId, required: Role) returns (ok: bool)
    modifies app`toasts
    ensures ok == Can(app.nodes, app.readOnly, node, required)
    ensures app.View() == if ok then old(app.View()) else Refused(old(app.View()), node, required)
  {
    if app.readOnly {
      app.Notify(ReadOnlyMode, false);
      return false;
    }
    if !Can(app.nodes, app.readOnly, node, required) {
      app.Notify(RoleTooLow(app.nodes[node].name, required), false);
      return false;
    }
    return true;
  }

  method OpenConfirm(app: App, build: Key -> Action)
    modifies app`toasts, app`modal
    ensures app.View() == ConfirmCall(old(app.View()), build)
  {
    var focus := app.FocusedCall();
    if focus.None? {
      app.Notify(NoCallSelected, false);
      return;
    }
    var node, callId := focus.value.node, focus.value.callId;
    var action := build(focus.value);
    var ok := Guard(app, node, action.RequiredRole());
    if !ok { return; }
    app.modal := Some(Confirm(action, Ask(Verb(action) + " " + callId, app.nodes[node].name)));
  }

  method OpenCallForm(app: App, kind: FormKind, fields: seq<Field>)
    requires fields == Blank(kind)
    modifies app`toasts, app`modal
    ensures app.View() == CallForm(old(app.View()), kind)
  {
    var focus := app.FocusedCall();
    if focus.None? {
      app.Notify(NoCallSelected, false);
      return;
    }
    var ok := Guard(app, focus.value.node, Operator);
    if !ok { return; }
    app.modal := Some(Input(Form(kind, focus.value.node, Some(focus.value.callId), fields, 0)));
  }

  method OpenOriginate(app: App)
    modifies app`toasts, app`modal
    ensures app.View() == OriginateFormAt(old(app.View()))
  {
    var focus := app.FocusedCall();
    var node := if app.nodeFilter.Some? then app.nodeFilter.value else if focus.Some? then focus.value.node else 0;
    var ok := Guard(app, node, Admin);
    if !ok { return; }
    app.modal := Some(Input(Form(OriginateForm, node, None, Blank(OriginateForm), 0)));
  }

  method RoomsDestroy(app: App)
    modifies app`toasts, app`modal
    ensures app.View() == DestroyRow(old(app.View()))
  {
    var under := RowUnderCursor(app.nodes, app.Sel());
    if under.None? {
      app.Notify(NothingSelected, false);
      return;
    }
    var row := under.value;
    var ok := Guard(app, row.node, Operator);
    if !ok { return; }
    var action, what;
    match row.kind {
      case RoomRow(roomId, _, _) =>
        action, what := EndConference(row.node, roomId), "end room " + roomId;
      case ParticipantRow(roomId, callId) =>
        action, what := RemoveParticipant(row.node, roomId, callId), "kick " + callId + " from " + roomId;
      case ParkedRow(callId, _, _) =>
        action, what := Hangup(row.node, callId), "hangup parked " + callId;
    }
    app.modal := Some(Confirm(action, Ask(what, app.nodes[row.node].name)));
  }

  method RoomsRetrieve(app: App)
    modifies app`toasts, app`modal
    ensures app.View() == RetrieveRow(old(app.View()))
  {
    var under := RowUnderCursor(app.nodes, app.Sel());
    if under.None? {
      app.Notify(NothingSelected, false);
      return;
    }
    var row := under.value;
    if !row.kind.ParkedRow? {
      app.Notify(SelectParked, false);
      return;
    }
    var ok := Guard(app, row.node, Operator);
    if !ok { return; }
    app.modal := Some(Input(Form(RetrieveForm, row.node, Some(row.kind.callId), Blank(RetrieveForm), 0)));
  }

  /** The node under the System tab's cursor, if an admin action may be opened on it. */
  method SystemTarget(app: App) returns (target: Option<NodeId>)
    modifies app`toasts
    ensures var under := NodeUnderCursor(app.nodes, app.Sel());
            if under.None? || Can(app.nodes, app.readOnly, under.value, Admin)
            then target == under && app.View() == old(app.View())
            else target.None? && app.View() == Refused(old(app.View()), under.value, Admin)
  {
    var under := NodeUnderCursor(app.nodes, app.Sel());
    if under.None? { return None; }
    var ok := Guard(app, under.value, Admin);
    target := if ok then under else None;
  }

  method SystemConfirm(app: App, build: NodeId -> Action, what: string)
    modifies app`toasts, app`modal
    ensures app.View() == ConfirmNode(old(app.View()), build, what)
  {
    var target := SystemTarget(app);
    if target.None? { return; }
    app.modal := Some(Confirm(build(target.value), Ask(what, app.nodes[target.value].name)));
  }

  method SystemLogFilter(app: App)
    modifies app`toasts, app`modal
    ensures app.View() == LogFilterAt(old(app.View()))
  {
    var target := SystemTarget(app);
    if target.None? { return; }
    app.modal := Some(Input(Form(LogFilterForm, target.value, None, Blank(LogFilterForm), 0)));
  }

  method CopyFocusedMessage(app: App) returns (printed: string)
    modifies app`toasts
    ensures app.View() == Copied(old(app.View()))
    ensures var message := SelectedMessage(app.ladder);
            printed == if message.Some? then ClipboardEscape(message.value) else ""
  {
    var message := SelectedMessage(app.ladder);
    if message.None? {
      app.Notify(NothingToCopy, false);
      return "";
    }
    var encoded := Base64.Encode(message.value);
    printed := OSC_52 + encoded + [BELL];
    app.Notify(CopiedBytes(|message.value|), true);
  }

  /** The modal is taken out first and put back by the keys that keep it. */
  method ModalKey(app: App, code: Code, ctrl: bool) returns (action: Option<Action>)
    requires app.modal.Some? && FormReady(app.modal)
    modifies app`modal, app`toasts
    ensures Reply(app.View(), action) == ModalPress(old(app.View()), code, ctrl)
  {
    var modal := app.modal.value;
    app.modal := None;
    action := None;
    match modal {
      case Confirm(a, prompt) =>
        if code == Char('y') || code.Enter? { return Some(a); }
        if code == Char('n') || code.Esc? { return None; }
        app.modal := Some(Confirm(a, prompt));
      case Input(form) =>
        if code.Esc? { return None; }
        if !code.Enter? {
          var edited := EditForm(form, code, ctrl);
          app.modal := Some(Input(edited));
          return None;
        }
        match Submit(form) {
          case Submitted(a) => return Some(a);
          case Missing(name) =>
            app.Notify(FieldRequired(name), false);
            app.modal := Some(Input(form));
        }
    }
  }

  method EditForm(form: Form, code: Code, ctrl: bool) returns (edited: Form)
    requires form.active < |form.fields|
    ensures edited == Edited(form, code, ctrl)
  {
    edited := form;
    var value := form.fields[form.active].value;
    match code {
      case TabKey => edited := form.(active := (form.active + 1) % |form.fields|);
      case Down => edited := form.(active := (form.active + 1) % |form.fields|);
      case BackTab => edited := form.(active := (form.active + |form.fields| - 1) % |form.fields|);
      case Up => edited := form.(active := (form.active + |form.fields| - 1) % |form.fields|);
      case Backspace => if value != [] { edited := Retyped(form, value[..|value| - 1]); }
      case Char(c) => if !ctrl { edited := Retyped(form, value + [c]); }
      case _ =>
    }
  }

  method LadderKey(app: App, code: Code) returns (printed: string)
    requires LadderTakes(code)
    modifies app`ladder, app`toasts
    ensures app.View() == LadderPress(old(app.View()), code)
    ensures var message := SelectedMessage(old(app.ladder));
            printed == if code == Char('y') && message.Some? then ClipboardEscape(message.value) else ""
  {
    printed := "";
    match code {
      case Esc =>
        if app.ladder.expanded { app.ladder := app.ladder.(expanded := false); } else { app.ToggleLadder(); }
      case Down => app.ladder := LadderMoved(app.ladder, true);
      case Up => app.ladder := LadderMoved(app.ladder, false);
      case Enter => app.ladder := app.ladder.(expanded := !app.ladder.expanded);
      case Char(c) =>
        if c == 's' { app.ToggleLadder(); }
        else if c == 'j' { app.ladder := LadderMoved(app.ladder, true); }
        else if c == 'k' { app.ladder := LadderMoved(app.ladder, false); }
        else { printed := CopyFocusedMessage(app); }
    }
  }

  method ActionKey(app: App, c: char)
    modifies app`ladder, app`toasts, app`modal
    ensures app.View() == ActionPress(old(app.View()), c)
  {
    match app.tab {
      case Calls =>
        if c == 'x' { OpenConfirm(app, HangupOf); }
        else if c == 'p' { OpenConfirm(app, ParkOf); }
        else if c == 'u' { OpenCallForm(app, RetrieveForm, [Optional("ws_url (blank = original)")]); }
        else if c == 'c' { OpenCallForm(app, ConferenceForm, [Required("room id")]); }
        else if c == 'o' { OpenOriginate(app); }
        else if c == 's' { app.ToggleLadder(); }
      case Rooms =>
        if c == 'x' { RoomsDestroy(app); } else if c == 'u' { RoomsRetrieve(app); }
      case System =>
        if c == 'L' { SystemLogFilter(app); }
        else if c == 'H' { SystemConfirm(app, ProbeOf, PROBE_WORDS); }
        else if c == 'D' { SystemConfirm(app, DrainOf, DRAIN_WORDS); }
      case _ =>
    }
  }

  method CharKey(app: App, c: char)
    modifies app
    ensures app.View() == CharPress(old(app.View()), c)
  {
    if c == '1' { app.tab := Overview; }
    else if c == '2' { app.tab := Trunks; }
    else if c == '3' { app.tab := Calls; }
    else if c == '4' { app.tab := Rooms; }
    else if c == '5' { app.tab := Errors; }
    else if c == '6' { app.tab := System; }
    else if c == 'n' { app.CycleNodeFilter(); }
    else if c == 'j' { app.SelectNext(); }
    else if c == 'k' { app.SelectPrev(); }
    else if c == 'g' { app.SelectFirst(); }
    else if c == 'G' { app.SelectLast(); }
    else { ActionKey(app, c); }
  }

  /** The action handed to dispatch, and what was written to the terminal. */
  method Handle(app: App, event: Event) returns (action: Option<Action>, printed: string)
    requires FormReady(app.modal)
    modifies app
    ensures Reply(app.View(), action) == Press(old(app.View()), event)
    ensures printed == Printed(old(app.View()), event)
  {
    action, printed := None, "";
    if event.OtherEvent? || !event.pressed { return; }
    var code := event.code;
    if app.modal.Some? {
      action := ModalKey(app, code, event.ctrl);
      return;
    }
    if app.ladder.open && app.tab.Calls? && LadderTakes(code) {
      printed := LadderKey(app, code);
      return;
    }
    PlainKey(app, code, event.ctrl);
  }

  method PlainKey(app: App, code: Code, ctrl: bool)
    modifies app
    ensures app.View() == PlainPress(old(app.View()), code, ctrl)
  {
    match code {
      case Esc => app.shouldQuit := true;
      case TabKey => app.tab := NextTab(app.tab);
      case BackTab => app.tab := PrevTab(app.tab);
      case Down => app.SelectNext();
      case Up => app.SelectPrev();
      case Home => app.SelectFirst();
      case End => app.SelectLast();
      case Char(c) =>
        if c == 'q' || (c == 'c' && ctrl) { app.shouldQuit := true; } else { CharKey(app, c); }
      case _ =>
    }
  }
}
