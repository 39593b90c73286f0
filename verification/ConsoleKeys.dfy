/** What each key of the fleet console means, written out: which modal it opens for which
    action and with which words, what it refuses and why, and what a form submits. */
module ConsoleKeys {
  import opened Sequences
  import opened Console
  import opened Keymap
  import opened ConsoleRuns
  import opened ConsoleDispatch
  import ConsoleHistory

  // --- 1. Which modal a key opens -------------------------------------

  /** A role not yet learned forbids nothing, an operator everything but what needs an admin. */
  predicate MayAct(known: Option<Role>, admin: bool) {
    match known
    case None => true
    case Some(Admin) => true
    case Some(Operator) => !admin
    case Some(ReadOnly) => false
  }

  predicate NeedsAdmin(a: Action) {
    match a
    case Originate(_, _, _, _) => true
    case SetLogFilter(_, _) => true
    case HepProbe(_) => true
    case StartDrain(_) => true
    case _ => false
  }

  predicate FormNeedsAdmin(kind: FormKind) {
    match kind
    case OriginateForm => true
    case LogFilterForm => true
    case _ => false
  }

  /** What the daemon is told an action needs. */
  lemma RequiredRoleMeans(a: Action)
    ensures a.RequiredRole() == if NeedsAdmin(a) then Admin else Operator
  {
  }

  function RoleOn(s: State, node: NodeId): Option<Role> { if node < |s.nodes| then s.nodes[node].role else None }

  predicate Allowed(s: State, node: NodeId, admin: bool) { !s.readOnly && MayAct(RoleOn(s, node), admin) }

  predicate ModalAllowed(s: State, m: Modal) {
    match m
    case Confirm(a, _) => Allowed(s, a.node, NeedsAdmin(a))
    case Input(form) => Allowed(s, form.node, FormNeedsAdmin(form.kind))
  }

  predicate Asks(prompt: string, what: string, s: State, node: NodeId) {
    node < |s.nodes| && prompt == what + (" on " + s.nodes[node].name + "? (y/n)")
  }

  function RetrieveFields(): seq<Field> { [Field("ws_url (blank = original)", "", false)] }
  function ConferenceFields(): seq<Field> { [Field("room id", "", true)] }
  function OriginateFields(): seq<Field> {
    [Field("to (number/user)", "", true), Field("gateway", "", true), Field("ws_url (blank = default)", "", false)]
  }
  function LogFields(): seq<Field> { [Field("directive (e.g. siphon_ai=debug)", "", true)] }

  /** The modal that `c` is for on the Calls tab, given the focused call. */
  predicate CallKeyOpens(s: State, c: char, m: Modal) {
    var focus := Focus(s.nodes, s.sel);
    if c == 'o' then
      m == Input(Form(OriginateForm,
                      if s.sel.filter.Some? then s.sel.filter.value else if focus.Some? then focus.value.node else 0,
                      None, OriginateFields(), 0))
    else
      && focus.Some?
      && var node, id := focus.value.node, focus.value.callId;
         || (c == 'x' && m.Confirm? && m.action == Hangup(node, id) && Asks(m.prompt, "hangup " + id, s, node))
         || (c == 'p' && m.Confirm? && m.action == Park(node, id) && Asks(m.prompt, "park " + id, s, node))
         || (c == 'u' && m == Input(Form(RetrieveForm, node, Some(id), RetrieveFields(), 0)))
         || (c == 'c' && m == Input(Form(ConferenceForm, node, Some(id), ConferenceFields(), 0)))
  }

  predicate RoomKeyOpens(s: State, c: char, m: Modal) {
    var row := RowUnderCursor(s.nodes, s.sel);
    && row.Some?
    && var node := row.value.node;
       match row.value.kind
       case RoomRow(room, _, _) =>
         c == 'x' && m.Confirm? && m.action == EndConference(node, room) && Asks(m.prompt, "end room " + room, s, node)
       case ParticipantRow(room, id) =>
         && c == 'x' && m.Confirm? && m.action == RemoveParticipant(node, room, id)
         && Asks(m.prompt, "kick " + id + " from " + room, s, node)
       case ParkedRow(id, _, _) =>
         || (c == 'x' && m.Confirm? && m.action == Hangup(node, id) && Asks(m.prompt, "hangup parked " + id, s, node))
         || (c == 'u' && m == Input(Form(RetrieveForm, node, Some(id), RetrieveFields(), 0)))
  }

  predicate SystemKeyOpens(s: State, c: char, m: Modal) {
    var under := NodeUnderCursor(s.nodes, s.sel);
    && under.Some?
    && var node := under.value;
       || (c == 'L' && m == Input(Form(LogFilterForm, node, None, LogFields(), 0)))
       || (&& c == 'H' && m.Confirm? && m.action == HepProbe(node)
           && Asks(m.prompt, "emit HEP probe packet", s, node))
       || (&& c == 'D' && m.Confirm? && m.action == StartDrain(node)
           && Asks(m.prompt, "START GRACEFUL DRAIN (stops taking calls!)", s, node))
  }

  predicate KeyOpens(s: State, c: char, m: Modal) {
    match s.sel.tab
    case Calls => CallKeyOpens(s, c, m)
    case Rooms => RoomKeyOpens(s, c, m)
    case System => SystemKeyOpens(s, c, m)
    case _ => false
  }

  lemma GuardedExactly(s: State, node: NodeId, required: Role, built: Modal, m: Modal)
    requires s.modal.None?
    ensures Guarded(s, node, required, built).modal == Some(m) <==>
              m == built && !s.readOnly && (RoleOn(s, node).Some? ==> required.Rank() <= RoleOn(s, node).value.Rank())
  {
  }

  lemma RanksMean(known: Option<Role>, admin: bool)
    ensures MayAct(known, admin) <==>
              (known.Some? ==> (if admin then Admin else Operator).Rank() <= known.value.Rank())
  {
  }

  lemma SplitPrompt(what: string, name: string)
    ensures Ask(what, name) == what + (" on " + name + "? (y/n)")
  {
  }

  lemma ConfirmCallExactly(s: State, m: Modal)
    requires s.modal.None? && s.sel.tab.Calls?
    ensures ConfirmCall(s, HangupOf).modal == Some(m) <==> CallKeyOpens(s, 'x', m) && ModalAllowed(s, m)
    ensures ConfirmCall(s, ParkOf).modal == Some(m) <==> CallKeyOpens(s, 'p', m) && ModalAllowed(s, m)
  {
    var focus := Focus(s.nodes, s.sel);
    if focus.Some? {
      var node, id := focus.value.node, focus.value.callId;
      RanksMean(RoleOn(s, node), false);
      SplitPrompt("hangup " + id, s.nodes[node].name);
      SplitPrompt("park " + id, s.nodes[node].name);
      assert "hangup" + " " == "hangup " && "park" + " " == "park ";
    }
  }

  lemma CallFormExactly(s: State, m: Modal)
    requires s.modal.None? && s.sel.tab.Calls?
    ensures CallForm(s, RetrieveForm).modal == Some(m) <==> CallKeyOpens(s, 'u', m) && ModalAllowed(s, m)
    ensures CallForm(s, ConferenceForm).modal == Some(m) <==> CallKeyOpens(s, 'c', m) && ModalAllowed(s, m)
  {
    var focus := Focus(s.nodes, s.sel);
    if focus.Some? { RanksMean(RoleOn(s, focus.value.node), false); }
    assert Blank(RetrieveForm) == RetrieveFields() && Blank(ConferenceForm) == ConferenceFields();
  }

  lemma OriginateExactly(s: State, m: Modal)
    requires s.modal.None? && s.sel.tab.Calls?
    ensures OriginateFormAt(s).modal == Some(m) <==> CallKeyOpens(s, 'o', m) && ModalAllowed(s, m)
  {
    var node := OriginateNode(s);
    RanksMean(RoleOn(s, node), true);
    GuardedExactly(s, node, Admin, Input(Form(OriginateForm, node, None, OriginateFields(), 0)), m);
  }

  lemma CallKeys(s: State, c: char, m: Modal)
    requires s.modal.None? && s.sel.tab.Calls?
    ensures ActionPress(s, c).modal == Some(m) <==> CallKeyOpens(s, c, m) && ModalAllowed(s, m)
  {
    if c == 'x' || c == 'p' { ConfirmCallExactly(s, m); }
    else if c == 'u' || c == 'c' { CallFormExactly(s, m); }
    else if c == 'o' { OriginateExactly(s, m); }
  }

  lemma RoomKeys(s: State, c: char, m: Modal)
    requires s.modal.None? && s.sel.tab.Rooms?
    ensures ActionPress(s, c).modal == Some(m) <==> RoomKeyOpens(s, c, m) && ModalAllowed(s, m)
  {
    var row := RowUnderCursor(s.nodes, s.sel);
    if row.Some? {
      RanksMean(RoleOn(s, row.value.node), false);
      SplitPrompt(RowWords(row.value.kind), s.nodes[row.value.node].name);
    }
  }

  lemma SystemKeys(s: State, c: char, m: Modal)
    requires s.modal.None? && s.sel.tab.System?
    ensures ActionPress(s, c).modal == Some(m) <==> SystemKeyOpens(s, c, m) && ModalAllowed(s, m)
  {
    var under := NodeUnderCursor(s.nodes, s.sel);
    if under.Some? {
      RanksMean(RoleOn(s, under.value), true);
      SplitPrompt(PROBE_WORDS, s.nodes[under.value].name);
      SplitPrompt(DRAIN_WORDS, s.nodes[under.value].name);
    }
  }

  lemma ActionKeys(s: State, c: char, m: Modal)
    requires s.modal.None?
    ensures ActionPress(s, c).modal == Some(m) <==> KeyOpens(s, c, m) && ModalAllowed(s, m)
  {
    match s.sel.tab
    case Calls => CallKeys(s, c, m);
    case Rooms => RoomKeys(s, c, m);
    case System => SystemKeys(s, c, m);
    case _ =>
  }

  /** The keys that do the same on every tab. */
  predicate EverywhereKey(c: char) {
    '1' <= c <= '6' || c == 'n' || c == 'j' || c == 'k' || c == 'g' || c == 'G'
  }

  lemma EverywhereKeysOpenNothing(s: State, c: char)
    requires s.modal.None? && EverywhereKey(c)
    ensures CharPress(s, c).modal.None?
  {
  }

  lemma LadderKeysOpenNothing(s: State, code: Code, m: Modal)
    requires s.modal.None? && s.sel.tab.Calls? && LadderTakes(code)
    ensures LadderPress(s, code).modal.None? && (code.Char? ==> !KeyOpens(s, code.c, m))
  {
    var effect := LadderPressDoes(s, code);
  }

  lemma CharKeys(s: State, c: char, m: Modal)
    requires s.modal.None?
    ensures CharPress(s, c).modal == Some(m) <==> KeyOpens(s, c, m) && ModalAllowed(s, m)
  {
    if EverywhereKey(c) { EverywhereKeysOpenNothing(s, c); } else { ActionKeys(s, c, m); }
  }

  lemma PlainKeys(s: State, code: Code, ctrl: bool, m: Modal)
    requires s.modal.None?
    ensures PlainPress(s, code, ctrl).modal == Some(m) <==>
              && code.Char? && !(code.c == 'c' && ctrl)
              && KeyOpens(s, code.c, m) && ModalAllowed(s, m)
  {
    if code.Char? { CharKeys(s, code.c, m); }
  }

  /** Main result: with no modal up, an event leaves this modal open exactly when it is the
      press of a key that is for it on this tab, with this target and these words, the
      console is not read-only and the role learned for the node allows its action. */
  lemma KeyOpensExactly(s: State, e: Event, m: Modal)
    requires s.modal.None?
    ensures Press(s, e).app.modal == Some(m) <==>
              && e.KeyEvent? && e.pressed && e.code.Char? && !(e.code.c == 'c' && e.ctrl)
              && KeyOpens(s, e.code.c, m) && ModalAllowed(s, m)
  {
    if e.OtherEvent? || !e.pressed {
      assert Press(s, e).app == s;
    } else if s.ladder.open && s.sel.tab.Calls? && LadderTakes(e.code) {
      LadderKeysOpenNothing(s, e.code, m);
    } else {
      PlainKeys(s, e.code, e.ctrl, m);
    }
  }

  // --- 2. What a refused key says -------------------------------------

  /** Why an action on `node` is not to be opened. */
  function Blocked(s: State, node: NodeId, admin: bool): Option<ToastText> {
    if s.readOnly then Some(ReadOnlyMode)
    else if MayAct(RoleOn(s, node), admin) then None
    else if node < |s.nodes| then Some(RoleTooLow(s.nodes[node].name, if admin then Admin else Operator))
    else None
  }

  /** What the action key `c` has to say instead of opening something. */
  function Complaint(s: State, c: char): Option<ToastText> {
    match s.sel.tab
    case Calls =>
      var focus := Focus(s.nodes, s.sel);
      if c == 'o' then
        Blocked(s, if s.sel.filter.Some? then s.sel.filter.value else if focus.Some? then focus.value.node else 0, true)
      else if c == 'x' || c == 'p' || c == 'u' || c == 'c' then
        if focus.Some? then Blocked(s, focus.value.node, false) else Some(NoCallSelected)
      else None
    case Rooms =>
      var row := RowUnderCursor(s.nodes, s.sel);
      if c == 'x' then if row.Some? then Blocked(s, row.value.node, false) else Some(NothingSelected)
      else if c == 'u' then
        if row.None? then Some(NothingSelected)
        else if !row.value.kind.ParkedRow? then Some(SelectParked)
        else Blocked(s, row.value.node, false)
      else None
    case System =>
      var under := NodeUnderCursor(s.nodes, s.sel);
      if under.Some? && (c == 'L' || c == 'H' || c == 'D') then Blocked(s, under.value, true) else None
    case _ => None
  }

  /** `text` was the one thing said, as a failure. */
  predicate Complains(s: State, t: State, text: ToastText) {
    t == s.(notices := PushToast(s.notices, text, false))
  }

  lemma GuardedComplains(s: State, node: NodeId, admin: bool, m: Modal)
    ensures var t := Guarded(s, node, if admin then Admin else Operator, m);
            match Blocked(s, node, admin)
            case None => t == s.(modal := Some(m))
            case Some(text) => Complains(s, t, text)
  {
    RanksMean(RoleOn(s, node), admin);
  }

  lemma CallKeysComplain(s: State, c: char, text: ToastText)
    requires s.sel.tab.Calls? && Complaint(s, c) == Some(text)
    ensures Complains(s, ActionPress(s, c), text)
  {
    var focus := Focus(s.nodes, s.sel);
    if c == 'o' {
      var node := OriginateNode(s);
      GuardedComplains(s, node, true, Input(Form(OriginateForm, node, None, Blank(OriginateForm), 0)));
    } else if focus.Some? {
      var node, id := focus.value.node, focus.value.callId;
      GuardedComplains(s, node, false, Confirm(HangupOf(focus.value), Ask("hangup" + " " + id, s.nodes[node].name)));
      GuardedComplains(s, node, false, Confirm(ParkOf(focus.value), Ask("park" + " " + id, s.nodes[node].name)));
      GuardedComplains(s, node, false, Input(Form(RetrieveForm, node, Some(id), Blank(RetrieveForm), 0)));
      GuardedComplains(s, node, false, Input(Form(ConferenceForm, node, Some(id), Blank(ConferenceForm), 0)));
    }
  }

  lemma OtherKeysComplain(s: State, c: char, text: ToastText)
    requires (s.sel.tab.Rooms? || s.sel.tab.System?) && Complaint(s, c) == Some(text)
    ensures Complains(s, ActionPress(s, c), text)
  {
    var row, under := RowUnderCursor(s.nodes, s.sel), NodeUnderCursor(s.nodes, s.sel);
    if s.sel.tab.Rooms? && row.Some? {
      RanksMean(RoleOn(s, row.value.node), false);
    } else if s.sel.tab.System? && under.Some? {
      RanksMean(RoleOn(s, under.value), true);
    }
  }

  lemma ActionKeysReachActions(s: State, c: char, ctrl: bool)
    requires s.modal.None? && c in {'x', 'p', 'u', 'c', 'o', 'L', 'H', 'D'} && !(c == 'c' && ctrl)
    ensures Press(s, KeyEvent(Char(c), ctrl, true)) == Reply(ActionPress(s, c), None)
  {
  }

  /** An action key that opens nothing says why, once, as a failure, and does no more. */
  lemma RefusalSaysWhy(s: State, c: char, ctrl: bool)
    requires s.modal.None? && Complaint(s, c).Some? && !(c == 'c' && ctrl)
    ensures Complains(s, Press(s, KeyEvent(Char(c), ctrl, true)).app, Complaint(s, c).value)
    ensures Press(s, KeyEvent(Char(c), ctrl, true)).action == None
  {
    ActionKeysReachActions(s, c, ctrl);
    if s.sel.tab.Calls? { CallKeysComplain(s, c, Complaint(s, c).value); }
    else { OtherKeysComplain(s, c, Complaint(s, c).value); }
  }

  // --- 3. The other keys ----------------------------------------------

  /** The tabs in their order on screen. */
  function Tabs(): seq<Tab> { [Overview, Trunks, Calls, Rooms, Errors, System] }

  lemma TabsGoRound(i: nat)
    requires i < 6
    ensures NextTab(Tabs()[i]) == Tabs()[(i + 1) % 6] && PrevTab(Tabs()[i]) == Tabs()[(i + 5) % 6]
  {
  }

  /** `code` is one of two ways to press the same. */
  predicate Either(code: Code, c: char, other: Code) { code == Char(c) || code == other }

  predicate LadderOwns(s: State, code: Code) {
    && s.ladder.open && s.sel.tab.Calls?
    && (|| code == Esc || code == Enter || code == Char('s') || code == Char('y')
        || Either(code, 'j', Code.Down) || Either(code, 'k', Code.Up))
  }

  lemma PlainWhenNotOwned(s: State, code: Code, ctrl: bool)
    requires s.modal.None? && !LadderOwns(s, code)
    ensures Press(s, KeyEvent(code, ctrl, true)) == Reply(PlainPress(s, code, ctrl), None)
  {
  }

  /** With no modal up and the ladder not taking the key: keys without a letter. */
  lemma PlainKeysMean(s: State, code: Code, ctrl: bool)
    requires s.modal.None? && !LadderOwns(s, code)
    ensures var t := Press(s, KeyEvent(code, ctrl, true)).app;
            match code
            case Esc => t == s.(shouldQuit := true)
            case TabKey => t == s.(sel := s.sel.(tab := NextTab(s.sel.tab)))
            case BackTab => t == s.(sel := s.sel.(tab := PrevTab(s.sel.tab)))
            case Down => t == Select(s, Next)
            case Up => t == Select(s, Prev)
            case Home => t == Select(s, First)
            case End => t == Select(s, Final)
            case Char(_) => true
            case _ => t == s
  {
    PlainWhenNotOwned(s, code, ctrl);
  }

  /** And the letters that mean the same on every tab; `c` with control quits. */
  lemma PlainLettersMean(s: State, c: char, ctrl: bool)
    requires s.modal.None? && !LadderOwns(s, Char(c))
    ensures var t := Press(s, KeyEvent(Char(c), ctrl, true)).app;
            && (c == 'q' || (c == 'c' && ctrl) ==> t == s.(shouldQuit := true))
            && (c == 'n' ==> t == CycleFilter(s))
            && (c == 'j' ==> t == Select(s, Next)) && (c == 'k' ==> t == Select(s, Prev))
            && (c == 'g' ==> t == Select(s, First)) && (c == 'G' ==> t == Select(s, Final))
  {
    PlainWhenNotOwned(s, Char(c), ctrl);
  }

  /** `s` puts the ladder up, asking afresh. */
  lemma LadderOpens(s: State, ctrl: bool)
    requires s.modal.None? && s.sel.tab.Calls? && !s.ladder.open
    ensures Press(s, KeyEvent(Char('s'), ctrl, true)).app
         == s.(ladder := LadderPane(true, Focus(s.nodes, s.sel), Loading, 0, false))
  {
    PlainWhenNotOwned(s, Char('s'), ctrl);
  }

  lemma DigitsChooseTabs(s: State, ctrl: bool, i: nat)
    requires s.modal.None? && i < 6
    ensures Press(s, KeyEvent(Char("123456"[i]), ctrl, true)).app == s.(sel := s.sel.(tab := Tabs()[i]))
  {
  }

  /** While the ladder is up on the Calls tab these keys are its own. */
  lemma LadderKeysMean(s: State, code: Code, ctrl: bool)
    requires s.modal.None? && LadderOwns(s, code)
    ensures var t, pane, n := Press(s, KeyEvent(code, ctrl, true)).app, s.ladder, s.ladder.state.Count();
            && (code == Esc && pane.expanded ==> t == s.(ladder := pane.(expanded := false)))
            && (code == Char('s') || (code == Esc && !pane.expanded) ==>
                  t == s.(ladder := pane.(open := false, expanded := false)))
            && (code == Enter ==> t == s.(ladder := pane.(expanded := !pane.expanded)))
            && (Either(code, 'k', Code.Up) ==>
                  t == s.(ladder := pane.(selected := if pane.selected > 0 then pane.selected - 1 else 0)))
            && (Either(code, 'j', Code.Down) ==>
                  t == s.(ladder := pane.(selected := if n == 0 then pane.selected
                                                      else if pane.selected + 1 < n then pane.selected + 1
                                                      else n - 1)))
            && (code == Char('y') ==>
                  t == s.(notices := match SelectedMessage(pane)
                                     case None => PushToast(s.notices, NothingToCopy, false)
                                     case Some(payload) => PushToast(s.notices, CopiedBytes(|payload|), true)))
  {
  }

  /** The message under the ladder's cursor. */
  lemma SelectedIsUnderCursor(pane: LadderPane)
    ensures SelectedMessage(pane).Some? <==> pane.state.Ready? && pane.selected < |pane.state.messages|
    ensures SelectedMessage(pane).Some? ==> SelectedMessage(pane).value == pane.state.messages[pane.selected]
  {
  }

  // --- 4. Confirms and forms ------------------------------------------

  /** A confirm is answered by y or Enter, dropped by n or Esc, and deaf to all else. */
  lemma ConfirmKeysMean(s: State, code: Code, ctrl: bool)
    requires s.modal.Some? && s.modal.value.Confirm?
    ensures var r := Press(s, KeyEvent(code, ctrl, true));
            if Either(code, 'y', Enter) then r == Reply(s.(modal := None), Some(s.modal.value.action))
            else if Either(code, 'n', Esc) then r == Reply(s.(modal := None), None)
            else r == Reply(s, None)
  {
  }

  /** What is typed goes into the active field alone, at its end. */
  lemma TypingMeans(form: Form, code: Code, ctrl: bool)
    requires Shaped(form)
    ensures var edited, value, n := Edited(form, code, ctrl), form.fields[form.active].value, |form.fields|;
            && edited == form.(fields := edited.fields, active := edited.active) && |edited.fields| == n
            && (forall i | 0 <= i < n && i != form.active :: edited.fields[i] == form.fields[i])
            && edited.fields[form.active] == form.fields[form.active].(value := edited.fields[form.active].value)
            && edited.fields[form.active].value
               == (match code
                   case Char(c) => if ctrl then value else value + [c]
                   case Backspace => if value == "" then "" else value[..|value| - 1]
                   case _ => value)
  {
  }

  /** Tab and Down go round the fields forwards, their reverses backwards; no other key moves. */
  lemma TabbingMeans(form: Form, code: Code, ctrl: bool)
    requires Shaped(form)
    ensures var n := |form.fields|;
            Edited(form, code, ctrl).active
            == (match code
                case TabKey => if form.active + 1 < n then form.active + 1 else 0
                case Down => if form.active + 1 < n then form.active + 1 else 0
                case BackTab => if form.active > 0 then form.active - 1 else n - 1
                case Up => if form.active > 0 then form.active - 1 else n - 1
                case _ => form.active)
  {
    RoundForwards(form.active, |form.fields|);
    RoundBackwards(form.active, |form.fields|);
  }

  lemma RoundForwards(i: nat, n: nat)
    requires i < n
    ensures (i + 1) % n == if i + 1 < n then i + 1 else 0
  {
  }

  lemma RoundBackwards(i: nat, n: nat)
    requires i < n
    ensures (i + n - 1) % n == if i > 0 then i - 1 else n - 1
  {
    if i > 0 { OnceRound(i - 1, n); }
  }

  lemma OnceRound(x: nat, n: nat)
    requires x < n
    ensures (x + n) % n == x
  {
    var q, r := (x + n) / n, (x + n) % n;
    assert x + n == q * n + r;
    TimesAtLeast(2, q, n);
    TimesAtLeast(q, 0, n);
  }

  lemma TimesAtLeast(p: nat, q: nat, n: nat)
    ensures p <= q ==> p * n <= q * n
  {
  }

  /** The trimmed text of the field called `name`, where there is one. */
  predicate Says(form: Form, name: string, text: string) {
    exists i | 0 <= i < |form.fields| :: form.fields[i].name == name && text == Trim(form.fields[i].value)
  }

  predicate SaysIfAny(form: Form, name: string, text: Option<string>) {
    Says(form, name, if text.Some? then text.value else "") && text != Some("")
  }

  /** Each submitted text is that of the field so called, and a form is refused exactly for
      its first required field that holds nothing but white space. */
  lemma SubmitTakesFields(form: Form)
    requires Shaped(form)
    ensures match Submit(form)
            case Missing(name) =>
              exists i | 0 <= i < |form.fields| ::
                && form.fields[i].name == name && form.fields[i].required && Trim(form.fields[i].value) == ""
                && forall j | 0 <= j < i :: !(form.fields[j].required && Trim(form.fields[j].value) == "")
            case Submitted(a) =>
              && (forall i | 0 <= i < |form.fields| && form.fields[i].required :: Trim(form.fields[i].value) != "")
              && match form.kind
                 case RetrieveForm =>
                   && a.Retrieve? && a.node == form.node && (form.callId.Some? ==> a.callId == form.callId.value)
                   && SaysIfAny(form, "ws_url (blank = original)", a.wsUrl)
                 case ConferenceForm =>
                   && a.AddToConference? && a.node == form.node && (form.callId.Some? ==> a.callId == form.callId.value)
                   && Says(form, "room id", a.roomId)
                 case OriginateForm =>
                   && a.Originate? && a.node == form.node
                   && Says(form, "to (number/user)", a.to) && Says(form, "gateway", a.gateway)
                   && SaysIfAny(form, "ws_url (blank = default)", a.wsUrl)
                 case LogFilterForm =>
                   a.SetLogFilter? && a.node == form.node && Says(form, "directive (e.g. siphon_ai=debug)", a.directive)
  {
    assert forall i | 0 <= i < |form.fields| :: form.fields[i].name == Blank(form.kind)[i].name;
    if Submit(form).Missing? {
      var i := FirstMissing(form.fields).value;
      assert LeftBlank(form.fields[i]) && forall j | 0 <= j < i :: !LeftBlank(form.fields[j]);
    } else {
      forall i | 0 <= i < |form.fields| && form.fields[i].required ensures Trim(form.fields[i].value) != "" {
        assert !LeftBlank(form.fields[i]);
      }
      assert form.fields[0].name == Blank(form.kind)[0].name;
      if form.kind.OriginateForm? {
        assert form.fields[1].name == "gateway" && form.fields[2].name == "ws_url (blank = default)";
      }
    }
  }

  /** In a form Esc drops it, Enter submits it or says which field is missing, and every
      other key edits it. */
  lemma FormKeysMean(s: State, code: Code, ctrl: bool)
    requires s.modal.Some? && s.modal.value.Input? && FormReady(s.modal)
    ensures var r, form := Press(s, KeyEvent(code, ctrl, true)), s.modal.value.form;
            if code == Esc then r == Reply(s.(modal := None), None)
            else if code == Enter then
              r == match Submit(form)
                   case Submitted(a) => Reply(s.(modal := None), Some(a))
                   case Missing(name) =>
                     Reply(s.(notices := PushToast(s.notices, FieldRequired(name), false)), None)
            else r == Reply(s.(modal := Some(Input(Edited(form, code, ctrl)))), None)
  {
  }

  // --- 5. Over whole sessions -----------------------------------------

  /** What each key is for, by tab: the action it can lead to. */
  predicate KeyMeans(tab: Tab, c: char, a: Action) {
    match tab
    case Calls =>
      || (c == 'x' && a.Hangup?) || (c == 'p' && a.Park?) || (c == 'u' && a.Retrieve?)
      || (c == 'c' && a.AddToConference?) || (c == 'o' && a.Originate?)
    case Rooms =>
      || (c == 'x' && (a.EndConference? || a.RemoveParticipant? || a.Hangup?))
      || (c == 'u' && a.Retrieve?)
    case System => (c == 'L' && a.SetLogFilter?) || (c == 'H' && a.HepProbe?) || (c == 'D' && a.StartDrain?)
    case _ => false
  }

  /** The words a confirm asks with are those of its own action. */
  predicate WordsFit(tab: Tab, a: Action, prompt: string, name: string) {
    var tail := " on " + name + "? (y/n)";
    match a
    case Hangup(_, id) => prompt == (if tab.Rooms? then "hangup parked " + id else "hangup " + id) + tail
    case Park(_, id) => prompt == "park " + id + tail
    case EndConference(_, room) => prompt == "end room " + room + tail
    case RemoveParticipant(_, room, id) => prompt == "kick " + id + " from " + room + tail
    case HepProbe(_) => prompt == "emit HEP probe packet" + tail
    case StartDrain(_) => prompt == "START GRACEFUL DRAIN (stops taking calls!)" + tail
    case _ => false
  }

  lemma CallKeyGives(s: State, c: char, m: Modal, a: Action)
    requires s.sel.tab.Calls? && CallKeyOpens(s, c, m) && m.Confirm? && m.action == a
    ensures KeyMeans(Calls, c, a) && a.node < |s.nodes| && WordsFit(Calls, a, m.prompt, s.nodes[a.node].name)
  {
  }

  lemma RoomKeyGives(s: State, c: char, m: Modal, a: Action)
    requires s.sel.tab.Rooms? && RoomKeyOpens(s, c, m) && m.Confirm? && m.action == a
    ensures KeyMeans(Rooms, c, a) && a.node < |s.nodes| && WordsFit(Rooms, a, m.prompt, s.nodes[a.node].name)
  {
  }

  lemma SystemKeyGives(s: State, c: char, m: Modal, a: Action)
    requires s.sel.tab.System? && SystemKeyOpens(s, c, m) && m.Confirm? && m.action == a
    ensures KeyMeans(System, c, a) && a.node < |s.nodes| && WordsFit(System, a, m.prompt, s.nodes[a.node].name)
  {
  }

  lemma ConfirmGives(s: State, c: char, m: Modal, a: Action)
    requires KeyOpens(s, c, m) && m.Confirm? && m.action == a
    ensures KeyMeans(s.sel.tab, c, a)
    ensures a.node < |s.nodes| && WordsFit(s.sel.tab, a, m.prompt, s.nodes[a.node].name)
  {
    match s.sel.tab
    case Calls => CallKeyGives(s, c, m, a);
    case Rooms => RoomKeyGives(s, c, m, a);
    case System => SystemKeyGives(s, c, m, a);
    case _ =>
  }

  /** Which action a form of each kind comes to. */
  predicate FormMeans(kind: FormKind, a: Action) {
    match kind
    case RetrieveForm => a.Retrieve?
    case ConferenceForm => a.AddToConference?
    case OriginateForm => a.Originate?
    case LogFilterForm => a.SetLogFilter?
  }

  lemma FormGives(s: State, c: char, first: Modal, form: Form, a: Action)
    requires KeyOpens(s, c, first) && first.Input? && SameTarget(first, Input(form))
    requires FormMeans(form.kind, a) && a.node == form.node
    ensures KeyMeans(s.sel.tab, c, a) && a.node == first.form.node && NeedsAdmin(a) == FormNeedsAdmin(first.form.kind)
  {
  }

  lemma OpenedGives(s: State, c: char, first: Modal, m: Modal, a: Action)
    requires KeyOpens(s, c, first) && ModalAllowed(s, first) && SameTarget(first, m) && Gives(m, a)
    ensures KeyMeans(s.sel.tab, c, a) && MayAct(RoleOn(s, a.node), NeedsAdmin(a))
    ensures m.Confirm? ==> a.node < |s.nodes| && WordsFit(s.sel.tab, a, m.prompt, s.nodes[a.node].name)
  {
    if m.Input? {
      SubmitTakesFields(m.form);
      FormGives(s, c, first, m.form, a);
    } else {
      ConfirmGives(s, c, m, a);
    }
  }

  /** Event `j` pressed `c`, and that opened the modal still up after `ys`. */
  ghost predicate OpenedByKey(l: Launch, ys: seq<Happening>, j: nat, c: char) {
    && OpenedAt(l, ys, j)
    && IsPress(ys[j], c)
    && KeyOpens(After(l, ys[..j]), c, After(l, ys[..j + 1]).modal.value)
    && ModalAllowed(After(l, ys[..j]), After(l, ys[..j + 1]).modal.value)
  }

  predicate IsPress(x: Happening, c: char) {
    x.Typed? && x.event.KeyEvent? && x.event.pressed && x.event.code == Char(c)
  }

  lemma ModalHasKey(l: Launch, ys: seq<Happening>) returns (j: nat, c: char)
    requires After(l, ys).modal.Some?
    ensures OpenedByKey(l, ys, j, c)
  {
    j := ModalHasOrigin(l, ys);
    var s, m := After(l, ys[..j]), After(l, ys[..j + 1]).modal.value;
    assert ys[..j + 1][..j] == ys[..j];
    KeyOpensExactly(s, ys[j].event, m);
    c := ys[j].event.code.c;
  }

  /** What happened when the modal that gave `a` was opened: by which key, on which tab, to
      a role that allowed `a`, and in which words. */
  ghost predicate KeyWarrants(l: Launch, ys: seq<Happening>, j: nat, c: char, a: Action) {
    && OpenedByKey(l, ys, j, c)
    && a.node < |l.names|
    && var s, m := After(l, ys[..j]), After(l, ys).modal;
       && KeyMeans(s.sel.tab, c, a)
       && MayAct(ConsoleHistory.RoleAfter(ys[..j], a.node), NeedsAdmin(a))
       && (m.Some? && m.value.Confirm? ==> WordsFit(s.sel.tab, a, m.value.prompt, l.names[a.node]))
  }

  /** Main result: over every session the key that opened a modal fixes which action comes of
      it; the role last received for its node before that key allows it; and a confirm asks
      with that action's own words and its own node's name. */
  lemma DispatchFixedByKey(l: Launch, xs: seq<Happening>, k: nat)
    requires l.names != [] && k < |xs| && Fired(l, xs, k).Some?
    ensures !l.readOnly
    ensures exists j, c :: KeyWarrants(l, xs[..k], j, c, Fired(l, xs, k).value)
  {
    var ys, a := xs[..k], Fired(l, xs, k).value;
    FiredFromModal(l, xs, k);
    DispatchedWasPermitted(l, xs, k);
    var j, c := ModalHasKey(l, ys);
    var s := After(l, ys[..j]);
    OpenedGives(s, c, After(l, ys[..j + 1]).modal.value, After(l, ys).modal.value, a);
    AlwaysConsistent(l, ys[..j]);
    NotYetQuit(l, ys, j);
    ConsoleHistory.NodesAreAsReceived(l, ys[..j], a.node);
    assert KeyWarrants(l, ys, j, c, a);
  }

  lemma NotYetQuit(l: Launch, ys: seq<Happening>, j: nat)
    requires OpenedAt(l, ys, j)
    ensures !After(l, ys[..j]).shouldQuit
  {
    assert ys[..j + 1][..j] == ys[..j];
  }
}
