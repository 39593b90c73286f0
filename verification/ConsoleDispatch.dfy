/** What the fleet console hands to dispatch: every action was permitted, at its own
    required role, when its modal opened, and is about what the cursor was then on. */
module ConsoleDispatch {
  import opened Sequences
  import opened Console
  import opened Keymap
  import opened ConsoleRuns

  /** The texts an action carries were typed in, without white space around them. */
  predicate Filled(a: Action) {
    match a
    case AddToConference(_, _, roomId) => roomId != [] && Tight(roomId)
    case Originate(_, to, gateway, wsUrl) =>
      && to != [] && gateway != [] && Tight(to) && Tight(gateway)
      && (wsUrl.Some? ==> wsUrl.value != [] && Tight(wsUrl.value))
    case SetLogFilter(_, directive) => directive != [] && Tight(directive)
    case Retrieve(_, _, wsUrl) => wsUrl.Some? ==> wsUrl.value != [] && Tight(wsUrl.value)
    case _ => true
  }

  lemma TrimTight(s: string)
    ensures Tight(Trim(s))
  {
    var lead, trail := TrimExactly(s);
  }

  /** What a form submits needs the role the form was guarded with and keeps its target. */
  lemma SubmitMeans(form: Form)
    requires Shaped(form) && Submit(form).Submitted?
    ensures var a := Submit(form).action;
            && a.RequiredRole() == RoleOf(form.kind) && a.node == form.node && Filled(a)
            && (forall s :: FormUnder(s, form) ==> Under(s, a))
  {
    forall i | 0 <= i < |form.fields|
      ensures Tight(Trim(form.fields[i].value)) && !LeftBlank(form.fields[i])
    {
      TrimTight(form.fields[i].value);
    }
    assert forall i :: 0 <= i < |form.fields| ==> form.fields[i].required == Blank(form.kind)[i].required;
    forall s | FormUnder(s, form) ensures Under(s, Submit(form).action) {
      SubmitKeepsTarget(s, form);
    }
  }

  lemma SubmitKeepsTarget(s: State, form: Form)
    requires Shaped(form) && Submit(form).Submitted? && FormUnder(s, form)
    ensures Under(s, Submit(form).action)
  {
  }

  /** A modal has been up after every event since event `j`. */
  ghost predicate UpSince(l: Launch, xs: seq<Happening>, j: nat) {
    && j < |xs| && After(l, xs).modal.Some?
    && (j < |xs| - 1 ==> UpSince(l, xs[..|xs| - 1], j))
  }

  lemma {:induction false} UpThroughout(l: Launch, xs: seq<Happening>, j: nat, i: nat)
    requires UpSince(l, xs, j) && j < i <= |xs|
    ensures After(l, xs[..i]).modal.Some?
  {
    if i < |xs| {
      UpThroughout(l, xs[..|xs| - 1], j, i);
      assert xs[..|xs| - 1][..i] == xs[..i];
    } else {
      assert xs[..i] == xs;
    }
  }

  /** The modal open after `xs` was opened by event `j`, and open ever since. */
  ghost predicate OpenedAt(l: Launch, xs: seq<Happening>, j: nat) {
    && j < |xs| && xs[j].Typed?
    && After(l, xs[..j]).modal.None?
    && UpSince(l, xs, j)
    && var first := After(l, xs[..j + 1]).modal;
       && first.Some? && Aims(After(l, xs[..j]), first.value)
       && After(l, xs).modal.Some? && SameTarget(first.value, After(l, xs).modal.value)
  }

  lemma OneStepOpens(s: State, x: Happening)
    requires FormReady(s.modal) && s.modal.None? && Step(s, x).app.modal.Some?
    ensures x.Typed? && Aims(s, Step(s, x).app.modal.value)
  {
    if x.Received? {
      ReduceKeepsModal(s, x.msg);
      assert false;
    } else {
      var effect := PressDoes(s, x.event);
    }
  }

  lemma OneStepKeepsTarget(s: State, x: Happening)
    requires FormReady(s.modal) && s.modal.Some? && Step(s, x).app.modal.Some?
    ensures SameTarget(s.modal.value, Step(s, x).app.modal.value)
  {
    if x.Received? {
      ReduceKeepsModal(s, x.msg);
    } else {
      var effect := PressDoes(s, x.event);
    }
  }

  lemma StepOpens(l: Launch, xs: seq<Happening>)
    requires xs != [] && After(l, xs).modal.Some? && After(l, xs[..|xs| - 1]).modal.None?
    ensures xs[|xs| - 1].Typed? && Aims(After(l, xs[..|xs| - 1]), After(l, xs).modal.value)
  {
    OneStepOpens(After(l, xs[..|xs| - 1]), xs[|xs| - 1]);
  }

  lemma StepKeepsTarget(l: Launch, xs: seq<Happening>)
    requires xs != [] && After(l, xs).modal.Some? && After(l, xs[..|xs| - 1]).modal.Some?
    ensures SameTarget(After(l, xs[..|xs| - 1]).modal.value, After(l, xs).modal.value)
  {
    OneStepKeepsTarget(After(l, xs[..|xs| - 1]), xs[|xs| - 1]);
  }

  lemma StaysOpened(l: Launch, xs: seq<Happening>, j: nat)
    requires xs != [] && OpenedAt(l, xs[..|xs| - 1], j) && After(l, xs).modal.Some?
    requires SameTarget(After(l, xs[..|xs| - 1]).modal.value, After(l, xs).modal.value)
    ensures OpenedAt(l, xs, j)
  {
    var ys := xs[..|xs| - 1];
    assert ys[..j] == xs[..j] && ys[..j + 1] == xs[..j + 1];
  }

  /** Whatever happened while it was up, an open modal is the one some key opened. */
  lemma {:induction false} ModalHasOrigin(l: Launch, xs: seq<Happening>) returns (j: nat)
    requires After(l, xs).modal.Some?
    ensures OpenedAt(l, xs, j)
  {
    var last := |xs| - 1;
    if After(l, xs[..last]).modal.None? {
      StepOpens(l, xs);
      j := last;
      assert xs[..j + 1] == xs;
    } else {
      j := ModalHasOrigin(l, xs[..last]);
      StepKeepsTarget(l, xs);
      StaysOpened(l, xs, j);
    }
  }

  /** The modal gives this action when it is confirmed or submitted. */
  predicate Gives(m: Modal, a: Action) {
    match m
    case Confirm(b, _) => b == a
    case Input(form) => Shaped(form) && Submit(form) == Submitted(a)
  }

  lemma FiredFromModal(l: Launch, xs: seq<Happening>, k: nat)
    requires k < |xs| && Fired(l, xs, k).Some?
    ensures var s := After(l, xs[..k]);
            && s.modal.Some? && After(l, xs[..k + 1]).modal.None?
            && Gives(s.modal.value, Fired(l, xs, k).value)
  {
    assert xs[..k + 1][..k] == xs[..k];
  }

  lemma UnderExists(l: Launch, s: State, a: Action)
    requires Consistent(l, s) && Under(s, a)
    ensures a.node < |l.names|
  {
  }

  /** Event `j` opened the modal that was still open after `ys` and gave `a`. */
  ghost predicate WarrantedAt(l: Launch, ys: seq<Happening>, j: nat, a: Action) {
    && OpenedAt(l, ys, j)
    && Permitted(After(l, ys[..j]), a.node, a.RequiredRole())
    && Under(After(l, ys[..j]), a)
  }

  lemma AimCarriesOver(s: State, first: Modal, m: Modal, a: Action)
    requires Aims(s, first) && SameTarget(first, m) && Gives(m, a)
    ensures Permitted(s, a.node, a.RequiredRole()) && Under(s, a) && Filled(a)
  {
    if m.Input? {
      SubmitMeans(m.form);
      assert FormUnder(s, m.form);
    }
  }

  lemma OriginWarrants(l: Launch, xs: seq<Happening>, k: nat) returns (j: nat)
    requires l.names != [] && k < |xs| && Fired(l, xs, k).Some?
    ensures WarrantedAt(l, xs[..k], j, Fired(l, xs, k).value) && Filled(Fired(l, xs, k).value)
  {
    FiredFromModal(l, xs, k);
    j := ModalHasOrigin(l, xs[..k]);
    AimCarriesOver(After(l, xs[..k][..j]), After(l, xs[..k][..j + 1]).modal.value, After(l, xs[..k]).modal.value,
                   Fired(l, xs, k).value);
  }

  /** Main result: each dispatched action was permitted, at its own required role, when a
      key opened its modal, which stayed open until the key that dispatched it; it is about
      what the cursor was on at that opening; its node exists and its texts are filled in. */
  lemma DispatchedWasPermitted(l: Launch, xs: seq<Happening>, k: nat)
    requires l.names != [] && k < |xs| && Fired(l, xs, k).Some?
    ensures exists j :: WarrantedAt(l, xs[..k], j, Fired(l, xs, k).value)
    ensures Fired(l, xs, k).value.node < |l.names| && Filled(Fired(l, xs, k).value)
    ensures !l.readOnly
  {
    var j := OriginWarrants(l, xs, k);
    AlwaysConsistent(l, xs[..k][..j]);
    UnderExists(l, After(l, xs[..k][..j]), Fired(l, xs, k).value);
  }

  /** A prompt names the node its action goes to. */
  lemma PromptNamesNode(l: Launch, xs: seq<Happening>)
    requires l.names != [] && After(l, xs).modal.Some? && After(l, xs).modal.value.Confirm?
    ensures var m := After(l, xs).modal.value;
            m.action.node < |l.names| && Names(m.prompt, l.names[m.action.node])
  {
    var j := ModalHasOrigin(l, xs);
    AlwaysConsistent(l, xs[..j]);
  }

  /** No opening is used twice: between two dispatches a key opened another modal. */
  lemma DispatchedOnce(l: Launch, xs: seq<Happening>, k1: nat, k2: nat)
    requires l.names != [] && k1 < k2 < |xs| && Fired(l, xs, k1).Some? && Fired(l, xs, k2).Some?
    ensures exists j :: k1 < j < k2 && WarrantedAt(l, xs[..k2], j, Fired(l, xs, k2).value)
  {
    FiredFromModal(l, xs, k1);
    var ys := xs[..k2];
    assert ys[..k1 + 1] == xs[..k1 + 1];
    assert After(l, ys[..k1 + 1]).modal.None?;
    var j := OriginWarrants(l, xs, k2);
    if j <= k1 { UpThroughout(l, ys, j, k1 + 1); }
  }

  /** In read-only mode nothing ever opens, so nothing is dispatched. */
  lemma {:induction false} ReadOnlyDispatchesNothing(l: Launch, xs: seq<Happening>)
    requires l.names != [] && l.readOnly
    ensures After(l, xs).modal.None? && Sent(l, xs) == []
  {
    if After(l, xs).modal.Some? {
      var j := ModalHasOrigin(l, xs);
      AlwaysConsistent(l, xs[..j]);
      assert false;
    }
    if xs != [] {
      var k := |xs| - 1;
      ReadOnlyDispatchesNothing(l, xs[..k]);
      if Fired(l, xs, k).Some? {
        DispatchedWasPermitted(l, xs, k);
        assert false;
      }
    }
  }

  lemma ReduceKeepsModal(s: State, msg: Msg)
    ensures Reduce(s, msg).modal == s.modal && Reduce(s, msg).shouldQuit == s.shouldQuit
  {
  }

  lemma LastMessageKeepsModal(l: Launch, xs: seq<Happening>)
    requires xs != [] && xs[|xs| - 1].Received?
    ensures After(l, xs).modal == After(l, xs[..|xs| - 1]).modal
    ensures After(l, xs).shouldQuit == After(l, xs[..|xs| - 1]).shouldQuit
  {
    ReduceKeepsModal(After(l, xs[..|xs| - 1]), xs[|xs| - 1].msg);
  }

  lemma {:induction false} MessagesKeepModal(l: Launch, xs: seq<Happening>, n: nat)
    requires n <= |xs| && forall i :: n <= i < |xs| ==> xs[i].Received?
    ensures After(l, xs).modal == After(l, xs[..n]).modal
    ensures After(l, xs).shouldQuit == After(l, xs[..n]).shouldQuit
  {
    if n < |xs| {
      MessagesKeepModal(l, xs[..|xs| - 1], n);
      LastMessageKeepsModal(l, xs);
      assert xs[..|xs| - 1][..n] == xs[..n];
    } else {
      assert xs[..n] == xs;
    }
  }

  /** No message closes or changes a modal. In particular a role lowered after the modal
      opened does not stop its action: what the prompt showed after `n` events, whatever
      messages came since, is what Enter dispatches. */
  lemma ConfirmedAsShown(l: Launch, xs: seq<Happening>, n: nat)
    requires n <= |xs| && forall i :: n <= i < |xs| ==> xs[i].Received?
    requires !After(l, xs[..n]).shouldQuit
    requires After(l, xs[..n]).modal.Some? && After(l, xs[..n]).modal.value.Confirm?
    ensures Step(After(l, xs), Typed(KeyEvent(Enter, false, true))).action
         == Some(After(l, xs[..n]).modal.value.action)
  {
    MessagesKeepModal(l, xs, n);
  }

  // --- The main loop --------------------------------------------------

  lemma {:induction false} QuitIsFinal(l: Launch, xs: seq<Happening>, i: nat)
    requires i <= |xs| && After(l, xs[..i]).shouldQuit
    ensures After(l, xs) == After(l, xs[..i]) && Sent(l, xs) == Sent(l, xs[..i])
  {
    if i < |xs| {
      assert xs[..|xs| - 1][..i] == xs[..i];
      QuitIsFinal(l, xs[..|xs| - 1], i);
    } else {
      assert xs[..i] == xs;
    }
  }

  /** What the pollers are told to fetch: the focused call, and its ladder if that is open. */
  datatype PollFocus = PollFocus(call: Option<Key>, ladder: bool)

  /** One event: its effect on the console, and what it hands to dispatch. */
  method Take(app: App, x: Happening) returns (action: Option<Action>, printed: string)
    requires FormReady(app.modal) && !app.shouldQuit
    modifies app
    ensures Reply(app.View(), action) == Step(old(app.View()), x)
    ensures printed == if x.Typed? then Printed(old(app.View()), x.event) else ""
  {
    action, printed := None, "";
    match x {
      case Received(msg) => app.Update(msg);
      case Typed(event) => action, printed := Handle(app, event);
    }
  }

  method TakeNext(app: App, l: Launch, xs: seq<Happening>, i: nat, sent: seq<Action>) returns (more: seq<Action>)
    requires i < |xs| && !app.shouldQuit && app.View() == After(l, xs[..i]) && sent == Sent(l, xs[..i])
    modifies app
    ensures app.View() == After(l, xs[..i + 1]) && more == Sent(l, xs[..i + 1])
  {
    assert xs[..i + 1][..i] == xs[..i];
    assert FormReady(app.View().modal);
    var action, _ := Take(app, xs[i]);
    more := if action.Some? then sent + [action.value] else sent;
  }

  /** Take events until the console quits or there are no more, dispatching as they ask. */
  method Serve(app: App, l: Launch, xs: seq<Happening>) returns (sent: seq<Action>, focus: PollFocus)
    requires l.names != [] && app.View() == Initial(l.names, l.readOnly)
    modifies app
    ensures app.View() == After(l, xs) && sent == Sent(l, xs)
    ensures focus == PollFocus(Focus(app.nodes, app.Sel()), app.ladder.open)
  {
    sent, focus := [], PollFocus(None, false);
    FreshShowsNothing(l.names);
    var i := 0;
    while i < |xs| && !app.shouldQuit
      invariant 0 <= i <= |xs|
      invariant app.View() == After(l, xs[..i]) && sent == Sent(l, xs[..i])
      invariant focus == PollFocus(Focus(app.nodes, app.Sel()), app.ladder.open)
    {
      sent := TakeNext(app, l, xs, i, sent);
      var call := app.FocusedCall();
      if focus != PollFocus(call, app.ladder.open) { focus := PollFocus(call, app.ladder.open); }
      i := i + 1;
    }
    if app.shouldQuit { QuitIsFinal(l, xs, i); } else { assert xs[..i] == xs; }
  }
}
