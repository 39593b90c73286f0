/** What the fleet console shows after any session, said of what was received and pressed:
    tables, roles, totals and notices, where each move lands, and in which order calls are
    listed. */
module ConsoleHistory {
  import opened Sequences
  import opened Console
  import opened Keymap
  import opened ConsoleRuns
  import ConsolePanes

  // --- 1. Nodes -------------------------------------------------------

  /** The tables of the last successful poll of node `i`. */
  function ShownAfter(xs: seq<Happening>, i: NodeId): Snapshot {
    if xs == [] then Snapshot([], [], [], 0)
    else
      match xs[|xs| - 1]
      case Received(SnapshotMsg(node, Some(snap), _)) =>
        if node == i then snap else ShownAfter(xs[..|xs| - 1], i)
      case _ => ShownAfter(xs[..|xs| - 1], i)
  }

  /** Up or down as the last poll of node `i` went. */
  function HealthAfter(xs: seq<Happening>, i: NodeId): Health {
    if xs == [] then Connecting
    else
      match xs[|xs| - 1]
      case Received(SnapshotMsg(node, result, error)) =>
        if node != i then HealthAfter(xs[..|xs| - 1], i) else if result.Some? then Health.Up else Health.Down(error)
      case _ => HealthAfter(xs[..|xs| - 1], i)
  }

  /** The role last learned for node `i`: as probed, or after a refusal at most the one
      beneath what was refused. */
  function RoleAfter(xs: seq<Happening>, i: NodeId): Option<Role> {
    if xs == [] then None
    else
      var before := RoleAfter(xs[..|xs| - 1], i);
      match xs[|xs| - 1]
      case Received(RoleLearned(node, role)) => if node == i then Some(role) else before
      case Received(ActionOutcome(node, _, forbidden, required, _)) =>
        if node != i || !forbidden then before
        else if required == Admin && before != Some(ReadOnly) then Some(Operator)
        else Some(ReadOnly)
      case _ => before
  }

  lemma PressKeepsNodes(s: State, e: Event)
    requires FormReady(s.modal)
    ensures Press(s, e).app.nodes == s.nodes
  {
    var effect := PressDoes(s, e);
  }

  lemma ReduceNode(s: State, msg: Msg, i: NodeId)
    requires i < |s.nodes|
    ensures |Reduce(s, msg).nodes| == |s.nodes|
    ensures var n, n1 := s.nodes[i], Reduce(s, msg).nodes[i];
            && n1.name == n.name
            && n1.shown == (if msg.SnapshotMsg? && msg.node == i && msg.result.Some? then msg.result.value else n.shown)
            && n1.health == (if msg.SnapshotMsg? && msg.node == i
                             then (if msg.result.Some? then Health.Up else Health.Down(msg.error)) else n.health)
            && n1.role == (if msg.RoleLearned? && msg.node == i then Some(msg.role)
                           else if msg.ActionOutcome? && msg.node == i && msg.forbidden
                           then Some(if msg.required == Admin && n.role != Some(ReadOnly) then Operator else ReadOnly)
                           else n.role)
  {
  }

  /** Main result: until it quits, the console knows of each node exactly what was last
      received of it. */
  lemma {:induction false} NodesAreAsReceived(l: Launch, xs: seq<Happening>, i: NodeId)
    requires i < |l.names| && !After(l, xs).shouldQuit
    ensures |After(l, xs).nodes| == |l.names|
    ensures After(l, xs).nodes[i]
         == Node(l.names[i], HealthAfter(xs, i), ShownAfter(xs, i), RoleAfter(xs, i))
  {
    if xs != [] {
      var before, x := xs[..|xs| - 1], xs[|xs| - 1];
      NodesAreAsReceived(l, before, i);
      match x
      case Received(msg) => ReduceNode(After(l, before), msg, i);
      case Typed(event) => PressKeepsNodes(After(l, before), event);
    }
  }

  // --- 2. Totals and notices ------------------------------------------

  /** How many calls were known at each tick. */
  function TotalsAtTicks(l: Launch, xs: seq<Happening>): seq<nat> {
    if xs == [] then []
    else
      var before := xs[..|xs| - 1];
      TotalsAtTicks(l, before)
      + if xs[|xs| - 1] == Received(Tick) then [|VisibleCalls(After(l, before).nodes, None)|] else []
  }

  lemma {:induction false} TotalIsAllVisible(nodes: seq<Node>)
    ensures TotalCalls(nodes) == |VisibleCalls(nodes, None)|
  {
    if nodes != [] { TotalIsAllVisible(nodes[..|nodes| - 1]); }
  }

  lemma PressKeepsTotals(s: State, e: Event)
    requires FormReady(s.modal)
    ensures Press(s, e).app.notices.fleetHistory == s.notices.fleetHistory
  {
    var effect := PressDoes(s, e);
  }

  lemma ReduceTotals(s: State, msg: Msg, all: seq<nat>)
    requires s.notices.fleetHistory == ConsolePanes.Newest(all, 120)
    ensures Reduce(s, msg).notices.fleetHistory
         == ConsolePanes.Newest(all + (if msg.Tick? then [|VisibleCalls(s.nodes, None)|] else []), 120)
  {
    if msg.Tick? {
      TotalIsAllVisible(s.nodes);
      ConsolePanes.PushIsNewest(all, Some(TotalCalls(s.nodes)));
    } else {
      assert all + [] == all;
    }
  }

  /** The overview's history is the newest 120 fleet totals, one a tick. */
  lemma {:induction false} HistoryIsNewestTotals(l: Launch, xs: seq<Happening>)
    requires !After(l, xs).shouldQuit
    ensures After(l, xs).notices.fleetHistory == ConsolePanes.Newest(TotalsAtTicks(l, xs), 120)
  {
    if xs != [] {
      var before, x := xs[..|xs| - 1], xs[|xs| - 1];
      HistoryIsNewestTotals(l, before);
      StepTotals(After(l, before), x, TotalsAtTicks(l, before));
    }
  }

  lemma StepTotals(s: State, x: Happening, all: seq<nat>)
    requires FormReady(s.modal) && !s.shouldQuit && s.notices.fleetHistory == ConsolePanes.Newest(all, 120)
    ensures Step(s, x).app.notices.fleetHistory
         == ConsolePanes.Newest(all + (if x == Received(Tick) then [|VisibleCalls(s.nodes, None)|] else []), 120)
  {
    match x
    case Received(msg) => ReduceTotals(s, msg, all);
    case Typed(event) =>
      PressKeepsTotals(s, event);
      assert all + [] == all;
  }

  function AgedTimes(toasts: seq<Toast>, k: nat): seq<Toast> {
    if k == 0 then toasts else Aged(AgedTimes(toasts, k - 1))
  }

  /** A notice, as `NoticeComesLast` says it starts, is shown for five ticks. */
  lemma {:induction false} NoticeLivesFiveTicks(text: ToastText, ok: bool, k: nat)
    ensures AgedTimes([Toast(text, ok, 5)], k) == if k < 5 then [Toast(text, ok, 5 - k)] else []
  {
    if k > 0 {
      var before := AgedTimes([Toast(text, ok, 5)], k - 1);
      NoticeLivesFiveTicks(text, ok, k - 1);
      if k <= 5 {
        assert before == [Toast(text, ok, 6 - k)];
        OneAged(Toast(text, ok, 6 - k));
      } else {
        assert before == [];
      }
    }
  }

  lemma OneAged(t: Toast)
    ensures Aged([t]) == if t.ttl > 1 then [t.(ttl := t.ttl - 1)] else []
  {
    var none: seq<Toast> := [];
    assert [t][..0] == none && Aged(none) == none;
  }

  /** Notices age each by itself, in order. */
  lemma {:induction false} AgedApart(a: seq<Toast>, b: seq<Toast>)
    ensures Aged(a + b) == Aged(a) + Aged(b)
  {
    if b == [] {
      assert a + b == a;
    } else {
      AgedApart(a, b[..|b| - 1]);
      assert (a + b)[..|a + b| - 1] == a + b[..|b| - 1];
    }
  }

  /** The newest notice comes last, after the newest three before it. */
  lemma NoticeComesLast(n: Notices, text: ToastText, ok: bool)
    requires |n.toasts| <= 4
    ensures PushToast(n, text, ok).toasts == ConsolePanes.Newest(n.toasts + [Toast(text, ok, 5)], 4)
    ensures PushToast(n, text, ok).fleetHistory == n.fleetHistory
  {
  }

  /** A finished action is announced in its own words, a tick ages the notices, and no other
      message touches them. */
  lemma MessagesNotify(s: State, msg: Msg)
    ensures var toasts := s.notices.toasts;
            Reduce(s, msg).notices.toasts
            == (match msg
                case ActionOutcome(_, ok, _, _, text) => PushToast(s.notices, OutcomeText(text), ok).toasts
                case Tick => Aged(toasts)
                case _ => toasts)
  {
  }

  // --- 3. Where moves land --------------------------------------------

  /** `to` is where `move` lands from `from` in a list of `n`. */
  predicate Lands(move: Move, from: nat, n: nat, to: nat) {
    match move
    case Next => to == if from + 1 < n then from + 1 else if n > 0 then n - 1 else 0
    case Prev => to == if from > 0 then from - 1 else 0
    case First => to == 0
    case Final => to == if n > 0 then n - 1 else 0
  }

  /** A move goes along the list its tab shows and leaves the other selections, the tab and
      the filter as they were. */
  lemma MoveLands(s: State, move: Move)
    requires Selected(s.nodes, s.sel)
    ensures var a, b := s.sel, Select(s, move).sel;
            && b.tab == a.tab && b.filter == a.filter
            && (if a.tab == Rooms then Lands(move, a.room, |VisibleRooms(s.nodes, a.filter)|, b.room)
                else b.room == a.room)
            && (if a.tab == System then Lands(move, a.system, |VisibleSystem(|s.nodes|, a.filter)|, b.system)
                else b.system == a.system)
            && (if a.tab in {Rooms, System} then b.call == a.call
                else Lands(move, a.call, |VisibleCalls(s.nodes, a.filter)|, b.call))
    ensures Select(s, move).nodes == s.nodes && Select(s, move).modal == s.modal
    ensures Select(s, move).notices == s.notices && Select(s, move).shouldQuit == s.shouldQuit
  {
  }

  /** The filter goes from all nodes to each in turn and back to all. */
  lemma FilterGoesRound(s: State)
    ensures CycleFilter(s).sel.tab == s.sel.tab && CycleFilter(s).nodes == s.nodes
    ensures CycleFilter(s).sel.filter
         == if s.sel.filter == None then Some(0)
            else if s.sel.filter.value + 1 < |s.nodes| then Some(s.sel.filter.value + 1) else None
  {
  }

  /** A selection stays where it was while its list reaches that far, and else goes to the end. */
  lemma SelectionStays(nodes: seq<Node>, sel: Selection)
    ensures var c := Clamp(nodes, sel);
            && c.tab == sel.tab && c.filter == sel.filter
            && Stays(sel.call, |VisibleCalls(nodes, sel.filter)|, c.call)
            && Stays(sel.room, |VisibleRooms(nodes, sel.filter)|, c.room)
            && Stays(sel.system, |VisibleSystem(|nodes|, sel.filter)|, c.system)
  {
  }

  predicate Stays(from: nat, n: nat, to: nat) { to == if from < n then from else if n > 0 then n - 1 else 0 }

  /** A poll's answer clamps the selections over the new tables and touches no tab or filter. */
  lemma SnapshotClamps(s: State, msg: Msg)
    requires msg.SnapshotMsg? && msg.node < |s.nodes|
    ensures var t := Reduce(s, msg);
            && t.sel.tab == s.sel.tab && t.sel.filter == s.sel.filter
            && Stays(s.sel.call, |VisibleCalls(t.nodes, s.sel.filter)|, t.sel.call)
            && Stays(s.sel.room, |VisibleRooms(t.nodes, s.sel.filter)|, t.sel.room)
            && Stays(s.sel.system, |VisibleSystem(|t.nodes|, s.sel.filter)|, t.sel.system)
            && t.ladder.open == s.ladder.open && t.notices == s.notices
  {
    SelectionStays(Reduce(s, msg).nodes, s.sel);
  }

  /** The ladder's cursor stays on its message while there is one, and else goes to the last. */
  lemma LadderCursorStays(pane: LadderPane, key: Key, messages: seq<Payload>)
    requires pane.key == Some(key)
    ensures var p := LadderTaken(pane, key, messages, None);
            && p.state == Ready(messages) && Stays(pane.selected, |messages|, p.selected)
            && p.open == pane.open && p.expanded == pane.expanded && p.key == pane.key
  {
  }

  /** Following the cursor to another call leaves the ladder up if it was up. */
  lemma LadderFollows(s: State)
    ensures SyncFocus(s).ladder.open == s.ladder.open
    ensures s.ladder.key != Focus(s.nodes, s.sel) ==>
              SyncFocus(s).ladder == LadderPane(s.ladder.open, Focus(s.nodes, s.sel), Loading, 0, false)
    ensures s.ladder.key == Focus(s.nodes, s.sel) ==> SyncFocus(s).ladder == s.ladder
  {
  }

  // --- 4. The order of what is listed ---------------------------------

  function CallIfOf(id: NodeId, k: Key): Option<string> { if k.node == id then Some(k.callId) else None }

  lemma {:induction false} PickJoin<A, B>(f: A -> Option<B>, a: seq<A>, b: seq<A>)
    ensures Pick(f, a + b) == Pick(f, a) + Pick(f, b)
  {
    if b == [] {
      assert a + b == a;
    } else {
      PickJoin(f, a, b[..|b| - 1]);
      assert (a + b)[..|a + b| - 1] == a + b[..|b| - 1];
    }
  }

  lemma {:induction false} PickCallsOf(id: NodeId, calls: seq<string>, at: NodeId)
    ensures Pick(k => CallIfOf(at, k), CallsOf(id, calls)) == if id == at then calls else []
  {
    if calls != [] {
      var last := |calls| - 1;
      PickCallsOf(id, calls[..last], at);
      assert CallsOf(id, calls) == CallsOf(id, calls[..last]) + [Key(id, calls[last])];
      PickAppend(k => CallIfOf(at, k), CallsOf(id, calls[..last]), Key(id, calls[last]));
    }
  }

  /** The calls listed of one node are that node's, in its own order. */
  lemma {:induction false} CallsKeepNodeOrder(nodes: seq<Node>, filter: Option<NodeId>, at: NodeId)
    ensures Pick(k => CallIfOf(at, k), VisibleCalls(nodes, filter))
         == if at < |nodes| && (filter == None || filter == Some(at)) then nodes[at].shown.calls else []
  {
    if nodes != [] {
      var id := |nodes| - 1;
      CallsKeepNodeOrder(nodes[..id], filter, at);
      PickCallsOf(id, nodes[id].shown.calls, at);
      var own := if Passes(filter, id) then CallsOf(id, nodes[id].shown.calls) else [];
      PickJoin(k => CallIfOf(at, k), VisibleCalls(nodes[..id], filter), own);
    }
  }

  predicate CallsSorted(keys: seq<Key>) {
    forall i, j | 0 <= i < j < |keys| :: keys[i].node <= keys[j].node
  }

  predicate RowsSorted(rows: seq<RoomsRow>) {
    forall i, j | 0 <= i < j < |rows| :: rows[i].node <= rows[j].node
  }

  /** And the nodes come in fleet order. */
  lemma {:induction false} CallsInFleetOrder(nodes: seq<Node>, filter: Option<NodeId>)
    ensures CallsSorted(VisibleCalls(nodes, filter))
  {
    if nodes != [] {
      var id, keys := |nodes| - 1, VisibleCalls(nodes, filter);
      var earlier := VisibleCalls(nodes[..id], filter);
      CallsInFleetOrder(nodes[..id], filter);
      forall i, j | 0 <= i < j < |keys| ensures keys[i].node <= keys[j].node {
        if j < |earlier| {
          assert keys[i] == earlier[i] && keys[j] == earlier[j];
        } else {
          assert keys[i] in keys && keys[j] == (keys[|earlier|..])[j - |earlier|];
          assert keys[|earlier|..] == if Passes(filter, id) then CallsOf(id, nodes[id].shown.calls) else [];
          VisibleCallsExactly(nodes, filter, keys[i]);
        }
      }
    }
  }

  lemma {:induction false} RoomsInFleetOrder(nodes: seq<Node>, filter: Option<NodeId>)
    ensures RowsSorted(VisibleRooms(nodes, filter))
  {
    if nodes != [] {
      var id, rows := |nodes| - 1, VisibleRooms(nodes, filter);
      var earlier := VisibleRooms(nodes[..id], filter);
      RoomsInFleetOrder(nodes[..id], filter);
      forall i, j | 0 <= i < j < |rows| ensures rows[i].node <= rows[j].node {
        if j < |earlier| {
          assert rows[i] == earlier[i] && rows[j] == earlier[j];
        } else {
          assert rows[i] in rows;
          VisibleRoomsExactly(nodes, filter, rows[i]);
          var own := RowsOfRooms(id, nodes[id].shown.rooms) + RowsOfParked(id, nodes[id].shown.parked);
          assert rows == earlier + (if Passes(filter, id) then own else []) && rows[j] == own[j - |earlier|];
          LaterRowsOf(nodes[id], id, rows[j]);
        }
      }
    }
  }

  lemma LaterRowsOf(n: Node, id: NodeId, row: RoomsRow)
    ensures row in RowsOfRooms(id, n.shown.rooms) + RowsOfParked(id, n.shown.parked) ==> row.node == id
  {
    RoomRowsExactly(id, n.shown.rooms, row);
    ParkedRowsExactly(id, n.shown.parked, row);
  }

  /** A room's row is followed by those of its members, in order; parked calls come last. */
  lemma RoomThenMembers(id: NodeId, rooms: seq<Room>, r: Room, parked: seq<Parked>)
    ensures RowsOfRooms(id, rooms + [r])
         == RowsOfRooms(id, rooms) + RowsOfRoom(id, r)
    ensures |RowsOfRoom(id, r)| == 1 + |r.participants|
    ensures RowsOfRoom(id, r)[0] == RoomsRow(id, RoomRow(r.roomId, r.sampleRate, |r.participants|))
    ensures forall i | 0 <= i < |r.participants| ::
              RowsOfRoom(id, r)[1 + i] == RoomsRow(id, ParticipantRow(r.roomId, r.participants[i]))
    ensures |RowsOfParked(id, parked)| == |parked|
    ensures forall i | 0 <= i < |parked| ::
              RowsOfParked(id, parked)[i]
              == RoomsRow(id, ParkedRow(parked[i].callId, parked[i].slot, parked[i].parkedSecs))
  {
    assert (rooms + [r])[..|rooms|] == rooms;
  }
}
