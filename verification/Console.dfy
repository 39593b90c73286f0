/** The fleet console's state and its update function: what each message from the
    pollers, the clock and finished actions does to it. */
module Console {
  import opened Sequences

  type NodeId = nat

  /** The text of one SIP message, as its UTF-8 bytes. */
  type Payload = seq<Byte>

  const HISTORY_LEN: nat := 120
  const TOAST_MAX: nat := 4
  const TOAST_TTL: nat := 5

  datatype Tab = Overview | Trunks | Calls | Rooms | Errors | System

  datatype Role = ReadOnly | Operator | Admin
  {
    function Rank(): nat { match this case ReadOnly => 0 case Operator => 1 case Admin => 2 }
  }

  /** The composite key of a call: its node and its id there. */
  datatype Key = Key(node: NodeId, callId: string)

  datatype Action =
    | Hangup(node: NodeId, callId: string)
    | Park(node: NodeId, callId: string)
    | Retrieve(node: NodeId, callId: string, wsUrl: Option<string>)
    | AddToConference(node: NodeId, callId: string, roomId: string)
    | Originate(node: NodeId, to: string, gateway: string, wsUrl: Option<string>)
    | EndConference(node: NodeId, roomId: string)
    | SetLogFilter(node: NodeId, directive: string)
    | HepProbe(node: NodeId)
    | StartDrain(node: NodeId)
    | RemoveParticipant(node: NodeId, roomId: string, callId: string)
  {
    function RequiredRole(): Role {
      if Originate? || SetLogFilter? || HepProbe? || StartDrain? then Admin else Operator
    }
  }

  // --- Nodes and what is visible of them ------------------------------

  datatype Room = Room(roomId: string, sampleRate: nat, participants: seq<string>)

  datatype Parked = Parked(callId: string, slot: Option<string>, parkedSecs: nat)

  datatype Health = Connecting | Up | Down(error: string)

  /** One poll round's answer. `other` stands for the tables that are only shown. */
  datatype Snapshot = Snapshot(calls: seq<string>, rooms: seq<Room>, parked: seq<Parked>, other: nat)

  datatype Node = Node(name: string, health: Health, shown: Snapshot, role: Option<Role>)

  datatype RoomsRow = RoomsRow(node: NodeId, kind: RowKind)

  datatype RowKind =
    | RoomRow(roomId: string, sampleRate: nat, participants: nat)
    | ParticipantRow(roomId: string, callId: string)
    | ParkedRow(callId: string, slot: Option<string>, parkedSecs: nat)

  predicate Passes(filter: Option<NodeId>, id: NodeId) { filter.None? || filter.value == id }

  function CallsOf(id: NodeId, calls: seq<string>): seq<Key> {
    seq(|calls|, i requires 0 <= i < |calls| => Key(id, calls[i]))
  }

  /** The calls under the node filter, in node and listing order. */
  function VisibleCalls(nodes: seq<Node>, filter: Option<NodeId>): seq<Key> {
    if nodes == [] then []
    else
      var id := |nodes| - 1;
      VisibleCalls(nodes[..id], filter)
      + if Passes(filter, id) then CallsOf(id, nodes[id].shown.calls) else []
  }

  function RowsOfRoom(id: NodeId, r: Room): seq<RoomsRow> {
    [RoomsRow(id, RoomRow(r.roomId, r.sampleRate, |r.participants|))]
    + seq(|r.participants|, i requires 0 <= i < |r.participants| =>
            RoomsRow(id, ParticipantRow(r.roomId, r.participants[i])))
  }

  function RowsOfRooms(id: NodeId, rooms: seq<Room>): seq<RoomsRow> {
    if rooms == [] then []
    else RowsOfRooms(id, rooms[..|rooms| - 1]) + RowsOfRoom(id, rooms[|rooms| - 1])
  }

  function RowsOfParked(id: NodeId, parked: seq<Parked>): seq<RoomsRow> {
    seq(|parked|, i requires 0 <= i < |parked| =>
          RoomsRow(id, ParkedRow(parked[i].callId, parked[i].slot, parked[i].parkedSecs)))
  }

  function VisibleRooms(nodes: seq<Node>, filter: Option<NodeId>): seq<RoomsRow> {
    if nodes == [] then []
    else
      var id := |nodes| - 1;
      VisibleRooms(nodes[..id], filter)
      + if Passes(filter, id) then RowsOfRooms(id, nodes[id].shown.rooms) + RowsOfParked(id, nodes[id].shown.parked)
        else []
  }

  function VisibleSystem(count: nat, filter: Option<NodeId>): seq<NodeId> {
    if count == 0 then []
    else VisibleSystem(count - 1, filter) + if Passes(filter, count - 1) then [count - 1] else []
  }

  /** What is visible is exactly the calls of the nodes that pass the filter. */
  lemma {:induction false} VisibleCallsExactly(nodes: seq<Node>, filter: Option<NodeId>, key: Key)
    ensures key in VisibleCalls(nodes, filter) <==>
            key.node < |nodes| && Passes(filter, key.node) && key.callId in nodes[key.node].shown.calls
  {
    if nodes != [] {
      var id := |nodes| - 1;
      VisibleCallsExactly(nodes[..id], filter, key);
      CallsOfExactly(id, nodes[id].shown.calls, key);
    }
  }

  lemma CallsOfExactly(id: NodeId, calls: seq<string>, key: Key)
    ensures key in CallsOf(id, calls) <==> key.node == id && key.callId in calls
  {
    if key.node == id && key.callId in calls {
      var i :| 0 <= i < |calls| && calls[i] == key.callId;
      assert CallsOf(id, calls)[i] == key;
    }
  }

  /** A node's tables hold what the row shows. */
  predicate Lists(shown: Snapshot, kind: RowKind) {
    match kind
    case RoomRow(_, _, _) => RoomListed(shown.rooms, kind)
    case ParticipantRow(_, _) => RoomListed(shown.rooms, kind)
    case ParkedRow(callId, slot, secs) => Parked(callId, slot, secs) in shown.parked
  }

  predicate RoomShows(room: Room, kind: RowKind) {
    match kind
    case RoomRow(roomId, rate, count) =>
      room.roomId == roomId && room.sampleRate == rate && |room.participants| == count
    case ParticipantRow(roomId, callId) => room.roomId == roomId && callId in room.participants
    case ParkedRow(_, _, _) => false
  }

  predicate RoomListed(rooms: seq<Room>, kind: RowKind) {
    exists i | 0 <= i < |rooms| :: RoomShows(rooms[i], kind)
  }

  /** The Rooms rows are exactly the rooms, members and parked calls of the nodes that
      pass the filter. */
  lemma {:induction false} VisibleRoomsExactly(nodes: seq<Node>, filter: Option<NodeId>, row: RoomsRow)
    ensures row in VisibleRooms(nodes, filter) <==>
            row.node < |nodes| && Passes(filter, row.node) && Lists(nodes[row.node].shown, row.kind)
  {
    if nodes != [] {
      var id := |nodes| - 1;
      VisibleRoomsExactly(nodes[..id], filter, row);
      RoomRowsExactly(id, nodes[id].shown.rooms, row);
      ParkedRowsExactly(id, nodes[id].shown.parked, row);
    }
  }

  lemma {:induction false} RoomRowsExactly(id: NodeId, rooms: seq<Room>, row: RoomsRow)
    ensures row in RowsOfRooms(id, rooms) <==> row.node == id && RoomListed(rooms, row.kind)
  {
    if rooms != [] {
      var last := |rooms| - 1;
      RoomRowsExactly(id, rooms[..last], row);
      OneRoomExactly(id, rooms[last], row);
      assert RoomListed(rooms, row.kind) <==> RoomListed(rooms[..last], row.kind) || RoomShows(rooms[last], row.kind);
    }
  }

  lemma OneRoomExactly(id: NodeId, r: Room, row: RoomsRow)
    ensures row in RowsOfRoom(id, r) <==> row.node == id && RoomShows(r, row.kind)
  {
    var rows := RowsOfRoom(id, r);
    if row.node == id && row.kind.RoomRow? && RoomShows(r, row.kind) {
      assert rows[0] == row;
    }
    if row.node == id && row.kind.ParticipantRow? && RoomShows(r, row.kind) {
      var i :| 0 <= i < |r.participants| && r.participants[i] == row.kind.callId;
      assert rows[1 + i] == row;
    }
  }

  lemma ParkedRowsExactly(id: NodeId, parked: seq<Parked>, row: RoomsRow)
    ensures row in RowsOfParked(id, parked) <==>
            && row.node == id && row.kind.ParkedRow?
            && Parked(row.kind.callId, row.kind.slot, row.kind.parkedSecs) in parked
  {
    var rows := RowsOfParked(id, parked);
    if row.node == id && row.kind.ParkedRow?
       && Parked(row.kind.callId, row.kind.slot, row.kind.parkedSecs) in parked {
      var i :| 0 <= i < |parked| && parked[i] == Parked(row.kind.callId, row.kind.slot, row.kind.parkedSecs);
      assert rows[i] == row;
    }
  }

  lemma {:induction false} VisibleSystemExactly(count: nat, filter: Option<NodeId>, id: NodeId)
    ensures id in VisibleSystem(count, filter) <==> id < count && Passes(filter, id)
  {
    if count > 0 { VisibleSystemExactly(count - 1, filter, id); }
  }

  function TotalCalls(nodes: seq<Node>): nat {
    if nodes == [] then 0 else TotalCalls(nodes[..|nodes| - 1]) + |nodes[|nodes| - 1].shown.calls|
  }

  // --- Panes, modals, notices -----------------------------------------

  /** A stats payload: the two numbers drawn from it, if measured, and the rest. */
  datatype Stats = Stats(mos: Option<nat>, jitter: Option<nat>, other: nat)

  datatype StatsPane = StatsPane(
    key: Option<Key>, latest: Option<Stats>, mos: seq<nat>, jitter: seq<nat>)

  datatype LadderError = Disabled | Forbidden | Unavailable(detail: string) | OtherError(detail: string)

  datatype LadderState =
    | Loading
    | Ready(messages: seq<Payload>)
    | Failed(reason: LadderError)
  {
    function Count(): nat { if Ready? then |messages| else 0 }
  }

  datatype LadderPane = LadderPane(open: bool, key: Option<Key>, state: LadderState, selected: nat, expanded: bool)

  datatype Field = Field(name: string, value: string, required: bool)

  datatype FormKind = RetrieveForm | ConferenceForm | OriginateForm | LogFilterForm

  datatype Form = Form(kind: FormKind, node: NodeId, callId: Option<string>, fields: seq<Field>, active: nat)

  datatype Modal = Confirm(action: Action, prompt: string) | Input(form: Form)

  datatype ToastText =
    | ReadOnlyMode | RoleTooLow(nodeName: string, required: Role) | NoCallSelected | NothingSelected
    | SelectParked | NothingToCopy | CopiedBytes(count: nat) | FieldRequired(name: string)
    | OutcomeText(text: string)

  datatype Toast = Toast(text: ToastText, ok: bool, ttl: nat)

  datatype Notices = Notices(toasts: seq<Toast>, fleetHistory: seq<nat>)

  datatype Selection = Selection(tab: Tab, filter: Option<NodeId>, call: nat, room: nat, system: nat)

  datatype State = State(
    nodes: seq<Node>,
    sel: Selection,
    stats: StatsPane,
    ladder: LadderPane,
    notices: Notices,
    modal: Option<Modal>,
    readOnly: bool,
    shouldQuit: bool)

  const NO_STATS := StatsPane(None, None, [], [])
  const NO_LADDER := LadderPane(false, None, Loading, 0, false)
  const NOTHING_SHOWN := Snapshot([], [], [], 0)

  function Fresh(names: seq<string>): seq<Node> {
    seq(|names|, i requires 0 <= i < |names| => Node(names[i], Connecting, NOTHING_SHOWN, None))
  }

  function Initial(names: seq<string>, readOnly: bool): State {
    State(Fresh(names), Selection(Overview, None, 0, 0, 0), NO_STATS, NO_LADDER, Notices([], []),
          None, readOnly, false)
  }

  // --- Selection and focus --------------------------------------------

  function Focus(nodes: seq<Node>, sel: Selection): (focus: Option<Key>)
    ensures focus.Some? ==> focus.value.node < |nodes|
  {
    var calls := VisibleCalls(nodes, sel.filter);
    if sel.call < |calls| then
      VisibleCallsExactly(nodes, sel.filter, calls[sel.call]);
      Some(calls[sel.call])
    else None
  }

  function RowUnderCursor(nodes: seq<Node>, sel: Selection): (row: Option<RoomsRow>)
    ensures row.Some? ==> row.value.node < |nodes|
  {
    var rows := VisibleRooms(nodes, sel.filter);
    if sel.room < |rows| then
      VisibleRoomsExactly(nodes, sel.filter, rows[sel.room]);
      Some(rows[sel.room])
    else None
  }

  function NodeUnderCursor(nodes: seq<Node>, sel: Selection): (id: Option<NodeId>)
    ensures id.Some? ==> id.value < |nodes|
  {
    var ids := VisibleSystem(|nodes|, sel.filter);
    if sel.system < |ids| then
      VisibleSystemExactly(|nodes|, sel.filter, ids[sel.system]);
      Some(ids[sel.system])
    else None
  }

  function Within(i: nat, len: nat): nat {
    if len == 0 then 0 else if i >= len then len - 1 else i
  }

  function Clamp(nodes: seq<Node>, sel: Selection): Selection {
    sel.(call := Within(sel.call, |VisibleCalls(nodes, sel.filter)|),
         room := Within(sel.room, |VisibleRooms(nodes, sel.filter)|),
         system := Within(sel.system, |VisibleSystem(|nodes|, sel.filter)|))
  }

  function StatsFor(pane: StatsPane, focus: Option<Key>): StatsPane {
    if pane.key != focus then NO_STATS.(key := focus) else pane
  }

  function LadderFor(pane: LadderPane, focus: Option<Key>): LadderPane {
    if pane.key != focus then NO_LADDER.(open := pane.open, key := focus) else pane
  }

  function SyncFocus(s: State): State {
    var focus := Focus(s.nodes, s.sel);
    s.(stats := StatsFor(s.stats, focus), ladder := LadderFor(s.ladder, focus))
  }

  function Last(n: nat): nat { if n == 0 then 0 else n - 1 }

  datatype Move = Next | Prev | First | Final

  function MoveSelection(s: State, move: Move): Selection {
    var sel := s.sel;
    if sel.tab.System? then
      var n := |VisibleSystem(|s.nodes|, sel.filter)|;
      match move
      case Next => Clamp(s.nodes, sel.(system := sel.system + 1))
      case Prev => sel.(system := Last(sel.system))
      case First => sel.(system := 0)
      case Final => sel.(system := Last(n))
    else if sel.tab.Rooms? then
      var n := |VisibleRooms(s.nodes, sel.filter)|;
      match move
      case Next => Clamp(s.nodes, sel.(room := sel.room + 1))
      case Prev => sel.(room := Last(sel.room))
      case First => sel.(room := 0)
      case Final => sel.(room := Last(n))
    else
      var n := |VisibleCalls(s.nodes, sel.filter)|;
      match move
      case Next => Clamp(s.nodes, sel.(call := sel.call + 1))
      case Prev => sel.(call := Last(sel.call))
      case First => sel.(call := 0)
      case Final => sel.(call := Last(n))
  }

  /** Only a move of the call selection resyncs the panes. */
  function Select(s: State, move: Move): State {
    var s1 := s.(sel := MoveSelection(s, move));
    if s.sel.tab.System? || s.sel.tab.Rooms? then s1 else SyncFocus(s1)
  }

  function NextFilter(filter: Option<NodeId>, count: nat): Option<NodeId> {
    match filter
    case None => Some(0)
    case Some(i) => if i + 1 < count then Some(i + 1) else None
  }

  function CycleFilter(s: State): State {
    SyncFocus(s.(sel := Clamp(s.nodes, s.sel.(filter := NextFilter(s.sel.filter, |s.nodes|)))))
  }

  function ToggledLadder(pane: LadderPane, focus: Option<Key>): LadderPane {
    if pane.open then pane.(open := false, expanded := false)
    else LadderPane(true, focus, Loading, 0, false)
  }

  function LadderMoved(pane: LadderPane, down: bool): LadderPane {
    var n := pane.state.Count();
    if !down then pane.(selected := Last(pane.selected))
    else if n == 0 then pane
    else pane.(selected := if pane.selected + 1 < n then pane.selected + 1 else n - 1)
  }

  // --- Messages -------------------------------------------------------

  datatype Msg =
    | SnapshotMsg(node: NodeId, result: Option<Snapshot>, error: string)
    | StatsMsg(key: Key, stats: Stats)
    | LadderMsg(key: Key, messages: seq<Payload>, problem: Option<LadderError>)
    | Tick
    | RoleLearned(node: NodeId, role: Role)
    | ActionOutcome(node: NodeId, ok: bool, forbidden: bool, required: Role, text: string)

  function PushCapped<T>(hist: seq<T>, sample: Option<T>): seq<T> {
    match sample
    case None => hist
    case Some(x) => (if |hist| == HISTORY_LEN then hist[1..] else hist) + [x]
  }

  function PushToast(n: Notices, text: ToastText, ok: bool): Notices {
    n.(toasts := (if |n.toasts| == TOAST_MAX then n.toasts[1..] else n.toasts) + [Toast(text, ok, TOAST_TTL)])
  }

  /** One second older; those at the end of their life are gone. */
  function Aged(toasts: seq<Toast>): seq<Toast> {
    if toasts == [] then []
    else
      var t := toasts[|toasts| - 1];
      Aged(toasts[..|toasts| - 1]) + if t.ttl > 1 then [t.(ttl := t.ttl - 1)] else []
  }

  function Polled(n: Node, result: Option<Snapshot>, error: string): Node {
    match result
    case Some(snap) => n.(health := Up, shown := snap)
    case None => n.(health := Down(error))
  }

  function StatsTaken(pane: StatsPane, key: Key, stats: Stats): StatsPane {
    if pane.key != Some(key) then pane
    else StatsPane(pane.key, Some(stats), PushCapped(pane.mos, stats.mos), PushCapped(pane.jitter, stats.jitter))
  }

  function LadderTaken(
    pane: LadderPane, key: Key, messages: seq<Payload>, error: Option<LadderError>): LadderPane
  {
    if pane.key != Some(key) then pane
    else
      var state := if error.Some? then Failed(error.value) else Ready(messages);
      pane.(state := state, selected := Within(pane.selected, state.Count()))
  }

  /** A refusal teaches that the role is at most the one below the required. */
  function Lowered(role: Option<Role>, required: Role): Role {
    var ceiling := if required.Admin? then Operator else ReadOnly;
    if role.Some? && role.value.Rank() < ceiling.Rank() then role.value else ceiling
  }

  function Reduce(s: State, msg: Msg): State {
    match msg
    case SnapshotMsg(node, result, error) =>
      if node >= |s.nodes| then s
      else
        var nodes := s.nodes[node := Polled(s.nodes[node], result, error)];
        SyncFocus(s.(nodes := nodes, sel := Clamp(nodes, s.sel)))
    case StatsMsg(key, stats) => s.(stats := StatsTaken(s.stats, key, stats))
    case LadderMsg(key, messages, problem) => s.(ladder := LadderTaken(s.ladder, key, messages, problem))
    case Tick =>
      s.(notices := Notices(Aged(s.notices.toasts), PushCapped(s.notices.fleetHistory, Some(TotalCalls(s.nodes)))))
    case RoleLearned(node, role) =>
      if node >= |s.nodes| then s else s.(nodes := s.nodes[node := s.nodes[node].(role := Some(role))])
    case ActionOutcome(node, ok, forbidden, required, text) =>
      var s1 := s.(notices := PushToast(s.notices, OutcomeText(text), ok));
      if forbidden && node < |s.nodes| then
        s1.(nodes := s.nodes[node := s.nodes[node].(role := Some(Lowered(s.nodes[node].role, required)))])
      else s1
  }

  /** An action needing `required` on `node` may be opened now. */
  predicate Can(nodes: seq<Node>, readOnly: bool, node: NodeId, required: Role) {
    && !readOnly
    && (node < |nodes| && nodes[node].role.Some? ==> required.Rank() <= nodes[node].role.value.Rank())
  }

  // --- The application object -----------------------------------------

  class App {
    var nodes: seq<Node>
    var tab: Tab
    var nodeFilter: Option<NodeId>
    var selectedCall: nat
    var selectedRoom: nat
    var selectedSystem: nat
    var stats: StatsPane
    var ladder: LadderPane
    var fleetHistory: seq<nat>
    var modal: Option<Modal>
    var toasts: seq<Toast>
    const readOnly: bool
    var shouldQuit: bool

    function Sel(): Selection
      reads this`tab, this`nodeFilter, this`selectedCall, this`selectedRoom, this`selectedSystem
    {
      Selection(tab, nodeFilter, selectedCall, selectedRoom, selectedSystem)
    }

    ghost function View(): State
      reads this
    {
      State(nodes, Sel(), stats, ladder, Notices(toasts, fleetHistory), modal, readOnly, shouldQuit)
    }

    /** The fleet file must name at least one node. */
    constructor (names: seq<string>, readOnly: bool)
      requires names != []
      ensures View() == Initial(names, readOnly)
    {
      nodes := Fresh(names);
      tab, nodeFilter, selectedCall, selectedRoom, selectedSystem := Overview, None, 0, 0, 0;
      stats, ladder := NO_STATS, NO_LADDER;
      fleetHistory, toasts, modal := [], [], None;
      this.readOnly := readOnly;
      shouldQuit := false;
    }

    method ClampSelection()
      modifies this`selectedCall, this`selectedRoom, this`selectedSystem
      ensures Sel() == Clamp(nodes, old(Sel()))
    {
      var len := |VisibleCalls(nodes, nodeFilter)|;
      if len == 0 { selectedCall := 0; } else if selectedCall >= len { selectedCall := len - 1; }
      var rooms := |VisibleRooms(nodes, nodeFilter)|;
      if rooms == 0 { selectedRoom := 0; } else if selectedRoom >= rooms { selectedRoom := rooms - 1; }
      var system := |VisibleSystem(|nodes|, nodeFilter)|;
      if system == 0 { selectedSystem := 0; } else if selectedSystem >= system { selectedSystem := system - 1; }
    }

    method FocusedCall() returns (focus: Option<Key>)
      ensures focus == Focus(nodes, Sel())
    {
      var calls := VisibleCalls(nodes, nodeFilter);
      focus := if selectedCall < |calls| then Some(calls[selectedCall]) else None;
    }

    method SyncStatsFocus()
      modifies this`stats, this`ladder
      ensures View() == SyncFocus(old(View()))
    {
      var focus := FocusedCall();
      if stats.key != focus { stats := StatsPane(focus, None, [], []); }
      if ladder.key != focus { ladder := LadderPane(ladder.open, focus, Loading, 0, false); }
    }

    method SelectNext()
      modifies this`selectedCall, this`selectedRoom, this`selectedSystem, this`stats, this`ladder
      ensures View() == Select(old(View()), Next)
    {
      ghost var s := View();
      if tab.System? {
        selectedSystem := selectedSystem + 1;
        ClampSelection();
        assert View() == s.(sel := MoveSelection(s, Next));
        return;
      }
      if tab.Rooms? {
        selectedRoom := selectedRoom + 1;
        ClampSelection();
        assert View() == s.(sel := MoveSelection(s, Next));
        return;
      }
      selectedCall := selectedCall + 1;
      ClampSelection();
      assert View() == s.(sel := MoveSelection(s, Next));
      SyncStatsFocus();
    }

    method SelectPrev()
      modifies this`selectedCall, this`selectedRoom, this`selectedSystem, this`stats, this`ladder
      ensures View() == Select(old(View()), Prev)
    {
      if tab.System? {
        selectedSystem := if selectedSystem > 0 then selectedSystem - 1 else 0;
        return;
      }
      if tab.Rooms? {
        selectedRoom := if selectedRoom > 0 then selectedRoom - 1 else 0;
        return;
      }
      selectedCall := if selectedCall > 0 then selectedCall - 1 else 0;
      SyncStatsFocus();
    }

    method SelectFirst()
      modifies this`selectedCall, this`selectedRoom, this`selectedSystem, this`stats, this`ladder
      ensures View() == Select(old(View()), First)
    {
      if tab.System? {
        selectedSystem := 0;
        return;
      }
      if tab.Rooms? {
        selectedRoom := 0;
        return;
      }
      selectedCall := 0;
      SyncStatsFocus();
    }

    method SelectLast()
      modifies this`selectedCall, this`selectedRoom, this`selectedSystem, this`stats, this`ladder
      ensures View() == Select(old(View()), Final)
    {
      if tab.System? {
        selectedSystem := Last(|VisibleSystem(|nodes|, nodeFilter)|);
        return;
      }
      if tab.Rooms? {
        selectedRoom := Last(|VisibleRooms(nodes, nodeFilter)|);
        return;
      }
      selectedCall := Last(|VisibleCalls(nodes, nodeFilter)|);
      SyncStatsFocus();
    }

    method CycleNodeFilter()
      modifies this
      ensures View() == CycleFilter(old(View()))
    {
      ghost var s := View();
      nodeFilter := match nodeFilter
        case None => Some(0)
        case Some(i) => if i + 1 < |nodes| then Some(i + 1) else None;
      ClampSelection();
      assert View() == s.(sel := Clamp(s.nodes, s.sel.(filter := NextFilter(s.sel.filter, |s.nodes|))));
      SyncStatsFocus();
    }

    method ToggleLadder()
      modifies this`ladder
      ensures ladder == ToggledLadder(old(ladder), Focus(nodes, Sel()))
    {
      if ladder.open {
        ladder := ladder.(open := false, expanded := false);
      } else {
        var focus := FocusedCall();
        ladder := ladder.(open := true, key := focus, state := Loading, selected := 0, expanded := false);
      }
    }

    method Notify(text: ToastText, ok: bool)
      modifies this`toasts
      ensures Notices(toasts, fleetHistory) == PushToast(old(Notices(toasts, fleetHistory)), text, ok)
    {
      if |toasts| == TOAST_MAX { toasts := toasts[1..]; }
      toasts := toasts + [Toast(text, ok, TOAST_TTL)];
    }

    method AgeToasts()
      modifies this`toasts
      ensures toasts == Aged(old(toasts))
    {
      var kept: seq<Toast> := [];
      for i := 0 to |toasts|
        invariant toasts == old(toasts) && kept == Aged(toasts[..i])
      {
        assert toasts[..i + 1][..i] == toasts[..i];
        var ttl := Last(toasts[i].ttl);
        if ttl > 0 { kept := kept + [toasts[i].(ttl := ttl)]; }
      }
      assert toasts[..|toasts|] == toasts;
      toasts := kept;
    }

    method TakeSnapshot(node: NodeId, result: Option<Snapshot>, error: string)
      modifies this
      ensures View() == Reduce(old(View()), SnapshotMsg(node, result, error))
    {
      if node >= |nodes| { return; }
      var n := nodes[node];
      nodes := nodes[node := if result.Some? then n.(health := Up, shown := result.value)
                             else n.(health := Down(error))];
      ClampSelection();
      SyncStatsFocus();
    }

    method TakeStats(key: Key, payload: Stats)
      modifies this`stats
      ensures stats == StatsTaken(old(stats), key, payload)
    {
      if stats.key != Some(key) { return; }
      stats := stats.(mos := PushCapped(stats.mos, payload.mos));
      stats := stats.(jitter := PushCapped(stats.jitter, payload.jitter));
      stats := stats.(latest := Some(payload));
    }

    method TakeLadder(key: Key, messages: seq<Payload>, error: Option<LadderError>)
      modifies this`ladder
      ensures ladder == LadderTaken(old(ladder), key, messages, error)
    {
      if ladder.key != Some(key) { return; }
      ladder := ladder.(state := if error.Some? then Failed(error.value)
                                 else Ready(messages));
      var count := ladder.state.Count();
      if count == 0 {
        ladder := ladder.(selected := 0);
      } else if ladder.selected >= count {
        ladder := ladder.(selected := count - 1);
      }
    }

    method Update(msg: Msg)
      modifies this
      ensures View() == Reduce(old(View()), msg)
    {
      match msg {
        case SnapshotMsg(node, result, error) => TakeSnapshot(node, result, error);
        case StatsMsg(key, payload) => TakeStats(key, payload);
        case LadderMsg(key, messages, problem) => TakeLadder(key, messages, problem);
        case Tick =>
          fleetHistory := PushCapped(fleetHistory, Some(TotalCalls(nodes)));
          AgeToasts();
        case RoleLearned(node, role) =>
          if node < |nodes| { nodes := nodes[node := nodes[node].(role := Some(role))]; }
        case ActionOutcome(_, _, _, _, _) => TakeOutcome(msg);
      }
    }

    /** A refusal also teaches how far the node's role reaches. */
    method TakeOutcome(msg: Msg)
      requires msg.ActionOutcome?
      modifies this`toasts, this`nodes
      ensures View() == Reduce(old(View()), msg)
    {
      Notify(OutcomeText(msg.text), msg.ok);
      var node := msg.node;
      if msg.forbidden && node < |nodes| {
        nodes := nodes[node := nodes[node].(role := Some(Lowered(nodes[node].role, msg.required)))];
      }
    }
  }
}
