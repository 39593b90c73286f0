/** The drive loop of one `[[register]]` binding: attempts, refresh and backoff
    waits, operator commands, and the status, gauge, counter and webhook outputs. */
module Registration {
  import opened Sequences

  const BACKOFF_INITIAL: nat := 5
  const BACKOFF_MAX: nat := 300
  const REFRESH_MARGIN: nat := 60
  const MIN_REFRESH_DELAY: nat := 5

  datatype Status = Pending | Registered | Failed | Disabled

  datatype OutcomeLabel = Accepted | AuthFailed | Rejected | TransportError

  datatype Outcome =
    | Granted(expiresSecs: nat)
    | Refused(outcomeLabel: OutcomeLabel, error: string)
  {
    function Counted(): OutcomeLabel { if Granted? then Accepted else outcomeLabel }
  }

  /** A REGISTER sent: with `Expires: 0` to clear the binding, or a full one. */
  datatype Request = Unregister | Register(expiresSecs: nat)

  datatype Command = Refresh | Restart

  datatype Wake = Elapsed | Commanded(command: Command) | ShutDown

  /** What the world does during one turn of the loop: the answer to an unregister,
      should one be sent, the answer to the REGISTER, the time of that answer, and
      what ends the wait that follows. */
  datatype Turn = Turn(unregister: Outcome, attempt: Outcome, now: nat, wake: Wake)

  /** How a binding starts: at once, or parked until the first command, the end of
      the command channel, or shutdown. */
  datatype Opening = AtOnce | Parked(first: Option<Command>)

  datatype Webhook = Webhook(
    previous: Option<Status>, status: Status, lastError: Option<string>, expiresAt: Option<nat>)

  /** What the rest of the system sees: the manager's row, the gauge and the webhooks. */
  datatype Outputs = Outputs(
    status: Status,
    lastError: Option<string>,
    expiresAt: Option<nat>,
    gauge: map<Status, nat>,
    webhooks: seq<Webhook>)

  datatype State = State(
    out: Outputs,
    counters: map<OutcomeLabel, nat>,
    requests: seq<Request>,
    waits: seq<nat>,
    backoff: nat,
    unregisterFirst: bool,
    running: bool)

  function RefreshDelay(granted: nat): nat {
    var raw := if granted < REFRESH_MARGIN then 0 else granted - REFRESH_MARGIN;
    if raw < MIN_REFRESH_DELAY then MIN_REFRESH_DELAY else raw
  }

  function Doubled(backoff: nat): nat {
    if backoff * 2 < BACKOFF_MAX then backoff * 2 else BACKOFF_MAX
  }

  // --- What the loop does ---------------------------------------------

  function Seeded(status: Status): State {
    State(Outputs(status, None, None, map[status := 1], []), map[], [], [], BACKOFF_INITIAL, false, true)
  }

  function WithStatus(o: Outputs, status: Status, error: Option<string>, expiresAt: Option<nat>): Outputs {
    o.(status := status, lastError := error, expiresAt := if status.Registered? then expiresAt else None)
  }

  function Published(gauge: map<Status, nat>, prev: Option<Status>, status: Status): map<Status, nat> {
    var zeroed := if prev.Some? && prev.value != status then gauge[prev.value := 0] else gauge;
    zeroed[status := 1]
  }

  /** Status, and on a change gauge and webhook. */
  function Announce(o: Outputs, status: Status, error: Option<string>, expiresAt: Option<nat>): Outputs {
    var o1 := WithStatus(o, status, error, expiresAt);
    if o.status == status then o1
    else o1.(gauge := Published(o.gauge, Some(o.status), status),
             webhooks := o.webhooks + [Webhook(Some(o.status), status, error, expiresAt)])
  }

  function Tick(counters: map<OutcomeLabel, nat>, name: OutcomeLabel): map<OutcomeLabel, nat> {
    counters[name := 1 + if name in counters then counters[name] else 0]
  }

  function Open(opening: Opening): State {
    match opening
    case AtOnce => Seeded(Pending)
    case Parked(first) =>
      var s := Seeded(Disabled);
      if first.Some? then s.(out := Announce(s.out, Pending, None, None)) else s.(running := false)
  }

  function SendRequests(s: State, expires: nat): State {
    s.(requests := s.requests + (if s.unregisterFirst then [Unregister] else []) + [Register(expires)],
       unregisterFirst := false)
  }

  function Concluded(o: Outputs, attempt: Outcome, now: nat): Outputs {
    match attempt
    case Granted(granted) => Announce(o, Registered, None, Some(now + granted))
    case Refused(_, error) => Announce(o, Failed, Some(error), None)
  }

  function Settle(s: State, attempt: Outcome, now: nat): State {
    s.(out := Concluded(s.out, attempt, now),
       counters := Tick(s.counters, attempt.Counted()),
       backoff := if attempt.Granted? then BACKOFF_INITIAL else s.backoff,
       waits := s.waits + [if attempt.Granted? then RefreshDelay(attempt.expiresSecs) else s.backoff])
  }

  function WakeUp(s: State, attempt: Outcome, wake: Wake): State {
    match wake
    case Elapsed => if attempt.Refused? then s.(backoff := Doubled(s.backoff)) else s
    case Commanded(command) => s.(backoff := BACKOFF_INITIAL, unregisterFirst := command.Restart?)
    case ShutDown => s.(running := false)
  }

  function Step(s: State, expires: nat, turn: Turn): State {
    WakeUp(Settle(SendRequests(s, expires), turn.attempt, turn.now), turn.attempt, turn.wake)
  }

  function Run(opening: Opening, expires: nat, turns: seq<Turn>): State {
    if turns == [] then Open(opening)
    else
      var s := Run(opening, expires, turns[..|turns| - 1]);
      if s.running then Step(s, expires, turns[|turns| - 1]) else s
  }

  // --- The loop itself ------------------------------------------------

  class Driver {
    const expires: nat
    var status: Status
    var lastError: Option<string>
    var expiresAt: Option<nat>
    var gauge: map<Status, nat>
    var counters: map<OutcomeLabel, nat>
    var webhooks: seq<Webhook>
    var requests: seq<Request>
    var waits: seq<nat>
    var backoff: nat
    var unregisterFirst: bool
    var running: bool

    ghost function Out(): Outputs
      reads this`status, this`lastError, this`expiresAt, this`gauge, this`webhooks
    {
      Outputs(status, lastError, expiresAt, gauge, webhooks)
    }

    ghost function View(): State
      reads this
    {
      State(Out(), counters, requests, waits, backoff, unregisterFirst, running)
    }

    /** The manager row and the gauge row are seeded before the loop starts. */
    constructor (expires: nat, parked: bool)
      ensures this.expires == expires && View() == Seeded(if parked then Disabled else Pending)
    {
      this.expires := expires;
      status := if parked then Disabled else Pending;
      lastError, expiresAt := None, None;
      gauge, counters := map[if parked then Disabled else Pending := 1], map[];
      webhooks, requests, waits := [], [], [];
      backoff, unregisterFirst, running := BACKOFF_INITIAL, false, true;
    }

    method SetStatus(status: Status, error: Option<string>, expiresAt: Option<nat>)
      modifies this`status, this`lastError, this`expiresAt
      ensures Out() == WithStatus(old(Out()), status, error, expiresAt)
    {
      this.status := status;
      lastError := error;
      this.expiresAt := if status.Registered? then expiresAt else None;
    }

    method PublishState(prev: Option<Status>, status: Status)
      modifies this`gauge
      ensures gauge == Published(old(gauge), prev, status)
    {
      if prev.Some? {
        if prev.value != status { gauge := gauge[prev.value := 0]; }
      }
      gauge := gauge[status := 1];
    }

    method Report(prev: Status, status: Status, error: Option<string>, expiresAt: Option<nat>)
      requires prev == this.status
      modifies this`status, this`lastError, this`expiresAt, this`gauge, this`webhooks
      ensures Out() == Announce(old(Out()), status, error, expiresAt)
    {
      SetStatus(status, error, expiresAt);
      if prev != status {
        PublishState(Some(prev), status);
        webhooks := webhooks + [Webhook(Some(prev), status, error, expiresAt)];
      }
    }

    method Send()
      modifies this`requests, this`unregisterFirst
      ensures View() == SendRequests(old(View()), expires)
    {
      if unregisterFirst {
        unregisterFirst := false;
        requests := requests + [Unregister];  // its outcome is only logged
      }
      requests := requests + [Register(expires)];
    }

    method Conclude(prev: Status, attempt: Outcome, now: nat)
      requires prev == status
      modifies this
      ensures View() == Settle(old(View()), attempt, now)
    {
      counters := Tick(counters, attempt.Counted());
      match attempt {
        case Granted(granted) =>
          Report(prev, Registered, None, Some(now + granted));
          backoff := BACKOFF_INITIAL;
          waits := waits + [RefreshDelay(granted)];
        case Refused(_, error) =>
          Report(prev, Failed, Some(error), None);
          waits := waits + [backoff];
      }
    }

    method Woken(attempt: Outcome, wake: Wake)
      requires !unregisterFirst && (attempt.Granted? ==> backoff == BACKOFF_INITIAL)
      modifies this`backoff, this`unregisterFirst, this`running
      ensures View() == WakeUp(old(View()), attempt, wake)
    {
      match wake {
        case Elapsed =>
          if attempt.Refused? { backoff := if backoff * 2 < BACKOFF_MAX then backoff * 2 else BACKOFF_MAX; }
        case Commanded(command) =>
          if attempt.Refused? { backoff := BACKOFF_INITIAL; }
          if command.Restart? { unregisterFirst := true; }
        case ShutDown => running := false;
      }
    }

    method RunLoop(opening: Opening, turns: seq<Turn>)
      requires View() == Seeded(if opening.Parked? then Disabled else Pending)
      modifies this
      ensures View() == Run(opening, expires, turns)
    {
      if opening.Parked? {
        if opening.first.None? {
          running := false;
        } else {
          Report(status, Pending, None, None);
        }
      }
      var i := 0;
      while i < |turns| && running
        invariant i <= |turns| && View() == Run(opening, expires, turns[..i])
      {
        assert turns[..i + 1][..i] == turns[..i];
        var prev := status;
        Send();
        Conclude(prev, turns[i].attempt, turns[i].now);
        Woken(turns[i].attempt, turns[i].wake);
        i := i + 1;
      }
      if running {
        assert turns[..i] == turns;
      } else {
        RunStopped(opening, expires, turns[..i], turns[i..]);
        assert turns[..i] + turns[i..] == turns;
      }
    }
  }

  lemma {:induction false} RunStopped(opening: Opening, expires: nat, turns: seq<Turn>, later: seq<Turn>)
    requires !Run(opening, expires, turns).running
    ensures Run(opening, expires, turns + later) == Run(opening, expires, turns)
  {
    if later == [] {
      assert turns + later == turns;
    } else {
      RunStopped(opening, expires, turns, later[..|later| - 1]);
      assert (turns + later)[..|turns + later| - 1] == turns + later[..|later| - 1];
    }
  }

  // --- 1. Status, gauge and webhooks agree ----------------------------

  function InitialStatus(opening: Opening): Status { if opening.Parked? then Disabled else Pending }

  ghost predicate OneRow(gauge: map<Status, nat>, status: Status) {
    && (forall row :: row in gauge && gauge[row] == 1 <==> row == status)
    && (forall row | row in gauge :: gauge[row] <= 1)
  }

  /** The webhooks lead from `initial` to `status`: each says the status it leaves,
      which is the one reported before it, and never reports that one again. */
  ghost predicate Chained(initial: Status, webhooks: seq<Webhook>, status: Status) {
    if webhooks == [] then status == initial
    else
      var w := webhooks[|webhooks| - 1];
      w.status == status && w.previous.Some? && w.previous.value != status
      && Chained(initial, webhooks[..|webhooks| - 1], w.previous.value)
  }

  /** What goes with each status: an expiry exactly when registered, an error
      exactly when failed, in the manager and in every webhook. */
  ghost predicate Annotated(o: Outputs) {
    && (o.expiresAt.Some? <==> o.status.Registered?)
    && (o.lastError.Some? <==> o.status.Failed?)
    && (forall w | w in o.webhooks ::
          (w.expiresAt.Some? <==> w.status.Registered?) && (w.lastError.Some? <==> w.status.Failed?))
  }

  ghost predicate InStep(initial: Status, o: Outputs) {
    OneRow(o.gauge, o.status) && Chained(initial, o.webhooks, o.status) && Annotated(o)
  }

  lemma PublishedOneRow(gauge: map<Status, nat>, prev: Status, status: Status)
    requires OneRow(gauge, prev)
    ensures OneRow(Published(gauge, Some(prev), status), status)
  {
  }

  lemma ChainExtends(initial: Status, webhooks: seq<Webhook>, prev: Status, w: Webhook)
    requires Chained(initial, webhooks, prev) && w.previous == Some(prev) && w.status != prev
    ensures Chained(initial, webhooks + [w], w.status)
  {
    assert (webhooks + [w])[..|webhooks|] == webhooks;
  }

  lemma AnnounceInStep(initial: Status, o: Outputs, status: Status, error: Option<string>, expiresAt: Option<nat>)
    requires InStep(initial, o)
    requires (expiresAt.Some? <==> status.Registered?) && (error.Some? <==> status.Failed?)
    ensures InStep(initial, Announce(o, status, error, expiresAt))
  {
    if o.status != status {
      PublishedOneRow(o.gauge, o.status, status);
      ChainExtends(initial, o.webhooks, o.status, Webhook(Some(o.status), status, error, expiresAt));
    }
  }

  lemma ConcludedInStep(initial: Status, o: Outputs, attempt: Outcome, now: nat)
    requires InStep(initial, o)
    ensures InStep(initial, Concluded(o, attempt, now))
  {
    if attempt.Granted? {
      AnnounceInStep(initial, o, Registered, None, Some(now + attempt.expiresSecs));
    } else {
      AnnounceInStep(initial, o, Failed, Some(attempt.error), None);
    }
  }

  lemma StepOut(s: State, expires: nat, turn: Turn)
    ensures Step(s, expires, turn).out == Concluded(s.out, turn.attempt, turn.now)
    ensures Step(s, expires, turn).out.status == if turn.attempt.Granted? then Registered else Failed
  {
  }

  /** Throughout every run one gauge row is 1 and it is the manager's status, and
      the webhooks form an unbroken chain of changes ending at that status. */
  lemma {:induction false} AlwaysInStep(opening: Opening, expires: nat, turns: seq<Turn>)
    ensures InStep(InitialStatus(opening), Run(opening, expires, turns).out)
  {
    if turns == [] {
      AnnounceInStep(Disabled, Seeded(Disabled).out, Pending, None, None);
    } else {
      var before, turn := turns[..|turns| - 1], turns[|turns| - 1];
      AlwaysInStep(opening, expires, before);
      ConcludedInStep(InitialStatus(opening), Run(opening, expires, before).out, turn.attempt, turn.now);
      StepOut(Run(opening, expires, before), expires, turn);
    }
  }

  // --- 2. Requests, waits and counters in closed form -----------------

  /** The turns a run takes: up to and including the first shutdown, none if it
      never left the parked state. */
  function Taken(opening: Opening, turns: seq<Turn>): seq<Turn> {
    if turns == [] || opening == Parked(None) then []
    else
      var taken := Taken(opening, turns[..|turns| - 1]);
      if taken != [] && taken[|taken| - 1].wake.ShutDown? then taken else taken + [turns[|turns| - 1]]
  }

  predicate RestartedBefore(turns: seq<Turn>, k: nat)
    requires k <= |turns|
  {
    k > 0 && turns[k - 1].wake == Commanded(Restart)
  }

  /** One full REGISTER a turn, preceded by an unregister exactly when the turn
      before was ended by a restart command. */
  function RequestsOf(turns: seq<Turn>, expires: nat): seq<Request> {
    if turns == [] then []
    else
      RequestsOf(turns[..|turns| - 1], expires)
      + (if RestartedBefore(turns, |turns| - 1) then [Unregister] else [])
      + [Register(expires)]
  }

  /** How many turns in a row, up to the end, failed and waited out their backoff. */
  function Streak(turns: seq<Turn>): nat {
    if turns != [] && turns[|turns| - 1].attempt.Refused? && turns[|turns| - 1].wake.Elapsed?
    then 1 + Streak(turns[..|turns| - 1]) else 0
  }

  function Pow2(n: nat): nat { if n == 0 then 1 else 2 * Pow2(n - 1) }

  /** Five seconds doubled for each failure, up to five minutes. */
  function BackoffAfter(failures: nat): nat { if 5 * Pow2(failures) < 300 then 5 * Pow2(failures) else 300 }

  lemma BackoffDoubles(n: nat)
    ensures Doubled(BackoffAfter(n)) == BackoffAfter(n + 1)
  {
  }

  function WaitOf(turns: seq<Turn>, k: nat): nat
    requires k < |turns|
  {
    match turns[k].attempt
    case Granted(granted) => if granted < 65 then 5 else granted - 60
    case Refused(_, _) => BackoffAfter(Streak(turns[..k]))
  }

  function CountOf(turns: seq<Turn>, name: OutcomeLabel): nat {
    if turns == [] then 0
    else CountOf(turns[..|turns| - 1], name) + if ConcludesAs(turns[|turns| - 1].attempt, name) then 1 else 0
  }

  predicate ConcludesAs(attempt: Outcome, name: OutcomeLabel) {
    match attempt
    case Granted(_) => name == Accepted
    case Refused(given, _) => name == given
  }

  ghost predicate RequestsExact(expires: nat, turns: seq<Turn>, s: State) {
    s.requests == RequestsOf(turns, expires) && s.unregisterFirst == RestartedBefore(turns, |turns|)
  }

  ghost predicate WaitsExact(turns: seq<Turn>, s: State) {
    && |s.waits| == |turns| && (forall k | 0 <= k < |turns| :: s.waits[k] == WaitOf(turns, k))
    && (s.running ==> s.backoff == BackoffAfter(Streak(turns)))
  }

  ghost predicate CountsExact(turns: seq<Turn>, s: State) {
    forall name :: (if name in s.counters then s.counters[name] else 0) == CountOf(turns, name)
  }

  lemma StepRequests(expires: nat, turns: seq<Turn>, s: State, turn: Turn)
    requires RequestsExact(expires, turns, s)
    ensures RequestsExact(expires, turns + [turn], Step(s, expires, turn))
  {
    assert (turns + [turn])[..|turns|] == turns;
    StepEffects(s, expires, turn);
  }

  /** The parts of a step that depend on nothing but the turn. */
  lemma StepEffects(s: State, expires: nat, turn: Turn)
    ensures var s1 := Step(s, expires, turn);
            && s1.requests == SendRequests(s, expires).requests
            && s1.unregisterFirst == (turn.wake == Commanded(Restart))
            && s1.waits == s.waits
                           + [if turn.attempt.Granted? then RefreshDelay(turn.attempt.expiresSecs) else s.backoff]
            && s1.backoff == (if turn.wake.Commanded? || turn.attempt.Granted? then BACKOFF_INITIAL
                              else if turn.wake.Elapsed? then Doubled(s.backoff) else s.backoff)
            && s1.counters == Tick(s.counters, turn.attempt.Counted())
            && s1.running == (s.running && !turn.wake.ShutDown?)
  {
  }

  lemma StepWaits(expires: nat, turns: seq<Turn>, s: State, turn: Turn)
    requires WaitsExact(turns, s) && s.running
    ensures WaitsExact(turns + [turn], Step(s, expires, turn))
  {
    var all := turns + [turn];
    StepEffects(s, expires, turn);
    assert all[..|turns|] == turns;
    forall k | 0 <= k < |turns| ensures WaitOf(all, k) == WaitOf(turns, k) {
      assert all[..k] == turns[..k];
    }
    assert WaitOf(all, |turns|) == Step(s, expires, turn).waits[|turns|];
    BackoffDoubles(Streak(turns));
  }

  lemma StepCounts(expires: nat, turns: seq<Turn>, s: State, turn: Turn)
    requires CountsExact(turns, s)
    ensures CountsExact(turns + [turn], Step(s, expires, turn))
  {
    assert (turns + [turn])[..|turns|] == turns;
    StepEffects(s, expires, turn);
  }

  /** Every run sends, waits, backs off and counts as these closed forms say. */
  lemma {:induction false} RunClosedForm(opening: Opening, expires: nat, turns: seq<Turn>)
    ensures var s, taken := Run(opening, expires, turns), Taken(opening, turns);
            && RequestsExact(expires, taken, s) && WaitsExact(taken, s) && CountsExact(taken, s)
            && (s.running <==> opening != Parked(None) && (taken == [] || !taken[|taken| - 1].wake.ShutDown?))
  {
    if turns != [] {
      var before, turn := turns[..|turns| - 1], turns[|turns| - 1];
      RunClosedForm(opening, expires, before);
      var s, taken := Run(opening, expires, before), Taken(opening, before);
      if s.running {
        StepRequests(expires, taken, s, turn);
        StepWaits(expires, taken, s, turn);
        StepCounts(expires, taken, s, turn);
        StepEffects(s, expires, turn);
      }
    }
  }

  /** Each unregister is followed at once by a full REGISTER. */
  lemma {:induction false} UnregisterThenRegister(turns: seq<Turn>, expires: nat)
    ensures var sent := RequestsOf(turns, expires);
            && (sent != [] ==> sent[|sent| - 1] == Register(expires))
            && (forall i | 0 <= i < |sent| && sent[i].Unregister? ::
                  i + 1 < |sent| && sent[i + 1] == Register(expires))
  {
    if turns != [] { UnregisterThenRegister(turns[..|turns| - 1], expires); }
  }

  // --- 3. What is reported, in closed form ----------------------------

  /** The status after these turns. */
  function StatusAfter(opening: Opening, taken: seq<Turn>): Status {
    if taken != [] then if taken[|taken| - 1].attempt.Granted? then Registered else Failed
    else if opening == Parked(None) then Disabled
    else Pending
  }

  /** When the grant of a turn runs out, and what a failed turn says. */
  function ExpiryOf(turn: Turn): Option<nat> {
    match turn.attempt
    case Granted(granted) => Some(turn.now + granted)
    case Refused(_, _) => None
  }

  function ErrorOf(turn: Turn): Option<string> {
    match turn.attempt
    case Granted(_) => None
    case Refused(_, error) => Some(error)
  }

  /** One webhook for each turn that changed the status, with what that turn brought; and
      first of all that a parked binding was started. */
  function WebhooksOf(opening: Opening, taken: seq<Turn>): seq<Webhook> {
    if taken == [] then
      if opening.Parked? && opening.first.Some? then [Webhook(Some(Disabled), Pending, None, None)] else []
    else
      var before, turn := taken[..|taken| - 1], taken[|taken| - 1];
      var was, now := StatusAfter(opening, before), StatusAfter(opening, taken);
      WebhooksOf(opening, before)
      + if was == now then [] else [Webhook(Some(was), now, ErrorOf(turn), ExpiryOf(turn))]
  }

  ghost predicate OutputsExact(opening: Opening, taken: seq<Turn>, o: Outputs) {
    && o.status == StatusAfter(opening, taken)
    && o.expiresAt == (if taken == [] then None else ExpiryOf(taken[|taken| - 1]))
    && o.lastError == (if taken == [] then None else ErrorOf(taken[|taken| - 1]))
    && o.webhooks == WebhooksOf(opening, taken)
  }

  lemma StepOutputs(opening: Opening, expires: nat, taken: seq<Turn>, s: State, turn: Turn)
    requires OutputsExact(opening, taken, s.out)
    ensures OutputsExact(opening, taken + [turn], Step(s, expires, turn).out)
  {
    assert (taken + [turn])[..|taken|] == taken;
    assert Step(s, expires, turn).out == Concluded(s.out, turn.attempt, turn.now);
    assert s.out.webhooks + [] == s.out.webhooks;
  }

  /** After every run the manager's row is that of the last turn taken, expiry and error
      text included, and the webhooks are exactly those of the turns that changed the status. */
  lemma {:induction false} OutputsClosedForm(opening: Opening, expires: nat, turns: seq<Turn>)
    ensures OutputsExact(opening, Taken(opening, turns), Run(opening, expires, turns).out)
  {
    if turns != [] {
      var before, turn := turns[..|turns| - 1], turns[|turns| - 1];
      OutputsClosedForm(opening, expires, before);
      RunClosedForm(opening, expires, before);
      var s := Run(opening, expires, before);
      if s.running { StepOutputs(opening, expires, Taken(opening, before), s, turn); }
    }
  }

  // --- 4. Restart is Refresh plus an unregister -----------------------

  function RegisterOf(r: Request): Option<Request> { if r.Register? then Some(r) else None }

  /** Everything but the unregisters. */
  function WithoutUnregisters(s: State): State {
    s.(requests := Pick(RegisterOf, s.requests), unregisterFirst := false)
  }

  /** The same world, except that restarts may be refreshes and the other way
      round, and unregisters may be answered differently. */
  ghost predicate SameButRestarts(a: seq<Turn>, b: seq<Turn>) {
    && |a| == |b|
    && forall k | 0 <= k < |a| ::
         && a[k].attempt == b[k].attempt && a[k].now == b[k].now
         && (a[k].wake == b[k].wake || (a[k].wake.Commanded? && b[k].wake.Commanded?))
  }

  /** A step seen without its unregisters: it does not depend on whether one is due. */
  function PlainStep(s: State, expires: nat, turn: Turn): State {
    var s1 := Settle(s.(requests := s.requests + [Register(expires)]), turn.attempt, turn.now);
    WakeUp(s1, turn.attempt, turn.wake).(unregisterFirst := false)
  }

  lemma SettleKeeps(s: State, requests: seq<Request>, due: bool, attempt: Outcome, now: nat)
    ensures Settle(s.(requests := requests, unregisterFirst := due), attempt, now)
         == Settle(s, attempt, now).(requests := requests, unregisterFirst := due)
  {
  }

  lemma StepSeenPlain(s: State, expires: nat, turn: Turn)
    ensures WithoutUnregisters(Step(s, expires, turn)) == PlainStep(WithoutUnregisters(s), expires, turn)
  {
    SentRegisters(s, expires);
    var plain := Pick(RegisterOf, s.requests) + [Register(expires)];
    SettleKeeps(s, SendRequests(s, expires).requests, false, turn.attempt, turn.now);
    SettleKeeps(s, plain, false, turn.attempt, turn.now);
  }

  lemma PlainStepSame(s: State, expires: nat, x: Turn, y: Turn)
    requires x.attempt == y.attempt && x.now == y.now
    requires x.wake == y.wake || (x.wake.Commanded? && y.wake.Commanded?)
    ensures PlainStep(s, expires, x) == PlainStep(s, expires, y)
  {
  }

  lemma SentRegisters(s: State, expires: nat)
    ensures Pick(RegisterOf, SendRequests(s, expires).requests) == Pick(RegisterOf, s.requests) + [Register(expires)]
  {
    PickAppend(RegisterOf, s.requests + (if s.unregisterFirst then [Unregister] else []), Register(expires));
    if s.unregisterFirst {
      PickAppend(RegisterOf, s.requests, Unregister);
    } else {
      assert s.requests + [] == s.requests;
    }
  }

  /** Restart commands, and the answers to the unregisters they cause, are
      invisible: registrations, waits, backoffs, statuses, gauge, counters and
      webhooks are those of the run with refreshes instead. */
  lemma {:induction false} RestartInvisible(opening: Opening, other: Opening, expires: nat, a: seq<Turn>, b: seq<Turn>)
    requires SameButRestarts(a, b)
    requires opening == other || (opening.Parked? && other.Parked? && opening.first.Some? && other.first.Some?)
    ensures WithoutUnregisters(Run(opening, expires, a)) == WithoutUnregisters(Run(other, expires, b))
  {
    if a != [] {
      var n := |a| - 1;
      RestartInvisible(opening, other, expires, a[..n], b[..n]);
      if Run(opening, expires, a[..n]).running {
        var s, t := Run(opening, expires, a[..n]), Run(other, expires, b[..n]);
        StepSeenPlain(s, expires, a[n]);
        StepSeenPlain(t, expires, b[n]);
        PlainStepSame(WithoutUnregisters(s), expires, a[n], b[n]);
      }
    }
  }
}
