/** The hand-off of log records to the exporter: producers, a bounded queue, a
    worker thread and the shutdown that closes, drains and joins. Every method of
    `LogSink` is one atomic step of one thread; a run is any interleaving. */
module LogExport {
  import opened Sequences

  type Record = nat
  type ProducerId = nat

  const QUEUE_CAPACITY: nat := 1024

  /** How far a producer that holds a sender has got. */
  datatype Attempt = Holding(record: Record) | Refused | Leaving

  /** `Disconnected` on: the worker has left its receive loop and dropped the receiver. */
  datatype Worker =
    | Waiting | Exporting(record: Record) | Mirroring | Publishing(seen: nat)
    | Disconnected | LastPublishing(seen: nat) | Finished

  datatype Shutdown = Running | Closed | Joined

  datatype Step =
    | Load(producer: ProducerId, record: Record)
    | TrySend(producer: ProducerId)
    | Count(producer: ProducerId)
    | Release(producer: ProducerId)
    | Receive | Export | ReadDrops | Publish | Disconnect
    | CloseSlot | Join

  /** `offered`, `accepted`, `refusedFull` and `refusedGone` are the history the
      claims are about; the program keeps only the other fields. */
  datatype State = State(
    slotOpen: bool,
    active: map<ProducerId, Attempt>,
    queue: seq<Record>,
    worker: Worker,
    published: nat,
    metric: nat,
    dropped: nat,
    exported: seq<Record>,
    shutdown: Shutdown,
    offered: nat,
    accepted: seq<Record>,
    refusedFull: nat,
    refusedGone: nat)
  {
    predicate Connected() { slotOpen || active != map[] }
    predicate ReceiverAlive() { !worker.Disconnected? && !worker.LastPublishing? && !worker.Finished? }
    function InHand(): seq<Record> { if worker.Exporting? then [worker.record] else [] }
  }

  const INITIAL := State(true, map[], [], Waiting, 0, 0, 0, [], Running, 0, [], 0, 0)

  predicate Enabled(s: State, step: Step) {
    match step
    case Load(p, _) => s.slotOpen && p !in s.active
    case TrySend(p) => p in s.active && s.active[p].Holding?
    case Count(p) => p in s.active && s.active[p].Refused?
    case Release(p) => p in s.active && s.active[p].Leaving?
    case Receive => s.worker.Waiting? && s.queue != []
    case Export => s.worker.Exporting?
    case ReadDrops => s.worker.Mirroring? || s.worker.Disconnected?
    case Publish => s.worker.Publishing? || s.worker.LastPublishing?
    case Disconnect => s.worker.Waiting? && s.queue == [] && !s.Connected()
    case CloseSlot => s.shutdown.Running?
    case Join => s.shutdown.Closed? && s.worker.Finished?
  }

  function SendAttempt(s: State, p: ProducerId): State
    requires Enabled(s, TrySend(p))
  {
    var record := s.active[p].record;
    if s.ReceiverAlive() && |s.queue| < QUEUE_CAPACITY then
      s.(queue := s.queue + [record], accepted := s.accepted + [record], active := s.active[p := Leaving])
    else if s.ReceiverAlive() then
      s.(refusedFull := s.refusedFull + 1, active := s.active[p := Refused])
    else
      s.(refusedGone := s.refusedGone + 1, active := s.active[p := Refused])
  }

  function PublishDrops(s: State, seen: nat, next: Worker): State {
    if seen != s.published then s.(metric := seen, published := seen, worker := next)
    else s.(worker := next)
  }

  /** One step; a thread that is not at that step does nothing. An `emit` that
      finds the slot empty returns at once. */
  function Next(s: State, step: Step): State {
    if !Enabled(s, step) then s
    else match step
      case Load(p, record) => s.(active := s.active[p := Holding(record)], offered := s.offered + 1)
      case TrySend(p) => SendAttempt(s, p)
      case Count(p) => s.(dropped := s.dropped + 1, active := s.active[p := Leaving])
      case Release(p) => s.(active := s.active - {p})
      case Receive => s.(queue := s.queue[1..], worker := Exporting(s.queue[0]))
      case Export => s.(exported := s.exported + [s.worker.record], worker := Mirroring)
      case ReadDrops => s.(worker := if s.worker.Mirroring? then Publishing(s.dropped) else LastPublishing(s.dropped))
      case Publish => PublishDrops(s, s.worker.seen, if s.worker.Publishing? then Waiting else Finished)
      case Disconnect => s.(worker := Disconnected)
      case CloseSlot => s.(slotOpen := false, shutdown := Closed)
      case Join => s.(shutdown := Joined)
  }

  function Run(s: State, steps: seq<Step>): State {
    if steps == [] then s else Next(Run(s, steps[..|steps| - 1]), steps[|steps| - 1])
  }

  // --- The sink -------------------------------------------------------

  class LogSink {
    var slotOpen: bool
    var active: map<ProducerId, Attempt>
    var queue: seq<Record>
    var worker: Worker
    var published: nat
    var metric: nat
    var dropped: nat
    var exported: seq<Record>
    var shutdown: Shutdown
    ghost var offered: nat
    ghost var accepted: seq<Record>
    ghost var refusedFull: nat
    ghost var refusedGone: nat

    ghost function View(): State
      reads this
    {
      State(slotOpen, active, queue, worker, published, metric, dropped, exported, shutdown,
            offered, accepted, refusedFull, refusedGone)
    }

    /** `activate`: the queue, its worker and the sink, with the slot filled. */
    constructor ()
      ensures View() == INITIAL
    {
      slotOpen, active, queue, worker := true, map[], [], Waiting;
      published, metric, dropped, exported := 0, 0, 0, [];
      shutdown, offered, accepted, refusedFull, refusedGone := Running, 0, [], 0, 0;
    }

    method LoadSender(p: ProducerId, record: Record)
      modifies this
      ensures View() == Next(old(View()), Load(p, record))
    {
      if slotOpen && p !in active {
        active := active[p := Holding(record)];
        offered := offered + 1;
      }
    }

    method Offer(p: ProducerId)
      modifies this
      ensures View() == Next(old(View()), TrySend(p))
    {
      if p !in active || !active[p].Holding? { return; }
      var alive := !worker.Disconnected? && !worker.LastPublishing? && !worker.Finished?;
      if alive && |queue| < QUEUE_CAPACITY {
        queue := queue + [active[p].record];
        accepted := accepted + [active[p].record];
        active := active[p := Leaving];
      } else {
        if alive { refusedFull := refusedFull + 1; } else { refusedGone := refusedGone + 1; }
        active := active[p := Refused];
      }
    }

    method CountDrop(p: ProducerId)
      modifies this
      ensures View() == Next(old(View()), Count(p))
    {
      if p in active && active[p].Refused? {
        dropped := dropped + 1;
        active := active[p := Leaving];
      }
    }

    method DropSender(p: ProducerId)
      modifies this
      ensures View() == Next(old(View()), Release(p))
    {
      if p in active && active[p].Leaving? { active := active - {p}; }
    }

    method ReceiveRecord()
      modifies this
      ensures View() == Next(Next(old(View()), Receive), Disconnect)
    {
      if !worker.Waiting? { return; }
      if queue != [] {
        worker, queue := Exporting(queue[0]), queue[1..];
      } else if !slotOpen && active == map[] {
        worker := Disconnected;
      }
    }

    method ExportRecord()
      modifies this
      ensures View() == Next(old(View()), Export)
    {
      if worker.Exporting? {
        exported := exported + [worker.record];
        worker := Mirroring;
      }
    }

    method ReadDropCount()
      modifies this
      ensures View() == Next(old(View()), ReadDrops)
    {
      if worker.Mirroring? { worker := Publishing(dropped); }
      else if worker.Disconnected? { worker := LastPublishing(dropped); }
    }

    method PublishDropCount()
      modifies this
      ensures View() == Next(old(View()), Publish)
    {
      if !worker.Publishing? && !worker.LastPublishing? { return; }
      if worker.seen != published {
        metric := worker.seen;
        published := worker.seen;
      }
      worker := if worker.Publishing? then Waiting else Finished;
    }

    method StoreNone()
      modifies this
      ensures View() == Next(old(View()), CloseSlot)
    {
      if shutdown.Running? {
        slotOpen := false;
        shutdown := Closed;
      }
    }

    method JoinWorker()
      modifies this
      ensures View() == Next(old(View()), Join)
    {
      if shutdown.Closed? && worker.Finished? { shutdown := Joined; }
    }
  }

  // --- What every interleaving keeps ----------------------------------

  function Holders(s: State): set<ProducerId> { set p | p in s.active && s.active[p].Holding? }
  function Refusals(s: State): set<ProducerId> { set p | p in s.active && s.active[p].Refused? }
  function Leavers(s: State): set<ProducerId> { set p | p in s.active && s.active[p].Leaving? }

  /** Every record accepted is exported, in the worker's hand or queued, in order. */
  ghost predicate Conserved(s: State) {
    s.accepted == s.exported + s.InHand() + s.queue && |s.queue| <= 1024
  }

  /** Every record offered is accepted, refused, or still being sent. */
  ghost predicate Accounted(s: State) {
    s.offered == |s.accepted| + s.refusedFull + s.refusedGone + |Holders(s)|
  }

  /** No send met a missing worker, and the drop counter is the refusals for a
      full queue that have been counted. */
  ghost predicate DropsMeanFull(s: State) {
    s.refusedGone == 0 && s.dropped + |Refusals(s)| == s.refusedFull
  }

  /** The metric lags the drop counter and never leads it. */
  ghost predicate MetricBehind(s: State) {
    && s.metric == s.published <= s.dropped
    && (s.worker.Publishing? || s.worker.LastPublishing? ==> s.published <= s.worker.seen <= s.dropped)
    && (s.worker.LastPublishing? ==> s.worker.seen == s.dropped)
    && (s.worker.Finished? ==> s.metric == s.dropped)
  }

  /** The worker leaves only when nothing can reach the queue any more. */
  ghost predicate LeavesLast(s: State) {
    && (!s.ReceiverAlive() ==> !s.slotOpen && s.active == map[] && s.queue == [])
    && (s.slotOpen <==> s.shutdown.Running?)
    && (s.shutdown.Joined? ==> s.worker.Finished?)
  }

  ghost predicate Inv(s: State) {
    Conserved(s) && Accounted(s) && DropsMeanFull(s) && MetricBehind(s) && LeavesLast(s)
  }

  /** How each step moves the producers between their stages. */
  lemma StagesMove(s: State, step: Step)
    requires Enabled(s, step)
    ensures var s1 := Next(s, step);
            match step
            case Load(p, _) =>
              && Holders(s1) == Holders(s) + {p} && p !in Holders(s)
              && Refusals(s1) == Refusals(s) && Leavers(s1) == Leavers(s)
            case TrySend(p) =>
              && p in Holders(s) && Holders(s1) == Holders(s) - {p} && p !in Refusals(s) && p !in Leavers(s)
              && Refusals(s1) == Refusals(s) + (if s1.active[p].Refused? then {p} else {})
              && Leavers(s1) == Leavers(s) + (if s1.active[p].Refused? then {} else {p})
            case Count(p) =>
              && Holders(s1) == Holders(s) && p in Refusals(s) && Refusals(s1) == Refusals(s) - {p}
              && p !in Leavers(s) && Leavers(s1) == Leavers(s) + {p}
            case Release(p) =>
              && Holders(s1) == Holders(s) && Refusals(s1) == Refusals(s)
              && p in Leavers(s) && Leavers(s1) == Leavers(s) - {p}
            case _ => s1.active == s.active
  {
  }

  /** The same, counted. */
  lemma StageCounts(s: State, step: Step)
    requires Enabled(s, step)
    ensures var s1 := Next(s, step);
            var refused := step.TrySend? && s1.active[step.producer].Refused?;
            && |Holders(s1)| == |Holders(s)| + (if step.Load? then 1 else if step.TrySend? then -1 else 0)
            && |Refusals(s1)| == |Refusals(s)| + (if refused then 1 else if step.Count? then -1 else 0)
            && |Leavers(s1)| == |Leavers(s)| + (if step.Count? || (step.TrySend? && !refused) then 1
                                                else if step.Release? then -1 else 0)
  {
    StagesMove(s, step);
    if step.TrySend? { assert step.producer in Next(s, step).active; }
  }

  lemma NextConserves(s: State, step: Step)
    requires Conserved(s) && Enabled(s, step)
    ensures Conserved(Next(s, step))
  {
    match step {
      case TrySend(p) =>
        var record := s.active[p].record;
        assert s.exported + s.InHand() + (s.queue + [record]) == s.exported + s.InHand() + s.queue + [record];
      case Receive =>
        assert s.queue == [s.queue[0]] + s.queue[1..];
        assert s.exported + s.InHand() + s.queue == s.exported + [s.queue[0]] + s.queue[1..];
      case Export => assert s.exported + s.InHand() + s.queue == (s.exported + [s.worker.record]) + [] + s.queue;
      case _ =>
    }
  }

  lemma NextCounts(s: State, step: Step)
    requires Accounted(s) && DropsMeanFull(s) && LeavesLast(s) && Enabled(s, step)
    ensures Accounted(Next(s, step)) && DropsMeanFull(Next(s, step))
  {
    StageCounts(s, step);
  }

  lemma NextPublishes(s: State, step: Step)
    requires Inv(s) && Enabled(s, step)
    ensures MetricBehind(Next(s, step)) && LeavesLast(Next(s, step))
  {
  }

  lemma NextKeepsInv(s: State, step: Step)
    requires Inv(s)
    ensures Inv(Next(s, step))
  {
    if Enabled(s, step) {
      NextConserves(s, step);
      NextCounts(s, step);
      NextPublishes(s, step);
    }
  }

  /** Whatever the interleaving, the invariant holds. */
  lemma {:induction false} AlwaysInv(steps: seq<Step>)
    ensures Inv(Run(INITIAL, steps))
  {
    if steps != [] {
      AlwaysInv(steps[..|steps| - 1]);
      NextKeepsInv(Run(INITIAL, steps[..|steps| - 1]), steps[|steps| - 1]);
    }
  }

  // --- When a record is refused, and which one is accepted -------------

  /** A send takes its record into the queue exactly when fewer than 1024 are waiting, and is
      refused, for a full queue, exactly when 1024 are. */
  lemma OfferExactly(s: State, p: ProducerId)
    requires Inv(s) && Enabled(s, TrySend(p))
    ensures var s1, record := Next(s, TrySend(p)), s.active[p].record;
            && (|s.queue| < 1024 <==> s1.queue == s.queue + [record] && s1.accepted == s.accepted + [record])
            && (|s.queue| < 1024 <==> s1.refusedFull == s.refusedFull)
            && (|s.queue| == 1024 <==> s1.refusedFull == s.refusedFull + 1)
            && (|s.queue| == 1024 <==> s1.queue == s.queue && s1.accepted == s.accepted)
            && s1.refusedGone == s.refusedGone && s1.exported == s.exported
  {
    assert |s.queue + [s.active[p].record]| == |s.queue| + 1;
    assert |s.accepted + [s.active[p].record]| == |s.accepted| + 1;
  }

  lemma RunNext(steps: seq<Step>, k: nat)
    requires k < |steps|
    ensures Run(INITIAL, steps[..k + 1]) == Next(Run(INITIAL, steps[..k]), steps[k])
  {
    assert steps[..k + 1][..k] == steps[..k];
  }

  /** Over any run: step `k` is a refusal exactly when it is a send that found 1024 records
      waiting. */
  lemma RefusedExactly(steps: seq<Step>, k: nat)
    requires k < |steps|
    ensures var s, s1 := Run(INITIAL, steps[..k]), Run(INITIAL, steps[..k + 1]);
            s1.refusedFull != s.refusedFull <==>
              && steps[k].TrySend? && steps[k].producer in s.active && s.active[steps[k].producer].Holding?
              && |s.queue| == 1024
  {
    RunNext(steps, k);
    AlwaysInv(steps[..k]);
    var s := Run(INITIAL, steps[..k]);
    if steps[k].TrySend? && Enabled(s, steps[k]) { OfferExactly(s, steps[k].producer); }
  }

  /** How many records a run was asked to log. */
  function Loads(steps: seq<Step>): nat {
    if steps == [] then 0
    else Loads(steps[..|steps| - 1]) + if steps[|steps| - 1].Load? then 1 else 0
  }

  lemma {:induction false} OfferedAtMost(steps: seq<Step>)
    ensures Run(INITIAL, steps).offered <= Loads(steps)
  {
    if steps != [] { OfferedAtMost(steps[..|steps| - 1]); }
  }

  lemma RefusalNeedsMany(s: State, step: Step)
    requires Inv(s) && Next(s, step).refusedFull != s.refusedFull
    ensures 1024 < Next(s, step).offered
  {
    OfferExactly(s, step.producer);
    assert step.producer in Holders(s);
    assert |s.accepted| == |s.exported| + |s.InHand()| + |s.queue|;
  }

  /** A run asked to log at most 1024 records refuses none of them. */
  lemma {:induction false} FewAreNeverRefused(steps: seq<Step>)
    requires Loads(steps) <= 1024
    ensures Run(INITIAL, steps).refusedFull == 0 && Run(INITIAL, steps).dropped == 0
  {
    AlwaysInv(steps);
    if steps != [] {
      var before, step := steps[..|steps| - 1], steps[|steps| - 1];
      var s := Run(INITIAL, before);
      FewAreNeverRefused(before);
      AlwaysInv(before);
      OfferedAtMost(steps);
      if Next(s, step).refusedFull != s.refusedFull { RefusalNeedsMany(s, step); }
    }
  }

  /** The record of the last `Load` that producer `p` could make. */
  function LastLoaded(steps: seq<Step>, p: ProducerId): Option<Record> {
    if steps == [] then None
    else
      var before, step := steps[..|steps| - 1], steps[|steps| - 1];
      var s := Run(INITIAL, before);
      if step.Load? && step.producer == p && s.slotOpen && p !in s.active then Some(step.record)
      else LastLoaded(before, p)
  }

  /** What a producer sends is the record it was last asked to log. */
  lemma {:induction false} HeldIsLoaded(steps: seq<Step>, p: ProducerId)
    ensures var s := Run(INITIAL, steps);
            p in s.active && s.active[p].Holding? ==> LastLoaded(steps, p) == Some(s.active[p].record)
  {
    if steps != [] { HeldIsLoaded(steps[..|steps| - 1], p); }
  }

  // --- How fresh the metric is ----------------------------------------

  /** How often the worker has read the drop counter, and what it last read. */
  datatype Readings = Readings(count: nat, last: nat)

  function ReadingsOf(steps: seq<Step>): Readings {
    if steps == [] then Readings(0, 0)
    else
      var before := steps[..|steps| - 1];
      var r, s := ReadingsOf(before), Run(INITIAL, before);
      if steps[|steps| - 1].ReadDrops? && (s.worker.Mirroring? || s.worker.Disconnected?)
      then Readings(r.count + 1, s.dropped) else r
  }

  /** The counter is read once after each record exported and once at the end, and the metric
      shows the last reading once it is published. */
  ghost predicate MetricFresh(s: State, r: Readings) {
    match s.worker
    case Waiting => r.count == |s.exported| && s.metric == r.last
    case Exporting(_) => r.count == |s.exported| && s.metric == r.last
    case Mirroring => r.count + 1 == |s.exported| && s.metric == r.last
    case Publishing(seen) => r.count == |s.exported| && seen == r.last
    case Disconnected => r.count == |s.exported| && s.metric == r.last
    case LastPublishing(seen) => r.count == |s.exported| + 1 && seen == r.last
    case Finished => r.count == |s.exported| + 1 && s.metric == r.last
  }

  lemma {:induction false} MetricAlwaysFresh(steps: seq<Step>)
    ensures MetricFresh(Run(INITIAL, steps), ReadingsOf(steps))
  {
    if steps != [] {
      var before := steps[..|steps| - 1];
      MetricAlwaysFresh(before);
      AlwaysInv(before);
    }
  }

  // --- What the join means --------------------------------------------

  /** Once joined, everything accepted has been exported and the published metric
      is the true number of records a full queue refused. */
  lemma JoinDrains(steps: seq<Step>)
    requires Run(INITIAL, steps).shutdown.Joined?
    ensures var s := Run(INITIAL, steps);
            && s.queue == [] && s.exported == s.accepted
            && s.offered == |s.exported| + s.refusedFull
            && s.metric == s.dropped == s.refusedFull
  {
    AlwaysInv(steps);
    var s := Run(INITIAL, steps);
    assert s.exported + s.InHand() + s.queue == s.exported;
    assert Holders(s) == {} && Refusals(s) == {};
  }

  /** No step taken after the join changes anything. */
  lemma {:induction false} JoinedIsFinal(steps: seq<Step>, later: seq<Step>)
    requires Run(INITIAL, steps).shutdown.Joined?
    ensures Run(INITIAL, steps + later) == Run(INITIAL, steps)
  {
    if later == [] {
      assert steps + later == steps;
    } else {
      var n := |later| - 1;
      JoinedIsFinal(steps, later[..n]);
      assert (steps + later)[..|steps + later| - 1] == steps + later[..n];
      AlwaysInv(steps);
    }
  }

  // --- Shutdown ends --------------------------------------------------

  function WorkerRank(w: Worker): nat {
    match w
    case Exporting(_) => 7
    case Mirroring => 6
    case Publishing(_) => 5
    case Waiting => 4
    case Disconnected => 3
    case LastPublishing(_) => 2
    case Finished => 1
  }

  /** An upper bound on the steps left once the slot is closed. */
  function Rank(s: State): nat {
    6 * |Holders(s)| + 2 * |Refusals(s)| + |Leavers(s)| + 4 * |s.queue| + WorkerRank(s.worker)
    + (if s.shutdown.Joined? then 0 else 1)
  }

  /** After the slot is closed every step any thread can take brings the join nearer. */
  lemma ClosedStepsDescend(s: State, step: Step)
    requires Inv(s) && s.shutdown.Closed? && Enabled(s, step)
    ensures Rank(Next(s, step)) < Rank(s) && !Next(s, step).shutdown.Running?
  {
    StageCounts(s, step);
  }

  /** After the slot is closed, until the join returns some thread can take a step. */
  lemma ClosedNeverStuck(s: State) returns (step: Step)
    requires Inv(s) && s.shutdown.Closed?
    ensures Enabled(s, step)
  {
    match s.worker {
      case Exporting(_) => step := Export;
      case Mirroring => step := ReadDrops;
      case Publishing(_) => step := Publish;
      case Disconnected => step := ReadDrops;
      case LastPublishing(_) => step := Publish;
      case Finished => step := Join;
      case Waiting =>
        if s.queue != [] {
          step := Receive;
        } else if p :| p in s.active {
          step := match s.active[p] case Holding(_) => TrySend(p) case Refused => Count(p) case Leaving => Release(p);
        } else {
          assert s.active == map[];
          step := Disconnect;
        }
    }
  }

  /** Every step of this schedule was enabled when it was taken. */
  ghost predicate Scheduled(s: State, steps: seq<Step>) {
    steps != [] ==>
      && Scheduled(s, steps[..|steps| - 1])
      && Enabled(Run(s, steps[..|steps| - 1]), steps[|steps| - 1])
  }

  lemma StepAfterClose(s: State, step: Step)
    requires Inv(s) && !s.shutdown.Running? && Enabled(s, step)
    ensures Inv(Next(s, step)) && !Next(s, step).shutdown.Running? && Rank(Next(s, step)) < Rank(s)
  {
    assert s.shutdown.Closed?;
    NextKeepsInv(s, step);
    ClosedStepsDescend(s, step);
  }

  /** Any schedule of enabled steps after the close reaches the join within `Rank` steps. */
  lemma {:induction false} ShutdownEnds(s: State, steps: seq<Step>)
    requires Inv(s) && s.shutdown.Closed? && Scheduled(s, steps)
    ensures var t := Run(s, steps);
            Inv(t) && !t.shutdown.Running? && |steps| + Rank(t) <= Rank(s)
  {
    if steps != [] {
      ShutdownEnds(s, steps[..|steps| - 1]);
      StepAfterClose(Run(s, steps[..|steps| - 1]), steps[|steps| - 1]);
    }
  }
}
