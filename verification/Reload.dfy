/** SIGHUP configuration reload: what one reload applies, reports and remembers. */
module Reload {
  import opened Sequences

  /** A section read only at startup. `shown` is its Debug rendering, which the
      fingerprint hashes; `hidden` is what that rendering redacts. */
  datatype Section = Section(shown: nat, hidden: nat)

  /** The configuration of one event sink. */
  datatype SinkConfig = SinkConfig(enabled: bool, spool: bool, body: nat)

  datatype Gateway = Gateway(
    name: string, proxyHost: string, proxyPort: nat, transport: nat, from: string,
    srtp: nat, credentials: Option<nat>, recording: nat)

  datatype Outbound = Outbound(maxConcurrent: nat, ratePerSec: Option<nat>, gateways: seq<Gateway>)
  {
    predicate On() { maxConcurrent > 0 }
  }

  datatype Config = Config(
    node: Section, sip: Section, media: Section, bridgeDefaults: Section, trunks: Section,
    registrations: Section, security: Section, recording: Section, recordingStorage: Section,
    conference: Section, park: Section, observability: Section, admin: Section, hep: Section,
    quality: Section, shutdown: Section,
    registrar: Section, webrtc: Section,
    routes: nat, webhooks: SinkConfig, cdr: SinkConfig, audit: SinkConfig, outbound: Outbound)

  /** What a report can name. */
  datatype Label =
    | Node | Sip | Media | BridgeDefaults | Trunks | Registrations | Security | Recording
    | RecordingStorage | Conference | Park | Observability | Admin | Hep | Quality | Shutdown
    | OutboundLimits
    | WebhooksDelivery | CdrDelivery | AuditDelivery | AuditEnable

  /** A fingerprint, taken as an injective image of what it is computed from. */
  datatype Fp = OfSection(shown: nat) | OfLimits(maxConcurrent: nat, ratePerSec: Option<nat>)

  /** What the section behind a label shows to its fingerprint. */
  function FpOf(c: Config, name: Label): Fp {
    match name
    case Node => OfSection(c.node.shown)
    case Sip => OfSection(c.sip.shown)
    case Media => OfSection(c.media.shown)
    case BridgeDefaults => OfSection(c.bridgeDefaults.shown)
    case Trunks => OfSection(c.trunks.shown)
    case Registrations => OfSection(c.registrations.shown)
    case Security => OfSection(c.security.shown)
    case Recording => OfSection(c.recording.shown)
    case RecordingStorage => OfSection(c.recordingStorage.shown)
    case Conference => OfSection(c.conference.shown)
    case Park => OfSection(c.park.shown)
    case Observability => OfSection(c.observability.shown)
    case Admin => OfSection(c.admin.shown)
    case Hep => OfSection(c.hep.shown)
    case Quality => OfSection(c.quality.shown)
    case Shutdown => OfSection(c.shutdown.shown)
    case OutboundLimits => OfLimits(c.outbound.maxConcurrent, c.outbound.ratePerSec)
    case _ => OfSection(0)  // the delivery labels name no restart-only section
  }

  /** The fingerprinted restart-only sections, in the order they are compared. */
  const RESTART_LABELS: seq<Label> := [
    Node, Sip, Media, BridgeDefaults, Trunks, Registrations, Security, Recording, RecordingStorage,
    Conference, Park, Observability, Admin, Hep, Quality, Shutdown, OutboundLimits]

  function RestartFps(c: Config): seq<(Label, Fp)> {
    seq(|RESTART_LABELS|, i requires 0 <= i < |RESTART_LABELS| => (RESTART_LABELS[i], FpOf(c, RESTART_LABELS[i])))
  }

  /** The labels of the paired entries that differ, in order. */
  function Differing(base: seq<(Label, Fp)>, next: seq<(Label, Fp)>): seq<Label> {
    if base == [] || next == [] then []
    else (if base[0].1 != next[0].1 then [base[0].0] else []) + Differing(base[1..], next[1..])
  }

  /** What a gateway's fingerprint line covers: everything but its recording mode. */
  datatype GatewayLine = GatewayLine(
    name: string, proxyHost: string, proxyPort: nat, transport: nat, from: string,
    srtp: nat, credentials: Option<nat>)

  function LineOf(g: Gateway): GatewayLine {
    GatewayLine(g.name, g.proxyHost, g.proxyPort, g.transport, g.from, g.srtp, g.credentials)
  }

  /** The lines sorted and joined: equal exactly when the gateways have the same
      lines, whatever their order in the file. */
  function GatewayFp(gateways: seq<Gateway>): multiset<GatewayLine> {
    multiset(seq(|gateways|, i requires 0 <= i < |gateways| => LineOf(gateways[i])))
  }

  // --- State ----------------------------------------------------------

  /** The delegate a swap cell holds. */
  datatype Delegate = Null | Built(from: SinkConfig)

  datatype SinkState = SinkState(fp: SinkConfig, spool: bool, running: Delegate)

  /** `audit` is without a running cell when auditing was off at startup; `gateways`
      likewise when outbound was. */
  datatype State = State(
    baseline: seq<(Label, Fp)>,
    routes: nat,
    webhooks: SinkState,
    cdr: SinkState,
    auditFp: SinkConfig,
    auditSpool: bool,
    auditCell: Option<Delegate>,
    gatewayFp: multiset<GatewayLine>,
    gateways: Option<seq<Gateway>>)

  function StartSink(c: SinkConfig): SinkState { SinkState(c, c.spool, Built(c)) }

  function Startup(c: Config): State {
    State(RestartFps(c), c.routes, StartSink(c.webhooks), StartSink(c.cdr),
          c.audit, c.audit.spool, if c.audit.enabled then Some(Built(c.audit)) else None,
          if c.outbound.On() then GatewayFp(c.outbound.gateways) else multiset{},
          if c.outbound.On() then Some(c.outbound.gateways) else None)
  }

  /** Which rebuilds would succeed during one reload. */
  datatype Builds = Builds(webhooks: bool, cdr: bool, audit: bool, gateways: bool)

  const ALL_BUILD := Builds(true, true, true, true)

  datatype Decision = Unchanged | Swap | RestartRequired

  function Decide(changed: bool, spoolActive: bool): Decision {
    if !changed then Unchanged else if spoolActive then RestartRequired else Swap
  }

  // --- One reload -----------------------------------------------------

  function Decided(st: SinkState, next: SinkConfig): Decision {
    Decide(next != st.fp, st.spool || next.spool)
  }

  function ReloadSink(st: SinkState, next: SinkConfig, built: Delegate, ok: bool): SinkState {
    if Decided(st, next).Swap? && ok then SinkState(next, next.spool, built) else st
  }

  function AuditDelegate(c: SinkConfig): Delegate { if c.enabled then Built(c) else Null }

  /** The audit cell as a sink state; its delegate is `Null` when there is no cell. */
  function AuditState(s: State): SinkState {
    SinkState(s.auditFp, s.auditSpool, if s.auditCell.Some? then s.auditCell.value else Null)
  }

  function ReloadAudit(s: State, next: SinkConfig, ok: bool): State {
    if s.auditCell.None? then s
    else
      // Swapping in a null delegate cannot fail.
      var a := ReloadSink(AuditState(s), next, AuditDelegate(next), ok || !next.enabled);
      s.(auditFp := a.fp, auditSpool := a.spool, auditCell := Some(a.running))
  }

  function ReloadGateways(s: State, next: Outbound, limitsChanged: bool, ok: bool): State {
    var fp := GatewayFp(next.gateways);
    if s.gateways.Some? && next.On() && !limitsChanged && fp != s.gatewayFp && ok then
      s.(gatewayFp := fp, gateways := Some(next.gateways))
    else s
  }

  function Named(st: SinkState, next: SinkConfig, name: Label): seq<Label> {
    if Decided(st, next).RestartRequired? then [name] else []
  }

  function NamedAudit(s: State, next: SinkConfig): seq<Label> {
    if s.auditCell.Some? then Named(AuditState(s), next, AuditDelivery)
    else if next != s.auditFp && next.enabled then [AuditEnable]
    else []
  }

  function Report(s: State, next: Config): seq<Label> {
    Differing(s.baseline, RestartFps(next))
    + Named(s.webhooks, next.webhooks, WebhooksDelivery)
    + Named(s.cdr, next.cdr, CdrDelivery)
    + NamedAudit(s, next.audit)
  }

  /** Routes and the two sinks that always have a cell. */
  function ReloadDelivery(s: State, next: Config, builds: Builds): State {
    s.(routes := next.routes,
       webhooks := ReloadSink(s.webhooks, next.webhooks, Built(next.webhooks), builds.webhooks),
       cdr := ReloadSink(s.cdr, next.cdr, Built(next.cdr), builds.cdr))
  }

  function Apply(s: State, next: Config, builds: Builds): State {
    var s1 := ReloadAudit(ReloadDelivery(s, next, builds), next.audit, builds.audit);
    ReloadGateways(s1, next.outbound, OutboundLimits in Report(s, next), builds.gateways)
  }

  // --- The signal handler ---------------------------------------------

  /** What one SIGHUP finds: the file's text, if it could be read, the
      configuration the loader then made of the file, if it was valid, and which
      builds would succeed. The loader reads the file again, so its result is not
      tied to the text. */
  datatype Signal = Signal(text: Option<nat>, loaded: Option<Config>, builds: Builds)

  datatype Outcome = Rejected | NoChange | Applied(restartRequired: seq<Label>)

  datatype Host = Host(lastText: nat, state: State)

  function OutcomeOf(h: Host, sig: Signal): Outcome {
    if sig.text.None? then Rejected
    else if sig.text.value == h.lastText then NoChange
    else if sig.loaded.None? then Rejected
    else Applied(Report(h.state, sig.loaded.value))
  }

  function OnSignal(h: Host, sig: Signal): Host {
    if OutcomeOf(h, sig).Applied? then
      Host(sig.text.value, Apply(h.state, sig.loaded.value, sig.builds))
    else h
  }

  function Handle(h: Host, sigs: seq<Signal>): Host {
    if sigs == [] then h else OnSignal(Handle(h, sigs[..|sigs| - 1]), sigs[|sigs| - 1])
  }

  class Daemon {
    var lastText: nat
    const baseline: seq<(Label, Fp)>
    var routes: nat
    var webhookFp: SinkConfig
    var webhookSpool: bool
    var webhookSink: Delegate
    var cdrFp: SinkConfig
    var cdrSpool: bool
    var cdrSink: Delegate
    var auditFp: SinkConfig
    var auditSpool: bool
    var auditCell: Option<Delegate>
    var gatewayFp: multiset<GatewayLine>
    var gateways: Option<seq<Gateway>>

    ghost function View(): State
      reads this
    {
      State(baseline, routes, SinkState(webhookFp, webhookSpool, webhookSink),
            SinkState(cdrFp, cdrSpool, cdrSink), auditFp, auditSpool, auditCell, gatewayFp, gateways)
    }

    constructor (text: nat, c: Config)
      ensures lastText == text && View() == Startup(c)
    {
      lastText := text;
      baseline := RestartFps(c);
      routes := c.routes;
      webhookFp, webhookSpool, webhookSink := c.webhooks, c.webhooks.spool, Built(c.webhooks);
      cdrFp, cdrSpool, cdrSink := c.cdr, c.cdr.spool, Built(c.cdr);
      auditFp, auditSpool := c.audit, c.audit.spool;
      auditCell := if c.audit.enabled then Some(Built(c.audit)) else None;
      if c.outbound.On() {
        gatewayFp, gateways := GatewayFp(c.outbound.gateways), Some(c.outbound.gateways);
      } else {
        gatewayFp, gateways := multiset{}, None;
      }
    }

    method RebuildWebhooks(next: SinkConfig, ok: bool) returns (named: seq<Label>)
      modifies this`webhookFp, this`webhookSpool, this`webhookSink
      ensures View() == old(View()).(webhooks := ReloadSink(old(View()).webhooks, next, Built(next), ok))
      ensures named == Named(old(View()).webhooks, next, WebhooksDelivery)
    {
      named := [];
      match Decide(next != webhookFp, webhookSpool || next.spool) {
        case Unchanged =>
        case RestartRequired => named := [WebhooksDelivery];
        case Swap =>
          if ok { webhookSink, webhookFp, webhookSpool := Built(next), next, next.spool; }
      }
    }

    method RebuildCdr(next: SinkConfig, ok: bool) returns (named: seq<Label>)
      modifies this`cdrFp, this`cdrSpool, this`cdrSink
      ensures View() == old(View()).(cdr := ReloadSink(old(View()).cdr, next, Built(next), ok))
      ensures named == Named(old(View()).cdr, next, CdrDelivery)
    {
      named := [];
      match Decide(next != cdrFp, cdrSpool || next.spool) {
        case Unchanged =>
        case RestartRequired => named := [CdrDelivery];
        case Swap =>
          if ok { cdrSink, cdrFp, cdrSpool := Built(next), next, next.spool; }
      }
    }

    method RebuildAudit(next: SinkConfig, ok: bool) returns (named: seq<Label>)
      modifies this`auditFp, this`auditSpool, this`auditCell
      ensures View() == ReloadAudit(old(View()), next, ok)
      ensures named == NamedAudit(old(View()), next)
    {
      named := [];
      if auditCell.None? {
        if next != auditFp && next.enabled { named := [AuditEnable]; }
        return;
      }
      match Decide(next != auditFp, auditSpool || next.spool) {
        case Unchanged =>
        case RestartRequired => named := [AuditDelivery];
        case Swap =>
          if next.enabled {
            if ok { auditCell, auditFp, auditSpool := Some(Built(next)), next, next.spool; }
          } else {
            auditCell, auditFp, auditSpool := Some(Null), next, next.spool;
          }
      }
    }

    method RebuildGateways(next: Outbound, limitsChanged: bool, ok: bool)
      modifies this`gatewayFp, this`gateways
      ensures View() == ReloadGateways(old(View()), next, limitsChanged, ok)
    {
      var fp := GatewayFp(next.gateways);
      if gateways.Some? {
        if next.On() && !limitsChanged && fp != gatewayFp {
          if ok { gateways, gatewayFp := Some(next.gateways), fp; }
        }
      }
    }

    method RebuildDelivery(next: Config, builds: Builds) returns (named: seq<Label>)
      modifies this
      ensures lastText == old(lastText) && View() == ReloadDelivery(old(View()), next, builds)
      ensures named == Named(old(View()).webhooks, next.webhooks, WebhooksDelivery)
                       + Named(old(View()).cdr, next.cdr, CdrDelivery)
    {
      routes := next.routes;
      named := RebuildWebhooks(next.webhooks, builds.webhooks);
      var more := RebuildCdr(next.cdr, builds.cdr);
      named := named + more;
    }

    method ApplyReload(next: Config, builds: Builds) returns (restartRequired: seq<Label>)
      modifies this
      ensures lastText == old(lastText) && View() == Apply(old(View()), next, builds)
      ensures restartRequired == Report(old(View()), next)
    {
      ghost var s := View();
      restartRequired := Differing(baseline, RestartFps(next));
      var named := RebuildDelivery(next, builds);
      restartRequired := restartRequired + named;
      named := RebuildAudit(next.audit, builds.audit);
      restartRequired := restartRequired + named;
      assert restartRequired == Report(s, next);
      RebuildGateways(next.outbound, OutboundLimits in restartRequired, builds.gateways);
    }

    method Sighup(sig: Signal) returns (outcome: Outcome)
      modifies this
      ensures Host(lastText, View()) == OnSignal(Host(old(lastText), old(View())), sig)
      ensures outcome == OutcomeOf(Host(old(lastText), old(View())), sig)
    {
      if sig.text.None? { return Rejected; }
      if sig.text.value == lastText { return NoChange; }
      if sig.loaded.None? { return Rejected; }
      var restartRequired := ApplyReload(sig.loaded.value, sig.builds);
      lastText := sig.text.value;
      outcome := Applied(restartRequired);
    }
  }
}
