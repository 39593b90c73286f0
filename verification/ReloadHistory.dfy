/** What reloads keep true over any history of edits, failures and skipped files. */
module ReloadHistory {
  import opened Sequences
  import opened Reload

  // --- 1. Restart-only sections are named exactly when they differ ----

  function Limits(o: Outbound): (nat, Option<nat>) { (o.maxConcurrent, o.ratePerSec) }

  /** The section behind a label differs in what its rendering shows. */
  predicate ShowsDifferently(a: Config, b: Config, name: Label) {
    match name
    case Node => a.node.shown != b.node.shown
    case Sip => a.sip.shown != b.sip.shown
    case Media => a.media.shown != b.media.shown
    case BridgeDefaults => a.bridgeDefaults.shown != b.bridgeDefaults.shown
    case Trunks => a.trunks.shown != b.trunks.shown
    case Registrations => a.registrations.shown != b.registrations.shown
    case Security => a.security.shown != b.security.shown
    case Recording => a.recording.shown != b.recording.shown
    case RecordingStorage => a.recordingStorage.shown != b.recordingStorage.shown
    case Conference => a.conference.shown != b.conference.shown
    case Park => a.park.shown != b.park.shown
    case Observability => a.observability.shown != b.observability.shown
    case Admin => a.admin.shown != b.admin.shown
    case Hep => a.hep.shown != b.hep.shown
    case Quality => a.quality.shown != b.quality.shown
    case Shutdown => a.shutdown.shown != b.shutdown.shown
    case OutboundLimits =>
      a.outbound.maxConcurrent != b.outbound.maxConcurrent || a.outbound.ratePerSec != b.outbound.ratePerSec
    case _ => false
  }

  /** A fingerprint differs exactly when the section behind its own label does. */
  lemma FpShows(a: Config, b: Config, name: Label)
    ensures FpOf(a, name) != FpOf(b, name) <==> ShowsDifferently(a, b, name)
  {
  }

  lemma {:induction false} DifferingMembers(base: seq<(Label, Fp)>, next: seq<(Label, Fp)>, name: Label)
    requires |base| == |next|
    ensures name in Differing(base, next) <==>
              exists i | 0 <= i < |base| :: base[i].0 == name && base[i].1 != next[i].1
  {
    if base != [] {
      DifferingMembers(base[1..], next[1..], name);
      if exists i | 0 <= i < |base| :: base[i].0 == name && base[i].1 != next[i].1 {
        var i :| 0 <= i < |base| && base[i].0 == name && base[i].1 != next[i].1;
        if i > 0 { assert base[1..][i - 1] == base[i] && next[1..][i - 1] == next[i]; }
      }
    }
  }

  lemma ListedOrDelivery(name: Label)
    ensures name in RESTART_LABELS || name in {WebhooksDelivery, CdrDelivery, AuditDelivery, AuditEnable}
  {
    match name
    case Node => assert RESTART_LABELS[0] == Node;
    case Sip => assert RESTART_LABELS[1] == Sip;
    case Media => assert RESTART_LABELS[2] == Media;
    case BridgeDefaults => assert RESTART_LABELS[3] == BridgeDefaults;
    case Trunks => assert RESTART_LABELS[4] == Trunks;
    case Registrations => assert RESTART_LABELS[5] == Registrations;
    case Security => assert RESTART_LABELS[6] == Security;
    case Recording => assert RESTART_LABELS[7] == Recording;
    case RecordingStorage => assert RESTART_LABELS[8] == RecordingStorage;
    case Conference => assert RESTART_LABELS[9] == Conference;
    case Park => assert RESTART_LABELS[10] == Park;
    case Observability => assert RESTART_LABELS[11] == Observability;
    case Admin => assert RESTART_LABELS[12] == Admin;
    case Hep => assert RESTART_LABELS[13] == Hep;
    case Quality => assert RESTART_LABELS[14] == Quality;
    case Shutdown => assert RESTART_LABELS[15] == Shutdown;
    case OutboundLimits => assert RESTART_LABELS[16] == OutboundLimits;
    case _ =>
  }

  lemma UnlistedNeverDiffer(a: Config, b: Config, name: Label)
    requires name !in RESTART_LABELS
    ensures FpOf(a, name) == FpOf(b, name)
  {
    ListedOrDelivery(name);
  }

  lemma RestartNamedExactly(a: Config, b: Config, name: Label)
    ensures name in Differing(RestartFps(a), RestartFps(b)) <==> ShowsDifferently(a, b, name)
  {
    DifferingMembers(RestartFps(a), RestartFps(b), name);
    FpShows(a, b, name);
    if ShowsDifferently(a, b, name) {
      PairedWhenDifferent(a, b, name);
    } else {
      AlikeWhenSame(a, b, name);
    }
  }

  lemma PairedWhenDifferent(a: Config, b: Config, name: Label)
    requires FpOf(a, name) != FpOf(b, name)
    ensures var base, next := RestartFps(a), RestartFps(b);
            exists i | 0 <= i < |base| :: base[i].0 == name && base[i].1 != next[i].1
  {
    if name in RESTART_LABELS {
      var i :| 0 <= i < |RESTART_LABELS| && RESTART_LABELS[i] == name;
      assert RestartFps(a)[i] == (name, FpOf(a, name)) && RestartFps(b)[i] == (name, FpOf(b, name));
    } else {
      UnlistedNeverDiffer(a, b, name);
    }
  }

  lemma AlikeWhenSame(a: Config, b: Config, name: Label)
    requires FpOf(a, name) == FpOf(b, name)
    ensures var base, next := RestartFps(a), RestartFps(b);
            !exists i | 0 <= i < |base| :: base[i].0 == name && base[i].1 != next[i].1
  {
  }

  // --- 2. Fingerprints describe what is running -----------------------

  predicate SinkTrue(st: SinkState) { st.running == Built(st.fp) && st.spool == st.fp.spool }

  /** A disabled `[audit]` records nothing. */
  function AuditRuns(c: SinkConfig): Delegate { if c.enabled then Built(c) else Null }

  /** Every stored fingerprint and spool flag is that of the delegate or gateway
      set running now; the restart baseline is still the startup one. */
  ghost predicate Truthful(start: Config, s: State) {
    && s.baseline == RestartFps(start)
    && SinkTrue(s.webhooks) && SinkTrue(s.cdr)
    && s.auditSpool == s.auditFp.spool
    && (s.auditCell.Some? <==> start.audit.enabled)
    && (if start.audit.enabled then s.auditCell == Some(AuditRuns(s.auditFp)) else s.auditFp == start.audit)
    && (s.gateways.Some? <==> start.outbound.maxConcurrent > 0)
    && (s.gateways.Some? ==> s.gatewayFp == GatewayFp(s.gateways.value))
  }

  lemma ApplyTruthful(start: Config, s: State, next: Config, builds: Builds)
    requires Truthful(start, s)
    ensures Truthful(start, Apply(s, next, builds))
  {
  }

  /** Through any signals, with any reads, loads and builds failing. */
  lemma {:induction false} AlwaysTruthful(start: Config, text: nat, sigs: seq<Signal>)
    ensures Truthful(start, Handle(Host(text, Startup(start)), sigs).state)
  {
    if sigs != [] {
      var n := |sigs| - 1;
      AlwaysTruthful(start, text, sigs[..n]);
      var h := Handle(Host(text, Startup(start)), sigs[..n]);
      if OutcomeOf(h, sigs[n]).Applied? {
        ApplyTruthful(start, h.state, sigs[n].loaded.value, sigs[n].builds);
      }
    }
  }

  // --- 3. A report is exact and complete ------------------------------

  predicate SpoolInTheWay(running: SinkConfig, next: SinkConfig) {
    next != running && (running.spool || next.spool)
  }

  /** The one reason to name each label: its section differs from startup, a spool is in the
      way of a changed sink, or auditing is being turned on. */
  predicate Reportable(start: Config, s: State, next: Config, name: Label)
    requires s.webhooks.running.Built? && s.cdr.running.Built?
  {
    match name
    case WebhooksDelivery => SpoolInTheWay(s.webhooks.running.from, next.webhooks)
    case CdrDelivery => SpoolInTheWay(s.cdr.running.from, next.cdr)
    case AuditDelivery => start.audit.enabled && SpoolInTheWay(s.auditFp, next.audit)
    case AuditEnable => !start.audit.enabled && next.audit.enabled
    case _ => ShowsDifferently(start, next, name)
  }

  /** Each label is in the report for its one reason, and only then. */
  lemma ReportExact(start: Config, s: State, next: Config, name: Label)
    requires Truthful(start, s)
    ensures name in Report(s, next) <==> Reportable(start, s, next, name)
  {
    RestartNamedExactly(start, next, name);
    ReportParts(s, next, name);
  }

  lemma ReportParts(s: State, next: Config, name: Label)
    ensures name in Report(s, next) <==>
              || name in Differing(s.baseline, RestartFps(next))
              || (name.WebhooksDelivery? && Decided(s.webhooks, next.webhooks).RestartRequired?)
              || (name.CdrDelivery? && Decided(s.cdr, next.cdr).RestartRequired?)
              || (name.AuditDelivery? && s.auditCell.Some? && Decided(AuditState(s), next.audit).RestartRequired?)
              || (name.AuditEnable? && s.auditCell.None? && next.audit != s.auditFp && next.audit.enabled)
  {
    NamedExactly(s.webhooks, next.webhooks, WebhooksDelivery, name);
    NamedExactly(s.cdr, next.cdr, CdrDelivery, name);
    NamedExactly(AuditState(s), next.audit, AuditDelivery, name);
    InEither(Differing(s.baseline, RestartFps(next)), Named(s.webhooks, next.webhooks, WebhooksDelivery),
             Named(s.cdr, next.cdr, CdrDelivery), NamedAudit(s, next.audit), name);
  }

  lemma NamedExactly(st: SinkState, next: SinkConfig, entry: Label, name: Label)
    ensures name in Named(st, next, entry) <==> name == entry && Decided(st, next).RestartRequired?
  {
  }

  lemma InEither(a: seq<Label>, b: seq<Label>, c: seq<Label>, d: seq<Label>, name: Label)
    ensures name in a + b + c + d <==> name in a || name in b || name in c || name in d
  {
  }

  /** A change a spool stands in the way of is named. */
  lemma BlockedIsNamed(s: State, next: Config)
    ensures Decided(s.webhooks, next.webhooks).RestartRequired? ==> WebhooksDelivery in Report(s, next)
    ensures Decided(s.cdr, next.cdr).RestartRequired? ==> CdrDelivery in Report(s, next)
    ensures s.auditCell.Some? && Decided(AuditState(s), next.audit).RestartRequired? ==>
              AuditDelivery in Report(s, next)
    ensures s.auditCell.None? && next.audit != s.auditFp && next.audit.enabled ==> AuditEnable in Report(s, next)
  {
    assert Named(s.webhooks, next.webhooks, WebhooksDelivery) != [] ==>
        WebhooksDelivery in Named(s.webhooks, next.webhooks, WebhooksDelivery);
    assert Named(s.cdr, next.cdr, CdrDelivery) != [] ==> CdrDelivery in Named(s.cdr, next.cdr, CdrDelivery);
    assert NamedAudit(s, next.audit) != [] ==> NamedAudit(s, next.audit)[0] in NamedAudit(s, next.audit);
  }

  lemma GatewaysCovered(start: Config, s: State, next: Config, builds: Builds)
    requires Truthful(start, s)
    ensures var s1 := Apply(s, next, builds);
            || (s1.gateways.Some? && GatewayFp(s1.gateways.value) == GatewayFp(next.outbound.gateways))
            || OutboundLimits in Report(s, next) || !builds.gateways
            || (!start.outbound.On() && !next.outbound.On())
  {
    ReportExact(start, s, next, OutboundLimits);
  }

  /** After a reload each hot part runs the new value, or an entry of the report
      covers it, or its own build failed. */
  lemma ReportComplete(start: Config, s: State, next: Config, builds: Builds)
    requires Truthful(start, s)
    ensures var s1, report := Apply(s, next, builds), Report(s, next);
            && s1.routes == next.routes
            && (s1.webhooks.running == Built(next.webhooks) || WebhooksDelivery in report || !builds.webhooks)
            && (s1.cdr.running == Built(next.cdr) || CdrDelivery in report || !builds.cdr)
            && (if start.audit.enabled then
                  || s1.auditCell == Some(AuditRuns(next.audit)) || AuditDelivery in report
                  || (!builds.audit && next.audit.enabled)
                else !next.audit.enabled || AuditEnable in report)
            && (|| (s1.gateways.Some? && GatewayFp(s1.gateways.value) == GatewayFp(next.outbound.gateways))
                || OutboundLimits in report || !builds.gateways
                || (!start.outbound.On() && !next.outbound.On()))
  {
    BlockedIsNamed(s, next);
    GatewaysCovered(start, s, next, builds);
  }

  /** What `next` shows in its fingerprints is what runs. Two disabled `[audit]`
      sections run the same null delegate, so for audit the fingerprint decides. */
  ghost predicate RunsAsShown(start: Config, s: State, next: Config) {
    && (forall name :: !ShowsDifferently(start, next, name))
    && s.routes == next.routes
    && s.webhooks.running == Built(next.webhooks) && s.cdr.running == Built(next.cdr)
    && (if start.audit.enabled then s.auditFp == next.audit else !next.audit.enabled)
    && (s.gateways.Some? ==> GatewayFp(s.gateways.value) == GatewayFp(next.outbound.gateways))
  }

  lemma SilentWhenApplied(start: Config, s: State, next: Config)
    requires Truthful(start, s) && RunsAsShown(start, Apply(s, next, ALL_BUILD), next)
    ensures Report(s, next) == []
  {
    if Report(s, next) != [] {
      var name := Report(s, next)[0];
      assert name in Report(s, next);
      ReportExact(start, s, next, name);
      assert false;
    }
  }

  lemma SilentShowsAlike(start: Config, s: State, next: Config)
    requires Truthful(start, s) && Report(s, next) == []
    ensures forall name :: !ShowsDifferently(start, next, name)
  {
    forall name ensures !ShowsDifferently(start, next, name) {
      RestartNamedExactly(start, next, name);
    }
  }

  lemma AppliedWhenSilent(start: Config, s: State, next: Config)
    requires Truthful(start, s) && Report(s, next) == []
    ensures RunsAsShown(start, Apply(s, next, ALL_BUILD), next)
  {
    SilentShowsAlike(start, s, next);
    ReportComplete(start, s, next, ALL_BUILD);
    ApplyTruthful(start, s, next, ALL_BUILD);
    LimitsShown(start, next);
    SilentGateways(start, s, next);
  }

  lemma SilentGateways(start: Config, s: State, next: Config)
    requires Truthful(start, s) && OutboundLimits !in Report(s, next) && Limits(start.outbound) == Limits(next.outbound)
    ensures var s1 := Apply(s, next, ALL_BUILD);
            s1.gateways.Some? ==> GatewayFp(s1.gateways.value) == GatewayFp(next.outbound.gateways)
  {
  }

  lemma LimitsShown(a: Config, b: Config)
    requires !ShowsDifferently(a, b, OutboundLimits)
    ensures Limits(a.outbound) == Limits(b.outbound)
  {
  }

  /** With all builds succeeding, a reload reports nothing exactly when everything
      fingerprinted runs the new value. */
  lemma SilentExactlyWhenApplied(start: Config, s: State, next: Config)
    requires Truthful(start, s)
    ensures Report(s, next) == [] <==> RunsAsShown(start, Apply(s, next, ALL_BUILD), next)
  {
    if Report(s, next) == [] {
      AppliedWhenSilent(start, s, next);
    } else if RunsAsShown(start, Apply(s, next, ALL_BUILD), next) {
      SilentWhenApplied(start, s, next);
    }
  }

  lemma NoReasons(start: Config, s: State, next: Config)
    requires s.webhooks.running.Built? && s.cdr.running.Built?
    ensures (forall name :: !Reportable(start, s, next, name)) <==>
              && (forall name :: !ShowsDifferently(start, next, name))
              && !SpoolInTheWay(s.webhooks.running.from, next.webhooks)
              && !SpoolInTheWay(s.cdr.running.from, next.cdr)
              && !(start.audit.enabled && SpoolInTheWay(s.auditFp, next.audit))
              && !(!start.audit.enabled && next.audit.enabled)
  {
    if forall name :: !Reportable(start, s, next, name) {
      assert !Reportable(start, s, next, WebhooksDelivery) && !Reportable(start, s, next, CdrDelivery);
      assert !Reportable(start, s, next, AuditDelivery) && !Reportable(start, s, next, AuditEnable);
      forall name ensures !ShowsDifferently(start, next, name) {
        assert !Reportable(start, s, next, name);
      }
    }
  }

  /** Of what a caller can look up beforehand: a reload reports nothing exactly when no
      restart-only section shows differently than at startup, no spool stands in the way
      of a changed sink, and auditing is not being turned on. */
  lemma SilentExactly(start: Config, s: State, next: Config)
    requires Truthful(start, s)
    ensures Report(s, next) == [] <==>
              && (forall name :: !ShowsDifferently(start, next, name))
              && !SpoolInTheWay(s.webhooks.running.from, next.webhooks)
              && !SpoolInTheWay(s.cdr.running.from, next.cdr)
              && !(start.audit.enabled && SpoolInTheWay(s.auditFp, next.audit))
              && !(!start.audit.enabled && next.audit.enabled)
  {
    forall name ensures name in Report(s, next) <==> Reportable(start, s, next, name) {
      ReportExact(start, s, next, name);
    }
    NoReasons(start, s, next);
    if Report(s, next) != [] {
      assert Report(s, next)[0] in Report(s, next);
    }
  }

  lemma {:induction false} OneDiffers(base: seq<(Label, Fp)>, next: seq<(Label, Fp)>, i: nat)
    requires i < |base| == |next| && base[i].1 != next[i].1
    requires forall k | 0 <= k < |base| && k != i :: base[k].1 == next[k].1
    ensures Differing(base, next) == [base[i].0]
  {
    if i == 0 {
      NoneDiffers(base[1..], next[1..]);
    } else {
      assert base[0].1 == next[0].1;
      OneDiffers(base[1..], next[1..], i - 1);
    }
  }

  lemma {:induction false} NoneDiffers(base: seq<(Label, Fp)>, next: seq<(Label, Fp)>)
    requires |base| == |next| && forall k | 0 <= k < |base| :: base[k].1 == next[k].1
    ensures Differing(base, next) == []
  {
    if base != [] { NoneDiffers(base[1..], next[1..]); }
  }

  /** The place of a restart-only section in the program's list. */
  function Place(name: Label): nat {
    match name
    case Node => 0 case Sip => 1 case Media => 2 case BridgeDefaults => 3 case Trunks => 4
    case Registrations => 5 case Security => 6 case Recording => 7 case RecordingStorage => 8
    case Conference => 9 case Park => 10 case Observability => 11 case Admin => 12 case Hep => 13
    case Quality => 14 case Shutdown => 15 case OutboundLimits => 16
    case _ => 17
  }

  lemma ListedAt(name: Label)
    requires Place(name) < 17
    ensures |RESTART_LABELS| == 17 && RESTART_LABELS[Place(name)] == name
    ensures forall k | 0 <= k < 17 :: Place(RESTART_LABELS[k]) == k
  {
    assert forall k | 0 <= k < |RESTART_LABELS| :: Place(RESTART_LABELS[k]) == k;
  }

  lemma OneFpDiffers(start: Config, next: Config, name: Label)
    requires Place(name) < 17 && ShowsDifferently(start, next, name)
    requires forall other :: other != name ==> !ShowsDifferently(start, next, other)
    ensures Differing(RestartFps(start), RestartFps(next)) == [name]
  {
    ListedAt(name);
    FpShows(start, next, name);
    forall k | 0 <= k < 17 && k != Place(name)
      ensures RestartFps(start)[k].1 == RestartFps(next)[k].1
    {
      FpShows(start, next, RESTART_LABELS[k]);
    }
    OneDiffers(RestartFps(start), RestartFps(next), Place(name));
  }

  /** An edit of what one restart-only section shows, and of nothing else that has a reason
      to be named, is reported as exactly that section, once. */
  lemma OneSectionNamed(start: Config, s: State, next: Config, name: Label)
    requires Truthful(start, s) && Place(name) < 17 && ShowsDifferently(start, next, name)
    requires forall other :: other != name ==> !Reportable(start, s, next, other)
    ensures Report(s, next) == [name]
  {
    forall other | other != name ensures !ShowsDifferently(start, next, other) {
      assert !Reportable(start, s, next, other);
    }
    OneFpDiffers(start, next, name);
    NoSinkNamed(start, s, next);
  }

  lemma NoSinkNamed(start: Config, s: State, next: Config)
    requires Truthful(start, s)
    requires !Reportable(start, s, next, WebhooksDelivery) && !Reportable(start, s, next, CdrDelivery)
    requires !Reportable(start, s, next, AuditDelivery) && !Reportable(start, s, next, AuditEnable)
    ensures Report(s, next) == Differing(s.baseline, RestartFps(next))
  {
  }

  /** What each signal comes to: a file that cannot be read or is invalid is rejected, an
      unchanged text is left alone, and otherwise exactly the reasons are reported. */
  lemma SignalExactly(start: Config, h: Host, sig: Signal)
    requires Truthful(start, h.state)
    ensures match OutcomeOf(h, sig)
            case Rejected => sig.text.None? || (sig.text.value != h.lastText && sig.loaded.None?)
            case NoChange => sig.text == Some(h.lastText)
            case Applied(names) =>
              && sig.text.Some? && sig.text.value != h.lastText && sig.loaded.Some?
              && forall name :: name in names <==> Reportable(start, h.state, sig.loaded.value, name)
    ensures if OutcomeOf(h, sig).Applied?
            then OnSignal(h, sig).lastText == sig.text.value else OnSignal(h, sig) == h
  {
    if sig.text.Some? && sig.loaded.Some? {
      var next := sig.loaded.value;
      forall name ensures name in Report(h.state, next) <==> Reportable(start, h.state, next, name) {
        ReportExact(start, h.state, next, name);
      }
    }
  }

  // --- 4. What no fingerprint covers ----------------------------------

  /** The configuration with everything replaced that no fingerprint shows: `[registrar]`,
      `[webrtc]`, and what the rendering of each section hides. */
  function Unprinted(c: Config, registrar: Section, webrtc: Section, hidden: Label -> nat): Config {
    c.(registrar := registrar, webrtc := webrtc,
       node := c.node.(hidden := hidden(Node)), sip := c.sip.(hidden := hidden(Sip)),
       media := c.media.(hidden := hidden(Media)),
       bridgeDefaults := c.bridgeDefaults.(hidden := hidden(BridgeDefaults)),
       trunks := c.trunks.(hidden := hidden(Trunks)),
       registrations := c.registrations.(hidden := hidden(Registrations)),
       security := c.security.(hidden := hidden(Security)), recording := c.recording.(hidden := hidden(Recording)),
       recordingStorage := c.recordingStorage.(hidden := hidden(RecordingStorage)),
       conference := c.conference.(hidden := hidden(Conference)), park := c.park.(hidden := hidden(Park)),
       observability := c.observability.(hidden := hidden(Observability)),
       admin := c.admin.(hidden := hidden(Admin)), hep := c.hep.(hidden := hidden(Hep)),
       quality := c.quality.(hidden := hidden(Quality)), shutdown := c.shutdown.(hidden := hidden(Shutdown)))
  }

  lemma UnprintedShowsAlike(c: Config, registrar: Section, webrtc: Section, hidden: Label -> nat)
    ensures RestartFps(Unprinted(c, registrar, webrtc, hidden)) == RestartFps(c)
  {
    var edited := Unprinted(c, registrar, webrtc, hidden);
    assert forall name :: FpOf(edited, name) == FpOf(c, name);
  }

  /** From any state, whatever else the file changes: those edits are neither applied nor
      reported, although the daemon reads them only at startup. */
  lemma UnprintedEditIsSilent(
    s: State, next: Config, registrar: Section, webrtc: Section, hidden: Label -> nat, builds: Builds)
    ensures var edited := Unprinted(next, registrar, webrtc, hidden);
            Report(s, edited) == Report(s, next) && Apply(s, edited, builds) == Apply(s, next, builds)
  {
    UnprintedShowsAlike(next, registrar, webrtc, hidden);
  }

  /** From any reachable state: an edit of gateways that keeps the lines running, of their
      recording modes alone, is neither applied nor reported, whatever else the file changes. */
  lemma RecordingEditIsSilent(start: Config, s: State, next: Config, gateways: seq<Gateway>, builds: Builds)
    requires Truthful(start, s) && s.gateways.Some?
    requires GatewayFp(gateways) == GatewayFp(next.outbound.gateways) == GatewayFp(s.gateways.value)
    ensures var edited := next.(outbound := next.outbound.(gateways := gateways));
            && Report(s, edited) == Report(s, next) && Apply(s, edited, builds) == Apply(s, next, builds)
            && Apply(s, edited, builds).gateways == s.gateways
  {
    var edited := next.(outbound := next.outbound.(gateways := gateways));
    assert forall name :: FpOf(edited, name) == FpOf(next, name);
    assert RestartFps(edited) == RestartFps(next);
  }

  /** Two gateways that dial alike. */
  predicate DialAlike(a: Gateway, b: Gateway) {
    && a.name == b.name && a.proxyHost == b.proxyHost && a.proxyPort == b.proxyPort
    && a.transport == b.transport && a.from == b.from && a.srtp == b.srtp && a.credentials == b.credentials
  }

  lemma LinesOf(gateways: seq<Gateway>) returns (lines: seq<GatewayLine>)
    ensures |lines| == |gateways| && GatewayFp(gateways) == multiset(lines)
    ensures forall i | 0 <= i < |lines| :: lines[i] == LineOf(gateways[i])
  {
    lines := seq(|gateways|, i requires 0 <= i < |gateways| => LineOf(gateways[i]));
  }

  /** Replacing one gateway changes the fingerprint exactly when the new one dials differently. */
  lemma OneGatewayEdited(gateways: seq<Gateway>, i: nat, g: Gateway)
    requires i < |gateways|
    ensures GatewayFp(gateways[i := g]) == GatewayFp(gateways) <==> DialAlike(g, gateways[i])
  {
    var lines := LinesOf(gateways);
    var edited := LinesOf(gateways[i := g]);
    assert edited == lines[i := LineOf(g)];
    assert lines[i] == LineOf(gateways[i]) && LineOf(g) == lines[i] <==> DialAlike(g, gateways[i]);
    if LineOf(g) != lines[i] {
      assert multiset(edited) == multiset(lines) - multiset{lines[i]} + multiset{LineOf(g)};
      assert multiset(edited)[LineOf(g)] == multiset(lines)[LineOf(g)] + 1;
    }
  }

  /** So any such edit of one running gateway, host or credentials say, is applied. */
  lemma GatewayEditApplied(start: Config, s: State, next: Config, i: nat, g: Gateway)
    requires Truthful(start, s) && s.gateways.Some? && Limits(next.outbound) == Limits(start.outbound)
    requires i < |s.gateways.value| && next.outbound.gateways == s.gateways.value[i := g]
    requires !DialAlike(g, s.gateways.value[i])
    ensures Apply(s, next, ALL_BUILD).gateways == Some(next.outbound.gateways)
  {
    OneGatewayEdited(s.gateways.value, i, g);
    GatewaysReplacedExactly(start, s, next);
  }

  /** The order of the gateways in the file does not matter. */
  lemma GatewaysSwapped(gateways: seq<Gateway>, i: nat, j: nat)
    requires i < |gateways| && j < |gateways|
    ensures GatewayFp(gateways[i := gateways[j]][j := gateways[i]]) == GatewayFp(gateways)
  {
    var lines := LinesOf(gateways);
    var swapped := LinesOf(gateways[i := gateways[j]][j := gateways[i]]);
    assert swapped == lines[i := lines[j]][j := lines[i]];
  }

  /** The set that runs afterwards is the new one exactly when its lines changed or
      it was the same set already. */
  lemma GatewaysReplacedExactly(start: Config, s: State, next: Config)
    requires Truthful(start, s) && s.gateways.Some? && Limits(next.outbound) == Limits(start.outbound)
    ensures Apply(s, next, ALL_BUILD).gateways == Some(next.outbound.gateways) <==>
              || GatewayFp(next.outbound.gateways) != GatewayFp(s.gateways.value)
              || next.outbound.gateways == s.gateways.value
  {
    ReportExact(start, s, next, OutboundLimits);
  }

  // --- 5. Histories in which every build succeeds ---------------------

  function After(start: Config, history: seq<Config>): State {
    if history == [] then Startup(start)
    else Apply(After(start, history[..|history| - 1]), history[|history| - 1], ALL_BUILD)
  }

  /** A sink that started with a spool is frozen; otherwise the last configuration
      without one runs. */
  function LastHotSink(start: SinkConfig, history: seq<SinkConfig>): SinkConfig {
    if history == [] || start.spool then start
    else if !history[|history| - 1].spool then history[|history| - 1]
    else LastHotSink(start, history[..|history| - 1])
  }

  /** The limits that the running service was started with. */
  predicate Hot(start: Config, c: Config) { Limits(c.outbound) == Limits(start.outbound) }

  /** The last gateways configured under the startup limits: their lines run. */
  function LastHotGateways(start: Config, history: seq<Config>): seq<Gateway> {
    if history == [] then start.outbound.gateways
    else if Hot(start, history[|history| - 1]) then history[|history| - 1].outbound.gateways
    else LastHotGateways(start, history[..|history| - 1])
  }

  /** Which configuration's gateways run, counting startup as 0: the first under the
      startup limits since the lines last changed, recording modes included. */
  function GatewaysSince(start: Config, history: seq<Config>): (m: nat)
    ensures m <= |history|
  {
    if history == [] then 0
    else
      var before, c := history[..|history| - 1], history[|history| - 1];
      if Hot(start, c) && GatewayFp(c.outbound.gateways) != GatewayFp(LastHotGateways(start, before))
      then |history|
      else GatewaysSince(start, before)
  }

  function ConfigAt(start: Config, history: seq<Config>, m: nat): Config
    requires m <= |history|
  {
    if m == 0 then start else history[m - 1]
  }

  lemma ConfigStays(start: Config, history: seq<Config>, m: nat)
    requires m < |history|
    ensures ConfigAt(start, history, m) == ConfigAt(start, history[..|history| - 1], m)
  {
  }

  /** That configuration has the startup limits, and its lines run. */
  lemma {:induction false} GatewaysSinceHot(start: Config, history: seq<Config>)
    ensures var c := ConfigAt(start, history, GatewaysSince(start, history));
            Hot(start, c) && GatewayFp(LastHotGateways(start, history)) == GatewayFp(c.outbound.gateways)
  {
    if history != [] {
      GatewaysSinceHot(start, history[..|history| - 1]);
      if GatewaysSince(start, history) < |history| {
        ConfigStays(start, history, GatewaysSince(start, history));
      }
    }
  }

  /** The lines configured before it were different. */
  lemma {:induction false} GatewaysSinceNew(start: Config, history: seq<Config>)
    ensures var m := GatewaysSince(start, history);
            m > 0 ==> GatewayFp(LastHotGateways(start, history[..m - 1]))
                      != GatewayFp(ConfigAt(start, history, m).outbound.gateways)
  {
    if history != [] {
      var before, m := history[..|history| - 1], GatewaysSince(start, history);
      if 0 < m < |history| {
        GatewaysSinceNew(start, before);
        assert before[..m - 1] == history[..m - 1];
      }
    }
  }

  /** No configuration since with the startup limits shows other lines. */
  lemma {:induction false} GatewaysSinceAlike(start: Config, history: seq<Config>, k: nat)
    requires GatewaysSince(start, history) <= k <= |history| && Hot(start, ConfigAt(start, history, k))
    ensures GatewayFp(ConfigAt(start, history, k).outbound.gateways)
         == GatewayFp(ConfigAt(start, history, GatewaysSince(start, history)).outbound.gateways)
  {
    var m := GatewaysSince(start, history);
    if m < |history| {
      ConfigStays(start, history, m);
      if k < |history| {
        ConfigStays(start, history, k);
        GatewaysSinceAlike(start, history[..|history| - 1], k);
      } else {
        GatewaysSinceHot(start, history);
      }
    }
  }

  function Webhooks(history: seq<Config>): seq<SinkConfig> {
    if history == [] then [] else Webhooks(history[..|history| - 1]) + [history[|history| - 1].webhooks]
  }

  function Cdrs(history: seq<Config>): seq<SinkConfig> {
    if history == [] then [] else Cdrs(history[..|history| - 1]) + [history[|history| - 1].cdr]
  }

  function Audits(history: seq<Config>): seq<SinkConfig> {
    if history == [] then [] else Audits(history[..|history| - 1]) + [history[|history| - 1].audit]
  }

  lemma HotSinkNext(start: SinkConfig, history: seq<SinkConfig>, next: SinkConfig)
    ensures ReloadSink(StartSink(LastHotSink(start, history)), next, Built(next), true)
         == StartSink(LastHotSink(start, history + [next]))
  {
    assert (history + [next])[..|history|] == history;
    HotSinkSpool(start, history);
  }

  lemma {:induction false} HotSinkSpool(start: SinkConfig, history: seq<SinkConfig>)
    ensures start.spool ==> LastHotSink(start, history) == start
    ensures LastHotSink(start, history).spool == start.spool
  {
    if history != [] { HotSinkSpool(start, history[..|history| - 1]); }
  }

  /** The whole rolling state, from the history alone. */
  function ClosedForm(start: Config, history: seq<Config>): State {
    var audit := if start.audit.enabled then LastHotSink(start.audit, Audits(history)) else start.audit;
    var on := start.outbound.maxConcurrent > 0;
    State(
      RestartFps(start),
      if history == [] then start.routes else history[|history| - 1].routes,
      StartSink(LastHotSink(start.webhooks, Webhooks(history))),
      StartSink(LastHotSink(start.cdr, Cdrs(history))),
      audit, audit.spool, if start.audit.enabled then Some(AuditRuns(audit)) else None,
      if on then GatewayFp(LastHotGateways(start, history)) else multiset{},
      if on then Some(ConfigAt(start, history, GatewaysSince(start, history)).outbound.gateways) else None)
  }

  lemma HotAuditNext(start: SinkConfig, history: seq<SinkConfig>, next: SinkConfig)
    ensures var a, b := LastHotSink(start, history), LastHotSink(start, history + [next]);
            ReloadSink(SinkState(a, a.spool, AuditRuns(a)), next, AuditDelegate(next), true)
            == SinkState(b, b.spool, AuditRuns(b))
  {
    assert (history + [next])[..|history|] == history;
    HotSinkSpool(start, history);
  }

  lemma DeliveryNext(start: Config, before: seq<Config>, next: Config)
    ensures var s1 := ReloadDelivery(ClosedForm(start, before), next, ALL_BUILD);
            var s2 := ClosedForm(start, before + [next]);
            s1.routes == s2.routes && s1.webhooks == s2.webhooks && s1.cdr == s2.cdr
  {
    assert (before + [next])[..|before|] == before;
    HotSinkNext(start.webhooks, Webhooks(before), next.webhooks);
    HotSinkNext(start.cdr, Cdrs(before), next.cdr);
  }

  lemma AuditNext(start: Config, before: seq<Config>, next: Config)
    ensures var s1 := ReloadAudit(ClosedForm(start, before), next.audit, true);
            var s2 := ClosedForm(start, before + [next]);
            s1.auditFp == s2.auditFp && s1.auditSpool == s2.auditSpool && s1.auditCell == s2.auditCell
  {
    assert (before + [next])[..|before|] == before;
    HotAuditNext(start.audit, Audits(before), next.audit);
  }

  lemma GatewaysNext(start: Config, before: seq<Config>, next: Config)
    ensures var s1 := ReloadGateways(ClosedForm(start, before), next.outbound, !Hot(start, next), true);
            var s2 := ClosedForm(start, before + [next]);
            s1.gatewayFp == s2.gatewayFp && s1.gateways == s2.gateways
  {
    var history, m := before + [next], GatewaysSince(start, before);
    assert history[..|before|] == before;
    assert GatewaysSince(start, history) <= |before| ==> ConfigAt(start, history, m) == ConfigAt(start, before, m);
    assert Hot(start, next) ==> next.outbound.On() == start.outbound.On();
  }

  lemma HotExactly(start: Config, s: State, next: Config)
    requires s.baseline == RestartFps(start)
    ensures OutboundLimits in Report(s, next) <==> !Hot(start, next)
  {
    RestartNamedExactly(start, next, OutboundLimits);
  }

  lemma ClosedFormNext(start: Config, before: seq<Config>, next: Config)
    ensures Apply(ClosedForm(start, before), next, ALL_BUILD) == ClosedForm(start, before + [next])
  {
    HotExactly(start, ClosedForm(start, before), next);
    DeliveryNext(start, before, next);
    AuditNext(start, before, next);
    GatewaysNext(start, before, next);
  }

  lemma AfterNext(start: Config, before: seq<Config>, next: Config)
    ensures After(start, before + [next]) == Apply(After(start, before), next, ALL_BUILD)
  {
    assert (before + [next])[..|before|] == before;
  }

  lemma StartupClosedForm(start: Config)
    ensures Startup(start) == ClosedForm(start, [])
  {
  }

  /** The rolling state after any such history is exactly a closed form of the history. */
  lemma {:induction false} HistoryClosedForm(start: Config, history: seq<Config>)
    ensures After(start, history) == ClosedForm(start, history)
  {
    if history == [] {
      StartupClosedForm(start);
    } else {
      var before, next := history[..|history| - 1], history[|history| - 1];
      assert history == before + [next];
      calc {
        After(start, before + [next]);
        { AfterNext(start, before, next); }
        Apply(After(start, before), next, ALL_BUILD);
        { HistoryClosedForm(start, before); }
        Apply(ClosedForm(start, before), next, ALL_BUILD);
        { ClosedFormNext(start, before, next); }
        ClosedForm(start, before + [next]);
      }
    }
  }

  lemma FrozenOrRestored(start: SinkConfig, history: seq<SinkConfig>)
    ensures LastHotSink(start, history + [start]) == start
    ensures !Decided(StartSink(LastHotSink(start, history)), start).RestartRequired?
  {
    HotSinkSpool(start, history);
    assert (history + [start])[..|history|] == history;
  }

  lemma StartupReportsNothing(start: Config, history: seq<Config>)
    ensures Report(After(start, history), start) == []
  {
    HistoryClosedForm(start, history);
    FrozenOrRestored(start.webhooks, Webhooks(history));
    FrozenOrRestored(start.cdr, Cdrs(history));
    FrozenOrRestored(start.audit, Audits(history));
    NoneDiffers(RestartFps(start), RestartFps(start));
  }

  /** Reloading the startup configuration after any history restores the startup
      state, up to the recording modes of its gateways, and reports nothing. */
  lemma StartupRestores(start: Config, history: seq<Config>)
    ensures var s1 := Apply(After(start, history), start, ALL_BUILD);
            && Report(After(start, history), start) == []
            && s1.(gateways := Startup(start).gateways) == Startup(start)
            && (start.outbound.On() <==> s1.gateways.Some?)
            && (start.outbound.On() ==> GatewayFp(s1.gateways.value) == GatewayFp(start.outbound.gateways))
  {
    StartupReportsNothing(start, history);
    HistoryClosedForm(start, history);
    ClosedFormNext(start, history, start);
    var all := history + [start];
    FrozenOrRestored(start.webhooks, Webhooks(history));
    FrozenOrRestored(start.cdr, Cdrs(history));
    FrozenOrRestored(start.audit, Audits(history));
    assert all[..|history|] == history;
    GatewaysSinceHot(start, all);
  }

  // --- 6. The unchanged-file shortcut ---------------------------------

  lemma ReappliedParts(s: State, next: Config, limitsChanged: bool, builds: Builds)
    ensures var s1 := ReloadDelivery(s, next, ALL_BUILD); ReloadDelivery(s1, next, builds) == s1
    ensures var s1 := ReloadAudit(s, next.audit, true); ReloadAudit(s1, next.audit, builds.audit) == s1
    ensures var s1 := ReloadGateways(s, next.outbound, limitsChanged, true);
            ReloadGateways(s1, next.outbound, limitsChanged, builds.gateways) == s1
  {
  }

  lemma LimitsReportStable(start: Config, s: State, next: Config)
    requires Truthful(start, s)
    ensures OutboundLimits in Report(Apply(s, next, ALL_BUILD), next) <==> OutboundLimits in Report(s, next)
  {
    ApplyTruthful(start, s, next, ALL_BUILD);
    ReportExact(start, s, next, OutboundLimits);
    ReportExact(start, Apply(s, next, ALL_BUILD), next, OutboundLimits);
  }

  /** When all builds succeeded, skipping an unchanged file loses nothing: applying
      the same configuration again changes nothing, whatever its builds would do. */
  lemma ReapplyingChangesNothing(start: Config, s: State, next: Config, builds: Builds)
    requires Truthful(start, s)
    ensures Apply(Apply(s, next, ALL_BUILD), next, builds) == Apply(s, next, ALL_BUILD)
  {
    LimitsReportStable(start, s, next);
    var limitsChanged := OutboundLimits in Report(s, next);
    var s1 := ReloadAudit(ReloadDelivery(s, next, ALL_BUILD), next.audit, true);
    ReappliedParts(s, next, limitsChanged, builds);
    ReappliedParts(ReloadDelivery(s, next, ALL_BUILD), next, limitsChanged, builds);
    ReappliedParts(s1, next, limitsChanged, builds);
  }

  /** The four parts whose build can fail. */
  datatype Part = WebhookPart | CdrPart | AuditPart | GatewayPart

  predicate CanBuild(b: Builds, part: Part) {
    match part
    case WebhookPart => b.webhooks
    case CdrPart => b.cdr
    case AuditPart => b.audit
    case GatewayPart => b.gateways
  }

  /** A reload of `next` would try to build this part. */
  predicate Due(s: State, next: Config, part: Part) {
    match part
    case WebhookPart => Decided(s.webhooks, next.webhooks).Swap?
    case CdrPart => Decided(s.cdr, next.cdr).Swap?
    case AuditPart => s.auditCell.Some? && Decided(AuditState(s), next.audit).Swap? && next.audit.enabled
    case GatewayPart =>
      && s.gateways.Some? && next.outbound.On() && OutboundLimits !in Report(s, next)
      && GatewayFp(next.outbound.gateways) != s.gatewayFp
  }

  /** The part runs as `next` says. */
  predicate Runs(s: State, next: Config, part: Part) {
    match part
    case WebhookPart => s.webhooks.running == Built(next.webhooks)
    case CdrPart => s.cdr.running == Built(next.cdr)
    case AuditPart => s.auditCell == Some(Built(next.audit))
    case GatewayPart => s.gateways == Some(next.outbound.gateways)
  }

  lemma DuePartBuilds(start: Config, s: State, next: Config, part: Part, builds: Builds)
    requires Truthful(start, s) && Due(s, next, part)
    ensures var s1 := Apply(s, next, builds);
            !Runs(s, next, part) && (if CanBuild(builds, part) then Runs(s1, next, part)
                                     else !Runs(s1, next, part) && Due(s1, next, part))
  {
    HotExactly(start, s, next);
    HotExactly(start, Apply(s, next, builds), next);
  }

  /** When the build of any one part failed, a second signal with the same configuration
      heals it exactly when the file's text has changed, even though the first left the
      change detectable. */
  lemma FailedBuildNeedsAnEdit(start: Config, h: Host, first: Signal, second: Signal, part: Part)
    requires Truthful(start, h.state) && OutcomeOf(h, first).Applied?
    requires Due(h.state, first.loaded.value, part) && !CanBuild(first.builds, part)
    requires second.text.Some? && second.loaded == first.loaded && CanBuild(second.builds, part)
    ensures var next, h1 := first.loaded.value, OnSignal(h, first);
            && !Runs(h1.state, next, part) && Due(h1.state, next, part)
            && (Runs(OnSignal(h1, second).state, next, part) <==> second.text != first.text)
  {
    var next, h1 := first.loaded.value, OnSignal(h, first);
    DuePartBuilds(start, h.state, next, part, first.builds);
    ApplyTruthful(start, h.state, next, first.builds);
    DuePartBuilds(start, h1.state, next, part, second.builds);
  }
}
