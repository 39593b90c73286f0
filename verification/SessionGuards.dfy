/** The session's timers, size check and inbound hand-over, as functions of the
    arms a run has taken. */
module SessionGuards {
  import opened Sequences
  import opened Session
  import opened SessionTrace

  // --- 1. Keepalive ---------------------------------------------------

  /** The ping of pass `i` has had no pong since. */
  ghost predicate Unanswered(log: seq<Took>, i: int) {
    && 0 <= i < |log| && log[i].arm.TickArm?
    && forall j | i < j < |log| :: log[j].arm != SocketArm(PongFrame)
  }

  ghost predicate FirstUnanswered(log: seq<Took>, i: int) {
    Unanswered(log, i) && forall j | 0 <= j < i :: !Unanswered(log, j)
  }

  /** The deadline is set exactly when a ping is unanswered, and it counts from
      the first such ping however many follow. */
  ghost predicate PongDeadlineExact(c: Setup, s: State) {
    match s.pongDeadline
    case None => forall i :: !Unanswered(s.log, i)
    case Some(d) => exists i :: FirstUnanswered(s.log, i) && d == s.log[i].at + c.liveness.pongTimeout
  }

  lemma UnansweredNext(log: seq<Took>, t: Took, i: int)
    requires 0 <= i <= |log|
    ensures Unanswered(log + [t], i) <==>
              if i == |log| then t.arm.TickArm? else Unanswered(log, i) && t.arm != SocketArm(PongFrame)
  {
    var log1 := log + [t];
    assert log1[|log|] == t;
    if i < |log| {
      assert log1[i] == log[i];
      assert forall j | i < j < |log| :: log1[j] == log[j];
    }
  }

  lemma HandlePongDeadline(c: Setup, s: State, now: nat, arm: Arm)
    requires s.ending.None?
    ensures var s1 := Handle(c, s, now, arm);
            && (s1.ending != Some(WriteError) ==>
                  s1.pongDeadline ==
                    if arm == SocketArm(PongFrame) then None
                    else if arm.TickArm? && s.pongDeadline.None? then Some(now + c.liveness.pongTimeout)
                    else s.pongDeadline)
            && (s1.ending == Some(KeepaliveTimeout) ==> arm.PongTimeoutArm?)
  {
    if WritesOnly(arm) {
      ArmOnlyWrites(c, s, now, arm);
    } else if arm.SocketArm? && arm.item.Control? {
      FatalOnlyWrites(c, s, now, ProtocolError, "call_id does not match the connection");
    }
  }

  lemma StepKeepalive(c: Setup, s: State, p: Poll)
    requires PongDeadlineExact(c, s) && s.ending.None?
    ensures var s1 := Step(c, s, p);
            && (s1.ending != Some(WriteError) ==> PongDeadlineExact(c, s1))
            && (s1.ending == Some(KeepaliveTimeout) ==>
                  && s1.log[|s1.log| - 1] == Took(p.now, PongTimeoutArm)
                  && s1.pongDeadline.Some? && s1.pongDeadline.value <= p.now)
  {
    var arm := Select(c, s, p);
    var t := Took(p.now, arm);
    var s1 := Step(c, s, p);
    StepLogs(c, s, p);
    HandlePongDeadline(c, Logged(s, p.now, arm), p.now, arm);
    forall i | 0 <= i <= |s.log|
      ensures Unanswered(s1.log, i) <==>
                if i == |s.log| then arm.TickArm? else Unanswered(s.log, i) && arm != SocketArm(PongFrame)
    {
      UnansweredNext(s.log, t, i);
    }
    if s1.pongDeadline.Some? && s1.ending != Some(WriteError) {
      var i := |s.log|;
      if s.pongDeadline.Some? {
        i :| FirstUnanswered(s.log, i) && s.pongDeadline.value == s.log[i].at + c.liveness.pongTimeout;
      }
      assert s1.log[i] == (s.log + [t])[i];
      assert FirstUnanswered(s1.log, i);
    }
  }

  /** What a keepalive ending says about the run: its last pass came at least the
      pong timeout after a ping that no pong followed. */
  ghost predicate TimedOutAfterSilence(c: Setup, s: State) {
    && s.log != [] && s.log[|s.log| - 1].arm.PongTimeoutArm?
    && exists i :: FirstUnanswered(s.log, i) && s.log[i].at + c.liveness.pongTimeout <= s.log[|s.log| - 1].at
  }

  lemma {:induction false} KeepaliveExact(c: Setup, polls: seq<Poll>)
    ensures var s := Run(c, polls);
            && (s.ending != Some(WriteError) ==> PongDeadlineExact(c, s))
            && (s.ending == Some(KeepaliveTimeout) ==> TimedOutAfterSilence(c, s))
  {
    if polls != [] {
      var before := polls[..|polls| - 1];
      KeepaliveExact(c, before);
      if Run(c, before).ending.None? { StepKeepalive(c, Run(c, before), polls[|polls| - 1]); }
    }
  }

  // --- 2. Start deadline ----------------------------------------------

  /** The server spoke: a frame of the right size, or a hangup for this call. */
  predicate Spoke(c: Setup, t: Took) {
    && t.arm.SocketArm?
    && match t.arm.item
       case AudioFrame(data, _) => FitsFormat(c, data)
       case Control(msg, _) => msg.callId == c.callId && msg.verb.Hangup?
       case _ => false
  }

  ghost predicate HasSpoken(c: Setup, log: seq<Took>) { exists i | 0 <= i < |log| :: Spoke(c, log[i]) }

  /** The deadline is armed from the start until the server first speaks, and
      then never again. */
  ghost predicate StartDeadlineExact(c: Setup, s: State) {
    s.startDeadline ==
      if c.liveness.startDeadline == 0 || HasSpoken(c, s.log) then None
      else Some(c.startSent + c.liveness.startDeadline)
  }

  lemma HandleStartDeadline(c: Setup, s: State, now: nat, arm: Arm)
    requires s.ending.None?
    ensures var s1 := Handle(c, s, now, arm);
            && s1.startDeadline == (if Spoke(c, Took(now, arm)) then None else s.startDeadline)
            && (s1.ending == Some(TooSlow) ==> arm.StartTimeoutArm?)
  {
    if WritesOnly(arm) {
      ArmOnlyWrites(c, s, now, arm);
    } else if arm.SocketArm? && arm.item.Control? {
      FatalOnlyWrites(c, s, now, ProtocolError, "call_id does not match the connection");
    }
  }

  lemma StepStartDeadline(c: Setup, s: State, p: Poll)
    requires StartDeadlineExact(c, s) && s.ending.None?
    ensures var s1 := Step(c, s, p);
            && StartDeadlineExact(c, s1)
            && (s1.ending == Some(TooSlow) ==> s1.startDeadline.Some? && s1.startDeadline.value <= p.now)
  {
    var t := Took(p.now, Select(c, s, p));
    var log := s.log + [t];
    StepLogs(c, s, p);
    HandleStartDeadline(c, Logged(s, p.now, t.arm), p.now, t.arm);
    assert log[|s.log|] == t;
    assert forall i | 0 <= i < |s.log| :: log[i] == s.log[i];
    assert HasSpoken(c, log) <==> HasSpoken(c, s.log) || Spoke(c, t);
  }

  /** A too-slow ending means a deadline was configured and had passed, and no
      well-sized frame and no hangup had been handled. */
  ghost predicate SlowExplained(c: Setup, s: State) {
    && (s.log != [] || s.ending.None? ==> StartDeadlineExact(c, s))
    && (s.ending == Some(TooSlow) ==>
          && 0 < c.liveness.startDeadline && s.log != [] && !HasSpoken(c, s.log)
          && c.startSent + c.liveness.startDeadline <= s.log[|s.log| - 1].at)
  }

  lemma StepExplainsSlow(c: Setup, s: State, p: Poll)
    requires StartDeadlineExact(c, s) && s.ending.None?
    ensures SlowExplained(c, Step(c, s, p))
  {
    StepStartDeadline(c, s, p);
    StepLogs(c, s, p);
  }

  lemma {:induction false} TooSlowMeansSilent(c: Setup, polls: seq<Poll>)
    ensures SlowExplained(c, Run(c, polls))
  {
    if polls != [] {
      var before := polls[..|polls| - 1];
      TooSlowMeansSilent(c, before);
      if Run(c, before).ending.None? { StepExplainsSlow(c, Run(c, before), polls[|polls| - 1]); }
    }
  }

  // --- 3. Inbound hand-over -------------------------------------------

  /** The arm on which the controller proved gone, when it was an inbound item. */
  predicate LostHandOver(t: Took, ending: Option<Ending>) {
    t.arm.SocketArm? && ending == Some(ControllerHungUp)
  }

  /** The controller has exactly the well-sized frames and the messages for this
      call, in order; a failed hand-over ends the session and loses only itself. */
  ghost predicate HandedOver(c: Setup, s: State) {
    var n := |s.log|;
    var taken := if n > 0 && LostHandOver(s.log[n - 1], s.ending) then s.log[..n - 1] else s.log;
    s.audioIn == AudioReceived(c, taken) && s.controlIn == MessagesReceived(c, taken)
  }

  lemma HandleInbound(c: Setup, s: State, now: nat, arm: Arm)
    requires s.ending.None?
    ensures var s1, t := Handle(c, s, now, arm), Took(now, arm);
            var lost := LostHandOver(t, s1.ending);
            && s1.audioIn == s.audioIn + (if lost then [] else Only(GoodAudio(c, t)))
            && s1.controlIn == s.controlIn + (if lost then [] else Only(GoodMessage(c, t)))
  {
    if WritesOnly(arm) {
      ArmOnlyWrites(c, s, now, arm);
    } else if arm.SocketArm? && arm.item.AudioFrame? {
      AudioInbound(c, s, now, arm.item.data, arm.item.delivered);
    } else if arm.SocketArm? && arm.item.Control? {
      MessageInbound(c, s, now, arm.item.msg, arm.item.delivered);
    }
  }

  lemma AudioInbound(c: Setup, s: State, now: nat, data: Bytes, delivered: bool)
    requires s.ending.None?
    ensures var s1 := OnAudioFrame(c, s, now, data, delivered);
            && (s1.ending == Some(ControllerHungUp) <==> c.RightSize(data) && !delivered)
            && s1.audioIn == s.audioIn + (if c.RightSize(data) && delivered then [data] else [])
            && s1.controlIn == s.controlIn
  {
  }

  lemma MessageInbound(c: Setup, s: State, now: nat, msg: BridgeIn, delivered: bool)
    requires s.ending.None?
    ensures var s1 := OnControlMessage(c, s, now, msg, delivered);
            && (s1.ending == Some(ControllerHungUp) <==> msg.callId == c.callId && !delivered)
            && s1.controlIn == s.controlIn + (if msg.callId == c.callId && delivered then [msg] else [])
            && s1.audioIn == s.audioIn
  {
    FatalOnlyWrites(c, s, now, ProtocolError, "call_id does not match the connection");
  }

  lemma ReceivedNext(c: Setup, log: seq<Took>, t: Took)
    ensures AudioReceived(c, log + [t]) == AudioReceived(c, log) + Only(GoodAudio(c, t))
    ensures MessagesReceived(c, log + [t]) == MessagesReceived(c, log) + Only(GoodMessage(c, t))
  {
    PickAppend(u => GoodAudio(c, u), log, t);
    PickAppend(u => GoodMessage(c, u), log, t);
  }

  lemma StepHandsOver(c: Setup, s: State, p: Poll)
    requires HandedOver(c, s) && s.ending.None?
    ensures HandedOver(c, Step(c, s, p))
  {
    var t := Took(p.now, Select(c, s, p));
    ReceivedNext(c, s.log, t);
    StepLogs(c, s, p);
    HandleInbound(c, Logged(s, p.now, t.arm), p.now, t.arm);
    assert (s.log + [t])[..|s.log|] == s.log;
  }

  lemma {:induction false} AlwaysHandedOver(c: Setup, polls: seq<Poll>)
    ensures HandedOver(c, Run(c, polls))
  {
    if polls != [] {
      var before := polls[..|polls| - 1];
      AlwaysHandedOver(c, before);
      if Run(c, before).ending.None? { StepHandsOver(c, Run(c, before), polls[|polls| - 1]); }
    }
  }

  // --- 4. Wrong-size reports ------------------------------------------

  /** The moments a once-a-second reporter speaks, of the moments it is asked to. */
  function Throttle(times: seq<nat>): seq<nat> {
    if times == [] then []
    else
      var told := Throttle(times[..|times| - 1]);
      var now := times[|times| - 1];
      if told == [] || told[|told| - 1] + 1000 <= now then told + [now] else told
  }

  predicate Spaced(told: seq<nat>) {
    forall i, j | 0 <= i < j < |told| :: told[i] + 1000 <= told[j]
  }

  lemma {:induction false} ThrottleSpaced(times: seq<nat>)
    ensures Spaced(Throttle(times))
  {
    if times != [] {
      var told := Throttle(times[..|times| - 1]);
      ThrottleSpaced(times[..|times| - 1]);
      var all := Throttle(times);
      forall i, j | 0 <= i < j < |all| ensures all[i] + 1000 <= all[j] {
        if j == |told| && i < |told| - 1 {
          assert told[i] + 1000 <= told[|told| - 1];
        }
      }
    }
  }

  /** Under a clock that never runs back, no frame goes unreported for a full second. */
  lemma {:induction false} ThrottleCovers(times: seq<nat>)
    requires forall i, j | 0 <= i < j < |times| :: times[i] <= times[j]
    ensures forall k | 0 <= k < |times| ::
              exists t :: t in Throttle(times) && t <= times[k] < t + 1000
    ensures Throttle(times) != [] ==> Throttle(times)[|Throttle(times)| - 1] in times
  {
    if times != [] {
      var n := |times| - 1;
      ThrottleCovers(times[..n]);
      var told := Throttle(times[..n]);
      if told != [] {
        assert told[|told| - 1] in times[..n] && times[..n] <= times;
      }
      assert Throttle(times)[|Throttle(times)| - 1] in times by {
        assert times[n] in times;
      }
      forall k | 0 <= k < |times|
        ensures exists t :: t in Throttle(times) && t <= times[k] < t + 1000
      {
        if k < n {
          assert times[..n][k] == times[k];
          var t :| t in told && t <= times[k] < t + 1000;
          assert t in Throttle(times);
        } else {
          var t := Throttle(times)[|Throttle(times)| - 1];
          assert t in Throttle(times);
        }
      }
    }
  }

  lemma ThrottleNext(times: seq<nat>, now: nat)
    ensures var told := Throttle(times);
            Throttle(times + [now]) ==
              if told == [] || told[|told| - 1] + 1000 <= now then told + [now] else told
  {
    var all := times + [now];
    assert all != [] && all[..|all| - 1] == times && all[|all| - 1] == now;
    assert Throttle(all) == var told := Throttle(all[..|all| - 1]);
                            if told == [] || told[|told| - 1] + 1000 <= now then told + [now] else told;
  }

  /** The wrong-size reports on the wire are the throttled wrong-size frames. */
  ghost predicate ReportsThrottled(c: Setup, s: State) {
    var told := Throttle(WrongSizesReceived(c, s.log));
    var got := Pick(WrongSizeTime, s.wire);
    && (if s.ending == Some(WriteError) then got <= told && |told| <= |got| + 1 else got == told)
    && s.lastFormatError == if told == [] then None else Some(told[|told| - 1])
  }

  lemma WrongSizeViews(w: seq<Sent>, x: Sent)
    ensures Pick(WrongSizeTime, w + [x]) == Pick(WrongSizeTime, w) + (if WrongSizeTime(x).Some? then [x.at] else [])
  {
    PickAppend(WrongSizeTime, w, x);
  }

  lemma WriteUnreported(c: Setup, s: State, now: nat, f: Frame)
    requires WrongSizeTime(Sent(now, f)).None?
    ensures Pick(WrongSizeTime, Write(c, s, now, f).wire) == Pick(WrongSizeTime, s.wire)
  {
    WrongSizeViews(s.wire, Sent(now, f));
  }

  lemma FatalUnreported(c: Setup, s: State, now: nat, code: ErrorCode, what: string)
    ensures Pick(WrongSizeTime, WriteFatal(c, s, now, code, what).wire) == Pick(WrongSizeTime, s.wire)
    ensures Pick(WrongSizeTime, WriteClose(c, WriteFatal(c, s, now, code, what), now).wire)
         == Pick(WrongSizeTime, s.wire)
  {
    var m := Error(c.callId, s.number, code, Fatal(what));
    var s1 := Write(c, s.(number := Bump(s.number)), now, Text(m));
    WriteUnreported(c, s.(number := Bump(s.number)), now, Text(m));
    var stop := Stop(c.callId, s1.number, Failed, Offset(now, c.startSent));
    WriteUnreported(c, s1.(number := Bump(s1.number)), now, Text(stop));
    WriteUnreported(c, WriteFatal(c, s, now, code, what), now, Close(Some(NORMAL_CLOSURE)));
  }

  lemma ControlUnreported(c: Setup, s: State, now: nat, event: Option<OutgoingEvent>)
    ensures Pick(WrongSizeTime, OnControl(c, s, now, event).wire) == Pick(WrongSizeTime, s.wire)
  {
    match event {
      case None =>
        var m := Stop(c.callId, s.number, Failed, Offset(now, c.startSent));
        WriteUnreported(c, s, now, Text(m));
        WriteUnreported(c, Write(c, s, now, Text(m)), now, Close(Some(NORMAL_CLOSURE)));
      case Some(ev) =>
        var m := Build(ev, c.callId, s.number, c.startSent);
        var s1 := s.(number := Bump(s.number));
        WriteUnreported(c, s1, now, Text(m));
        WriteUnreported(c, Write(c, s1, now, Text(m)), now, Close(Some(NORMAL_CLOSURE)));
    }
  }

  lemma SocketUnreported(c: Setup, s: State, now: nat, item: SocketItem)
    requires !(item.AudioFrame? && !c.RightSize(item.data))
    ensures Pick(WrongSizeTime, OnSocket(c, s, now, item).wire) == Pick(WrongSizeTime, s.wire)
  {
    match item {
      case Malformed => FatalUnreported(c, s, now, ProtocolError, "malformed or unknown message");
      case Control(msg, delivered) =>
        FatalUnreported(c, s, now, ProtocolError, "call_id does not match the connection");
      case PingFrame(payload) => WriteUnreported(c, s, now, Pong(payload));
      case CloseFrame(code) => WriteUnreported(c, s, now, Close(code));
      case _ =>
    }
  }

  lemma HandleUnreported(c: Setup, s: State, now: nat, arm: Arm)
    requires !(arm.SocketArm? && arm.item.AudioFrame? && !c.RightSize(arm.item.data))
    ensures Pick(WrongSizeTime, Handle(c, s, now, arm).wire) == Pick(WrongSizeTime, s.wire)
  {
    match arm {
      case ControlArm(event) => ControlUnreported(c, s, now, event);
      case AudioArm(audio) => if audio.Some? { WriteUnreported(c, s, now, Binary(audio.value)); }
      case SocketArm(item) => SocketUnreported(c, s, now, item);
      case TickArm => WriteUnreported(c, s, now, Ping);
      case PongTimeoutArm => FatalUnreported(c, s, now, Internal, "ws keepalive timeout");
      case StartTimeoutArm => FatalUnreported(c, s, now, ServerTooSlow, "no audio within start deadline");
      case NoArm =>
    }
  }

  lemma HandleKeepsReportTime(c: Setup, s: State, now: nat, arm: Arm)
    requires !(arm.SocketArm? && arm.item.AudioFrame? && !c.RightSize(arm.item.data))
    ensures Handle(c, s, now, arm).lastFormatError == s.lastFormatError
  {
    if WritesOnly(arm) {
      ArmOnlyWrites(c, s, now, arm);
    } else if arm.SocketArm? && arm.item.Control? {
      FatalOnlyWrites(c, s, now, ProtocolError, "call_id does not match the connection");
    }
  }

  lemma WrongSizesNext(c: Setup, log: seq<Took>, t: Took)
    ensures WrongSizesReceived(c, log + [t]) == WrongSizesReceived(c, log) + Only(BadAudioTime(c, t))
  {
    PickAppend(u => BadAudioTime(c, u), log, t);
  }

  /** What a wrong-size frame does: a report when one is due, and nothing otherwise. */
  lemma BadFrameHandled(c: Setup, s: State, now: nat, data: Bytes, delivered: bool)
    requires s.ending.None? && !c.RightSize(data)
    ensures var s1 := OnAudioFrame(c, s, now, data, delivered);
            if FormatErrorDue(s, now) then
              && s1.lastFormatError == Some(now) && s1.log == s.log
              && s1.ending == (if Up(c, s) then None else Some(WriteError))
              && Pick(WrongSizeTime, s1.wire) == Pick(WrongSizeTime, s.wire) + (if Up(c, s) then [now] else [])
            else s1 == s
  {
    WrongSizeViews(s.wire, Sent(now, Text(Error(c.callId, s.number, AudioFormat,
                                               WrongSize(c.expectedAudioBytes, |data|)))));
  }

  lemma WrongSizeReports(c: Setup, s: State, now: nat, data: Bytes, delivered: bool)
    requires ReportsThrottled(c, s) && s.ending.None? && !c.RightSize(data)
    ensures var s0 := Logged(s, now, SocketArm(AudioFrame(data, delivered)));
            ReportsThrottled(c, OnAudioFrame(c, s0, now, data, delivered))
  {
    var t := Took(now, SocketArm(AudioFrame(data, delivered)));
    WrongSizesNext(c, s.log, t);
    ThrottleNext(WrongSizesReceived(c, s.log), now);
    BadFrameHandled(c, Logged(s, now, t.arm), now, data, delivered);
  }

  lemma StepReports(c: Setup, s: State, p: Poll)
    requires ReportsThrottled(c, s) && s.ending.None?
    ensures ReportsThrottled(c, Step(c, s, p))
  {
    var arm := Select(c, s, p);
    if arm.SocketArm? && arm.item.AudioFrame? && !c.RightSize(arm.item.data) {
      WrongSizeReports(c, s, p.now, arm.item.data, arm.item.delivered);
    } else {
      WrongSizesNext(c, s.log, Took(p.now, arm));
      StepLogs(c, s, p);
      HandleUnreported(c, Logged(s, p.now, arm), p.now, arm);
      HandleKeepsReportTime(c, Logged(s, p.now, arm), p.now, arm);
      assert WrongSizesReceived(c, Step(c, s, p).log) == WrongSizesReceived(c, s.log);
    }
  }

  lemma {:induction false} ReportsAlwaysThrottled(c: Setup, polls: seq<Poll>)
    ensures ReportsThrottled(c, Run(c, polls))
  {
    if polls == [] {
      WriteUnreported(c, Fresh(), c.startSent, Text(Start(c.callId, 0, c.format)));
    } else {
      var before := polls[..|polls| - 1];
      ReportsAlwaysThrottled(c, before);
      if Run(c, before).ending.None? { StepReports(c, Run(c, before), polls[|polls| - 1]); }
    }
  }

  lemma PrefixSpaced(told: seq<nat>, times: seq<nat>)
    requires told <= Throttle(times)
    ensures Spaced(told)
  {
    ThrottleSpaced(times);
    assert forall k | 0 <= k < |told| :: told[k] == Throttle(times)[k];
  }

  /** Wrong-size reports on the wire are always at least a second apart. */
  lemma ReportsSpaced(c: Setup, polls: seq<Poll>)
    ensures Spaced(Pick(WrongSizeTime, Run(c, polls).wire))
  {
    var s := Run(c, polls);
    ReportsAlwaysThrottled(c, polls);
    PrefixSpaced(Pick(WrongSizeTime, s.wire), WrongSizesReceived(c, s.log));
  }

  ghost predicate ClockForward(polls: seq<Poll>) {
    forall i, j | 0 <= i < j < |polls| :: polls[i].now <= polls[j].now
  }

  ghost predicate InOrder(log: seq<Took>) {
    forall i, j | 0 <= i < j < |log| :: log[i].at <= log[j].at
  }

  lemma OneMoreInOrder(log: seq<Took>, t: Took)
    requires InOrder(log) && (log != [] ==> log[|log| - 1].at <= t.at)
    ensures InOrder(log + [t])
  {
  }

  predicate LoggedBy(log: seq<Took>, now: nat) { log != [] ==> log[|log| - 1].at <= now }

  lemma StepInOrder(c: Setup, s: State, p: Poll)
    requires InOrder(s.log) && LoggedBy(s.log, p.now)
    ensures InOrder(Step(c, s, p).log) && LoggedBy(Step(c, s, p).log, p.now)
  {
    StepLogs(c, s, p);
    OneMoreInOrder(s.log, Took(p.now, Select(c, s, p)));
  }

  lemma ClockBefore(polls: seq<Poll>)
    requires ClockForward(polls) && polls != []
    ensures var n := |polls| - 1;
            ClockForward(polls[..n]) && (n > 0 ==> polls[..n][n - 1].now <= polls[n].now)
  {
  }

  lemma {:induction false} LogInOrder(c: Setup, polls: seq<Poll>)
    requires ClockForward(polls)
    ensures var log := Run(c, polls).log;
            InOrder(log) && (if polls == [] then log == [] else LoggedBy(log, polls[|polls| - 1].now))
  {
    if polls != [] {
      var before, p := polls[..|polls| - 1], polls[|polls| - 1];
      ClockBefore(polls);
      LogInOrder(c, before);
      assert LoggedBy(Run(c, before).log, p.now);
      StepInOrder(c, Run(c, before), p);
    }
  }

  lemma WrongSizeFrom(c: Setup, log: seq<Took>, at: nat)
    ensures at in WrongSizesReceived(c, log) <==> exists i | 0 <= i < |log| :: BadAudioTime(c, log[i]) == Some(at)
  {
    PickedFrom(t => BadAudioTime(c, t), log, at);
  }

  lemma {:induction false} WrongSizesInOrder(c: Setup, log: seq<Took>)
    requires InOrder(log)
    ensures var times := WrongSizesReceived(c, log);
            forall i, j | 0 <= i < j < |times| :: times[i] <= times[j]
  {
    if log != [] {
      var last := |log| - 1;
      WrongSizesInOrder(c, log[..last]);
      var times := WrongSizesReceived(c, log[..last]);
      forall k | 0 <= k < |times| ensures times[k] <= log[last].at {
        WrongSizeFrom(c, log[..last], times[k]);
        var i :| 0 <= i < last && BadAudioTime(c, log[..last][i]) == Some(times[k]);
        assert log[i].at <= log[last].at;
      }
    }
  }

  /** A wrong-size frame handled at `at` has a report on the wire less than a second old. */
  ghost predicate Covered(w: seq<Sent>, at: nat) {
    exists k | 0 <= k < |w| :: WrongSizeTime(w[k]).Some? && w[k].at <= at < w[k].at + 1000
  }

  lemma ToldOf(times: seq<nat>, at: nat) returns (told: nat)
    requires at in times && forall i, j | 0 <= i < j < |times| :: times[i] <= times[j]
    ensures told in Throttle(times) && told <= at < told + 1000
  {
    ThrottleCovers(times);
    var k :| 0 <= k < |times| && times[k] == at;
    told :| told in Throttle(times) && told <= times[k] < told + 1000;
  }

  lemma ReportOf(w: seq<Sent>, told: nat)
    requires told in Pick(WrongSizeTime, w)
    ensures exists k | 0 <= k < |w| :: WrongSizeTime(w[k]).Some? && w[k].at == told
  {
    PickedFrom(WrongSizeTime, w, told);
    var k :| 0 <= k < |w| && WrongSizeTime(w[k]) == Some(told);
  }

  lemma ThrottledCovers(c: Setup, log: seq<Took>, w: seq<Sent>, i: nat)
    requires InOrder(log) && Pick(WrongSizeTime, w) == Throttle(WrongSizesReceived(c, log))
    requires i < |log| && BadAudioTime(c, log[i]).Some?
    ensures Covered(w, log[i].at)
  {
    WrongSizesInOrder(c, log);
    WrongSizeFrom(c, log, log[i].at);
    var told := ToldOf(WrongSizesReceived(c, log), log[i].at);
    ReportOf(w, told);
  }

  /** When writes succeed and the clock does not run back, the server hears of every
      wrong-size frame: a report went out with it or less than a second before it. */
  lemma EveryWrongSizeCovered(c: Setup, polls: seq<Poll>, i: nat)
    requires AllWritesSucceed(c) && ClockForward(polls)
    requires i < |Run(c, polls).log| && BadAudioTime(c, Run(c, polls).log[i]).Some?
    ensures Covered(Run(c, polls).wire, Run(c, polls).log[i].at)
  {
    LogInOrder(c, polls);
    ReportsAlwaysThrottled(c, polls);
    EndingFixesTail(c, polls);
    ThrottledCovers(c, Run(c, polls).log, Run(c, polls).wire, i);
  }

  // --- 5. The price of the arm order ----------------------------------

  /** With the outbound audio channel closed, its arm is ready on every pass, so
      no socket item and no timer is ever handled and the session can only end
      through the control channel or a failed write. */
  lemma {:induction false} ClosedAudioStarvesSocket(c: Setup, polls: seq<Poll>)
    requires forall i | 0 <= i < |polls| :: polls[i].audioOut == Some(None)
    ensures var s := Run(c, polls);
            && (forall i | 0 <= i < |s.log| :: s.log[i].arm.ControlArm? || s.log[i].arm == AudioArm(None))
            && s.ending in {None, Some(StopSent), Some(ControllerHungUp), Some(WriteError)}
            && s.audioIn == [] && s.controlIn == []
  {
    if polls != [] {
      var before := polls[..|polls| - 1];
      ClosedAudioStarvesSocket(c, before);
      if Run(c, before).ending.None? { StepLogs(c, Run(c, before), polls[|polls| - 1]); }
    }
  }
}
