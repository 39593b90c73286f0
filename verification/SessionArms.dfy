/** Which arm each pass of a session takes, and which endings follow: both stated from
    the passes and the arms taken before, without the loop's own decisions. */
module SessionArms {
  import opened Sequences
  import opened Session
  import opened SessionTrace
  import opened SessionGuards

  lemma RunNext(c: Setup, polls: seq<Poll>, p: Poll)
    requires Run(c, polls).ending.None?
    ensures Run(c, polls + [p]) == Step(c, Run(c, polls), p)
  {
    assert (polls + [p])[..|polls|] == polls;
  }

  // --- 1. The arm of each pass ----------------------------------------

  /** Nothing is ready ahead of the timers. */
  predicate Quiet(p: Poll) { p.control.None? && p.audioOut.None? && p.socket.None? }

  /** A keepalive ping is to be sent: both its durations are set and the timer ticked. */
  predicate PingDue(c: Setup, p: Poll) {
    p.tick && c.liveness.pingInterval != 0 && c.liveness.pongTimeout != 0
  }

  /** The first unanswered ping is at least the pong timeout old. */
  ghost predicate PongOverdue(c: Setup, log: seq<Took>, now: nat) {
    exists i :: FirstUnanswered(log, i) && log[i].at + c.liveness.pongTimeout <= now
  }

  /** A start deadline is set and past, and the server has not spoken. */
  ghost predicate StartOverdue(c: Setup, log: seq<Took>, now: nat) {
    && c.liveness.startDeadline != 0 && !HasSpoken(c, log)
    && c.startSent + c.liveness.startDeadline <= now
  }

  /** The one arm a pass takes after `log`: control, then outbound audio, then the socket,
      then the three timers, each only when nothing before it is ready. */
  ghost predicate Takes(c: Setup, log: seq<Took>, p: Poll, arm: Arm) {
    if p.control.Some? then arm == ControlArm(p.control.value)
    else if p.audioOut.Some? then arm == AudioArm(p.audioOut.value)
    else if p.socket.Some? then arm == SocketArm(p.socket.value)
    else
      && (arm == TickArm <==> PingDue(c, p))
      && (arm == PongTimeoutArm <==> !PingDue(c, p) && PongOverdue(c, log, p.now))
      && (arm == StartTimeoutArm <==>
            !PingDue(c, p) && !PongOverdue(c, log, p.now) && StartOverdue(c, log, p.now))
      && (arm == NoArm <==>
            !PingDue(c, p) && !PongOverdue(c, log, p.now) && !StartOverdue(c, log, p.now))
  }

  lemma PongDeadlineMeans(c: Setup, s: State, now: nat)
    requires PongDeadlineExact(c, s)
    ensures (s.pongDeadline.Some? && s.pongDeadline.value <= now) <==> PongOverdue(c, s.log, now)
  {
  }

  lemma SelectTakes(c: Setup, s: State, p: Poll)
    requires PongDeadlineExact(c, s) && StartDeadlineExact(c, s)
    ensures Takes(c, s.log, p, Select(c, s, p))
  {
    PongDeadlineMeans(c, s, p.now);
  }

  /** Main result: every pass of a session that has not ended takes exactly one arm, and it
      is the one the priorities, the configured durations and the arms before it demand. */
  lemma ArmExactly(c: Setup, polls: seq<Poll>, p: Poll)
    requires Run(c, polls).ending.None?
    ensures var log, next := Run(c, polls).log, Run(c, polls + [p]).log;
            exists arm :: next == log + [Took(p.now, arm)] && Takes(c, log, p, arm)
  {
    var s := Run(c, polls);
    KeepaliveExact(c, polls);
    TooSlowMeansSilent(c, polls);
    SelectTakes(c, s, p);
    RunNext(c, polls, p);
    StepLogs(c, s, p);
  }

  // --- 2. The ending of each pass -------------------------------------

  /** A wrong-size frame now would be reported: none was in the last second. */
  predicate ReportDue(c: Setup, log: seq<Took>, now: nat) {
    var told := Throttle(WrongSizesReceived(c, log));
    told == [] || told[|told| - 1] + 1000 <= now
  }

  /** `first` and `second` say whether the next two writes reach the socket. */
  ghost predicate EndsBy(
    c: Setup, log: seq<Took>, t: Took, first: bool, second: bool, ending: Option<Ending>)
  {
    match t.arm
    case ControlArm(None) => ending == Some(ControllerHungUp)
    case ControlArm(Some(ev)) =>
      if !first then ending == Some(WriteError)
      else if ev.StopEvent? then ending == Some(if second then StopSent else WriteError)
      else ending.None?
    case AudioArm(audio) => ending == if audio.Some? && !first then Some(WriteError) else None
    case SocketArm(AudioFrame(data, delivered)) =>
      if FitsFormat(c, data) then ending == if delivered then None else Some(ControllerHungUp)
      else ending == if ReportDue(c, log, t.at) && !first then Some(WriteError) else None
    case SocketArm(Control(msg, delivered)) =>
      if msg.callId != c.callId then ending == Some(Violation)
      else ending == if delivered then None else Some(ControllerHungUp)
    case SocketArm(Malformed) => ending == Some(Violation)
    case SocketArm(PingFrame(_)) => ending == if first then None else Some(WriteError)
    case SocketArm(PongFrame) => ending.None?
    case SocketArm(RawFrame) => ending.None?
    case SocketArm(CloseFrame(_)) => ending == Some(ServerClosed)
    case SocketArm(EndOfStream) => ending == Some(ServerClosed)
    case SocketArm(ReadFailed) => ending == Some(ReadError)
    case TickArm => ending == if first then None else Some(WriteError)
    case PongTimeoutArm => ending == Some(KeepaliveTimeout)
    case StartTimeoutArm => ending == Some(TooSlow)
    case NoArm => ending.None?
  }

  /** `s1` is one arm after `s` and ended, or not, by that arm. */
  ghost predicate EndsAsTaken(c: Setup, s: State, s1: State) {
    && |s1.log| == |s.log| + 1
    && EndsBy(c, s.log, s1.log[|s.log|], c.link(s.attempts), c.link(s.attempts + 1), s1.ending)
  }

  lemma ControlEndsBy(c: Setup, s: State, now: nat, event: Option<OutgoingEvent>, log: seq<Took>)
    requires s.ending.None?
    ensures EndsBy(c, log, Took(now, ControlArm(event)), c.link(s.attempts), c.link(s.attempts + 1),
                   OnControl(c, s, now, event).ending)
  {
  }

  lemma SocketEndsBy(c: Setup, s: State, now: nat, item: SocketItem, log: seq<Took>)
    requires s.ending.None? && FormatErrorDue(s, now) == ReportDue(c, log, now)
    ensures EndsBy(c, log, Took(now, SocketArm(item)), c.link(s.attempts), c.link(s.attempts + 1),
                   OnSocket(c, s, now, item).ending)
  {
  }

  lemma HandleEndsBy(c: Setup, s: State, now: nat, arm: Arm, log: seq<Took>)
    requires s.ending.None? && FormatErrorDue(s, now) == ReportDue(c, log, now)
    ensures EndsBy(c, log, Took(now, arm), c.link(s.attempts), c.link(s.attempts + 1),
                   Handle(c, s, now, arm).ending)
  {
    match arm {
      case ControlArm(event) => ControlEndsBy(c, s, now, event, log);
      case SocketArm(item) => SocketEndsBy(c, s, now, item, log);
      case _ =>
    }
  }

  /** Main result: the arm a pass takes and the fate of its writes decide whether the
      session ends there, and how. */
  lemma EndingExactly(c: Setup, polls: seq<Poll>, p: Poll)
    requires Run(c, polls).ending.None?
    ensures EndsAsTaken(c, Run(c, polls), Run(c, polls + [p]))
  {
    ReportsAlwaysThrottled(c, polls);
    RunNext(c, polls, p);
    StepEndsBy(c, Run(c, polls), p);
  }

  lemma StepEndsBy(c: Setup, s: State, p: Poll)
    requires s.ending.None? && ReportsThrottled(c, s)
    ensures EndsAsTaken(c, s, Step(c, s, p))
  {
    var arm := Select(c, s, p);
    StepLogs(c, s, p);
    HandleEndsBy(c, Logged(s, p.now, arm), p.now, arm, s.log);
  }

  /** A session is given up for silence exactly when a pass finds the start deadline past,
      nothing ahead of it ready, and the server never to have spoken. */
  lemma TooSlowExactly(c: Setup, polls: seq<Poll>, p: Poll)
    requires Run(c, polls).ending.None?
    ensures var log := Run(c, polls).log;
            Run(c, polls + [p]).ending == Some(TooSlow) <==>
              Quiet(p) && !PingDue(c, p) && !PongOverdue(c, log, p.now) && StartOverdue(c, log, p.now)
  {
    ArmExactly(c, polls, p);
    EndingExactly(c, polls, p);
  }

  /** And for a missing pong exactly when a pass finds the first unanswered ping too old and
      nothing ahead of it ready. */
  lemma KeepaliveTimeoutExactly(c: Setup, polls: seq<Poll>, p: Poll)
    requires Run(c, polls).ending.None?
    ensures Run(c, polls + [p]).ending == Some(KeepaliveTimeout) <==>
              Quiet(p) && !PingDue(c, p) && PongOverdue(c, Run(c, polls).log, p.now)
  {
    ArmExactly(c, polls, p);
    EndingExactly(c, polls, p);
  }

  // --- 3. What a wrong-size report says -------------------------------

  /** The error names the size expected and the size of a frame handled at that moment. */
  ghost predicate Names(c: Setup, log: seq<Took>, x: Sent) {
    WrongSizeTime(x).Some? ==>
      && x.frame.msg.code == AudioFormat && x.frame.msg.text.expected == c.expectedAudioBytes
      && exists i | 0 <= i < |log| ::
           && BadAudioTime(c, log[i]) == Some(x.at)
           && |log[i].arm.item.data| == x.frame.msg.text.got
  }

  ghost predicate AllNamed(c: Setup, log: seq<Took>, w: seq<Sent>) {
    forall k | 0 <= k < |w| :: Names(c, log, w[k])
  }

  /** Handling an arm only adds to the wire, and adds no other wrong-size report. */
  ghost predicate AddsNamed(c: Setup, w: seq<Sent>, w1: seq<Sent>, t: Took) {
    w <= w1 && forall k | |w| <= k < |w1| :: Names(c, [t], w1[k])
  }

  lemma WriteAdds(c: Setup, w: seq<Sent>, s: State, now: nat, f: Frame, t: Took)
    requires AddsNamed(c, w, s.wire, t) && Names(c, [t], Sent(now, f))
    ensures AddsNamed(c, w, Write(c, s, now, f).wire, t)
  {
  }

  lemma FatalAdds(c: Setup, s: State, now: nat, code: ErrorCode, what: string, t: Took)
    ensures AddsNamed(c, s.wire, WriteFatal(c, s, now, code, what).wire, t)
    ensures AddsNamed(c, s.wire, WriteClose(c, WriteFatal(c, s, now, code, what), now).wire, t)
  {
    var s0 := s.(number := Bump(s.number));
    var m := Error(c.callId, s.number, code, Fatal(what));
    WriteAdds(c, s.wire, s0, now, Text(m), t);
    var s1 := Write(c, s0, now, Text(m));
    var stop := Stop(c.callId, s1.number, Failed, Offset(now, c.startSent));
    WriteAdds(c, s.wire, s1.(number := Bump(s1.number)), now, Text(stop), t);
    WriteAdds(c, s.wire, WriteFatal(c, s, now, code, what), now, Close(Some(NORMAL_CLOSURE)), t);
  }

  lemma ControlAdds(c: Setup, s: State, now: nat, event: Option<OutgoingEvent>, t: Took)
    ensures AddsNamed(c, s.wire, OnControl(c, s, now, event).wire, t)
  {
    match event {
      case None =>
        var m := Stop(c.callId, s.number, Failed, Offset(now, c.startSent));
        WriteAdds(c, s.wire, s, now, Text(m), t);
        WriteAdds(c, s.wire, Write(c, s, now, Text(m)), now, Close(Some(NORMAL_CLOSURE)), t);
      case Some(ev) =>
        var m, s0 := Build(ev, c.callId, s.number, c.startSent), s.(number := Bump(s.number));
        WriteAdds(c, s.wire, s0, now, Text(m), t);
        WriteAdds(c, s.wire, Write(c, s0, now, Text(m)), now, Close(Some(NORMAL_CLOSURE)), t);
    }
  }

  lemma AudioAdds(c: Setup, s: State, now: nat, data: Bytes, delivered: bool)
    ensures var t := Took(now, SocketArm(AudioFrame(data, delivered)));
            AddsNamed(c, s.wire, OnAudioFrame(c, s, now, data, delivered).wire, t)
  {
    var t := Took(now, SocketArm(AudioFrame(data, delivered)));
    if !c.RightSize(data) && FormatErrorDue(s, now) {
      var x := Text(Error(c.callId, s.number, AudioFormat, WrongSize(c.expectedAudioBytes, |data|)));
      assert BadAudioTime(c, [t][0]) == Some(now);
      WriteAdds(c, s.wire, s.(number := Bump(s.number), lastFormatError := Some(now)), now, x, t);
    }
  }

  lemma SocketAdds(c: Setup, s: State, now: nat, item: SocketItem)
    ensures AddsNamed(c, s.wire, OnSocket(c, s, now, item).wire, Took(now, SocketArm(item)))
  {
    var t := Took(now, SocketArm(item));
    match item {
      case AudioFrame(data, delivered) => AudioAdds(c, s, now, data, delivered);
      case Malformed => FatalAdds(c, s, now, ProtocolError, "malformed or unknown message", t);
      case Control(_, _) => FatalAdds(c, s, now, ProtocolError, "call_id does not match the connection", t);
      case PingFrame(payload) => WriteAdds(c, s.wire, s, now, Pong(payload), t);
      case CloseFrame(code) => WriteAdds(c, s.wire, s, now, Close(code), t);
      case _ =>
    }
  }

  lemma HandleAdds(c: Setup, s: State, now: nat, arm: Arm)
    ensures AddsNamed(c, s.wire, Handle(c, s, now, arm).wire, Took(now, arm))
  {
    var t := Took(now, arm);
    match arm {
      case ControlArm(event) => ControlAdds(c, s, now, event, t);
      case AudioArm(audio) => if audio.Some? { WriteAdds(c, s.wire, s, now, Binary(audio.value), t); }
      case SocketArm(item) => SocketAdds(c, s, now, item);
      case TickArm => WriteAdds(c, s.wire, s, now, Ping, t);
      case PongTimeoutArm => FatalAdds(c, s, now, Internal, "ws keepalive timeout", t);
      case StartTimeoutArm => FatalAdds(c, s, now, ServerTooSlow, "no audio within start deadline", t);
      case NoArm =>
    }
  }

  lemma NamedOnward(c: Setup, log: seq<Took>, t: Took, w: seq<Sent>, w1: seq<Sent>)
    requires AllNamed(c, log, w) && AddsNamed(c, w, w1, t)
    ensures AllNamed(c, log + [t], w1)
  {
    var all := log + [t];
    assert all[|log|] == t && forall i | 0 <= i < |log| :: all[i] == log[i];
    forall k | 0 <= k < |w1| ensures Names(c, all, w1[k]) {
      if k < |w| {
        assert Names(c, log, w[k]) && w1[k] == w[k];
      } else {
        assert Names(c, [t], w1[k]);
      }
    }
  }

  /** In every run each wrong-size report has the code, the expected size and the size of a
      frame handled when it was written. */
  lemma {:induction false} ReportsNameSizes(c: Setup, polls: seq<Poll>)
    ensures AllNamed(c, Run(c, polls).log, Run(c, polls).wire)
  {
    if polls != [] {
      var before, p := polls[..|polls| - 1], polls[|polls| - 1];
      ReportsNameSizes(c, before);
      var s := Run(c, before);
      if s.ending.None? {
        var t := Took(p.now, Select(c, s, p));
        StepLogs(c, s, p);
        HandleAdds(c, Logged(s, p.now, t.arm), p.now, t.arm);
        NamedOnward(c, s.log, t, s.wire, Step(c, s, p).wire);
      }
    }
  }

  // --- 4. Sizes and writes --------------------------------------------

  /** The size a frame must have: its milliseconds of 16-bit samples, for whole kilohertz. */
  lemma FrameBytesMean(format: Format)
    requires format.sampleRate % 1000 == 0
    ensures FrameBytes(format) * 1000 == format.sampleRate * format.frameMs * format.channels * 2
  {
    var khz := format.sampleRate / 1000;
    assert format.sampleRate == khz * 1000;
    Rearranged(khz, format.frameMs, format.channels);
  }

  lemma Rearranged(a: nat, b: nat, c: nat)
    ensures a * b * c * 2 * 1000 == a * 1000 * b * c * 2
  {
  }
}
