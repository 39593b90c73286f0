/** The WebSocket session of one call: what `run_loop` does on each pass of its
    biased select, and the class whose methods are that loop. */
module Session {
  import opened Sequences

  type Bytes = seq<Byte>
  type Detail = seq<int>  // the fields of a notice that the session only carries

  const SEQ_MODULUS: nat := 0x1_0000_0000_0000_0000
  const NORMAL_CLOSURE: nat := 1000
  const FORMAT_ERROR_SPACING_MS: nat := 1000

  datatype StopReason = CallerHangup | ServerHangup | Transferred | WsDisconnect | Parked | Failed

  datatype ErrorCode =
    | RtpTimeout | CodecUnsupported | AudioFormat | ProtocolError | ServerTooSlow | TransferFailed
    | ConferenceFailed | ParkFailed | HoldFailed | Internal

  /** Notices that carry the moment they describe. */
  datatype TimedKind =
    | SpeechStarted | SpeechStopped | Dtmf | Mark | Hold | Resume | Held | Resumed | BargeInResolved
    | PlayoutStarted | PlayoutStopped | SilenceDetected | DeadAirDetected
    | RecordingStarted | RecordingStopped | RecordingFailed

  /** Notices without a moment. */
  datatype PlainKind = RtpStats | ConferenceJoined | ConferenceLeft | ParticipantJoined | ParticipantLeft

  /** The text of an error message, kept as the value it is formatted from. */
  datatype ErrorText = WrongSize(expected: nat, got: nat) | Fatal(what: string) | Given(text: string)

  datatype OutgoingEvent =
    | TimedEvent(timed: TimedKind, detail: Detail, at: nat)
    | PlainEvent(plain: PlainKind, detail: Detail)
    | StopEvent(reason: StopReason, at: nat)
    | ErrorEvent(code: ErrorCode, message: string)

  datatype BridgeOut =
    | Start(callId: string, number: nat, format: Format)
    | Timed(callId: string, number: nat, timed: TimedKind, detail: Detail, offsetMs: nat)
    | Plain(callId: string, number: nat, plain: PlainKind, detail: Detail)
    | Stop(callId: string, number: nat, reason: StopReason, offsetMs: nat)
    | Error(callId: string, number: nat, code: ErrorCode, text: ErrorText)

  datatype Verb =
    | Clear | SetMark | Hangup | Transfer | SendDtmf | Mute | Unmute | BargeInConfirm | BargeInReject
    | StartRecording | StopRecording | PauseRecording | ResumeRecording | SetRecordingConsent
    | ConferenceJoin | ConferenceLeave | Park | HoldCall | ResumeCall

  datatype BridgeIn = BridgeIn(verb: Verb, callId: string, detail: Detail)

  datatype Frame =
    | Text(msg: BridgeOut)
    | Binary(data: Bytes)
    | Ping
    | Pong(payload: Bytes)
    | Close(code: Option<nat>)

  /** A frame the socket accepted, and when. */
  datatype Sent = Sent(at: nat, frame: Frame)

  datatype Format = Format(sampleRate: nat, frameMs: nat, channels: nat)

  datatype Liveness = Liveness(pingInterval: nat, pongTimeout: nat, startDeadline: nat)

  /** Bytes in one inbound audio frame of the negotiated format; 0 turns the size check off. */
  function FrameBytes(format: Format): nat {
    (format.sampleRate / 1000) * format.frameMs * format.channels * 2
  }

  /** What is fixed for one session. `link(n)` says whether the n-th write reaches the socket. */
  datatype Setup = Setup(
    callId: string,
    format: Format,
    expectedAudioBytes: nat,
    liveness: Liveness,
    startSent: nat,
    link: nat -> bool)
  {
    predicate RightSize(data: Bytes) {
      expectedAudioBytes == 0 || |data| == expectedAudioBytes
    }
    predicate KeepaliveOn() {
      liveness.pingInterval != 0 && liveness.pongTimeout != 0
    }
  }

  /** How the session function returned. The two socket endings are one error
      variant of the program, told apart here by the direction that failed. */
  datatype Ending =
    | StopSent | ServerClosed | ControllerHungUp | TooSlow | Violation
    | KeepaliveTimeout | ReadError | WriteError

  /** One item of the inbound stream. `delivered` says whether the controller's
      receiving half was still open when the item was handed on. */
  datatype SocketItem =
    | AudioFrame(data: Bytes, delivered: bool)
    | Malformed
    | Control(msg: BridgeIn, delivered: bool)
    | PingFrame(payload: Bytes)
    | PongFrame
    | CloseFrame(code: Option<nat>)
    | RawFrame
    | ReadFailed
    | EndOfStream

  /** What each arm of the select would yield on one pass. `Some(None)` on a
      channel arm is a closed channel. */
  datatype Poll = Poll(
    now: nat,
    control: Option<Option<OutgoingEvent>>,
    audioOut: Option<Option<Bytes>>,
    socket: Option<SocketItem>,
    tick: bool)

  datatype Arm =
    | ControlArm(event: Option<OutgoingEvent>)
    | AudioArm(audio: Option<Bytes>)
    | SocketArm(item: SocketItem)
    | TickArm
    | PongTimeoutArm
    | StartTimeoutArm
    | NoArm

  /** An arm the loop took, and when. */
  datatype Took = Took(at: nat, arm: Arm)

  datatype State = State(
    number: nat,
    pongDeadline: Option<nat>,
    startDeadline: Option<nat>,
    lastFormatError: Option<nat>,
    wire: seq<Sent>,
    attempts: nat,
    audioIn: seq<Bytes>,
    controlIn: seq<BridgeIn>,
    log: seq<Took>,
    ending: Option<Ending>)

  // --- What one pass does ---------------------------------------------

  function Bump(number: nat): nat { (number + 1) % SEQ_MODULUS }

  /** Milliseconds from `startSent` to `at`, 0 for a moment before it. */
  function Offset(at: nat, startSent: nat): nat { if at < startSent then 0 else at - startSent }

  function Build(event: OutgoingEvent, callId: string, number: nat, startSent: nat): BridgeOut {
    match event
    case TimedEvent(kind, detail, at) => Timed(callId, number, kind, detail, Offset(at, startSent))
    case PlainEvent(kind, detail) => Plain(callId, number, kind, detail)
    case StopEvent(reason, at) => Stop(callId, number, reason, Offset(at, startSent))
    case ErrorEvent(code, message) => Error(callId, number, code, Given(message))
  }

  predicate Up(c: Setup, s: State) { c.link(s.attempts) }

  function Write(c: Setup, s: State, now: nat, frame: Frame): State {
    s.(attempts := s.attempts + 1, wire := if Up(c, s) then s.wire + [Sent(now, frame)] else s.wire)
  }

  function End(s: State, ending: Ending): State { s.(ending := Some(ending)) }

  /** The fatal `error` and, if it got through, the `stop` after it. */
  function WriteFatal(c: Setup, s: State, now: nat, code: ErrorCode, what: string): State {
    var s1 := Write(c, s.(number := Bump(s.number)), now, Text(Error(c.callId, s.number, code, Fatal(what))));
    if !Up(c, s) then s1
    else Write(c, s1.(number := Bump(s1.number)), now,
               Text(Stop(c.callId, s1.number, Failed, Offset(now, c.startSent))))
  }

  function WriteClose(c: Setup, s: State, now: nat): State {
    Write(c, s, now, Close(Some(NORMAL_CLOSURE)))
  }

  function Fresh(): State { State(1, None, None, None, [], 0, [], [], [], None) }

  function Opening(c: Setup): State {
    var s := Fresh();
    var s1 := Write(c, s, c.startSent, Text(Start(c.callId, 0, c.format)));
    if !Up(c, s) then End(s1, WriteError)
    else if c.liveness.startDeadline == 0 then s1
    else s1.(startDeadline := Some(c.startSent + c.liveness.startDeadline))
  }

  /** The biased select: the first arm, in program order, that is ready and enabled. */
  function Select(c: Setup, s: State, p: Poll): Arm {
    if p.control.Some? then ControlArm(p.control.value)
    else if p.audioOut.Some? then AudioArm(p.audioOut.value)
    else if p.socket.Some? then SocketArm(p.socket.value)
    else if c.KeepaliveOn() && p.tick then TickArm
    else if s.pongDeadline.Some? && s.pongDeadline.value <= p.now then PongTimeoutArm
    else if s.startDeadline.Some? && s.startDeadline.value <= p.now then StartTimeoutArm
    else NoArm
  }

  function OnControl(c: Setup, s: State, now: nat, event: Option<OutgoingEvent>): State {
    match event
    case None =>
      var s1 := Write(c, s, now, Text(Stop(c.callId, s.number, Failed, Offset(now, c.startSent))));
      End(WriteClose(c, s1, now), ControllerHungUp)
    case Some(ev) =>
      var m := Build(ev, c.callId, s.number, c.startSent);
      var s1 := Write(c, s.(number := Bump(s.number)), now, Text(m));
      if !Up(c, s) then End(s1, WriteError)
      else if m.Stop? then End(WriteClose(c, s1, now), if Up(c, s1) then StopSent else WriteError)
      else s1
  }

  function OnAudioOut(c: Setup, s: State, now: nat, audio: Option<Bytes>): State {
    match audio
    case None => s
    case Some(data) =>
      var s1 := Write(c, s, now, Binary(data));
      if Up(c, s) then s1 else End(s1, WriteError)
  }

  predicate FormatErrorDue(s: State, now: nat) {
    s.lastFormatError.None? || s.lastFormatError.value + FORMAT_ERROR_SPACING_MS <= now
  }

  function OnAudioFrame(c: Setup, s: State, now: nat, data: Bytes, delivered: bool): State {
    if !c.RightSize(data) then
      if !FormatErrorDue(s, now) then s
      else
        var text := WrongSize(c.expectedAudioBytes, |data|);
        var s1 := Write(c, s.(number := Bump(s.number), lastFormatError := Some(now)), now,
                        Text(Error(c.callId, s.number, AudioFormat, text)));
        if Up(c, s) then s1 else End(s1, WriteError)
    else
      var s1 := s.(startDeadline := None);
      if delivered then s1.(audioIn := s1.audioIn + [data]) else End(s1, ControllerHungUp)
  }

  function OnViolation(c: Setup, s: State, now: nat, what: string): State {
    End(WriteClose(c, WriteFatal(c, s, now, ProtocolError, what), now), Violation)
  }

  function OnControlMessage(c: Setup, s: State, now: nat, msg: BridgeIn, delivered: bool): State {
    if msg.callId != c.callId then OnViolation(c, s, now, "call_id does not match the connection")
    else
      var s1 := if msg.verb.Hangup? then s.(startDeadline := None) else s;
      if delivered then s1.(controlIn := s1.controlIn + [msg]) else End(s1, ControllerHungUp)
  }

  function OnSocket(c: Setup, s: State, now: nat, item: SocketItem): State {
    match item
    case AudioFrame(data, delivered) => OnAudioFrame(c, s, now, data, delivered)
    case Malformed => OnViolation(c, s, now, "malformed or unknown message")
    case Control(msg, delivered) => OnControlMessage(c, s, now, msg, delivered)
    case PingFrame(payload) =>
      var s1 := Write(c, s, now, Pong(payload));
      if Up(c, s) then s1 else End(s1, WriteError)
    case PongFrame => s.(pongDeadline := None)
    case CloseFrame(code) => End(Write(c, s, now, Close(code)), ServerClosed)
    case RawFrame => s
    case ReadFailed => End(s, ReadError)
    case EndOfStream => End(s, ServerClosed)
  }

  function OnTick(c: Setup, s: State, now: nat): State {
    var s1 := Write(c, s, now, Ping);
    if !Up(c, s) then End(s1, WriteError)
    else if s.pongDeadline.Some? then s1
    else s1.(pongDeadline := Some(now + c.liveness.pongTimeout))
  }

  function OnPongTimeout(c: Setup, s: State, now: nat): State {
    End(WriteFatal(c, s, now, Internal, "ws keepalive timeout"), KeepaliveTimeout)
  }

  function OnStartTimeout(c: Setup, s: State, now: nat): State {
    End(WriteClose(c, WriteFatal(c, s, now, ServerTooSlow, "no audio within start deadline"), now), TooSlow)
  }

  function Handle(c: Setup, s: State, now: nat, arm: Arm): State {
    match arm
    case ControlArm(event) => OnControl(c, s, now, event)
    case AudioArm(audio) => OnAudioOut(c, s, now, audio)
    case SocketArm(item) => OnSocket(c, s, now, item)
    case TickArm => OnTick(c, s, now)
    case PongTimeoutArm => OnPongTimeout(c, s, now)
    case StartTimeoutArm => OnStartTimeout(c, s, now)
    case NoArm => s
  }

  function Logged(s: State, now: nat, arm: Arm): State { s.(log := s.log + [Took(now, arm)]) }

  function Step(c: Setup, s: State, p: Poll): State {
    var arm := Select(c, s, p);
    Handle(c, Logged(s, p.now, arm), p.now, arm)
  }

  /** The session after these passes; once it has returned, further passes change nothing. */
  function Run(c: Setup, polls: seq<Poll>): State {
    if polls == [] then Opening(c)
    else
      var s := Run(c, polls[..|polls| - 1]);
      if s.ending.Some? then s else Step(c, s, polls[|polls| - 1])
  }

  // --- The loop itself ------------------------------------------------

  class Conn {
    const c: Setup
    var number: nat
    var pongDeadline: Option<nat>
    var startDeadline: Option<nat>
    var lastFormatError: Option<nat>
    var wire: seq<Sent>
    var attempts: nat
    var audioIn: seq<Bytes>
    var controlIn: seq<BridgeIn>
    var ending: Option<Ending>
    ghost var log: seq<Took>

    ghost function View(): State
      reads this
    {
      State(number, pongDeadline, startDeadline, lastFormatError, wire, attempts, audioIn, controlIn, log, ending)
    }

    constructor (callId: string, format: Format, liveness: Liveness, startSent: nat, link: nat -> bool)
      ensures c == Setup(callId, format, FrameBytes(format), liveness, startSent, link)
      ensures View() == Fresh()
    {
      c := Setup(callId, format, FrameBytes(format), liveness, startSent, link);
      number := 1;
      pongDeadline, startDeadline, lastFormatError := None, None, None;
      wire, attempts, audioIn, controlIn := [], 0, [], [];
      ending, log := None, [];
    }

    method Send(now: nat, frame: Frame) returns (ok: bool)
      modifies this
      ensures ok == Up(c, old(View())) && View() == Write(c, old(View()), now, frame)
    {
      ok := c.link(attempts);
      attempts := attempts + 1;
      if ok { wire := wire + [Sent(now, frame)]; }
    }

    method CloseClean(now: nat) returns (ok: bool)
      modifies this
      ensures ok == Up(c, old(View())) && View() == WriteClose(c, old(View()), now)
    {
      ok := Send(now, Close(Some(NORMAL_CLOSURE)));
    }

    method EmitFatal(now: nat, code: ErrorCode, what: string)
      modifies this
      ensures View() == WriteFatal(c, old(View()), now, code, what)
    {
      var err := Error(c.callId, number, code, Fatal(what));
      number := (number + 1) % SEQ_MODULUS;
      var ok := Send(now, Text(err));
      if !ok { return; }
      var stop := Stop(c.callId, number, Failed, Offset(now, c.startSent));
      number := (number + 1) % SEQ_MODULUS;
      ok := Send(now, Text(stop));
    }

    method RelayControl(now: nat, event: Option<OutgoingEvent>)
      modifies this
      ensures View() == OnControl(c, old(View()), now, event)
    {
      if event.None? {
        var ok := Send(now, Text(Stop(c.callId, number, Failed, Offset(now, c.startSent))));
        ok := CloseClean(now);
        ending := Some(ControllerHungUp);
        return;
      }
      var out := Build(event.value, c.callId, number, c.startSent);
      number := (number + 1) % SEQ_MODULUS;
      var ok := Send(now, Text(out));
      if !ok { ending := Some(WriteError); return; }
      if out.Stop? {
        ok := CloseClean(now);
        ending := Some(if ok then StopSent else WriteError);
      }
    }

    method ReceiveAudio(now: nat, data: Bytes, delivered: bool)
      modifies this
      ensures View() == OnAudioFrame(c, old(View()), now, data, delivered)
    {
      var expected := c.expectedAudioBytes;
      if expected > 0 && |data| != expected {
        var emit := lastFormatError.None? || now >= lastFormatError.value + FORMAT_ERROR_SPACING_MS;
        if emit {
          lastFormatError := Some(now);
          var err := Error(c.callId, number, AudioFormat, WrongSize(expected, |data|));
          number := (number + 1) % SEQ_MODULUS;
          var ok := Send(now, Text(err));
          if !ok { ending := Some(WriteError); }
        }
        return;
      }
      startDeadline := None;
      if !delivered { ending := Some(ControllerHungUp); return; }
      audioIn := audioIn + [data];
    }

    method Receive(now: nat, item: SocketItem)
      modifies this
      ensures View() == OnSocket(c, old(View()), now, item)
    {
      match item {
        case AudioFrame(data, delivered) => ReceiveAudio(now, data, delivered);
        case Malformed =>
          EmitFatal(now, ProtocolError, "malformed or unknown message");
          var ok := CloseClean(now);
          ending := Some(Violation);
        case Control(msg, delivered) =>
          if msg.callId != c.callId {
            EmitFatal(now, ProtocolError, "call_id does not match the connection");
            var ok := CloseClean(now);
            ending := Some(Violation);
            return;
          }
          if msg.verb.Hangup? { startDeadline := None; }
          if !delivered { ending := Some(ControllerHungUp); return; }
          controlIn := controlIn + [msg];
        case PingFrame(payload) =>
          var ok := Send(now, Pong(payload));
          if !ok { ending := Some(WriteError); }
        case PongFrame => pongDeadline := None;
        case CloseFrame(code) =>
          var ok := Send(now, Close(code));
          ending := Some(ServerClosed);
        case RawFrame =>
        case ReadFailed => ending := Some(ReadError);
        case EndOfStream => ending := Some(ServerClosed);
      }
    }

    method KeepAlive(now: nat)
      modifies this
      ensures View() == OnTick(c, old(View()), now)
    {
      var ok := Send(now, Ping);
      if !ok { ending := Some(WriteError); return; }
      if pongDeadline.None? { pongDeadline := Some(now + c.liveness.pongTimeout); }
    }

    /** Polls the arms in program order and runs the first that is ready. */
    method Pass(p: Poll)
      modifies this
      ensures View() == Step(c, old(View()), p)
    {
      log := log + [Took(p.now, Select(c, View(), p))];
      if p.control.Some? {
        RelayControl(p.now, p.control.value);
      } else if p.audioOut.Some? {
        if p.audioOut.value.Some? {
          var ok := Send(p.now, Binary(p.audioOut.value.value));
          if !ok { ending := Some(WriteError); }
        }
      } else if p.socket.Some? {
        Receive(p.now, p.socket.value);
      } else if c.KeepaliveOn() && p.tick {
        KeepAlive(p.now);
      } else if pongDeadline.Some? && pongDeadline.value <= p.now {
        EmitFatal(p.now, Internal, "ws keepalive timeout");
        ending := Some(KeepaliveTimeout);
      } else if startDeadline.Some? && startDeadline.value <= p.now {
        EmitFatal(p.now, ServerTooSlow, "no audio within start deadline");
        var ok := CloseClean(p.now);
        ending := Some(TooSlow);
      }
    }

    method Greet()
      requires View() == Fresh()
      modifies this
      ensures View() == Opening(c)
    {
      var ok := Send(c.startSent, Text(Start(c.callId, 0, c.format)));
      if !ok {
        ending := Some(WriteError);
      } else if c.liveness.startDeadline != 0 {
        startDeadline := Some(c.startSent + c.liveness.startDeadline);
      }
    }

    method RunLoop(polls: seq<Poll>) returns (result: Option<Ending>)
      requires View() == Fresh()
      modifies this
      ensures View() == Run(c, polls) && result == Run(c, polls).ending
    {
      Greet();
      var i := 0;
      while i < |polls| && ending.None?
        invariant i <= |polls| && View() == Run(c, polls[..i])
      {
        assert polls[..i + 1][..i] == polls[..i];
        Pass(polls[i]);
        i := i + 1;
      }
      result := ending;
      RunStops(c, polls, i);
    }
  }

  /** The loop stops with the passes or with the return, whichever comes first. */
  lemma RunStops(c: Setup, polls: seq<Poll>, i: nat)
    requires i <= |polls| && (i == |polls| || Run(c, polls[..i]).ending.Some?)
    ensures Run(c, polls) == Run(c, polls[..i])
  {
    assert polls[..i] + polls[i..] == polls;
    if i == |polls| { assert polls[..i] == polls; } else { RunEnded(c, polls[..i], polls[i..]); }
  }

  /** Passes after the return add nothing. */
  lemma {:induction false} RunEnded(c: Setup, before: seq<Poll>, after: seq<Poll>)
    requires Run(c, before).ending.Some?
    ensures Run(c, before + after) == Run(c, before)
  {
    if after == [] {
      assert before + after == before;
    } else {
      RunEnded(c, before, after[..|after| - 1]);
      assert (before + after)[..|before + after| - 1] == before + after[..|after| - 1];
    }
  }
}
