/** What every run of a session leaves behind: the order and numbering of what it
    wrote, what it handed to the controller, and what each ending implies. */
module SessionTrace {
  import opened Sequences
  import opened Session

  // --- Views of the wire and of the arms taken ------------------------

  function TextOf(x: Sent): Option<BridgeOut> { if x.frame.Text? then Some(x.frame.msg) else None }
  function BinaryOf(x: Sent): Option<Bytes> { if x.frame.Binary? then Some(x.frame.data) else None }
  function PongOf(x: Sent): Option<Bytes> { if x.frame.Pong? then Some(x.frame.payload) else None }
  function PingTime(x: Sent): Option<nat> { if x.frame.Ping? then Some(x.at) else None }
  function WrongSizeTime(x: Sent): Option<nat> {
    if x.frame.Text? && x.frame.msg.Error? && x.frame.msg.text.WrongSize? then Some(x.at) else None
  }
  /** A message the controller asked for, with its number left out. */
  function ControllerBody(x: Sent): Option<BridgeOut> {
    if x.frame.Text? && !x.frame.msg.Start? && !(x.frame.msg.Error? && !x.frame.msg.text.Given?)
    then Some(Unnumbered(x.frame.msg)) else None
  }

  function Unnumbered(m: BridgeOut): BridgeOut {
    match m
    case Start(id, _, format) => Start(id, 0, format)
    case Timed(id, _, kind, detail, offset) => Timed(id, 0, kind, detail, offset)
    case Plain(id, _, kind, detail) => Plain(id, 0, kind, detail)
    case Stop(id, _, reason, offset) => Stop(id, 0, reason, offset)
    case Error(id, _, code, text) => Error(id, 0, code, text)
  }

  function Texts(w: seq<Sent>): seq<BridgeOut> { Pick(TextOf, w) }

  predicate IsStop(x: Sent) { x.frame.Text? && x.frame.msg.Stop? }
  predicate IsStart(x: Sent) { x.frame.Text? && x.frame.msg.Start? }

  function AudioOutOf(t: Took): Option<Bytes> {
    if t.arm.AudioArm? then t.arm.audio else None
  }
  function PingPayload(t: Took): Option<Bytes> {
    if t.arm.SocketArm? && t.arm.item.PingFrame? then Some(t.arm.item.payload) else None
  }
  function TickTime(t: Took): Option<nat> { if t.arm.TickArm? then Some(t.at) else None }
  /** The frame has the negotiated size, or the check is off. */
  predicate FitsFormat(c: Setup, data: Bytes) { c.expectedAudioBytes in {0, |data|} }

  function GoodAudio(c: Setup, t: Took): Option<Bytes> {
    if t.arm.SocketArm? && t.arm.item.AudioFrame? && FitsFormat(c, t.arm.item.data)
    then Some(t.arm.item.data) else None
  }
  function BadAudioTime(c: Setup, t: Took): Option<nat> {
    if t.arm.SocketArm? && t.arm.item.AudioFrame? && !FitsFormat(c, t.arm.item.data)
    then Some(t.at) else None
  }
  function GoodMessage(c: Setup, t: Took): Option<BridgeIn> {
    if t.arm.SocketArm? && t.arm.item.Control? && t.arm.item.msg.callId == c.callId
    then Some(t.arm.item.msg) else None
  }
  /** What a notice must say, field by field; `offset` counts from the start message. */
  function EventBody(c: Setup, t: Took): Option<BridgeOut> {
    if t.arm.ControlArm? && t.arm.event.Some? then
      match t.arm.event.value
      case TimedEvent(kind, detail, at) => Some(Timed(c.callId, 0, kind, detail, Since(c, at)))
      case PlainEvent(kind, detail) => Some(Plain(c.callId, 0, kind, detail))
      case StopEvent(reason, at) => Some(Stop(c.callId, 0, reason, Since(c, at)))
      case ErrorEvent(code, message) => Some(Error(c.callId, 0, code, Given(message)))
    else None
  }

  /** The milliseconds by which `at` is later than the start message, if it is. */
  function Since(c: Setup, at: nat): (ms: nat)
    ensures at <= c.startSent ==> ms == 0
    ensures at >= c.startSent ==> c.startSent + ms == at
  {
    if at <= c.startSent then 0 else at - c.startSent
  }

  function AudioReceived(c: Setup, log: seq<Took>): seq<Bytes> { Pick(t => GoodAudio(c, t), log) }
  function WrongSizesReceived(c: Setup, log: seq<Took>): seq<nat> { Pick(t => BadAudioTime(c, t), log) }
  function MessagesReceived(c: Setup, log: seq<Took>): seq<BridgeIn> { Pick(t => GoodMessage(c, t), log) }

  // --- 1. Order and numbering -----------------------------------------

  /** One Start first, texts numbered from 0 with wrap-around, only Close after
      a Stop, and nothing at all after a Close. */
  ghost predicate Ordered(c: Setup, w: seq<Sent>) {
    && (w != [] ==> w[0].frame == Text(Start(c.callId, 0, c.format)))
    && (forall i | 0 < i < |w| :: !IsStart(w[i]))
    && (forall i, j | 0 <= i < j < |w| :: IsStop(w[i]) ==> w[j].frame.Close?)
    && (forall i | 0 <= i < |w| - 1 :: !w[i].frame.Close?)
    && Numbered(c, Texts(w))
  }

  ghost predicate Numbered(c: Setup, texts: seq<BridgeOut>) {
    forall k | 0 <= k < |texts| ::
      texts[k].number == k % 0x1_0000_0000_0000_0000 && texts[k].callId == c.callId
  }

  ghost predicate Unfinished(w: seq<Sent>) {
    w != [] && forall i | 0 <= i < |w| :: !IsStop(w[i]) && !w[i].frame.Close?
  }

  ghost predicate Live(c: Setup, s: State) {
    Ordered(c, s.wire) && Unfinished(s.wire) && s.number == |Texts(s.wire)| % SEQ_MODULUS
  }

  ghost predicate WireInv(c: Setup, s: State) {
    && Ordered(c, s.wire)
    && (s.wire == [] ==> s.ending == Some(WriteError))
    && (s.ending.None? ==> Live(c, s))
  }

  lemma BumpFollows(n: nat)
    ensures Bump(n % SEQ_MODULUS) == (n + 1) % SEQ_MODULUS
  {
  }

  lemma AppendOrdered(c: Setup, w: seq<Sent>, x: Sent)
    requires Ordered(c, w) && w != [] && !w[|w| - 1].frame.Close?
    requires x.frame.Close? || Unfinished(w)
    requires x.frame.Text? ==>
               && !x.frame.msg.Start? && x.frame.msg.callId == c.callId
               && x.frame.msg.number == |Texts(w)| % SEQ_MODULUS
    ensures Ordered(c, w + [x])
    ensures |Texts(w + [x])| == |Texts(w)| + (if x.frame.Text? then 1 else 0)
  {
    TextsNext(w, x);
    assert forall i | 0 <= i < |w| :: (w + [x])[i] == w[i];
  }

  lemma TextsNext(w: seq<Sent>, x: Sent)
    ensures Texts(w + [x]) == if x.frame.Text? then Texts(w) + [x.frame.msg] else Texts(w)
  {
    PickAppend(TextOf, w, x);
  }

  /** A numbered text other than a Stop keeps the session live. */
  lemma WriteTextLive(c: Setup, s: State, now: nat, m: BridgeOut)
    requires Live(c, s) && !m.Start? && m.callId == c.callId && m.number == s.number
    ensures var s1 := Write(c, s.(number := Bump(s.number)), now, Text(m));
            && Ordered(c, s1.wire) && s1.wire != [] && !s1.wire[|s1.wire| - 1].frame.Close?
            && (!Up(c, s) ==> Unfinished(s1.wire))
            && (Up(c, s) && !m.Stop? ==> Live(c, s1))
  {
    AppendOrdered(c, s.wire, Sent(now, Text(m)));
    BumpFollows(|Texts(s.wire)|);
  }

  lemma WriteOtherLive(c: Setup, s: State, now: nat, f: Frame)
    requires Live(c, s) && !f.Text?
    ensures Ordered(c, Write(c, s, now, f).wire) && Write(c, s, now, f).wire != []
    ensures !f.Close? ==> Live(c, Write(c, s, now, f))
  {
    AppendOrdered(c, s.wire, Sent(now, f));
  }

  lemma WriteFatalOrdered(c: Setup, s: State, now: nat, code: ErrorCode, what: string)
    requires Live(c, s)
    ensures var w := WriteFatal(c, s, now, code, what).wire;
            Ordered(c, w) && w != [] && !w[|w| - 1].frame.Close?
  {
    WriteTextLive(c, s, now, Error(c.callId, s.number, code, Fatal(what)));
    if Up(c, s) {
      var s1 := Write(c, s.(number := Bump(s.number)), now, Text(Error(c.callId, s.number, code, Fatal(what))));
      WriteTextLive(c, s1, now, Stop(c.callId, s1.number, Failed, Offset(now, c.startSent)));
    }
  }

  lemma CloseOrdered(c: Setup, s: State, now: nat)
    requires Ordered(c, s.wire) && s.wire != [] && !s.wire[|s.wire| - 1].frame.Close?
    ensures Ordered(c, WriteClose(c, s, now).wire) && WriteClose(c, s, now).wire != []
  {
    AppendOrdered(c, s.wire, Sent(now, Close(Some(NORMAL_CLOSURE))));
  }

  lemma HandleControlWire(c: Setup, s: State, now: nat, event: Option<OutgoingEvent>)
    requires Live(c, s) && s.ending.None?
    ensures WireInv(c, OnControl(c, s, now, event))
  {
    match event {
      case None =>
        var m := Stop(c.callId, s.number, Failed, Offset(now, c.startSent));
        WriteTextLive(c, s, now, m);
        CloseOrdered(c, Write(c, s, now, Text(m)), now);
      case Some(ev) =>
        var m := Build(ev, c.callId, s.number, c.startSent);
        WriteTextLive(c, s, now, m);
        CloseOrdered(c, Write(c, s.(number := Bump(s.number)), now, Text(m)), now);
    }
  }

  lemma HandleAudioWire(c: Setup, s: State, now: nat, data: Bytes, delivered: bool)
    requires Live(c, s) && s.ending.None?
    ensures WireInv(c, OnAudioFrame(c, s, now, data, delivered))
  {
    var s0 := s.(lastFormatError := Some(now));
    WriteTextLive(c, s0, now, Error(c.callId, s.number, AudioFormat, WrongSize(c.expectedAudioBytes, |data|)));
  }

  lemma HandleMessageWire(c: Setup, s: State, now: nat, msg: BridgeIn, delivered: bool)
    requires Live(c, s) && s.ending.None?
    ensures WireInv(c, OnControlMessage(c, s, now, msg, delivered))
  {
    if msg.callId != c.callId { HandleViolationWire(c, s, now, "call_id does not match the connection"); }
  }

  lemma HandleSocketWire(c: Setup, s: State, now: nat, item: SocketItem)
    requires Live(c, s) && s.ending.None?
    ensures WireInv(c, OnSocket(c, s, now, item))
  {
    match item {
      case AudioFrame(data, delivered) => HandleAudioWire(c, s, now, data, delivered);
      case Malformed => HandleViolationWire(c, s, now, "malformed or unknown message");
      case Control(msg, delivered) => HandleMessageWire(c, s, now, msg, delivered);
      case PingFrame(payload) => WriteOtherLive(c, s, now, Pong(payload));
      case CloseFrame(code) => WriteOtherLive(c, s, now, Close(code));
      case _ =>
    }
  }

  lemma HandleViolationWire(c: Setup, s: State, now: nat, what: string)
    requires Live(c, s)
    ensures WireInv(c, OnViolation(c, s, now, what))
  {
    WriteFatalOrdered(c, s, now, ProtocolError, what);
    CloseOrdered(c, WriteFatal(c, s, now, ProtocolError, what), now);
  }

  lemma HandleTimeoutWire(c: Setup, s: State, now: nat)
    requires Live(c, s) && s.ending.None?
    ensures WireInv(c, OnPongTimeout(c, s, now)) && WireInv(c, OnStartTimeout(c, s, now))
  {
    var what := "no audio within start deadline";
    WriteFatalOrdered(c, s, now, Internal, "ws keepalive timeout");
    WriteFatalOrdered(c, s, now, ServerTooSlow, what);
    CloseOrdered(c, WriteFatal(c, s, now, ServerTooSlow, what), now);
  }

  lemma HandleWire(c: Setup, s: State, now: nat, arm: Arm)
    requires Live(c, s) && s.ending.None?
    ensures WireInv(c, Handle(c, s, now, arm))
  {
    match arm {
      case ControlArm(event) => HandleControlWire(c, s, now, event);
      case AudioArm(audio) => if audio.Some? { WriteOtherLive(c, s, now, Binary(audio.value)); }
      case SocketArm(item) => HandleSocketWire(c, s, now, item);
      case TickArm => WriteOtherLive(c, s, now, Ping);
      case PongTimeoutArm => HandleTimeoutWire(c, s, now);
      case StartTimeoutArm => HandleTimeoutWire(c, s, now);
      case NoArm =>
    }
  }

  lemma StepWire(c: Setup, s: State, p: Poll)
    requires WireInv(c, s) && s.ending.None?
    ensures WireInv(c, Step(c, s, p))
  {
    var arm := Select(c, s, p);
    assert Live(c, Logged(s, p.now, arm));
    HandleWire(c, Logged(s, p.now, arm), p.now, arm);
  }

  lemma OpeningWire(c: Setup)
    ensures WireInv(c, Opening(c))
  {
    var x := Sent(c.startSent, Text(Start(c.callId, 0, c.format)));
    StartTexts(x);
    assert Ordered(c, [x]) && Ordered(c, []);
    assert Opening(c).wire == if Up(c, Fresh()) then [x] else [];
  }

  lemma StartTexts(x: Sent)
    requires x.frame.Text?
    ensures Texts([x]) == [x.frame.msg] && Texts([]) == []
  {
    TextsNext([], x);
    assert [] + [x] == [x];
  }

  /** In every run, however its writes fail, the wire is ordered and numbered. */
  lemma {:induction false} WireAlwaysOrdered(c: Setup, polls: seq<Poll>)
    ensures WireInv(c, Run(c, polls))
  {
    if polls == [] {
      OpeningWire(c);
    } else {
      WireAlwaysOrdered(c, polls[..|polls| - 1]);
      var s := Run(c, polls[..|polls| - 1]);
      if s.ending.None? { StepWire(c, s, polls[|polls| - 1]); }
    }
  }

  // --- 2. What was written, and for what ------------------------------

  /** Four views: outbound audio, answers to pings, the times of keepalive pings, and
      controller notices without their numbers. */
  datatype Views = Views(audio: seq<Bytes>, pongs: seq<Bytes>, pings: seq<nat>, notices: seq<BridgeOut>)

  const NO_VIEWS := Views([], [], [], [])

  function Plus(a: Views, b: Views): Views {
    Views(a.audio + b.audio, a.pongs + b.pongs, a.pings + b.pings, a.notices + b.notices)
  }

  function Only<T>(x: Option<T>): seq<T> { if x.Some? then [x.value] else [] }

  /** What one frame shows, and what a wire does. */
  function Shown(x: Sent): Views {
    Views(Only(BinaryOf(x)), Only(PongOf(x)), Only(PingTime(x)), Only(ControllerBody(x)))
  }

  function Written(w: seq<Sent>): Views {
    Views(Pick(BinaryOf, w), Pick(PongOf, w), Pick(PingTime, w), Pick(ControllerBody, w))
  }

  /** What one arm asks to be written, and what a run's arms do. */
  function Asks(c: Setup, t: Took): Views {
    Views(Only(AudioOutOf(t)), Only(PingPayload(t)), Only(TickTime(t)), Only(EventBody(c, t)))
  }

  function Asked(c: Setup, log: seq<Took>): Views {
    Views(Pick(AudioOutOf, log), Pick(PingPayload, log), Pick(TickTime, log), Pick(t => EventBody(c, t), log))
  }

  lemma WrittenNext(w: seq<Sent>, x: Sent)
    ensures Written(w + [x]) == Plus(Written(w), Shown(x))
  {
    PickAppend(BinaryOf, w, x);
    PickAppend(PongOf, w, x);
    PickAppend(PingTime, w, x);
    PickAppend(ControllerBody, w, x);
  }

  lemma AskedNext(c: Setup, log: seq<Took>, t: Took)
    ensures Asked(c, log + [t]) == Plus(Asked(c, log), Asks(c, t))
  {
    PickAppend(AudioOutOf, log, t);
    PickAppend(PingPayload, log, t);
    PickAppend(TickTime, log, t);
    PickAppend(u => EventBody(c, u), log, t);
  }

  lemma PlusNothing(v: Views)
    ensures Plus(v, NO_VIEWS) == v
  {
  }

  /** The views with one more Stop, as the session itself words it. */
  function WithStop(c: Setup, v: Views, at: nat): Views {
    v.(notices := v.notices + [Stop(c.callId, 0, Failed, Since(c, at))])
  }

  /** What handling one arm adds to the views: what the arm asked for; nothing, perhaps,
      when a write failed; and perhaps the session's own Stop when it ends by itself. */
  ghost predicate Relays(c: Setup, before: Views, after: Views, t: Took, ending: Option<Ending>) {
    var full := Plus(before, Asks(c, t));
    match ending
    case Some(WriteError) => after == full || after == before
    case Some(ControllerHungUp) =>
      after == full || (t.arm == ControlArm(None) && after == WithStop(c, full, t.at))
    case Some(Violation) => after == full || after == WithStop(c, full, t.at)
    case Some(TooSlow) => after == full || after == WithStop(c, full, t.at)
    case Some(KeepaliveTimeout) => after == full || after == WithStop(c, full, t.at)
    case _ => after == full
  }

  lemma WriteShows(c: Setup, s: State, now: nat, f: Frame)
    ensures Written(Write(c, s, now, f).wire)
         == if Up(c, s) then Plus(Written(s.wire), Shown(Sent(now, f))) else Written(s.wire)
  {
    WrittenNext(s.wire, Sent(now, f));
  }

  lemma CloseShows(c: Setup, s: State, now: nat, code: Option<nat>)
    ensures Written(Write(c, s, now, Close(code)).wire) == Written(s.wire)
  {
    WriteShows(c, s, now, Close(code));
    PlusNothing(Written(s.wire));
  }

  lemma FatalShows(c: Setup, s: State, now: nat, code: ErrorCode, what: string)
    ensures var after := Written(WriteFatal(c, s, now, code, what).wire);
            after == Written(s.wire) || after == WithStop(c, Written(s.wire), now)
  {
    var s0 := s.(number := Bump(s.number));
    ErrorShows(c, s0, now, Error(c.callId, s.number, code, Fatal(what)));
    var s1 := Write(c, s0, now, Text(Error(c.callId, s.number, code, Fatal(what))));
    OwnStopShows(c, s1.(number := Bump(s1.number)), now, s1.number);
  }

  /** An error of the session's own shows in no view, and its own Stop as a notice. */
  lemma ErrorShows(c: Setup, s: State, now: nat, m: BridgeOut)
    requires m.Error? && !m.text.Given?
    ensures Written(Write(c, s, now, Text(m)).wire) == Written(s.wire)
  {
    WriteShows(c, s, now, Text(m));
    assert Shown(Sent(now, Text(m))) == NO_VIEWS;
    PlusNothing(Written(s.wire));
  }

  lemma OwnStopShows(c: Setup, s: State, now: nat, number: nat)
    ensures var m := Stop(c.callId, number, Failed, Offset(now, c.startSent));
            Written(Write(c, s, now, Text(m)).wire)
            == if Up(c, s) then WithStop(c, Written(s.wire), now) else Written(s.wire)
  {
    var m := Stop(c.callId, number, Failed, Offset(now, c.startSent));
    WriteShows(c, s, now, Text(m));
    assert Shown(Sent(now, Text(m))) == Views([], [], [], [Stop(c.callId, 0, Failed, Offset(now, c.startSent))]);
  }

  lemma ViolationShows(c: Setup, s: State, now: nat, what: string)
    ensures var after := Written(OnViolation(c, s, now, what).wire);
            after == Written(s.wire) || after == WithStop(c, Written(s.wire), now)
  {
    FatalShows(c, s, now, ProtocolError, what);
    CloseShows(c, WriteFatal(c, s, now, ProtocolError, what), now, Some(NORMAL_CLOSURE));
  }

  lemma NoticeShows(c: Setup, now: nat, ev: OutgoingEvent, number: nat)
    ensures Shown(Sent(now, Text(Build(ev, c.callId, number, c.startSent))))
         == Asks(c, Took(now, ControlArm(Some(ev))))
  {
  }

  lemma ControlRelays(c: Setup, s: State, now: nat, event: Option<OutgoingEvent>)
    requires s.ending.None?
    ensures var s1 := OnControl(c, s, now, event);
            Relays(c, Written(s.wire), Written(s1.wire), Took(now, ControlArm(event)), s1.ending)
  {
    match event {
      case None =>
        var m := Stop(c.callId, s.number, Failed, Offset(now, c.startSent));
        OwnStopShows(c, s, now, s.number);
        CloseShows(c, Write(c, s, now, Text(m)), now, Some(NORMAL_CLOSURE));
        PlusNothing(Written(s.wire));
      case Some(ev) =>
        var m, s0 := Build(ev, c.callId, s.number, c.startSent), s.(number := Bump(s.number));
        NoticeShows(c, now, ev, s.number);
        WriteShows(c, s0, now, Text(m));
        CloseShows(c, Write(c, s0, now, Text(m)), now, Some(NORMAL_CLOSURE));
    }
  }

  lemma AudioFrameRelays(c: Setup, s: State, now: nat, data: Bytes, delivered: bool)
    requires s.ending.None?
    ensures var s1 := OnAudioFrame(c, s, now, data, delivered);
            Relays(c, Written(s.wire), Written(s1.wire), Took(now, SocketArm(AudioFrame(data, delivered))), s1.ending)
  {
    PlusNothing(Written(s.wire));
    if !c.RightSize(data) && FormatErrorDue(s, now) {
      var s0 := s.(number := Bump(s.number), lastFormatError := Some(now));
      ErrorShows(c, s0, now, Error(c.callId, s.number, AudioFormat, WrongSize(c.expectedAudioBytes, |data|)));
    }
  }

  lemma MessageRelays(c: Setup, s: State, now: nat, msg: BridgeIn, delivered: bool)
    requires s.ending.None?
    ensures var s1 := OnControlMessage(c, s, now, msg, delivered);
            Relays(c, Written(s.wire), Written(s1.wire), Took(now, SocketArm(Control(msg, delivered))), s1.ending)
  {
    PlusNothing(Written(s.wire));
    if msg.callId != c.callId { ViolationShows(c, s, now, "call_id does not match the connection"); }
  }

  lemma PingRelays(c: Setup, s: State, now: nat, payload: Bytes)
    requires s.ending.None?
    ensures var s1 := OnSocket(c, s, now, PingFrame(payload));
            Relays(c, Written(s.wire), Written(s1.wire), Took(now, SocketArm(PingFrame(payload))), s1.ending)
  {
    WriteShows(c, s, now, Pong(payload));
    assert Shown(Sent(now, Pong(payload))) == Asks(c, Took(now, SocketArm(PingFrame(payload))));
  }

  lemma SocketRelays(c: Setup, s: State, now: nat, item: SocketItem)
    requires s.ending.None?
    ensures var s1 := OnSocket(c, s, now, item);
            Relays(c, Written(s.wire), Written(s1.wire), Took(now, SocketArm(item)), s1.ending)
  {
    PlusNothing(Written(s.wire));
    match item {
      case AudioFrame(data, delivered) => AudioFrameRelays(c, s, now, data, delivered);
      case Control(msg, delivered) => MessageRelays(c, s, now, msg, delivered);
      case Malformed => ViolationShows(c, s, now, "malformed or unknown message");
      case PingFrame(payload) => PingRelays(c, s, now, payload);
      case CloseFrame(code) => CloseShows(c, s, now, code);
      case _ =>
    }
  }

  lemma StartTimeoutRelays(c: Setup, s: State, now: nat)
    ensures var s1 := OnStartTimeout(c, s, now);
            Relays(c, Written(s.wire), Written(s1.wire), Took(now, StartTimeoutArm), s1.ending)
  {
    var what := "no audio within start deadline";
    FatalShows(c, s, now, ServerTooSlow, what);
    CloseShows(c, WriteFatal(c, s, now, ServerTooSlow, what), now, Some(NORMAL_CLOSURE));
    PlusNothing(Written(s.wire));
  }

  /** The effect of any one arm, whatever came before. */
  lemma HandleRelays(c: Setup, s: State, now: nat, arm: Arm)
    requires s.ending.None?
    ensures var s1 := Handle(c, s, now, arm);
            Relays(c, Written(s.wire), Written(s1.wire), Took(now, arm), s1.ending)
  {
    match arm {
      case ControlArm(event) => ControlRelays(c, s, now, event);
      case AudioArm(audio) =>
        if audio.Some? { WriteShows(c, s, now, Binary(audio.value)); } else { PlusNothing(Written(s.wire)); }
      case SocketArm(item) => SocketRelays(c, s, now, item);
      case TickArm => WriteShows(c, s, now, Ping);
      case PongTimeoutArm =>
        FatalShows(c, s, now, Internal, "ws keepalive timeout");
        PlusNothing(Written(s.wire));
      case StartTimeoutArm => StartTimeoutRelays(c, s, now);
      case NoArm => PlusNothing(Written(s.wire));
    }
  }

  /** The wire shows exactly what the arms taken asked for. A run that ended on a failed
      write may lack what its last arm asked for, and nothing else. A fatal ending, or the
      hang-up of the control channel, may add the session's own Stop, and nothing else. */
  ghost predicate Relayed(c: Setup, s: State) {
    if s.ending.None? || s.log == [] then Written(s.wire) == Asked(c, s.log)
    else
      var last := |s.log| - 1;
      Relays(c, Asked(c, s.log[..last]), Written(s.wire), s.log[last], s.ending)
  }

  lemma StepRelays(c: Setup, s: State, p: Poll)
    requires s.ending.None? && Relayed(c, s)
    ensures Relayed(c, Step(c, s, p))
  {
    var t := Took(p.now, Select(c, s, p));
    StepLogs(c, s, p);
    HandleRelays(c, Logged(s, p.now, t.arm), p.now, t.arm);
    AskedNext(c, s.log, t);
    assert (s.log + [t])[..|s.log|] == s.log;
  }

  lemma OpeningRelays(c: Setup)
    ensures Relayed(c, Opening(c))
  {
    var m := Start(c.callId, 0, c.format);
    WriteShows(c, Fresh(), c.startSent, Text(m));
    assert Shown(Sent(c.startSent, Text(m))) == NO_VIEWS == Written([]) == Asked(c, []);
    PlusNothing(NO_VIEWS);
    assert Opening(c).wire == Write(c, Fresh(), c.startSent, Text(m)).wire && Opening(c).log == [];
  }

  /** Outbound audio, answers to pings, keepalive pings and controller notices
      reach the wire once each and in order, in every run and under every ending. */
  lemma {:induction false} AlwaysRelayed(c: Setup, polls: seq<Poll>)
    ensures Relayed(c, Run(c, polls))
  {
    if polls == [] {
      OpeningRelays(c);
    } else {
      var before := polls[..|polls| - 1];
      AlwaysRelayed(c, before);
      if Run(c, before).ending.None? { StepRelays(c, Run(c, before), polls[|polls| - 1]); }
    }
  }

  // --- 3. How each ending shows ---------------------------------------

  /** The wire ends with a fatal error of this code, a failed stop and, when
      `closed`, a normal close. */
  predicate EndsFatally(w: seq<Sent>, code: ErrorCode, what: string, closed: bool) {
    var n := |w| - (if closed then 1 else 0);
    && 3 <= n
    && (closed ==> w[n].frame == Close(Some(1000)))
    && IsStop(w[n - 1]) && w[n - 1].frame.msg.reason == Failed
    && w[n - 2].frame.Text? && w[n - 2].frame.msg.Error? && w[n - 2].frame.msg.code == code
    && w[n - 2].frame.msg.text == Fatal(what)
  }

  predicate EndsStopped(w: seq<Sent>, reason: StopReason) {
    && 3 <= |w| && w[|w| - 1].frame == Close(Some(1000))
    && IsStop(w[|w| - 2]) && w[|w| - 2].frame.msg.reason == reason
  }

  predicate EndsClosed(w: seq<Sent>) { w != [] && w[|w| - 1].frame.Close? }

  predicate HasStop(w: seq<Sent>) { exists i | 0 <= i < |w| :: IsStop(w[i]) }

  ghost predicate AllWritesSucceed(c: Setup) { forall n :: c.link(n) }

  /** What the last arm taken and the tail of the wire are, ending by ending. */
  ghost predicate EndShown(c: Setup, w: seq<Sent>, last: Arm, ending: Ending) {
    match ending
    case StopSent =>
      && last.ControlArm? && last.event.Some? && last.event.value.StopEvent?
      && EndsStopped(w, last.event.value.reason)
    case ServerClosed =>
      && last.SocketArm? && (last.item.CloseFrame? || last.item.EndOfStream?) && !HasStop(w)
      && (last.item.CloseFrame? <==> EndsClosed(w))
      && (last.item.CloseFrame? ==> w[|w| - 1].frame.code == last.item.code)
    case ControllerHungUp =>
      if last.ControlArm? then last.event.None? && EndsStopped(w, Failed)
      else
        && last.SocketArm? && !HasStop(w) && !EndsClosed(w)
        && (last.item.AudioFrame? || last.item.Control?) && !last.item.delivered
    case TooSlow => last.StartTimeoutArm? && EndsFatally(w, ServerTooSlow, "no audio within start deadline", true)
    case Violation =>
      && last.SocketArm?
      && (if last.item.Malformed? then EndsFatally(w, ProtocolError, "malformed or unknown message", true)
          else
            && last.item.Control? && last.item.msg.callId != c.callId
            && EndsFatally(w, ProtocolError, "call_id does not match the connection", true))
    case KeepaliveTimeout => last.PongTimeoutArm? && EndsFatally(w, Internal, "ws keepalive timeout", false)
    case ReadError =>
      last.SocketArm? && last.item.ReadFailed? && !HasStop(w) && !EndsClosed(w)
    case WriteError => false
  }

  /** Nothing but the wire and the ending may differ. */
  predicate OnlyWrote(s: State, s1: State) {
    s1 == s.(number := s1.number, wire := s1.wire, attempts := s1.attempts, ending := s1.ending)
  }

  /** The arms that touch no timer and hand nothing to the controller. */
  predicate WritesOnly(arm: Arm) {
    match arm
    case SocketArm(item) => !item.AudioFrame? && !item.Control? && !item.PongFrame?
    case TickArm => false
    case _ => true
  }

  lemma FatalOnlyWrites(c: Setup, s: State, now: nat, code: ErrorCode, what: string)
    ensures OnlyWrote(s, WriteFatal(c, s, now, code, what))
    ensures OnlyWrote(s, WriteClose(c, WriteFatal(c, s, now, code, what), now))
  {
  }

  lemma ControlOnlyWrites(c: Setup, s: State, now: nat, event: Option<OutgoingEvent>)
    ensures OnlyWrote(s, OnControl(c, s, now, event))
  {
  }

  lemma ArmOnlyWrites(c: Setup, s: State, now: nat, arm: Arm)
    requires WritesOnly(arm)
    ensures OnlyWrote(s, Handle(c, s, now, arm))
  {
    match arm {
      case ControlArm(event) => ControlOnlyWrites(c, s, now, event);
      case SocketArm(_) => FatalOnlyWrites(c, s, now, ProtocolError, "malformed or unknown message");
      case PongTimeoutArm => FatalOnlyWrites(c, s, now, Internal, "ws keepalive timeout");
      case StartTimeoutArm => FatalOnlyWrites(c, s, now, ServerTooSlow, "no audio within start deadline");
      case _ =>
    }
  }

  lemma HandleKeepsLog(c: Setup, s: State, now: nat, arm: Arm)
    ensures Handle(c, s, now, arm).log == s.log
  {
    if WritesOnly(arm) {
      ArmOnlyWrites(c, s, now, arm);
    } else if arm.SocketArm? && arm.item.Control? {
      FatalOnlyWrites(c, s, now, ProtocolError, "call_id does not match the connection");
    }
  }

  lemma StepLogs(c: Setup, s: State, p: Poll)
    ensures Step(c, s, p).log == s.log + [Took(p.now, Select(c, s, p))]
  {
    HandleKeepsLog(c, Logged(s, p.now, Select(c, s, p)), p.now, Select(c, s, p));
  }

  lemma ViolationEnds(c: Setup, s: State, now: nat, what: string)
    requires AllWritesSucceed(c) && Live(c, s)
    ensures EndsFatally(OnViolation(c, s, now, what).wire, ProtocolError, what, true)
  {
    assert c.link(s.attempts) && c.link(s.attempts + 1) && c.link(s.attempts + 2);
  }

  lemma SocketEnds(c: Setup, s: State, now: nat, item: SocketItem)
    requires AllWritesSucceed(c) && Live(c, s) && s.ending.None?
    ensures var s1 := OnSocket(c, s, now, item);
            s1.ending.Some? ==> EndShown(c, s1.wire, SocketArm(item), s1.ending.value)
  {
    assert c.link(s.attempts);
    match item {
      case Malformed => ViolationEnds(c, s, now, "malformed or unknown message");
      case Control(msg, _) =>
        if msg.callId != c.callId { ViolationEnds(c, s, now, "call_id does not match the connection"); }
      case _ =>
    }
  }

  lemma ControlEnds(c: Setup, s: State, now: nat, event: Option<OutgoingEvent>)
    requires AllWritesSucceed(c) && Live(c, s) && s.ending.None?
    ensures var s1 := OnControl(c, s, now, event);
            s1.ending.Some? ==> EndShown(c, s1.wire, ControlArm(event), s1.ending.value)
  {
    assert c.link(s.attempts) && c.link(s.attempts + 1);
  }

  lemma TimeoutEnds(c: Setup, s: State, now: nat)
    requires AllWritesSucceed(c) && Live(c, s)
    ensures EndsFatally(OnPongTimeout(c, s, now).wire, Internal, "ws keepalive timeout", false)
    ensures EndsFatally(
              OnStartTimeout(c, s, now).wire, ServerTooSlow, "no audio within start deadline", true)
  {
    assert c.link(s.attempts) && c.link(s.attempts + 1) && c.link(s.attempts + 2);
  }

  lemma HandleEnds(c: Setup, s: State, now: nat, arm: Arm)
    requires AllWritesSucceed(c) && Live(c, s) && s.ending.None?
    ensures var s1 := Handle(c, s, now, arm);
            s1.ending.Some? ==> EndShown(c, s1.wire, arm, s1.ending.value)
  {
    match arm {
      case ControlArm(event) => ControlEnds(c, s, now, event);
      case SocketArm(item) => SocketEnds(c, s, now, item);
      case PongTimeoutArm => TimeoutEnds(c, s, now);
      case StartTimeoutArm => TimeoutEnds(c, s, now);
      case _ => assert c.link(s.attempts);
    }
  }

  ghost predicate EndingShown(c: Setup, s: State) {
    s.ending.Some? ==> s.log != [] && EndShown(c, s.wire, s.log[|s.log| - 1].arm, s.ending.value)
  }

  lemma StepEnds(c: Setup, s: State, p: Poll)
    requires AllWritesSucceed(c) && WireInv(c, s) && s.ending.None?
    ensures EndingShown(c, Step(c, s, p))
  {
    var arm := Select(c, s, p);
    StepLogs(c, s, p);
    assert Live(c, Logged(s, p.now, arm));
    HandleEnds(c, Logged(s, p.now, arm), p.now, arm);
  }

  /** When every write succeeds, the ending says what the run was cut short by
      and how its wire finishes; with `WireAlwaysOrdered` there is no other Stop. */
  lemma {:induction false} EndingFixesTail(c: Setup, polls: seq<Poll>)
    requires AllWritesSucceed(c)
    ensures EndingShown(c, Run(c, polls))
  {
    if polls == [] {
      assert c.link(0);
    } else {
      var before := polls[..|polls| - 1];
      EndingFixesTail(c, before);
      WireAlwaysOrdered(c, before);
      if Run(c, before).ending.None? { StepEnds(c, Run(c, before), polls[|polls| - 1]); }
    }
  }

  /** A stop was written exactly when the controller asked for one, the control channel
      closed, or a fatal error was reported. */
  predicate StopAccounted(s: State) {
    HasStop(s.wire) <==>
      || s.ending in {Some(StopSent), Some(TooSlow), Some(Violation), Some(KeepaliveTimeout)}
      || (s.ending == Some(ControllerHungUp) && s.log != [] && s.log[|s.log| - 1].arm == ControlArm(None))
  }

  lemma EndingAccounts(c: Setup, s: State)
    requires WireInv(c, s) && EndingShown(c, s)
    ensures StopAccounted(s)
  {
    if s.ending.Some? { StopShown(c, s.wire, s.log[|s.log| - 1].arm, s.ending.value); }
  }

  lemma StopShown(c: Setup, w: seq<Sent>, last: Arm, ending: Ending)
    requires EndShown(c, w, last, ending)
    ensures HasStop(w) <==>
              ending in {StopSent, TooSlow, Violation, KeepaliveTimeout}
              || (ending == ControllerHungUp && last == ControlArm(None))
  {
  }

  lemma StopExactly(c: Setup, polls: seq<Poll>)
    requires AllWritesSucceed(c)
    ensures StopAccounted(Run(c, polls))
  {
    EndingFixesTail(c, polls);
    WireAlwaysOrdered(c, polls);
    EndingAccounts(c, Run(c, polls));
  }

  /** The documentation says a hung-up controller always gets a synthesized stop.
      It does not when the hang-up shows on the inbound audio channel. */
  lemma HangUpWithoutStop(c: Setup, p: Poll)
    requires AllWritesSucceed(c)
    requires p.control.None? && p.audioOut.None?
    requires p.socket.Some? && p.socket.value.AudioFrame? && !p.socket.value.delivered
    requires c.RightSize(p.socket.value.data)
    ensures Run(c, [p]).ending == Some(ControllerHungUp) && !HasStop(Run(c, [p]).wire)
  {
    assert [p][..0] == [];
    assert Run(c, []) == Opening(c);
    assert c.link(0);
    StopExactly(c, [p]);
  }
}
