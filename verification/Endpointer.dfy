/** Turn detection: cutting a call's 20 ms frames into utterances. */
module Endpointer {
  import opened Sequences

  type Frame = seq<Byte>

  /** One received frame and what the voice detector would say of it. */
  datatype Heard = Heard(frame: Frame, voiced: bool)

  datatype Event = Quiet | Start | End(pcm: seq<Byte>)

  const FRAME_MS: nat := 20

  /** Durations in whole frames, at least one; `/` rounds down as the program's does. */
  function Frames(ms: int): (n: nat)
    ensures 1 <= n && (20 * n <= ms < 20 * n + 20 || (n == 1 && ms < 20))
  {
    if ms / FRAME_MS < 1 then 1 else ms / FRAME_MS
  }

  datatype Settings = Settings(
    frameBytes: nat, startSpeechMs: int, endSilenceMs: int, prerollMs: int, maxUtteranceMs: int)
  {
    function StartFrames(): nat { Frames(startSpeechMs) }
    function EndFrames(): nat { Frames(endSilenceMs) }
    function PrerollFrames(): nat { Frames(prerollMs) }
    function MaxFrames(): nat { Frames(maxUtteranceMs) }

    /** Only a frame of the exact size can be speech. */
    predicate Speech(h: Heard) { |h.frame| == frameBytes && h.voiced }
  }

  datatype State = State(triggered: bool, utterance: seq<Byte>, preroll: seq<Frame>, speechRun: nat, silenceRun: nat)

  const IDLE := State(false, [], [], 0, 0)

  /** The bytes of these frames, joined. */
  function Joined(frames: seq<Frame>): seq<Byte> {
    if frames == [] then [] else Joined(frames[..|frames| - 1]) + frames[|frames| - 1]
  }

  /** A deque of bounded length: the oldest frame makes room. */
  function Appended(preroll: seq<Frame>, frame: Frame, cap: nat): seq<Frame> {
    var all := preroll + [frame];
    if |all| > cap then all[1..] else all
  }

  function Ends(c: Settings, utterance: seq<Byte>, silenceRun: nat): bool {
    silenceRun >= c.EndFrames() || |utterance| >= c.MaxFrames() * c.frameBytes
  }

  function Step(c: Settings, s: State, h: Heard): (State, Event) {
    if !s.triggered then
      var preroll := Appended(s.preroll, h.frame, c.PrerollFrames());
      if !c.Speech(h) then (s.(preroll := preroll, speechRun := 0), Quiet)
      else if s.speechRun + 1 >= c.StartFrames() then
        (State(true, Joined(preroll), [], s.speechRun + 1, 0), Start)
      else (s.(preroll := preroll, speechRun := s.speechRun + 1), Quiet)
    else
      var utterance := s.utterance + h.frame;
      var silenceRun := if c.Speech(h) then 0 else s.silenceRun + 1;
      if Ends(c, utterance, silenceRun) then (IDLE, End(utterance))
      else (s.(utterance := utterance, silenceRun := silenceRun), Quiet)
  }

  function Run(c: Settings, heard: seq<Heard>): State {
    if heard == [] then IDLE else Step(c, Run(c, heard[..|heard| - 1]), heard[|heard| - 1]).0
  }

  /** One event for each frame. */
  function Events(c: Settings, heard: seq<Heard>): seq<Event> {
    if heard == [] then []
    else
      Events(c, heard[..|heard| - 1]) + [Step(c, Run(c, heard[..|heard| - 1]), heard[|heard| - 1]).1]
  }

  class Detector {
    const c: Settings
    var triggered: bool
    var utterance: seq<Byte>
    var preroll: seq<Frame>
    var speechRun: nat
    var silenceRun: nat

    ghost function View(): State
      reads this
    {
      State(triggered, utterance, preroll, speechRun, silenceRun)
    }

    constructor (c: Settings)
      ensures this.c == c && View() == IDLE
    {
      this.c := c;
      triggered, utterance, preroll, speechRun, silenceRun := false, [], [], 0, 0;
    }

    method Reset()
      modifies this
      ensures View() == IDLE
    {
      triggered, utterance, preroll, speechRun, silenceRun := false, [], [], 0, 0;
    }

    method JoinPreroll() returns (pcm: seq<Byte>)
      ensures pcm == Joined(preroll)
    {
      pcm := [];
      for i := 0 to |preroll|
        invariant pcm == Joined(preroll[..i])
      {
        assert preroll[..i + 1][..i] == preroll[..i];
        pcm := pcm + preroll[i];
      }
      assert preroll[..|preroll|] == preroll;
    }

    method Process(h: Heard) returns (event: Event)
      modifies this
      ensures (View(), event) == Step(c, old(View()), h)
    {
      var speech := |h.frame| == c.frameBytes && h.voiced;
      event := Quiet;
      if !triggered {
        preroll := preroll + [h.frame];
        if |preroll| > c.PrerollFrames() { preroll := preroll[1..]; }
        if speech {
          speechRun := speechRun + 1;
          if speechRun >= c.StartFrames() {
            triggered := true;
            utterance := JoinPreroll();
            preroll := [];
            silenceRun := 0;
            event := Start;
          }
        } else {
          speechRun := 0;
        }
        return;
      }
      utterance := utterance + h.frame;
      silenceRun := if speech then 0 else silenceRun + 1;
      if silenceRun >= c.EndFrames() || |utterance| >= c.MaxFrames() * c.frameBytes {
        event := End(utterance);
        Reset();
      }
    }

    /** The whole stream, frame by frame. */
    method ProcessAll(heard: seq<Heard>) returns (events: seq<Event>)
      requires View() == IDLE
      modifies this
      ensures View() == Run(c, heard) && events == Events(c, heard)
    {
      events := [];
      for i := 0 to |heard|
        invariant View() == Run(c, heard[..i]) && events == Events(c, heard[..i])
      {
        assert heard[..i + 1][..i] == heard[..i];
        var event := Process(heard[i]);
        events := events + [event];
      }
      assert heard[..|heard|] == heard;
    }
  }

  // --- Where the utterances lie in the stream -------------------------

  /** Frames `from` up to but not including `to`. */
  datatype Segment = Segment(from: nat, to: nat)

  /** The segments ended so far, where the last of them ended, and where the
      utterance under way began. */
  datatype Cuts = Cuts(done: seq<Segment>, lastEnd: nat, from: nat)

  function CutsOf(c: Settings, heard: seq<Heard>): Cuts {
    if heard == [] then Cuts([], 0, 0)
    else
      var n := |heard| - 1;
      CutsNext(c, CutsOf(c, heard[..n]), n, Run(c, heard[..n]), heard[n])
  }

  /** The cuts after frame `n`. */
  function CutsNext(c: Settings, k: Cuts, n: nat, s: State, h: Heard): Cuts {
    match Step(c, s, h).1
    case Quiet => k
    case Start =>
      var taken := |Appended(s.preroll, h.frame, c.PrerollFrames())|;
      k.(from := if taken <= n + 1 then n + 1 - taken else 0)
    case End(_) => Cuts(k.done + [Segment(k.from, n + 1)], n + 1, k.from)
  }

  lemma NextFrame(c: Settings, heard: seq<Heard>, h: Heard)
    ensures var s := Run(c, heard);
            && Run(c, heard + [h]) == Step(c, s, h).0
            && CutsOf(c, heard + [h]) == CutsNext(c, CutsOf(c, heard), |heard|, s, h)
            && Events(c, heard + [h]) == Events(c, heard) + [Step(c, s, h).1]
  {
    assert (heard + [h])[..|heard|] == heard;
  }

  function FramesOf(heard: seq<Heard>): seq<Frame> {
    seq(|heard|, i requires 0 <= i < |heard| => heard[i].frame)
  }

  /** A frame of the exact size that the detector took for speech. */
  predicate Spoken(c: Settings, h: Heard) { h.voiced && |h.frame| == c.frameBytes }

  predicate AllSpeech(c: Settings, heard: seq<Heard>, from: nat, to: nat)
    requires from <= to <= |heard|
  {
    forall i | from <= i < to :: Spoken(c, heard[i])
  }

  predicate NoSpeech(c: Settings, heard: seq<Heard>, from: nat, to: nat)
    requires from <= to <= |heard|
  {
    forall i | from <= i < to :: !Spoken(c, heard[i])
  }

  /** Between utterances the preroll is the newest frames since the last end. */
  ghost predicate PrerollExact(c: Settings, heard: seq<Heard>, s: State, k: Cuts) {
    var n := |heard|;
    && k.lastEnd <= n
    && |s.preroll| == (if n - k.lastEnd < c.PrerollFrames() then n - k.lastEnd else c.PrerollFrames())
    && s.preroll == FramesOf(heard)[n - |s.preroll|..]
  }

  /** `run` is the speech the stream since `since` ends with. */
  ghost predicate SpeechRunExact(c: Settings, heard: seq<Heard>, since: nat, run: nat) {
    var n := |heard|;
    && since + run <= n && AllSpeech(c, heard, n - run, n)
    && (since + run < n ==> !c.Speech(heard[n - run - 1]))
  }

  ghost predicate SilenceRunExact(c: Settings, heard: seq<Heard>, since: nat, run: nat) {
    var n := |heard|;
    && since + run <= n && NoSpeech(c, heard, n - run, n)
    && (since + run < n ==> c.Speech(heard[n - run - 1]))
  }

  ghost predicate Listening(c: Settings, heard: seq<Heard>, s: State, k: Cuts) {
    && PrerollExact(c, heard, s, k)
    && s.speechRun < c.StartFrames() && SpeechRunExact(c, heard, k.lastEnd, s.speechRun)
  }

  /** During an utterance the buffer is the stream since its beginning. */
  ghost predicate Speaking(c: Settings, heard: seq<Heard>, s: State, k: Cuts) {
    var n := |heard|;
    && k.lastEnd <= k.from < n
    && s.utterance == Joined(FramesOf(heard)[k.from..])
    && s.silenceRun < c.EndFrames() && SilenceRunExact(c, heard, k.from, s.silenceRun)
    && (n - k.from <= c.PrerollFrames() || |s.utterance| < c.MaxFrames() * c.frameBytes)
  }

  ghost predicate Placed(c: Settings, heard: seq<Heard>) {
    PlacedAt(c, heard, Run(c, heard), CutsOf(c, heard))
  }

  ghost predicate PlacedAt(c: Settings, heard: seq<Heard>, s: State, k: Cuts) {
    if s.triggered then Speaking(c, heard, s, k) else Listening(c, heard, s, k)
  }

  lemma JoinedAppend(frames: seq<Frame>, frame: Frame)
    ensures Joined(frames + [frame]) == Joined(frames) + frame
  {
    assert (frames + [frame])[..|frames|] == frames;
  }

  lemma PrerollNext(c: Settings, heard: seq<Heard>, s: State, k: Cuts, h: Heard)
    requires PrerollExact(c, heard, s, k)
    ensures var preroll := Appended(s.preroll, h.frame, c.PrerollFrames());
            PrerollExact(c, heard + [h], s.(preroll := preroll), k) && 1 <= |preroll|
  {
    var all, n := heard + [h], |heard|;
    var preroll := Appended(s.preroll, h.frame, c.PrerollFrames());
    assert FramesOf(all) == FramesOf(heard) + [h.frame];
    assert s.preroll + [h.frame] == FramesOf(all)[n - |s.preroll|..];
    assert preroll == FramesOf(all)[n + 1 - |preroll|..];
  }

  lemma SpeechRunNext(c: Settings, heard: seq<Heard>, since: nat, run: nat, h: Heard)
    requires SpeechRunExact(c, heard, since, run)
    ensures SpeechRunExact(c, heard + [h], since, if c.Speech(h) then run + 1 else 0)
  {
    var all, n := heard + [h], |heard|;
    assert all[n] == h && forall i | 0 <= i < n :: all[i] == heard[i];
  }

  lemma SilenceRunNext(c: Settings, heard: seq<Heard>, since: nat, run: nat, h: Heard)
    requires SilenceRunExact(c, heard, since, run)
    ensures SilenceRunExact(c, heard + [h], since, if c.Speech(h) then 0 else run + 1)
  {
    var all, n := heard + [h], |heard|;
    assert all[n] == h && forall i | 0 <= i < n :: all[i] == heard[i];
  }

  lemma StepTriggers(c: Settings, heard: seq<Heard>, s: State, k: Cuts, h: Heard)
    requires !s.triggered && Listening(c, heard, s, k) && Step(c, s, h).1.Start?
    ensures Speaking(c, heard + [h], Step(c, s, h).0, CutsNext(c, k, |heard|, s, h))
  {
    PrerollNext(c, heard, s, k, h);
    assert SilenceRunExact(c, heard + [h], CutsNext(c, k, |heard|, s, h).from, 0);
  }

  lemma StepListens(c: Settings, heard: seq<Heard>, s: State, k: Cuts, h: Heard)
    requires !s.triggered && Listening(c, heard, s, k) && Step(c, s, h).1.Quiet?
    ensures Listening(c, heard + [h], Step(c, s, h).0, CutsNext(c, k, |heard|, s, h))
  {
    PrerollNext(c, heard, s, k, h);
    SpeechRunNext(c, heard, k.lastEnd, s.speechRun, h);
  }

  lemma StepSpeaks(c: Settings, heard: seq<Heard>, s: State, k: Cuts, h: Heard)
    requires s.triggered && Speaking(c, heard, s, k) && Step(c, s, h).1.Quiet?
    ensures Speaking(c, heard + [h], Step(c, s, h).0, CutsNext(c, k, |heard|, s, h))
  {
    UtteranceNext(c, heard, k, h);
    SilenceRunNext(c, heard, k.from, s.silenceRun, h);
  }

  lemma StepEnds(c: Settings, heard: seq<Heard>, s: State, k: Cuts, h: Heard)
    requires s.triggered && Speaking(c, heard, s, k) && Step(c, s, h).1.End?
    ensures Listening(c, heard + [h], Step(c, s, h).0, CutsNext(c, k, |heard|, s, h))
  {
    var all, k1 := heard + [h], CutsNext(c, k, |heard|, s, h);
    assert FramesOf(all)[|all|..] == [];
    assert PrerollExact(c, all, IDLE, k1) && SpeechRunExact(c, all, k1.lastEnd, 0);
  }

  lemma StepPlaced(c: Settings, heard: seq<Heard>, s: State, k: Cuts, h: Heard)
    requires PlacedAt(c, heard, s, k)
    ensures PlacedAt(c, heard + [h], Step(c, s, h).0, CutsNext(c, k, |heard|, s, h))
  {
    match Step(c, s, h).1
    case Start => StepTriggers(c, heard, s, k, h);
    case Quiet => if s.triggered { StepSpeaks(c, heard, s, k, h); } else { StepListens(c, heard, s, k, h); }
    case End(_) => StepEnds(c, heard, s, k, h);
  }

  lemma UtteranceNext(c: Settings, heard: seq<Heard>, k: Cuts, h: Heard)
    requires k.from <= |heard|
    ensures Joined(FramesOf(heard + [h])[k.from..]) == Joined(FramesOf(heard)[k.from..]) + h.frame
  {
    assert FramesOf(heard + [h])[k.from..] == FramesOf(heard)[k.from..] + [h.frame];
    JoinedAppend(FramesOf(heard)[k.from..], h.frame);
  }

  lemma PlacedNext(c: Settings, heard: seq<Heard>, h: Heard)
    requires Placed(c, heard)
    ensures Placed(c, heard + [h])
  {
    StepPlaced(c, heard, Run(c, heard), CutsOf(c, heard), h);
    NextFrame(c, heard, h);
  }

  lemma {:induction false} AlwaysPlaced(c: Settings, heard: seq<Heard>)
    ensures Placed(c, heard)
  {
    if heard != [] {
      var before, h := heard[..|heard| - 1], heard[|heard| - 1];
      AlwaysPlaced(c, before);
      PlacedNext(c, before, h);
      assert before + [h] == heard;
    }
  }

  // --- What the events mean -------------------------------------------

  /** Starts and ends alternate, a start first; `open` says an end is due. */
  predicate Alternate(events: seq<Event>, open: bool) {
    if events == [] then !open
    else
      match events[|events| - 1]
      case Quiet => Alternate(events[..|events| - 1], open)
      case Start => open && Alternate(events[..|events| - 1], false)
      case End(_) => !open && Alternate(events[..|events| - 1], true)
  }

  lemma {:induction false} EventsAlternate(c: Settings, heard: seq<Heard>)
    ensures |Events(c, heard)| == |heard| && Alternate(Events(c, heard), Run(c, heard).triggered)
  {
    if heard != [] {
      var n := |heard| - 1;
      EventsAlternate(c, heard[..n]);
      assert Events(c, heard)[..n] == Events(c, heard[..n]);
    }
  }

  lemma StartWhenSpeech(c: Settings, heard: seq<Heard>, s: State, k: Cuts, h: Heard)
    requires !s.triggered && Listening(c, heard, s, k)
    ensures var all, n := heard + [h], |heard| + 1;
            Step(c, s, h).1.Start? <==>
              k.lastEnd + Frames(c.startSpeechMs) <= n && AllSpeech(c, all, n - Frames(c.startSpeechMs), n)
  {
    var all, n := heard + [h], |heard| + 1;
    SpeechRunNext(c, heard, k.lastEnd, s.speechRun, h);
    if k.lastEnd + Frames(c.startSpeechMs) <= n && AllSpeech(c, all, n - Frames(c.startSpeechMs), n) {
      assert c.Speech(all[n - 1]);
    }
  }

  /** A start comes exactly when the required run of speech since the last end is complete. */
  lemma StartExactly(c: Settings, heard: seq<Heard>, h: Heard)
    requires !Run(c, heard).triggered
    ensures var all, n, since := heard + [h], |heard| + 1, CutsOf(c, heard).lastEnd;
            Step(c, Run(c, heard), h).1 == Start <==>
              since + Frames(c.startSpeechMs) <= n && AllSpeech(c, all, n - Frames(c.startSpeechMs), n)
  {
    AlwaysPlaced(c, heard);
    StartWhenSpeech(c, heard, Run(c, heard), CutsOf(c, heard), h);
  }

  /** The newest frames since the last end, at most as many as the preroll holds. */
  predicate ReachesBack(c: Settings, n: nat, k: Cuts) {
    k.from == if n <= k.lastEnd + Frames(c.prerollMs) then k.lastEnd else n - Frames(c.prerollMs)
  }

  /** An utterance begins with its preroll, the frame that starts it included. */
  lemma StartReachesBack(c: Settings, heard: seq<Heard>, h: Heard)
    requires !Run(c, heard).triggered && Step(c, Run(c, heard), h).1.Start?
    ensures ReachesBack(c, |heard| + 1, CutsOf(c, heard + [h]))
  {
    AlwaysPlaced(c, heard);
    PrerollReachesBack(c, heard, Run(c, heard), CutsOf(c, heard), h);
    NextFrame(c, heard, h);
  }

  lemma PrerollReachesBack(c: Settings, heard: seq<Heard>, s: State, k: Cuts, h: Heard)
    requires !s.triggered && Listening(c, heard, s, k) && Step(c, s, h).1.Start?
    ensures ReachesBack(c, |heard| + 1, CutsNext(c, k, |heard|, s, h))
  {
  }

  lemma EndWhenSilent(c: Settings, heard: seq<Heard>, s: State, k: Cuts, h: Heard)
    requires s.triggered && Speaking(c, heard, s, k)
    ensures var all, n := heard + [h], |heard| + 1;
            && k.from < n
            && (Step(c, s, h).1.End? <==>
                  || (k.from + Frames(c.endSilenceMs) <= n && NoSpeech(c, all, n - Frames(c.endSilenceMs), n))
                  || |Joined(FramesOf(all)[k.from..])| >= Frames(c.maxUtteranceMs) * c.frameBytes)
  {
    var all, n := heard + [h], |heard| + 1;
    SilenceRunNext(c, heard, k.from, s.silenceRun, h);
    UtteranceNext(c, heard, k, h);
    if k.from + Frames(c.endSilenceMs) <= n && NoSpeech(c, all, n - Frames(c.endSilenceMs), n) {
      assert !c.Speech(all[n - 1]);
    }
  }

  /** An end comes exactly when the utterance has the required trailing silence or
      has reached the size cap. */
  lemma EndExactly(c: Settings, heard: seq<Heard>, h: Heard)
    requires Run(c, heard).triggered
    ensures var all, n, from := heard + [h], |heard| + 1, CutsOf(c, heard).from;
            && from < n
            && (Step(c, Run(c, heard), h).1.End? <==>
                  || (from + Frames(c.endSilenceMs) <= n && NoSpeech(c, all, n - Frames(c.endSilenceMs), n))
                  || |Joined(FramesOf(all)[from..])| >= Frames(c.maxUtteranceMs) * c.frameBytes)
  {
    AlwaysPlaced(c, heard);
    EndWhenSilent(c, heard, Run(c, heard), CutsOf(c, heard), h);
  }

  function PcmOf(e: Event): Option<seq<Byte>> { if e.End? then Some(e.pcm) else None }

  /** The slice of the stream a segment covers. */
  function Slice(heard: seq<Heard>, g: Segment): seq<Byte>
    requires g.from <= g.to <= |heard|
  {
    Joined(FramesOf(heard)[g.from..g.to])
  }

  ghost predicate Disjoint(segments: seq<Segment>, end: nat) {
    && (forall g | g in segments :: g.from < g.to <= end)
    && (forall i, j | 0 <= i < j < |segments| :: segments[i].to <= segments[j].from)
  }

  lemma SliceStays(heard: seq<Heard>, h: Heard, g: Segment)
    requires g.from <= g.to <= |heard|
    ensures Slice(heard + [h], g) == Slice(heard, g)
  {
    assert FramesOf(heard + [h])[g.from..g.to] == FramesOf(heard)[g.from..g.to];
  }

  lemma EndCutsSlice(c: Settings, heard: seq<Heard>, s: State, k: Cuts, h: Heard)
    requires PlacedAt(c, heard, s, k) && Step(c, s, h).1.End?
    ensures k.lastEnd <= k.from <= |heard|
    ensures Step(c, s, h).1 == End(Slice(heard + [h], Segment(k.from, |heard| + 1)))
  {
    UtteranceNext(c, heard, k, h);
    assert FramesOf(heard + [h])[k.from..|heard| + 1] == FramesOf(heard + [h])[k.from..];
  }

  /** The audio emitted is, one by one, the stream's slices over the segments ended. */
  ghost predicate CutAt(heard: seq<Heard>, k: Cuts, pcms: seq<seq<Byte>>) {
    && k.lastEnd <= |heard| && Disjoint(k.done, k.lastEnd) && |pcms| == |k.done|
    && forall i | 0 <= i < |pcms| :: pcms[i] == Slice(heard, k.done[i])
  }

  ghost predicate Cut(c: Settings, heard: seq<Heard>) {
    CutAt(heard, CutsOf(c, heard), Pick(PcmOf, Events(c, heard)))
  }

  lemma CutStays(heard: seq<Heard>, k: Cuts, pcms: seq<seq<Byte>>, h: Heard)
    requires CutAt(heard, k, pcms)
    ensures CutAt(heard + [h], k, pcms)
  {
    forall i | 0 <= i < |pcms| ensures pcms[i] == Slice(heard + [h], k.done[i]) {
      assert k.done[i] in k.done;
      SliceStays(heard, h, k.done[i]);
    }
  }

  lemma CutGrows(heard: seq<Heard>, k: Cuts, pcms: seq<seq<Byte>>)
    requires CutAt(heard, k, pcms) && k.lastEnd <= k.from < |heard|
    ensures var g := Segment(k.from, |heard|);
            CutAt(heard, Cuts(k.done + [g], |heard|, k.from), pcms + [Slice(heard, g)])
  {
    var g := Segment(k.from, |heard|);
    forall x | x in k.done + [g] ensures x.from < x.to <= |heard| {
      assert x in k.done || x == g;
    }
    assert forall i | 0 <= i < |k.done| :: k.done[i] in k.done;
  }

  lemma StepCut(c: Settings, heard: seq<Heard>, h: Heard)
    requires Cut(c, heard)
    ensures Cut(c, heard + [h])
  {
    var s, k, event := Run(c, heard), CutsOf(c, heard), Step(c, Run(c, heard), h).1;
    var pcms := Pick(PcmOf, Events(c, heard));
    NextFrame(c, heard, h);
    PickAppend(PcmOf, Events(c, heard), event);
    CutStays(heard, k, pcms, h);
    if event.End? {
      AlwaysPlaced(c, heard);
      EndCutsSlice(c, heard, s, k, h);
      CutGrows(heard + [h], k, pcms);
    } else {
      assert CutAt(heard + [h], CutsNext(c, k, |heard|, s, h), pcms + []);
      assert pcms + [] == pcms;
    }
  }

  /** The utterances emitted are slices of the stream, in order and disjoint. */
  lemma {:induction false} UtterancesAreSlices(c: Settings, heard: seq<Heard>)
    ensures Cut(c, heard)
  {
    if heard != [] {
      UtterancesAreSlices(c, heard[..|heard| - 1]);
      StepCut(c, heard[..|heard| - 1], heard[|heard| - 1]);
      assert heard[..|heard| - 1] + [heard[|heard| - 1]] == heard;
    }
  }

  lemma OneMore(n: nat, size: nat)
    ensures (n + 1) * size == n * size + size
  {
  }

  lemma {:induction false} JoinedLength(frames: seq<Frame>, size: nat)
    requires forall f | f in frames :: |f| == size
    ensures |Joined(frames)| == |frames| * size
  {
    if frames != [] {
      var n := |frames| - 1;
      JoinedLength(frames[..n], size);
      assert frames[n] in frames;
      OneMore(n, size);
    }
  }

  lemma CancelFactor(a: nat, b: nat, size: nat)
    requires a * size < b * size
    ensures a < b
  {
  }

  lemma ExactFrames(c: Settings, heard: seq<Heard>, from: nat)
    requires from <= |heard| && forall x | x in heard :: |x.frame| == c.frameBytes
    ensures forall f | f in FramesOf(heard)[from..] :: |f| == c.frameBytes
  {
    var frames := FramesOf(heard)[from..];
    forall i | 0 <= i < |frames| ensures |frames[i]| == c.frameBytes {
      assert heard[from + i] in heard;
    }
  }

  lemma SpeakingBounded(c: Settings, heard: seq<Heard>, s: State, k: Cuts)
    requires Speaking(c, heard, s, k) && forall x | x in heard :: |x.frame| == c.frameBytes
    ensures |heard| - k.from <= c.PrerollFrames() || |heard| - k.from < c.MaxFrames()
  {
    if |heard| - k.from > c.PrerollFrames() {
      ExactFrames(c, heard, k.from);
      JoinedLength(FramesOf(heard)[k.from..], c.frameBytes);
      CancelFactor(|heard| - k.from, c.MaxFrames(), c.frameBytes);
    }
  }

  /** With frames of the exact size an utterance has at most as many frames as the
      cap, or one more than the preroll when that is longer. */
  lemma UtteranceBounded(c: Settings, heard: seq<Heard>, h: Heard)
    requires forall x | x in heard :: |x.frame| == c.frameBytes
    requires Step(c, Run(c, heard), h).1.End?
    ensures var length := |heard| + 1 - CutsOf(c, heard).from;
            length <= Frames(c.maxUtteranceMs) || length <= Frames(c.prerollMs) + 1
  {
    AlwaysPlaced(c, heard);
    SpeakingBounded(c, heard, Run(c, heard), CutsOf(c, heard));
  }
}
