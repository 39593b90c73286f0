/** PCM16 audio at the WebSocket boundary: packing, unpacking, and cutting
    arbitrary chunks into exact 20 ms frames. */
module Reframer {
  import opened Sequences
  import Session

  type Sample = i: int | -0x8000 <= i < 0x8000

  const FRAME_DURATION_MS: nat := 20
  const BYTES_PER_SAMPLE: nat := 2

  datatype AudioError = UnsupportedSampleRate(rate: nat) | OddByteCount(count: nat)

  datatype Result<+T> = Ok(value: T) | Err(error: AudioError)

  // --- Pack and unpack ------------------------------------------------

  function ToBytes(s: Sample): seq<Byte> {
    var u := if s < 0 then s + 0x1_0000 else s;
    [u % 256, u / 256]
  }

  function FromBytes(low: Byte, high: Byte): Sample {
    var u := low + 256 * high;
    if u < 0x8000 then u else u - 0x1_0000
  }

  function Packed(samples: seq<Sample>): seq<Byte> {
    if samples == [] then [] else Packed(samples[..|samples| - 1]) + ToBytes(samples[|samples| - 1])
  }

  function Unpacked(bytes: seq<Byte>): seq<Sample> {
    if |bytes| < 2 then []
    else Unpacked(bytes[..|bytes| - 2]) + [FromBytes(bytes[|bytes| - 2], bytes[|bytes| - 1])]
  }

  method PackPcm16Le(samples: seq<Sample>) returns (out: seq<Byte>)
    ensures out == Packed(samples) && |out| == BYTES_PER_SAMPLE * |samples|
  {
    out := [];
    for i := 0 to |samples|
      invariant out == Packed(samples[..i]) && |out| == BYTES_PER_SAMPLE * i
    {
      assert samples[..i + 1][..i] == samples[..i];
      out := out + ToBytes(samples[i]);
    }
    assert samples[..|samples|] == samples;
  }

  method UnpackPcm16Le(bytes: seq<Byte>) returns (out: Result<seq<Sample>>)
    ensures out == if |bytes| % BYTES_PER_SAMPLE != 0 then Err(OddByteCount(|bytes|)) else Ok(Unpacked(bytes))
  {
    if |bytes| % BYTES_PER_SAMPLE != 0 { return Err(OddByteCount(|bytes|)); }
    var samples: seq<Sample> := [];
    var i := 0;
    while i < |bytes|
      invariant i <= |bytes| && i % 2 == 0 && samples == Unpacked(bytes[..i])
    {
      assert bytes[..i + 2][..i] == bytes[..i];
      samples := samples + [FromBytes(bytes[i], bytes[i + 1])];
      i := i + 2;
    }
    assert bytes[..i] == bytes;
    out := Ok(samples);
  }

  /** Two's complement, low byte first. */
  lemma LittleEndian(s: Sample)
    ensures |ToBytes(s)| == 2
    ensures ToBytes(s)[0] as int + 256 * ToBytes(s)[1] as int == if s >= 0 then s else 0x1_0000 + s
  {
  }

  lemma BytesOfSample(s: Sample)
    ensures FromBytes(ToBytes(s)[0], ToBytes(s)[1]) == s
  {
  }

  lemma SampleOfBytes(low: Byte, high: Byte)
    ensures ToBytes(FromBytes(low, high)) == [low, high]
  {
  }

  lemma PackedAppend(samples: seq<Sample>, s: Sample)
    ensures Packed(samples + [s]) == Packed(samples) + ToBytes(s)
  {
    assert (samples + [s])[..|samples|] == samples;
  }

  lemma UnpackedAppend(bytes: seq<Byte>, low: Byte, high: Byte)
    ensures Unpacked(bytes + [low, high]) == Unpacked(bytes) + [FromBytes(low, high)]
  {
    assert (bytes + [low, high])[..|bytes|] == bytes;
  }

  lemma {:induction false} PackedLength(samples: seq<Sample>)
    ensures |Packed(samples)| == BYTES_PER_SAMPLE * |samples|
  {
    if samples != [] { PackedLength(samples[..|samples| - 1]); }
  }

  /** Unpacking what was packed gives it back, sign and order included. */
  lemma {:induction false} UnpackPacked(samples: seq<Sample>)
    ensures Unpacked(Packed(samples)) == samples
  {
    if samples != [] {
      var head, s := samples[..|samples| - 1], samples[|samples| - 1];
      var low, high := ToBytes(s)[0], ToBytes(s)[1];
      calc {
        Unpacked(Packed(samples));
        { assert ToBytes(s) == [low, high]; }
        Unpacked(Packed(head) + [low, high]);
        { UnpackedAppend(Packed(head), low, high); }
        Unpacked(Packed(head)) + [FromBytes(low, high)];
        { UnpackPacked(head); BytesOfSample(s); }
        head + [s];
        samples;
      }
    }
  }

  /** Packing what was unpacked from an even number of bytes gives them back. */
  lemma {:induction false} PackUnpacked(bytes: seq<Byte>)
    requires |bytes| % BYTES_PER_SAMPLE == 0
    ensures Packed(Unpacked(bytes)) == bytes
  {
    if bytes != [] {
      var n := |bytes| - 2;
      var head, low, high := bytes[..n], bytes[n], bytes[n + 1];
      PackUnpacked(head);
      SampleOfBytes(low, high);
      PackedAppend(Unpacked(head), FromBytes(low, high));
      assert bytes == head + [low, high];
    }
  }

  // --- Reframing ------------------------------------------------------

  function SamplesPerFrame(sampleRate: nat): Result<nat> {
    match sampleRate
    case 8000 => Ok(160)
    case 16000 => Ok(320)
    case other => Err(UnsupportedSampleRate(other))
  }

  class Buffer {
    const sampleRate: nat
    const samplesPerFrame: nat
    var pending: seq<Sample>

    ghost predicate Valid() {
      SamplesPerFrame(sampleRate) == Ok(samplesPerFrame)
    }

    constructor (sampleRate: nat)
      requires SamplesPerFrame(sampleRate).Ok?
      ensures Valid() && this.sampleRate == sampleRate && pending == []
    {
      this.sampleRate := sampleRate;
      samplesPerFrame := SamplesPerFrame(sampleRate).value;
      pending := [];
    }

    /** A buffer for one of the two rates the protocol allows. */
    static method Open(sampleRate: nat) returns (opening: Result<Buffer>)
      ensures match SamplesPerFrame(sampleRate)
              case Err(e) => opening == Err(e)
              case Ok(_) =>
                && opening.Ok? && fresh(opening.value) && opening.value.Valid()
                && opening.value.sampleRate == sampleRate && opening.value.pending == []
    {
      var size := SamplesPerFrame(sampleRate);
      if size.Err? { return Err(size.error); }
      var buffer := new Buffer(sampleRate);
      return Ok(buffer);
    }

    method Push(samples: seq<Sample>)
      modifies this
      ensures pending == old(pending) + samples
    {
      pending := pending + samples;
    }

    method PopFrame() returns (frame: Option<seq<Sample>>)
      modifies this
      ensures (pending, frame) == Popped(samplesPerFrame, old(pending))
    {
      if |pending| < samplesPerFrame { return None; }
      frame := Some(pending[..samplesPerFrame]);
      pending := pending[samplesPerFrame..];
    }

    /** Pops until there is no whole frame left. */
    method Drain() returns (frames: seq<seq<Sample>>)
      requires Valid()
      modifies this
      ensures frames == Frames(samplesPerFrame, old(pending))
      ensures Flat(frames) + pending == old(pending) && |pending| < samplesPerFrame
    {
      frames := [];
      ghost var all, rest := pending, pending;
      var next := PopFrame();
      while next.Some?
        invariant (pending, next) == Popped(samplesPerFrame, rest)
        invariant Flat(frames) + rest == all
        invariant frames + Frames(samplesPerFrame, rest) == Frames(samplesPerFrame, all)
        decreases |rest|
      {
        FlatPop(frames, rest, samplesPerFrame);
        assert frames + Frames(samplesPerFrame, rest)
            == frames + [next.value] + Frames(samplesPerFrame, rest[samplesPerFrame..]);
        frames := frames + [next.value];
        rest := pending;
        next := PopFrame();
      }
      assert pending == rest && Frames(samplesPerFrame, rest) == [];
    }
  }

  function Popped(size: nat, pending: seq<Sample>): (seq<Sample>, Option<seq<Sample>>) {
    if |pending| < size then (pending, None) else (pending[size..], Some(pending[..size]))
  }

  /** A stream cut into whole frames; a short rest is left out. */
  function Frames(size: nat, stream: seq<Sample>): seq<seq<Sample>> {
    if size == 0 || |stream| < size then [] else [stream[..size]] + Frames(size, stream[size..])
  }

  function Flat(frames: seq<seq<Sample>>): seq<Sample> {
    if frames == [] then [] else Flat(frames[..|frames| - 1]) + frames[|frames| - 1]
  }

  lemma FlatAppend(frames: seq<seq<Sample>>, frame: seq<Sample>)
    ensures Flat(frames + [frame]) == Flat(frames) + frame
  {
    assert (frames + [frame])[..|frames|] == frames;
  }

  lemma FlatPop(frames: seq<seq<Sample>>, rest: seq<Sample>, size: nat)
    requires size <= |rest|
    ensures Flat(frames + [rest[..size]]) + rest[size..] == Flat(frames) + rest
  {
    FlatAppend(frames, rest[..size]);
    assert rest == rest[..size] + rest[size..];
  }

  /** What a user of the buffer does, in any order. */
  datatype Use = Push(samples: seq<Sample>) | Pop

  /** The samples still buffered and the frames popped so far. */
  datatype Usage = Usage(pending: seq<Sample>, popped: seq<seq<Sample>>)

  function Run(size: nat, uses: seq<Use>): Usage {
    if uses == [] then Usage([], [])
    else
      var u := Run(size, uses[..|uses| - 1]);
      match uses[|uses| - 1]
      case Push(samples) => u.(pending := u.pending + samples)
      case Pop =>
        var (pending, frame) := Popped(size, u.pending);
        Usage(pending, if frame.Some? then u.popped + [frame.value] else u.popped)
  }

  function Pushed(uses: seq<Use>): seq<Sample> {
    if uses == [] then []
    else Pushed(uses[..|uses| - 1]) + (if uses[|uses| - 1].Push? then uses[|uses| - 1].samples else [])
  }

  /** Nothing is lost, added or reordered, and every frame popped is exact. */
  lemma {:induction false} SamplesConserved(size: nat, uses: seq<Use>)
    ensures var u := Run(size, uses);
            && Flat(u.popped) + u.pending == Pushed(uses)
            && forall f | f in u.popped :: |f| == size
  {
    if uses != [] {
      var u := Run(size, uses[..|uses| - 1]);
      SamplesConserved(size, uses[..|uses| - 1]);
      if uses[|uses| - 1].Push? {
        var samples := uses[|uses| - 1].samples;
        assert Flat(u.popped) + (u.pending + samples) == Flat(u.popped) + u.pending + samples;
      } else if size <= |u.pending| {
        FlatPop(u.popped, u.pending, size);
      }
    }
  }

  lemma OneMoreFrame(size: nat, frame: seq<Sample>, rest: seq<Sample>)
    requires |frame| == size > 0
    ensures Frames(size, frame + rest) == [frame] + Frames(size, rest)
  {
    assert (frame + rest)[..size] == frame && (frame + rest)[size..] == rest;
  }

  lemma FlatLast(frames: seq<seq<Sample>>, rest: seq<Sample>)
    requires frames != []
    ensures Flat(frames) + rest == Flat(frames[..|frames| - 1]) + (frames[|frames| - 1] + rest)
  {
  }

  lemma {:induction false} FramesOfFlat(size: nat, frames: seq<seq<Sample>>, rest: seq<Sample>)
    requires 0 < size && forall f | f in frames :: |f| == size
    ensures Frames(size, Flat(frames) + rest) == frames + Frames(size, rest)
  {
    if frames == [] {
      assert Flat(frames) + rest == rest;
    } else {
      var head, frame := frames[..|frames| - 1], frames[|frames| - 1];
      assert frame in frames;
      calc {
        Frames(size, Flat(frames) + rest);
        { FlatLast(frames, rest); }
        Frames(size, Flat(head) + (frame + rest));
        { FramesOfFlat(size, head, frame + rest); }
        head + Frames(size, frame + rest);
        { OneMoreFrame(size, frame, rest); }
        head + ([frame] + Frames(size, rest));
        frames + Frames(size, rest);
      }
    }
  }

  /** The frames popped, with those a full drain would still give, are the input cut
      up, however it was chunked and whenever frames were popped. */
  lemma FramesIgnoreChunking(size: nat, uses: seq<Use>)
    requires 0 < size
    ensures Run(size, uses).popped + Frames(size, Run(size, uses).pending) == Frames(size, Pushed(uses))
  {
    SamplesConserved(size, uses);
    FramesOfFlat(size, Run(size, uses).popped, Run(size, uses).pending);
  }

  function PackedAll(frames: seq<seq<Sample>>): seq<Byte> {
    if frames == [] then [] else PackedAll(frames[..|frames| - 1]) + Packed(frames[|frames| - 1])
  }

  lemma {:induction false} PackedConcat(a: seq<Sample>, b: seq<Sample>)
    ensures Packed(a + b) == Packed(a) + Packed(b)
  {
    if b == [] {
      assert a + b == a;
    } else {
      var head, s := b[..|b| - 1], b[|b| - 1];
      calc {
        Packed(a + b);
        { assert a + b == a + head + [s]; }
        Packed(a + head + [s]);
        { PackedAppend(a + head, s); }
        Packed(a + head) + ToBytes(s);
        { PackedConcat(a, head); }
        Packed(a) + Packed(head) + ToBytes(s);
        Packed(a) + (Packed(head) + ToBytes(s));
      }
    }
  }

  lemma {:induction false} PackedAllFlat(frames: seq<seq<Sample>>)
    ensures PackedAll(frames) == Packed(Flat(frames))
  {
    if frames != [] {
      PackedAllFlat(frames[..|frames| - 1]);
      PackedConcat(Flat(frames[..|frames| - 1]), frames[|frames| - 1]);
    }
  }

  /** Unpacking all the bytes sent recovers a prefix of the samples pushed, short of
      the whole by what is still pending. */
  lemma WireRecoversInput(size: nat, uses: seq<Use>)
    ensures var u := Run(size, uses);
            Unpacked(PackedAll(u.popped)) + u.pending == Pushed(uses)
  {
    var u := Run(size, uses);
    SamplesConserved(size, uses);
    PackedAllFlat(u.popped);
    UnpackPacked(Flat(u.popped));
  }

  /** Every packed frame has the byte count the session checks for at that rate. */
  lemma PackedFrameFitsSession(sampleRate: nat, uses: seq<Use>, frame: seq<Sample>)
    requires SamplesPerFrame(sampleRate).Ok?
    requires frame in Run(SamplesPerFrame(sampleRate).value, uses).popped
    ensures |Packed(frame)| == Session.FrameBytes(Session.Format(sampleRate, FRAME_DURATION_MS, 1)) > 0
  {
    SamplesConserved(SamplesPerFrame(sampleRate).value, uses);
    PackedLength(frame);
    FrameSizesAgree(sampleRate);
  }

  /** A frame is 20 ms of samples, and exists for 8 and 16 kHz. */
  lemma FrameIs20Ms(sampleRate: nat)
    ensures SamplesPerFrame(sampleRate).Ok? <==> sampleRate == 8000 || sampleRate == 16000
    ensures match SamplesPerFrame(sampleRate)
            case Ok(n) => n * 1000 == sampleRate * 20
            case Err(e) => e == UnsupportedSampleRate(sampleRate)
  {
  }

  lemma FrameSizesAgree(sampleRate: nat)
    requires SamplesPerFrame(sampleRate).Ok?
    ensures Session.FrameBytes(Session.Format(sampleRate, FRAME_DURATION_MS, 1))
         == BYTES_PER_SAMPLE * SamplesPerFrame(sampleRate).value > 0
  {
  }
}
