/** The tone generator's mu-law encoder, against the decoder of ITU-T G.711. */
module MuLaw {
  import opened Sequences

  const BIAS: nat := 0x84
  const CLIP: int := 32635

  function Pow2(n: nat): nat { if n == 0 then 1 else 2 * Pow2(n - 1) }

  function Clipped(sample: int): (r: int)
    ensures r == if -32635 <= sample <= 32635 then sample else if sample < 0 then -32635 else 32635
  {
    if sample > CLIP then CLIP else if sample < -CLIP then -CLIP else sample
  }

  /** The clipped magnitude, raised by the bias. */
  function Biased(sample: int): nat {
    (if sample < 0 then -Clipped(sample) else Clipped(sample)) + BIAS
  }

  /** The chord a biased magnitude lies in: between 2^(e+7) and 2^(e+8). */
  predicate InChord(magnitude: nat, e: nat) { Pow2(e + 7) <= magnitude < Pow2(e + 8) }

  /** The chord by its bounds, without a search. */
  function Chord(magnitude: nat): nat {
    if magnitude < 256 then 0
    else if magnitude < 512 then 1
    else if magnitude < 1024 then 2
    else if magnitude < 2048 then 3
    else if magnitude < 4096 then 4
    else if magnitude < 8192 then 5
    else if magnitude < 16384 then 6
    else 7
  }

  /** Bits of the code word: sign, chord and step, all inverted. */
  function CodeWord(negative: bool, e: nat, step: nat): Byte
    requires e < 8 && step < 16
  {
    255 - ((if negative then 0x80 else 0) + e * 16 + step)
  }

  function StepOf(magnitude: nat, e: nat): nat {
    Pow2Positive(e + 3);
    magnitude / Pow2(e + 3) % 16
  }

  lemma Pow2Positive(n: nat)
    ensures 1 <= Pow2(n)
  {
  }

  function Encoded(sample: int): Byte {
    var e := Chord(Biased(sample));
    CodeWord(sample < 0, e, StepOf(Biased(sample), e))
  }

  method UlawEncode(sample: int) returns (code: Byte)
    ensures code == Encoded(sample)
  {
    var sign := if sample < 0 then 0x80 else 0x00;
    var magnitude := (if sample < 0 then -sample else sample);
    magnitude := (if magnitude < CLIP then magnitude else CLIP) + BIAS;
    var exponent := 7;
    var mask := 0x4000;
    Powers();
    TopBit(magnitude, mask);
    while exponent > 0 && magnitude / mask % 2 == 0
      invariant exponent <= 7 && 0 < mask == Pow2(exponent + 7) && magnitude < 2 * mask
      invariant magnitude / mask % 2 == 0 <==> magnitude < mask
    {
      exponent := exponent - 1;
      mask := mask / 2;
      TopBit(magnitude, mask);
    }
    ChordUnique(magnitude, exponent);
    var mantissa := StepOf(magnitude, exponent);
    code := 255 - (sign + exponent * 16 + mantissa);
  }

  /** Testing the bit above which a number has no others is comparing with it. */
  lemma TopBit(n: nat, mask: nat)
    requires n < 2 * mask
    ensures n / mask % 2 == 0 <==> n < mask
  {
    if n < mask {
      assert n / mask == 0;
    } else {
      assert n / mask == 1;
    }
  }

  lemma Powers()
    ensures Pow2(3) == 8 && Pow2(4) == 16 && Pow2(5) == 32 && Pow2(6) == 64 && Pow2(7) == 128
    ensures Pow2(8) == 256 && Pow2(9) == 512 && Pow2(10) == 1024 && Pow2(11) == 2048 && Pow2(12) == 4096
    ensures Pow2(13) == 8192 && Pow2(14) == 16384 && Pow2(15) == 32768
  {
    assert Pow2(3) == 8;
    assert Pow2(5) == 32;
    assert Pow2(7) == 128;
    assert Pow2(9) == 512;
    assert Pow2(11) == 2048;
    assert Pow2(13) == 8192;
  }

  /** Each biased magnitude lies in one chord, the one `Chord` names. */
  lemma ChordUnique(magnitude: nat, e: nat)
    requires BIAS <= magnitude <= CLIP + BIAS && e < 8
    ensures InChord(magnitude, Chord(magnitude))
    ensures InChord(magnitude, e) ==> e == Chord(magnitude)
  {
    Powers();
  }

  // --- Decoding -------------------------------------------------------

  /** The level a code word stands for (Tables 2a and 2b), on the encoder's scale. */
  function Decoded(code: Byte): int {
    var u := 255 - code;
    var e, step := u / 16 % 8, u % 16;
    var level := (8 * step + BIAS) * Pow2(e) - BIAS;
    if u >= 128 then -level else level
  }

  /** The level of a biased magnitude: the middle of its step. */
  function Level(magnitude: nat): int {
    var e := Chord(magnitude);
    (8 * StepOf(magnitude, e) + BIAS) * Pow2(e)
  }

  /** What a sample decodes to after encoding. */
  function Recovered(sample: int): int {
    var level := Level(Biased(sample)) - BIAS;
    if sample < 0 then -level else level
  }

  lemma CodeParts(negative: bool, e: nat, step: nat)
    requires e < 8 && step < 16
    ensures var u := 255 - CodeWord(negative, e, step);
            u / 16 % 8 == e && u % 16 == step && (u >= 128 <==> negative)
  {
  }

  lemma DecodedLevel(sample: int)
    ensures Decoded(Encoded(sample)) == Recovered(sample)
  {
    var e := Chord(Biased(sample));
    CodeParts(sample < 0, e, StepOf(Biased(sample), e));
  }

  lemma SixteenSteps(n: nat, size: nat)
    requires 0 < size && 16 * size <= n < 32 * size
    ensures 16 <= n / size < 32
  {
  }

  lemma EightTimes(e: nat)
    ensures 1 <= Pow2(e) && Pow2(e + 3) == 8 * Pow2(e)
    ensures Pow2(e + 7) == 16 * Pow2(e + 3) && Pow2(e + 8) == 32 * Pow2(e + 3)
  {
    Pow2Positive(e);
    assert Pow2(e + 2) == 2 * Pow2(e + 1) && Pow2(e + 1) == 2 * Pow2(e);
    assert Pow2(e + 3) == 2 * Pow2(e + 2);
    assert Pow2(e + 5) == 2 * Pow2(e + 4) && Pow2(e + 4) == 2 * Pow2(e + 3);
    assert Pow2(e + 7) == 2 * Pow2(e + 6) && Pow2(e + 6) == 2 * Pow2(e + 5);
    assert Pow2(e + 8) == 2 * Pow2(e + 7);
  }

  lemma MidStep(q: nat, k: nat)
    requires 16 <= q < 32
    ensures (8 * (q % 16) + BIAS) * k == q * (8 * k) + 4 * k
  {
    assert q % 16 == q - 16;
    assert (8 * (q - 16) + BIAS) * k == (8 * q + 4) * k;
  }

  /** A level is the middle of the step the magnitude falls in. */
  lemma LevelMidStep(magnitude: nat)
    requires BIAS <= magnitude <= CLIP + BIAS
    ensures var size := Pow2(Chord(magnitude) + 3);
            0 < size && Level(magnitude) == magnitude / size * size + size / 2
  {
    var e := Chord(magnitude);
    ChordUnique(magnitude, e);
    EightTimes(e);
    SixteenSteps(magnitude, Pow2(e + 3));
    MidStep(magnitude / Pow2(e + 3), Pow2(e));
  }

  lemma StepBounds(n: nat, size: nat)
    requires 0 < size
    ensures n / size * size <= n < n / size * size + size
  {
  }

  /** A magnitude is within half a step of its level. */
  lemma LevelNear(magnitude: nat)
    requires BIAS <= magnitude <= CLIP + BIAS
    ensures var e := Chord(magnitude);
            Level(magnitude) - Pow2(e + 2) <= magnitude < Level(magnitude) + Pow2(e + 2)
  {
    var e := Chord(magnitude);
    LevelMidStep(magnitude);
    StepBounds(magnitude, Pow2(e + 3));
    assert Pow2(e + 3) == 2 * Pow2(e + 2);
  }

  lemma ProductsInOrder(p: nat, q: nat, size: nat)
    requires p <= q
    ensures p * size <= q * size
  {
  }

  lemma QuotientsInOrder(a: nat, b: nat, size: nat)
    requires 0 < size && a <= b
    ensures a / size <= b / size
  {
    StepBounds(a, size);
    StepBounds(b, size);
    if b / size + 1 <= a / size {
      ProductsInOrder(b / size + 1, a / size, size);
    }
  }

  lemma StepsInOrder(a: nat, b: nat, size: nat)
    requires 0 < size && a <= b
    ensures a / size * size <= b / size * size
  {
    QuotientsInOrder(a, b, size);
    ProductsInOrder(a / size, b / size, size);
  }

  /** A chord's levels lie between its bounds. */
  lemma LevelInChord(magnitude: nat)
    requires BIAS <= magnitude <= CLIP + BIAS
    ensures InChord(Level(magnitude), Chord(magnitude))
  {
    var e := Chord(magnitude);
    ChordUnique(magnitude, e);
    EightTimes(e);
    SixteenSteps(magnitude, Pow2(e + 3));
    LevelMidStep(magnitude);
    var size, q := Pow2(e + 3), magnitude / Pow2(e + 3);
    ProductsInOrder(16, q, size);
    ProductsInOrder(q, 31, size);
  }

  lemma {:induction false} Pow2Grows(a: nat, b: nat)
    requires a <= b
    ensures Pow2(a) <= Pow2(b)
    decreases b
  {
    if a < b { Pow2Grows(a, b - 1); }
  }

  /** Levels keep the order of magnitudes. */
  lemma LevelMonotone(a: nat, b: nat)
    requires BIAS <= a <= b <= CLIP + BIAS
    ensures Level(a) <= Level(b)
  {
    var e, f := Chord(a), Chord(b);
    if e == f {
      LevelMidStep(a);
      LevelMidStep(b);
      StepsInOrder(a, b, Pow2(e + 3));
    } else {
      assert e < f;
      LevelInChord(a);
      LevelInChord(b);
      Pow2Grows(e + 8, f + 7);
    }
  }

  /** Decoding lands within half a step of the clipped sample. */
  lemma DecodeNear(sample: int)
    ensures var e := Chord(Biased(sample));
            && InChord(Biased(sample), e)
            && Clipped(sample) - Pow2(e + 2) <= Decoded(Encoded(sample)) <= Clipped(sample) + Pow2(e + 2)
  {
    ChordUnique(Biased(sample), 0);
    LevelNear(Biased(sample));
    DecodedLevel(sample);
  }

  lemma RecoveredMonotone(x: int, y: int)
    requires x <= y
    ensures Recovered(x) <= Recovered(y)
  {
    if x >= 0 {
      LevelMonotone(Biased(x), Biased(y));
    } else if y < 0 {
      LevelMonotone(Biased(y), Biased(x));
    } else {
      LevelMonotone(BIAS, Biased(x));
      LevelMonotone(BIAS, Biased(y));
      assert Level(BIAS) == BIAS by { LevelMidStep(BIAS); }
    }
  }

  /** A higher sample never decodes lower. */
  lemma DecodeMonotone(x: int, y: int)
    requires x <= y
    ensures Decoded(Encoded(x)) <= Decoded(Encoded(y))
  {
    DecodedLevel(x);
    DecodedLevel(y);
    RecoveredMonotone(x, y);
  }

  /** A code word's own magnitude, with the bias, lies in its chord and step. */
  lemma CodeLevel(code: Byte)
    ensures var u := 255 - code;
            var e, step := u / 16 % 8, u % 16;
            var magnitude := (8 * step + BIAS) * Pow2(e);
            && BIAS <= magnitude <= CLIP + BIAS && Chord(magnitude) == e && StepOf(magnitude, e) == step
            && (magnitude == BIAS <==> e == 0 && step == 0)
  {
    Powers();
    assert Pow2(0) == 1 && Pow2(1) == 2 && Pow2(2) == 4;
    var u := 255 - code;
    var e, step := u / 16 % 8, u % 16;
    if e == 0 { assert StepOf(8 * step + BIAS, 0) == (8 * step + BIAS) / 8 % 16; }
    else if e == 1 { assert StepOf((8 * step + BIAS) * 2, 1) == (8 * step + BIAS) * 2 / 16 % 16; }
    else if e == 2 { assert StepOf((8 * step + BIAS) * 4, 2) == (8 * step + BIAS) * 4 / 32 % 16; }
    else if e == 3 { assert StepOf((8 * step + BIAS) * 8, 3) == (8 * step + BIAS) * 8 / 64 % 16; }
    else if e == 4 { assert StepOf((8 * step + BIAS) * 16, 4) == (8 * step + BIAS) * 16 / 128 % 16; }
    else if e == 5 { assert StepOf((8 * step + BIAS) * 32, 5) == (8 * step + BIAS) * 32 / 256 % 16; }
    else if e == 6 { assert StepOf((8 * step + BIAS) * 64, 6) == (8 * step + BIAS) * 64 / 512 % 16; }
    else { assert StepOf((8 * step + BIAS) * 128, 7) == (8 * step + BIAS) * 128 / 1024 % 16; }
  }

  /** Every code word but that of negative zero is the code of its own level. */
  lemma CodesRoundTrip(code: Byte)
    ensures Encoded(Decoded(code)) == code <==> code != 0x7F
  {
    var u := 255 - code;
    var e, step := u / 16 % 8, u % 16;
    var magnitude, sample := (8 * step + BIAS) * Pow2(e), Decoded(code);
    CodeLevel(code);
    assert sample == if u >= 128 then BIAS - magnitude else magnitude - BIAS;
    assert Biased(sample) == magnitude;
    assert Encoded(sample) == CodeWord(sample < 0, e, step);
    NegativeZero(u, e, step);
  }

  lemma NegativeZero(u: nat, e: nat, step: nat)
    requires u < 256 && e == u / 16 % 8 && step == u % 16
    ensures u == (if u >= 128 then 128 else 0) + e * 16 + step
    ensures u == 0x80 <==> u >= 128 && e == 0 && step == 0
  {
  }
}
