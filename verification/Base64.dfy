/** The console's base64 encoder, against a decoder written from section 4 of RFC 4648. */
module Base64 {
  import opened Sequences

  function Upper(): string { "ABCDEFGHIJKLMNOPQRSTUVWXYZ" }
  function Lower(): string { "abcdefghijklmnopqrstuvwxyz" }
  function Digits(): string { "0123456789" }
  function Table(): string { Upper() + Lower() + Digits() + "+/" }

  const PAD: char := '='

  // --- The encoder ----------------------------------------------------

  function ByteAt(chunk: seq<Byte>, i: nat): Byte { if i < |chunk| then chunk[i] else 0 }

  /** The chunk as a 24-bit number, missing bytes zero. */
  function Word(chunk: seq<Byte>): nat {
    ByteAt(chunk, 0) * 0x1_0000 + ByteAt(chunk, 1) * 0x100 + ByteAt(chunk, 2)
  }

  /** The alphabet of Table 1 of RFC 4648, by ranges. */
  function Letter(sextet: nat): char
    requires sextet < 64
  {
    if sextet < 26 then 'A' + sextet as char
    else if sextet < 52 then 'a' + (sextet - 26) as char
    else if sextet < 62 then '0' + (sextet - 52) as char
    else if sextet == 62 then '+'
    else '/'
  }

  lemma LettersInOrder(k: nat)
    requires k < 26
    ensures Upper()[k] == Letter(k) && Lower()[k] == Letter(26 + k)
  {
  }

  lemma DigitsInOrder(k: nat)
    requires k < 10
    ensures Digits()[k] == Letter(52 + k)
  {
  }

  /** The program's table is that alphabet. */
  lemma TableInOrder(k: nat)
    requires k < 64
    ensures |Table()| == 64 && Table()[k] == Letter(k)
  {
    assert |Upper()| == |Lower()| == 26 && |Digits()| == 10;
    if k < 26 {
      LettersInOrder(k);
      assert Table()[k] == Upper()[k];
    } else if k < 52 {
      LettersInOrder(k - 26);
      assert Table()[k] == Lower()[k - 26];
    } else if k < 62 {
      DigitsInOrder(k - 52);
      assert Table()[k] == Digits()[k - 52];
    } else {
      assert Table()[k] == "+/"[k - 62];
    }
  }

  method LookUp(sextet: nat) returns (letter: char)
    requires sextet < 64
    ensures letter == Letter(sextet)
  {
    TableInOrder(sextet);
    letter := Table()[sextet];
  }

  /** The four characters of a chunk of one to three bytes. */
  function Group(chunk: seq<Byte>): string {
    var n := Word(chunk);
    [Letter(n / 0x4_0000 % 64),
     Letter(n / 0x1000 % 64),
     if |chunk| > 1 then Letter(n / 64 % 64) else PAD,
     if |chunk| > 2 then Letter(n % 64) else PAD]
  }

  function Encoded(input: seq<Byte>): string {
    if input == [] then []
    else if |input| <= 3 then Group(input)
    else Group(input[..3]) + Encoded(input[3..])
  }

  method PushGroup(out: string, chunk: seq<Byte>) returns (longer: string)
    requires 1 <= |chunk| <= 3
    ensures longer == out + Group(chunk)
  {
    var n := chunk[0] * 0x1_0000 + ByteAt(chunk, 1) * 0x100 + ByteAt(chunk, 2);
    var first := LookUp(n / 0x4_0000 % 64);
    var second := LookUp(n / 0x1000 % 64);
    var third := LookUp(n / 64 % 64);
    var fourth := LookUp(n % 64);
    longer := out + [first] + [second];
    longer := longer + [if |chunk| > 1 then third else PAD];
    longer := longer + [if |chunk| > 2 then fourth else PAD];
  }

  method Encode(input: seq<Byte>) returns (out: string)
    ensures out == Encoded(input)
  {
    out := "";
    var i := 0;
    while i < |input|
      invariant i <= |input| && out + Encoded(input[i..]) == Encoded(input)
    {
      var end := if i + 3 <= |input| then i + 3 else |input|;
      EncodedFrom(input, i, end);
      out := PushGroup(out, input[i..end]);
      i := end;
    }
  }

  lemma EncodedFrom(input: seq<Byte>, i: nat, end: nat)
    requires i < end <= |input| && end == (if i + 3 <= |input| then i + 3 else |input|)
    ensures Encoded(input[i..]) == Group(input[i..end]) + Encoded(input[end..])
  {
    var rest := input[i..];
    if |rest| <= 3 {
      assert input[i..end] == rest && input[end..] == [];
    } else {
      assert rest[..3] == input[i..end] && rest[3..] == input[end..];
    }
  }

  // --- A decoder ------------------------------------------------------

  /** The value of a character of the alphabet (Table 1 of RFC 4648). */
  function Sextet(c: char): Option<nat> {
    if 'A' <= c <= 'Z' then Some(c as int - 'A' as int)
    else if 'a' <= c <= 'z' then Some(26 + (c as int - 'a' as int))
    else if '0' <= c <= '9' then Some(52 + (c as int - '0' as int))
    else if c == '+' then Some(62)
    else if c == '/' then Some(63)
    else None
  }

  /** The bytes of one group; padding may stand for its last one or two characters. */
  function DecodeGroup(g: string): Option<seq<Byte>>
    requires |g| == 4
  {
    var a, b, c, d := Sextet(g[0]), Sextet(g[1]), Sextet(g[2]), Sextet(g[3]);
    if a.None? || b.None? then None
    else
      var high := a.value * 64 + b.value;
      if g[2] == '=' && g[3] == '=' then Some([high / 16 % 256])
      else if c.None? then None
      else
        var mid := high * 64 + c.value;
        if g[3] == '=' then Some([mid / 1024 % 256, mid / 4 % 256])
        else if d.None? then None
        else
          var all := mid * 64 + d.value;
          Some([all / 0x1_0000 % 256, all / 0x100 % 256, all % 256])
  }

  function Decoded(s: string): Option<seq<Byte>> {
    if s == [] then Some([])
    else if |s| < 4 then None
    else
      var first := DecodeGroup(s[..4]);
      if |s| == 4 then first
      else
        var rest := Decoded(s[4..]);
        // Padding ends the text.
        if first.None? || |first.value| < 3 || rest.None? then None else Some(first.value + rest.value)
  }

  // --- Round trip -----------------------------------------------------

  lemma LetterDecodes(k: nat)
    requires k < 64
    ensures Sextet(Letter(k)) == Some(k) && Letter(k) != PAD
  {
  }

  lemma QuotientAndRest(n: nat, q: nat, d: nat, r: nat)
    requires r < d && n == q * d + r
    ensures n / d == q && n % d == r
  {
    var p := n / d - q;
    assert p * d + n % d == r;
  }

  /** How three bytes fall into four sextets. */
  lemma SextetsOfBytes(a: Byte, b: Byte, c: Byte)
    ensures var n := a * 0x1_0000 + b * 0x100 + c;
            && n / 0x4_0000 % 64 == a / 4
            && n / 0x1000 % 64 == a % 4 * 16 + b / 16
            && n / 64 % 64 == b % 16 * 4 + c / 64
            && n % 64 == c % 64
  {
    var n := a * 0x1_0000 + b * 0x100 + c;
    QuotientAndRest(n, a / 4, 0x4_0000, a % 4 * 0x1_0000 + b * 0x100 + c);
    QuotientAndRest(n, a * 16 + b / 16, 0x1000, b % 16 * 0x100 + c);
    QuotientAndRest(a * 16 + b / 16, a / 4, 64, a % 4 * 16 + b / 16);
    QuotientAndRest(n, a * 1024 + b * 4 + c / 64, 64, c % 64);
    QuotientAndRest(a * 1024 + b * 4 + c / 64, a * 16 + b / 16, 64, b % 16 * 4 + c / 64);
  }

  lemma GroupLetters(chunk: seq<Byte>, p: nat, q: nat, r: nat, s: nat)
    requires var a, b, c := ByteAt(chunk, 0), ByteAt(chunk, 1), ByteAt(chunk, 2);
             p == a / 4 && q == a % 4 * 16 + b / 16 && r == b % 16 * 4 + c / 64 && s == c % 64
    ensures p < 64 && q < 64 && r < 64 && s < 64
    ensures Group(chunk) == [Letter(p), Letter(q), if |chunk| > 1 then Letter(r) else PAD,
                             if |chunk| > 2 then Letter(s) else PAD]
  {
    SextetsOfBytes(ByteAt(chunk, 0), ByteAt(chunk, 1), ByteAt(chunk, 2));
  }

  lemma GroupSextets(chunk: seq<Byte>)
    requires 1 <= |chunk| <= 3
    ensures |Group(chunk)| == 4
    ensures var g, a, b, c := Group(chunk), ByteAt(chunk, 0), ByteAt(chunk, 1), ByteAt(chunk, 2);
            && Sextet(g[0]) == Some(a / 4) && g[0] != PAD
            && Sextet(g[1]) == Some(a % 4 * 16 + b / 16) && g[1] != PAD
            && (if |chunk| > 1 then Sextet(g[2]) == Some(b % 16 * 4 + c / 64) && g[2] != PAD else g[2] == PAD)
            && (if |chunk| > 2 then Sextet(g[3]) == Some(c % 64) && g[3] != PAD else g[3] == PAD)
  {
    var a, b, c := ByteAt(chunk, 0), ByteAt(chunk, 1), ByteAt(chunk, 2);
    GroupLetters(chunk, a / 4, a % 4 * 16 + b / 16, b % 16 * 4 + c / 64, c % 64);
    LetterDecodes(a / 4);
    LetterDecodes(a % 4 * 16 + b / 16);
    LetterDecodes(b % 16 * 4 + c / 64);
    LetterDecodes(c % 64);
  }

  /** How four sextets give the three bytes back. */
  lemma BytesOfSextets(a: Byte, b: Byte, c: Byte)
    ensures var high := a / 4 * 64 + (a % 4 * 16 + b / 16);
            var mid := high * 64 + (b % 16 * 4 + c / 64);
            var all := mid * 64 + c % 64;
            && high / 16 % 256 == a
            && mid / 1024 % 256 == a && mid / 4 % 256 == b
            && all / 0x1_0000 % 256 == a && all / 0x100 % 256 == b && all % 256 == c
  {
    var high := a / 4 * 64 + (a % 4 * 16 + b / 16);
    var mid := high * 64 + (b % 16 * 4 + c / 64);
    var all := mid * 64 + c % 64;
    QuotientAndRest(high, a, 16, b / 16);
    QuotientAndRest(mid, a, 1024, b * 4 + c / 64);
    QuotientAndRest(mid, a * 256 + b, 4, c / 64);
    QuotientAndRest(a * 256 + b, a, 256, b);
    QuotientAndRest(all, a, 0x1_0000, b * 0x100 + c);
    QuotientAndRest(all, a * 256 + b, 0x100, c);
  }

  lemma GroupDecodes(chunk: seq<Byte>)
    requires 1 <= |chunk| <= 3
    ensures DecodeGroup(Group(chunk)) == Some(chunk)
  {
    GroupSextets(chunk);
    BytesOfSextets(ByteAt(chunk, 0), ByteAt(chunk, 1), ByteAt(chunk, 2));
    if |chunk| == 1 {
      assert chunk == [ByteAt(chunk, 0)];
    } else if |chunk| == 2 {
      assert chunk == [ByteAt(chunk, 0), ByteAt(chunk, 1)];
    } else {
      assert chunk == [ByteAt(chunk, 0), ByteAt(chunk, 1), ByteAt(chunk, 2)];
    }
  }

  /** Decoding what was encoded gives it back. */
  lemma {:induction false} DecodeEncoded(input: seq<Byte>)
    ensures Decoded(Encoded(input)) == Some(input)
  {
    if input == [] {
    } else if |input| <= 3 {
      GroupDecodes(input);
      assert Group(input)[..4] == Group(input);
    } else {
      GroupDecodes(input[..3]);
      DecodeEncoded(input[3..]);
      EncodedLength(input[3..]);
      var out := Encoded(input);
      assert out[..4] == Group(input[..3]) && out[4..] == Encoded(input[3..]);
      assert input[..3] + input[3..] == input;
    }
  }

  /** Four characters for every three bytes begun. */
  lemma {:induction false} EncodedLength(input: seq<Byte>)
    ensures |Encoded(input)| == 4 * ((|input| + 2) / 3)
  {
    if |input| > 3 {
      EncodedLength(input[3..]);
      assert |Encoded(input)| == 4 + |Encoded(input[3..])|;
      OneGroupMore(|input|);
    }
  }

  lemma OneGroupMore(n: nat)
    requires n > 3
    ensures 4 * ((n + 2) / 3) == 4 + 4 * ((n - 3 + 2) / 3)
  {
  }

  /** How many bytes the last chunk of `n` bytes is short of three. */
  function Short(n: nat): nat { (3 - n % 3) % 3 }

  lemma ShortRepeats(n: nat)
    requires n > 3
    ensures Short(n - 3) == Short(n)
  {
  }

  lemma ShortOfLast(n: nat)
    requires 1 <= n <= 3
    ensures Short(n) == 3 - n
  {
  }

  /** Only the last group is padded, by as many characters as its chunk is short of
      three bytes; every other character is of the alphabet. */
  lemma {:induction false} PaddingOnlyAtEnd(input: seq<Byte>)
    ensures PaddedBy(Encoded(input), Short(|input|))
  {
    if input == [] {
    } else if |input| <= 3 {
      GroupPadding(input);
      ShortOfLast(|input|);
    } else {
      GroupPadding(input[..3]);
      PaddingOnlyAtEnd(input[3..]);
      ShortRepeats(|input|);
      PaddedAfter(Group(input[..3]), Encoded(input[3..]), Short(|input|));
    }
  }

  /** The last `pads` characters are padding and all before them of the alphabet. */
  ghost predicate PaddedBy(out: string, pads: nat) {
    && pads <= |out|
    && (forall i | 0 <= i < |out| - pads :: Sextet(out[i]).Some?)
    && (forall i | |out| - pads <= i < |out| :: out[i] == '=')
  }

  lemma GroupPadding(chunk: seq<Byte>)
    requires 1 <= |chunk| <= 3
    ensures PaddedBy(Group(chunk), 3 - |chunk|)
  {
    GroupSextets(chunk);
  }

  lemma PaddedAfter(head: string, tail: string, pads: nat)
    requires PaddedBy(head, 0) && PaddedBy(tail, pads)
    ensures PaddedBy(head + tail, pads)
  {
  }
}
