/** Binary values written as text: hex and base64 (RFC 4648, sections 4, 5 and 8). */
module BinaryText {

  import opened Options

  /** Two bits. Four are a byte, three a base64 digit, two a hex digit. */
  type Crumb = c: nat | c < 4 witness 0

  datatype Byte = Byte(c3: Crumb, c2: Crumb, c1: Crumb, c0: Crumb)

  datatype Sextet = Sextet(c2: Crumb, c1: Crumb, c0: Crumb)

  const ZERO := Byte(0, 0, 0, 0)

  function Number(x: Sextet): (n: nat)
    ensures n < 64
  {
    x.c2 * 16 + x.c1 * 4 + x.c0
  }

  function SextetOf(n: nat): Sextet
    requires n < 64
  {
    var low := n % 16;
    Sextet(n / 16, low / 4, low % 4)
  }

  lemma SextetOfNumber(x: Sextet)
    ensures SextetOf(Number(x)) == x
  {
  }

  lemma NumberOfSextet(n: nat)
    requires n < 64
    ensures Number(SextetOf(n)) == n
  {
  }

  datatype Encoding = Hex | Base64 | Utf8 | NoEncoding

  /** The base64 digit of six bits; only those of 62 and 63 depend on the alphabet. */
  function Digit(url: bool, n: nat): char
    requires n < 64
  {
    if n < 26 then ('A' as nat + n) as char
    else if n < 52 then ('a' as nat + n - 26) as char
    else if n < 62 then ('0' as nat + n - 52) as char
    else if n == 62 then (if url then '-' else '+')
    else (if url then '_' else '/')
  }

  /** The six bits of a base64 digit, or -1. */
  function Value(url: bool, c: char): (v: int)
    ensures -1 <= v < 64
    ensures 0 <= v ==> Digit(url, v) == c
  {
    if 'A' <= c <= 'Z' then c as int - 'A' as int
    else if 'a' <= c <= 'z' then c as int - 'a' as int + 26
    else if '0' <= c <= '9' then c as int - '0' as int + 52
    else if c == (if url then '-' else '+') then 62
    else if c == (if url then '_' else '/') then 63
    else -1
  }

  lemma ValueOfDigit(url: bool, n: nat)
    requires n < 64
    ensures Value(url, Digit(url, n)) == n
  {
  }

  const UPPER := "ABCDEFGHIJKLMNOPQRSTUVWXYZ"
  const LOWER := "abcdefghijklmnopqrstuvwxyz"
  const DECIMAL := "0123456789"

  /** The digits are RFC 4648's: letters, decimal digits and two signs, which the URL-safe alphabet has others for. */
  lemma DigitsOfTheStandard(url: bool, n: nat)
    requires n < 64
    ensures n < 26 ==> Digit(url, n) == UPPER[n]
    ensures 26 <= n < 52 ==> Digit(url, n) == LOWER[n - 26]
    ensures 52 <= n < 62 ==> Digit(url, n) == DECIMAL[n - 52]
    ensures n == 62 ==> Digit(url, n) == if url then '-' else '+'
    ensures n == 63 ==> Digit(url, n) == if url then '_' else '/'
  {
  }

  // Three bytes are four groups of six bits.
  function First(b0: Byte): Sextet { Sextet(b0.c3, b0.c2, b0.c1) }
  function Second(b0: Byte, b1: Byte): Sextet { Sextet(b0.c0, b1.c3, b1.c2) }
  function Third(b1: Byte, b2: Byte): Sextet { Sextet(b1.c1, b1.c0, b2.c3) }
  function Fourth(b2: Byte): Sextet { Sextet(b2.c2, b2.c1, b2.c0) }
  function Byte0(x0: Sextet, x1: Sextet): Byte { Byte(x0.c2, x0.c1, x0.c0, x1.c2) }
  function Byte1(x1: Sextet, x2: Sextet): Byte { Byte(x1.c1, x1.c0, x2.c2, x2.c1) }
  function Byte2(x2: Sextet, x3: Sextet): Byte { Byte(x2.c0, x3.c2, x3.c1, x3.c0) }

  /** Bytes cut into groups of six bits, the last one filled with zeros. */
  function Sextets(bs: seq<Byte>): seq<Sextet> {
    if bs == [] then []
    else if |bs| == 1 then [First(bs[0]), Second(bs[0], ZERO)]
    else if |bs| == 2 then [First(bs[0]), Second(bs[0], bs[1]), Third(bs[1], ZERO)]
    else [First(bs[0]), Second(bs[0], bs[1]), Third(bs[1], bs[2]), Fourth(bs[2])] + Sextets(bs[3..])
  }

  /** The bytes of groups of six bits; bits left over at the end are ignored. */
  function Bytes(xs: seq<Sextet>): seq<Byte>
    requires |xs| % 4 != 1
  {
    if xs == [] then []
    else if |xs| == 2 then [Byte0(xs[0], xs[1])]
    else if |xs| == 3 then [Byte0(xs[0], xs[1]), Byte1(xs[1], xs[2])]
    else [Byte0(xs[0], xs[1]), Byte1(xs[1], xs[2]), Byte2(xs[2], xs[3])] + Bytes(xs[4..])
  }

  function Digits(url: bool, xs: seq<Sextet>): (s: string)
    ensures |s| == |xs| && forall i :: 0 <= i < |s| ==> s[i] == Digit(url, Number(xs[i]))
  {
    seq(|xs|, i requires 0 <= i < |xs| => Digit(url, Number(xs[i])))
  }

  predicate InAlphabet(url: bool, s: string) {
    forall i :: 0 <= i < |s| ==> 0 <= Value(url, s[i])
  }

  function Values(url: bool, s: string): (xs: seq<Sextet>)
    requires InAlphabet(url, s)
    ensures |xs| == |s| && forall i :: 0 <= i < |s| ==> xs[i] == SextetOf(Value(url, s[i]))
  {
    seq(|s|, i requires 0 <= i < |s| => SextetOf(Value(url, s[i])))
  }

  /** Unpadded base64. */
  function EncodeRaw(url: bool, bs: seq<Byte>): string {
    Digits(url, Sextets(bs))
  }

  /** Base64 padded to a multiple of four. */
  function EncodePadded(url: bool, bs: seq<Byte>): string {
    EncodeRaw(url, bs) + match |bs| % 3 case 0 => "" case 1 => "==" case _ => "="
  }

  /** Unpadded base64 read back. */
  function DecodeRaw(url: bool, s: string): Option<seq<Byte>> {
    if InAlphabet(url, s) && |s| % 4 != 1 then Some(Bytes(Values(url, s))) else None
  }

  function TrimRight(s: string, c: char): string {
    if s != "" && s[|s| - 1] == c then TrimRight(s[..|s| - 1], c) else s
  }

  /** The decoder skips line breaks. */
  function WithoutBreaks(s: string): string {
    if s == "" then ""
    else (if s[0] == '\r' || s[0] == '\n' then "" else [s[0]]) + WithoutBreaks(s[1..])
  }

  /** A byte as a number. */
  function Octet(b: Byte): (n: nat)
    ensures n < 256
  {
    b.c3 * 64 + b.c2 * 16 + b.c1 * 4 + b.c0
  }

  /** Three bytes as one number. */
  function Triple(b0: Byte, b1: Byte, b2: Byte): nat {
    Octet(b0) * 65536 + Octet(b1) * 256 + Octet(b2)
  }

  function ByteAt(bs: seq<Byte>, i: nat): Byte {
    if i < |bs| then bs[i] else ZERO
  }

  /** Base64 as RFC 4648 has it: each three bytes are one number, written with
      four digits of 64; of a last group of one or two bytes only the digits
      with bits of them. */
  lemma {:induction false} EncodesInGroups(url: bool, bs: seq<Byte>, k: nat) returns (n: (nat, nat, nat, nat))
    requires 3 * k < |bs|
    ensures n.0 < 64 && n.1 < 64 && n.2 < 64 && n.3 < 64
    ensures n.0 * 262144 + n.1 * 4096 + n.2 * 64 + n.3 == Triple(ByteAt(bs, 3 * k), ByteAt(bs, 3 * k + 1), ByteAt(bs, 3 * k + 2))
    ensures var s := EncodeRaw(url, bs);
            && 4 * k + 1 < |s| && s[4 * k] == Digit(url, n.0) && s[4 * k + 1] == Digit(url, n.1)
            && (3 * k + 1 < |bs| ==> 4 * k + 2 < |s| && s[4 * k + 2] == Digit(url, n.2))
            && (3 * k + 2 < |bs| ==> 4 * k + 3 < |s| && s[4 * k + 3] == Digit(url, n.3))
  {
    var b0, b1, b2 := ByteAt(bs, 3 * k), ByteAt(bs, 3 * k + 1), ByteAt(bs, 3 * k + 2);
    n := (Number(First(b0)), Number(Second(b0, b1)), Number(Third(b1, b2)), Number(Fourth(b2)));
    GroupNumbers(b0, b1, b2);
    GroupAt(bs, k);
  }

  lemma GroupNumbers(b0: Byte, b1: Byte, b2: Byte)
    ensures Number(First(b0)) * 262144 + Number(Second(b0, b1)) * 4096 + Number(Third(b1, b2)) * 64 + Number(Fourth(b2))
            == Triple(b0, b1, b2)
  {
  }

  lemma {:induction false} GroupAt(bs: seq<Byte>, k: nat)
    requires 3 * k < |bs|
    ensures var xs, b0, b1, b2 := Sextets(bs), ByteAt(bs, 3 * k), ByteAt(bs, 3 * k + 1), ByteAt(bs, 3 * k + 2);
            && 4 * k + 1 < |xs| && xs[4 * k] == First(b0) && xs[4 * k + 1] == Second(b0, b1)
            && (3 * k + 1 < |bs| ==> 4 * k + 2 < |xs| && xs[4 * k + 2] == Third(b1, b2))
            && (3 * k + 2 < |bs| ==> 4 * k + 3 < |xs| && xs[4 * k + 3] == Fourth(b2))
    decreases k
  {
    if k > 0 {
      GroupAt(bs[3..], k - 1);
      var xs := Sextets(bs[3..]);
      assert Sextets(bs) == [First(bs[0]), Second(bs[0], bs[1]), Third(bs[1], bs[2]), Fourth(bs[2])] + xs;
    }
  }

  /** With padding the text is a multiple of four long. */
  lemma PaddedToFour(url: bool, bs: seq<Byte>)
    ensures |EncodePadded(url, bs)| % 4 == 0 && EncodeRaw(url, bs) <= EncodePadded(url, bs)
    ensures forall i :: |EncodeRaw(url, bs)| <= i < |EncodePadded(url, bs)| ==> EncodePadded(url, bs)[i] == '='
    ensures |EncodePadded(url, bs)| <= |EncodeRaw(url, bs)| + 2
  {
    SextetCount(bs);
  }

  function HexDigit(n: nat): char
    requires n < 16
  {
    if n < 10 then ('0' as nat + n) as char else ('a' as nat + n - 10) as char
  }

  function HexValue(c: char): (v: int)
    ensures -1 <= v < 16
  {
    if '0' <= c <= '9' then c as int - '0' as int
    else if 'a' <= c <= 'f' then c as int - 'a' as int + 10
    else if 'A' <= c <= 'F' then c as int - 'A' as int + 10
    else -1
  }

  function EncodeHex(bs: seq<Byte>): string {
    if bs == [] then ""
    else [HexDigit(bs[0].c3 * 4 + bs[0].c2), HexDigit(bs[0].c1 * 4 + bs[0].c0)] + EncodeHex(bs[1..])
  }

  function DecodeHex(s: string): Option<seq<Byte>> {
    if s == "" then Some([])
    else if |s| == 1 || HexValue(s[0]) < 0 || HexValue(s[1]) < 0 then None
    else
      var hi, lo := HexValue(s[0]), HexValue(s[1]);
      match DecodeHex(s[2..])
      case None => None
      case Some(rest) => Some([Byte(hi / 4, hi % 4, lo / 4, lo % 4)] + rest)
  }

  function DecodeBase64(value: string): Option<seq<Byte>> {
    var text := WithoutBreaks(TrimRight(value, '='));
    var std := DecodeRaw(false, text);
    if std.Some? then std else DecodeRaw(true, text)
  }

  /** decodeBinary: hex, or base64 of either alphabet, padded or not. */
  function DecodeBinary(value: string, encoding: Encoding): Option<seq<Byte>> {
    match encoding
    case Hex => DecodeHex(value)
    case Base64 => DecodeBase64(value)
    case _ => None
  }

  lemma {:induction false} SextetCount(bs: seq<Byte>)
    ensures |Sextets(bs)| % 4 == if |bs| % 3 == 0 then 0 else |bs| % 3 + 1
  {
    if |bs| >= 3 {
      SextetCount(bs[3..]);
      assert |Sextets(bs)| == 4 + |Sextets(bs[3..])|;
    }
  }

  lemma {:induction false} BytesOfSextets(bs: seq<Byte>)
    ensures |Sextets(bs)| % 4 != 1 && Bytes(Sextets(bs)) == bs
  {
    SextetCount(bs);
    if |bs| >= 3 {
      BytesOfSextets(bs[3..]);
      assert Sextets(bs)[4..] == Sextets(bs[3..]);
      assert bs == [bs[0], bs[1], bs[2]] + bs[3..];
    }
  }

  lemma {:induction false} ValuesOfDigits(url: bool, xs: seq<Sextet>)
    ensures InAlphabet(url, Digits(url, xs)) && Values(url, Digits(url, xs)) == xs
  {
    forall i | 0 <= i < |xs|
      ensures Value(url, Digits(url, xs)[i]) == Number(xs[i]) && SextetOf(Number(xs[i])) == xs[i]
    {
      SextetOfNumber(xs[i]);
      ValueOfDigit(url, Number(xs[i]));
    }
  }

  lemma {:induction false} DigitsOfValues(url: bool, s: string)
    requires InAlphabet(url, s)
    ensures Digits(url, Values(url, s)) == s
  {
    forall i | 0 <= i < |s|
      ensures Digits(url, Values(url, s))[i] == s[i]
    {
      NumberOfSextet(Value(url, s[i]));
    }
  }

  lemma DecodeInvertsEncode(url: bool, bs: seq<Byte>)
    ensures DecodeRaw(url, EncodeRaw(url, bs)) == Some(bs)
  {
    BytesOfSextets(bs);
    ValuesOfDigits(url, Sextets(bs));
  }

  /** Text that decodes in both alphabets means the same in both. */
  lemma AlphabetsAgree(s: string)
    ensures DecodeRaw(false, s).Some? && DecodeRaw(true, s).Some? ==> DecodeRaw(false, s) == DecodeRaw(true, s)
  {
    if InAlphabet(false, s) && InAlphabet(true, s) {
      assert forall i :: 0 <= i < |s| ==> Value(false, s[i]) == Value(true, s[i]);
      assert Values(false, s) == Values(true, s);
    }
  }

  lemma {:induction false} NoBreaksToSkip(s: string)
    requires '\r' !in s && '\n' !in s
    ensures WithoutBreaks(s) == s
  {
    if s != "" {
      NoBreaksToSkip(s[1..]);
    }
  }

  lemma {:induction false} TrimPadding(s: string, pad: string)
    requires '=' !in s && forall i :: 0 <= i < |pad| ==> pad[i] == '='
    ensures TrimRight(s + pad, '=') == s
  {
    if pad == "" {
      assert s + pad == s;
      assert s != "" ==> s[|s| - 1] in s;
    } else {
      assert (s + pad)[..|s + pad| - 1] == s + pad[..|pad| - 1];
      TrimPadding(s, pad[..|pad| - 1]);
    }
  }

  lemma NotInAlphabet(url: bool, s: string)
    requires InAlphabet(url, s)
    ensures '=' !in s && '\r' !in s && '\n' !in s
  {
  }

  /** decodeBinary inverts base64 of either alphabet, padded or not, for every byte sequence. */
  lemma Base64RoundTrip(bs: seq<Byte>, url: bool)
    ensures DecodeBinary(EncodeRaw(url, bs), Base64) == Some(bs)
    ensures DecodeBinary(EncodePadded(url, bs), Base64) == Some(bs)
  {
    var s := EncodeRaw(url, bs);
    ValuesOfDigits(url, Sextets(bs));
    NotInAlphabet(url, s);
    NoBreaksToSkip(s);
    DecodeInvertsEncode(url, bs);
    AlphabetsAgree(s);
    TrimPadding(s, "");
    assert s + "" == s;
    TrimPadding(s, match |bs| % 3 case 0 => "" case 1 => "==" case _ => "=");
  }

  /** decodeBinary inverts hex, and reads it in either case. */
  lemma {:induction false} HexRoundTrip(bs: seq<Byte>)
    ensures DecodeBinary(EncodeHex(bs), Hex) == Some(bs)
  {
    if bs != [] {
      HexRoundTrip(bs[1..]);
      assert EncodeHex(bs)[2..] == EncodeHex(bs[1..]);
      assert bs == [bs[0]] + bs[1..];
    }
  }

  const HEX := "0123456789abcdef"

  /** Each byte is two hex digits, the higher one first. */
  lemma {:induction false} EncodesInPairs(bs: seq<Byte>, k: nat) returns (hi: nat, lo: nat)
    requires k < |bs|
    ensures hi < 16 && lo < 16 && 16 * hi + lo == Octet(bs[k])
    ensures |EncodeHex(bs)| == 2 * |bs| && EncodeHex(bs)[2 * k] == HEX[hi] && EncodeHex(bs)[2 * k + 1] == HEX[lo]
    decreases |bs|
  {
    if k > 0 {
      hi, lo := EncodesInPairs(bs[1..], k - 1);
      assert EncodeHex(bs)[2..] == EncodeHex(bs[1..]);
      assert EncodeHex(bs)[2 * k] == EncodeHex(bs)[2..][2 * (k - 1)] && EncodeHex(bs)[2 * k + 1] == EncodeHex(bs)[2..][2 * (k - 1) + 1];
    } else {
      hi, lo := bs[0].c3 * 4 + bs[0].c2, bs[0].c1 * 4 + bs[0].c0;
      if |bs| > 1 {
        var _, _ := EncodesInPairs(bs[1..], 0);
      }
    }
  }

  /** No bits are left over at the end. */
  predicate Full(xs: seq<Sextet>) {
    && |xs| % 4 != 1
    && (|xs| % 4 == 2 ==> xs[|xs| - 1].c1 == 0 && xs[|xs| - 1].c0 == 0)
    && (|xs| % 4 == 3 ==> xs[|xs| - 1].c0 == 0)
  }

  lemma {:induction false} SextetsAreFull(bs: seq<Byte>)
    ensures Full(Sextets(bs))
  {
    if |bs| >= 3 {
      SextetsAreFull(bs[3..]);
      assert Sextets(bs)[4..] == Sextets(bs[3..]);
      assert |Sextets(bs)| == 4 + |Sextets(bs[3..])|;
    }
  }

  lemma {:induction false} SextetsOfBytes(xs: seq<Sextet>)
    requires Full(xs)
    ensures Sextets(Bytes(xs)) == xs
  {
    if |xs| >= 4 {
      SextetsOfBytes(xs[4..]);
      assert Bytes(xs)[3..] == Bytes(xs[4..]);
      assert xs == [xs[0], xs[1], xs[2], xs[3]] + xs[4..];
    }
  }

  /** Text the encoder writes: its alphabet, with no bits left over. */
  predicate Canonical(s: string) {
    InAlphabet(false, s) && Full(Values(false, s))
  }

  /** Text comes back from decoding and encoding exactly when it is canonical. */
  lemma CanonicalTextsComeBack(s: string)
    ensures Canonical(s) <==> DecodeBinary(s, Base64).Some? && EncodeRaw(false, DecodeBinary(s, Base64).value) == s
  {
    if Canonical(s) {
      NotInAlphabet(false, s);
      NoBreaksToSkip(s);
      TrimPadding(s, "");
      assert s + "" == s;
      SextetsOfBytes(Values(false, s));
      DigitsOfValues(false, s);
    }
    if DecodeBinary(s, Base64).Some? && EncodeRaw(false, DecodeBinary(s, Base64).value) == s {
      SextetsAreFull(DecodeBinary(s, Base64).value);
      ValuesOfDigits(false, Sextets(DecodeBinary(s, Base64).value));
    }
  }
}
