/** Text cut at separators, and decimal numbers as Go's strconv reads and writes them. */
module Decimals {

  const MAX_INT: nat := 0x7fff_ffff_ffff_ffff

  predicate IsDigit(c: char) {
    '0' <= c <= '9'
  }

  /** \d+ */
  predicate IsDigits(s: string) {
    s != "" && forall i :: 0 <= i < |s| ==> IsDigit(s[i])
  }

  function DigitValue(c: char): (d: nat)
    requires IsDigit(c)
    ensures d < 10 && DigitChar(d) == c
  {
    c as int - '0' as int
  }

  function ParseDigits(s: string): nat
    requires forall i :: 0 <= i < |s| ==> IsDigit(s[i])
  {
    if s == "" then 0
    else ParseDigits(s[..|s| - 1]) * 10 + DigitValue(s[|s| - 1])
  }

  /** Atoi of digits, its range error ignored: too large a number becomes the largest int. */
  function Atoi(s: string): nat
    requires IsDigits(s)
  {
    if ParseDigits(s) <= MAX_INT then ParseDigits(s) else MAX_INT
  }

  function DigitChar(d: nat): char
    requires d < 10
  {
    ('0' as nat + d) as char
  }

  function Digits(n: nat): (s: string)
    ensures IsDigits(s)
  {
    if n < 10 then [DigitChar(n)] else Digits(n / 10) + [DigitChar(n % 10)]
  }

  function Itoa(n: int): string {
    if n < 0 then "-" + Digits(-n) else Digits(n)
  }

  lemma {:induction false} ParseOfDigits(n: nat)
    ensures ParseDigits(Digits(n)) == n
  {
    if n >= 10 {
      ParseOfDigits(n / 10);
      assert Digits(n)[..|Digits(n)| - 1] == Digits(n / 10);
    } else {
      assert Digits(n)[..0] == "";
    }
  }

  /** One more digit is ten times the number and the digit's value. */
  lemma {:induction false} OneMoreDigit(s: string, c: char)
    requires (forall i :: 0 <= i < |s| ==> IsDigit(s[i])) && IsDigit(c)
    ensures ParseDigits(s + [c]) == 10 * ParseDigits(s) + (c as int - '0' as int)
  {
    assert (s + [c])[..|s|] == s;
  }

  /** Without leading zeros. */
  predicate CanonicalDecimal(s: string) {
    IsDigits(s) && (s[0] == '0' ==> |s| == 1)
  }

  lemma {:induction false} DigitsAreCanonical(n: nat)
    ensures CanonicalDecimal(Digits(n)) && (n > 0 ==> Digits(n)[0] != '0')
  {
    if n >= 10 {
      DigitsAreCanonical(n / 10);
      assert Digits(n)[0] == Digits(n / 10)[0];
    }
  }

  lemma {:induction false} CanonicalIsPositive(s: string)
    requires IsDigits(s) && s[0] != '0'
    ensures ParseDigits(s) > 0
  {
    if |s| > 1 {
      CanonicalIsPositive(s[..|s| - 1]);
    } else {
      assert s[..0] == "";
    }
  }

  lemma {:induction false} DigitsOfParse(s: string)
    requires CanonicalDecimal(s)
    ensures Digits(ParseDigits(s)) == s
  {
    var n := |s| - 1;
    if n > 0 {
      DigitsOfParse(s[..n]);
      CanonicalIsPositive(s[..n]);
      assert s == s[..n] + [s[n]];
    } else {
      assert s[..0] == "";
    }
  }

  /** A number's text survives Atoi and Itoa exactly when it has no leading zeros and fits an int. */
  lemma DecimalsComeBack(s: string)
    requires IsDigits(s)
    ensures Itoa(Atoi(s)) == s <==> CanonicalDecimal(s) && ParseDigits(s) <= MAX_INT
  {
    DigitsAreCanonical(Atoi(s));
    if CanonicalDecimal(s) {
      DigitsOfParse(s);
    }
    ParseOfDigits(Atoi(s));
  }

  /** Text cut at each separator. */
  function Split(s: string, sep: char): (parts: seq<string>)
    ensures |parts| >= 1
  {
    if s == "" then [""]
    else
      var before := Split(s[..|s| - 1], sep);
      if s[|s| - 1] == sep then before + [""]
      else before[|before| - 1 := before[|before| - 1] + [s[|s| - 1]]]
  }

  function Join(parts: seq<string>, sep: char): string
    requires |parts| >= 1
  {
    if |parts| == 1 then parts[0] else Join(parts[..|parts| - 1], sep) + [sep] + parts[|parts| - 1]
  }

  predicate Free(part: string, sep: char) {
    forall i :: 0 <= i < |part| ==> part[i] != sep
  }

  predicate AllFree(parts: seq<string>, sep: char) {
    forall i :: 0 <= i < |parts| ==> Free(parts[i], sep)
  }

  lemma {:induction false} JoinOfSplit(s: string, sep: char)
    ensures Join(Split(s, sep), sep) == s && AllFree(Split(s, sep), sep)
  {
    if s != "" {
      var n := |s| - 1;
      JoinOfSplit(s[..n], sep);
      var before, parts := Split(s[..n], sep), Split(s, sep);
      assert s == s[..n] + [s[n]];
      if s[n] == sep {
        assert parts[..|parts| - 1] == before;
      } else {
        assert parts[..|parts| - 1] == before[..|before| - 1];
      }
    }
  }

  lemma {:induction false} SplitOfJoin(parts: seq<string>, sep: char)
    requires |parts| >= 1 && AllFree(parts, sep)
    ensures Split(Join(parts, sep), sep) == parts
    decreases |parts|, |parts[|parts| - 1]|
  {
    var n := |parts| - 1;
    var s, last := Join(parts, sep), parts[n];
    if last == "" {
      if n > 0 {
        SplitOfJoin(parts[..n], sep);
        assert s[..|s| - 1] == Join(parts[..n], sep);
      }
    } else {
      var shorter := parts[n := last[..|last| - 1]];
      SplitOfJoin(shorter, sep);
      assert shorter[..n] == parts[..n];
      assert s[..|s| - 1] == Join(shorter, sep);
      assert last == last[..|last| - 1] + [last[|last| - 1]];
      assert s[|s| - 1] == last[|last| - 1];
    }
  }

  lemma {:induction false} JoinIsFree(parts: seq<string>, sep: char, c: char)
    requires |parts| >= 1 && AllFree(parts, c) && sep != c
    ensures Free(Join(parts, sep), c)
  {
    if |parts| > 1 {
      JoinIsFree(parts[..|parts| - 1], sep, c);
    }
  }

  lemma Untagged(tag: string, rest: string)
    ensures tag <= tag + rest && (tag + rest)[|tag|..] == rest
  {
  }

  lemma Tagged(tag: string, part: string)
    requires tag <= part
    ensures tag + part[|tag|..] == part
  {
  }
}
