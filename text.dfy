/** Characters, machine integers and the decimal text the adapter writes and reads:
    `tolower` in the "C" locale, `snprintf("%ld")`, and `std::istream >> int`. */
module Text {

  /** The range of C++ `unsigned int` (32 bits). */
  type uint32 = x: int | 0 <= x < 0x1_0000_0000

  /** The range of C++ `long` (64 bits). */
  type int64 = x: int | -0x8000_0000_0000_0000 <= x < 0x8000_0000_0000_0000

  const IntMin: int := -0x8000_0000
  const IntMax: int := 0x7FFF_FFFF

  /** Conversion of a signed value to `unsigned int`: reduction modulo 2^32. */
  function ToUnsigned32(x: int): (u: uint32)
    ensures 0 <= x < 0x1_0000_0000 ==> u == x
    ensures x < 0 && x >= -0x1_0000_0000 ==> u == x + 0x1_0000_0000
  {
    x % 0x1_0000_0000
  }

  /** Conversion of a signed value to `unsigned long`: reduction modulo 2^64. */
  function ToUnsigned64(x: int): (u: nat)
    ensures u < 0x1_0000_0000_0000_0000
    ensures 0 <= x < 0x1_0000_0000_0000_0000 ==> u == x
    ensures x < 0 && x >= -0x1_0000_0000_0000_0000 ==> u == x + 0x1_0000_0000_0000_0000
  {
    x % 0x1_0000_0000_0000_0000
  }

  // ---------------------------------------------------------------- lower case

  /** `tolower` in the "C" locale: only 'A'..'Z' change. */
  function ToLower(c: char): char {
    if 'A' <= c <= 'Z' then (c as int - 'A' as int + 'a' as int) as char else c
  }

  /** The string `s` with every character passed through `ToLower`. */
  function Lowered(s: string): (t: string)
    ensures |t| == |s|
  {
    seq(|s|, i requires 0 <= i < |s| => ToLower(s[i]))
  }

  /** `a` and `b` differ at most in the case of their letters. */
  predicate SameIgnoringCase(a: string, b: string) {
    |a| == |b| && forall i :: 0 <= i < |a| ==> ToLower(a[i]) == ToLower(b[i])
  }

  /** Against a word already in lower case, lower-casing and comparing is the same
      as comparing ignoring case. */
  lemma LoweredMatches(a: string, b: string)
    requires Lowered(b) == b
    ensures Lowered(a) == b <==> SameIgnoringCase(a, b)
  {
    if SameIgnoringCase(a, b) {
      forall i | 0 <= i < |a|
        ensures Lowered(a)[i] == b[i]
      {
        assert ToLower(b[i]) == Lowered(b)[i];
      }
    }
    if Lowered(a) == b {
      forall i | 0 <= i < |a|
        ensures ToLower(a[i]) == ToLower(b[i])
      {
        assert ToLower(b[i]) == Lowered(b)[i];
      }
    }
  }

  // ---------------------------------------------------------------- formatting

  predicate IsDigit(c: char) {
    '0' <= c <= '9'
  }

  predicate AllDigits(s: string) {
    forall i :: 0 <= i < |s| ==> IsDigit(s[i])
  }

  function DigitChar(d: nat): (c: char)
    requires d < 10
    ensures IsDigit(c) && c as int - '0' as int == d
  {
    ('0' as int + d) as char
  }

  /** The decimal digits of `n`, most significant first, without leading zeros. */
  function Digits(n: nat): (s: string)
    ensures 1 <= |s| && AllDigits(s)
    ensures s[0] == '0' ==> n == 0
  {
    if n < 10 then [DigitChar(n)] else Digits(n / 10) + [DigitChar(n % 10)]
  }

  /** What `snprintf("%ld")` writes for `n`: a minus sign for negative values, then the digits. */
  function DecimalText(n: int): (s: string)
    ensures 1 <= |s|
    ensures n < 0 <==> s[0] == '-'
    ensures AllDigits(if n < 0 then s[1..] else s)
  {
    if n < 0 then "-" + Digits(-n) else Digits(n)
  }

  // ---------------------------------------------------------------- parsing

  /** The white space that a formatted stream extraction skips (`isspace` in the "C" locale). */
  predicate IsSpace(c: char) {
    c == ' ' || c == '\t' || c == '\n' || c == '\r' || c == 11 as char || c == 12 as char
  }

  /** `s` without its leading white space. */
  function SkipSpace(s: string): (t: string)
    ensures |t| <= |s| && t == s[|s| - |t|..]
    ensures |t| > 0 ==> !IsSpace(t[0])
  {
    if |s| > 0 && IsSpace(s[0]) then SkipSpace(s[1..]) else s
  }

  /** How many characters at the front of `s` are digits. */
  function LeadingDigits(s: string): (k: nat)
    ensures k <= |s| && AllDigits(s[..k])
    ensures k < |s| ==> !IsDigit(s[k])
  {
    if |s| > 0 && IsDigit(s[0]) then 1 + LeadingDigits(s[1..]) else 0
  }

  /** The value of a string of decimal digits. */
  function DigitsValue(s: string): nat
    requires AllDigits(s)
  {
    if s == [] then 0 else DigitsValue(s[..|s| - 1]) * 10 + (s[|s| - 1] as int - '0' as int)
  }

  function Clamp32(v: int): (r: int)
    ensures IntMin <= r <= IntMax
    ensures IntMin <= v <= IntMax ==> r == v
  {
    if v < IntMin then IntMin else if v > IntMax then IntMax else v
  }

  /** What `std::istream >> int` (base 10) stores: leading white space is skipped, an
      optional sign and the longest run of digits are read, text after them is ignored;
      without a digit the extraction fails and stores 0, and a value outside the range
      of `int` stores the nearest bound. */
  function ParseInt(s: string): (r: int)
    ensures IntMin <= r <= IntMax
  {
    ReadSigned(SkipSpace(s))
  }

  /** The extraction once the white space is skipped. */
  function ReadSigned(t: string): int {
    var signed := |t| > 0 && (t[0] == '-' || t[0] == '+');
    var body := if signed then t[1..] else t;
    if LeadingDigits(body) == 0 then 0
    else
      var magnitude: int := DigitRunValue(body);
      Clamp32(if signed && t[0] == '-' then -magnitude else magnitude)
  }

  /** The value of the run of digits at the front of `body`. */
  function DigitRunValue(body: string): nat {
    DigitsValue(body[..LeadingDigits(body)])
  }

  /** A text without a digit fails the extraction, which stores 0. */
  lemma ParseWithoutDigits(s: string)
    requires forall i :: 0 <= i < |s| ==> !IsDigit(s[i])
    ensures ParseInt(s) == 0
  {
  }

  // ---------------------------------------------------------------- round trips

  lemma {:induction false} DigitsValueOfDigits(n: nat)
    ensures DigitsValue(Digits(n)) == n
  {
    if n >= 10 {
      DigitsValueOfDigits(n / 10);
      var s := Digits(n);
      assert s[..|s| - 1] == Digits(n / 10);
    }
  }

  lemma {:induction false} LeadingDigitsOfDigits(s: string)
    requires AllDigits(s)
    ensures LeadingDigits(s) == |s|
  {
    if |s| > 0 {
      LeadingDigitsOfDigits(s[1..]);
    }
  }

  /** The digits of `m` are read back whole, as `m`. */
  lemma DigitRunOfDigits(m: nat)
    ensures LeadingDigits(Digits(m)) == |Digits(m)| > 0
    ensures DigitRunValue(Digits(m)) == m
  {
    var body := Digits(m);
    LeadingDigitsOfDigits(body);
    DigitsValueOfDigits(m);
    assert body[..|body|] == body;
  }

  /** Reading back what `DecimalText` wrote gives the number again, for every `int`. */
  lemma ParseDecimalText(n: int)
    requires IntMin <= n <= IntMax
    ensures ParseInt(DecimalText(n)) == n
  {
    var s := DecimalText(n);
    assert !IsSpace(s[0]);
    assert SkipSpace(s) == s;
    if n < 0 {
      DigitRunOfDigits(-n);
      assert s[1..] == Digits(-n);
    } else {
      DigitRunOfDigits(n);
      assert IsDigit(s[0]);
    }
  }

  /** Different numbers are written differently, so a position is identified by its text. */
  lemma DecimalTextInjective(a: int, b: int)
    requires DecimalText(a) == DecimalText(b)
    ensures a == b
  {
    var ma: nat := if a < 0 then -a else a;
    var mb: nat := if b < 0 then -b else b;
    assert (a < 0) == (b < 0);
    assert Digits(ma) == Digits(mb) by {
      if a < 0 {
        assert Digits(ma) == DecimalText(a)[1..];
        assert Digits(mb) == DecimalText(b)[1..];
      }
    }
    DigitsValueOfDigits(ma);
    DigitsValueOfDigits(mb);
  }

  /** Leading white space before a number does not change what is read. */
  lemma {:induction false} ParseSkipsLeadingSpace(w: string, s: string)
    requires forall i :: 0 <= i < |w| ==> IsSpace(w[i])
    ensures SkipSpace(w + s) == SkipSpace(s)
    ensures ParseInt(w + s) == ParseInt(s)
  {
    if |w| == 0 {
      assert w + s == s;
    } else {
      assert (w + s)[1..] == w[1..] + s;
      ParseSkipsLeadingSpace(w[1..], s);
    }
  }
}
