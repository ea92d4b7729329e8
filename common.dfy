// Shared vocabulary: an Option type and the parts of Go's `strings`,
// `strconv` and `fmt` packages that the backend relies on, restated over
// Dafny strings (sequences of Unicode scalar values).

module Common {

  datatype Option<T> = None | Some(value: T)

  // ---------------------------------------------------------------------
  // 64-bit integers
  // ---------------------------------------------------------------------

  const MinInt64: int := -0x8000_0000_0000_0000
  const MaxInt64: int := 0x7FFF_FFFF_FFFF_FFFF
  const TwoTo64: int := 0x1_0000_0000_0000_0000

  predicate InInt64(n: int) { MinInt64 <= n <= MaxInt64 }

  /** Go's `int` (64 bits on the server) wraps modulo 2^64 on overflow. */
  function Wrap64(n: int): (r: int)
    ensures InInt64(r)
    ensures InInt64(n) ==> r == n
    ensures (r - n) % TwoTo64 == 0
  {
    (n - MinInt64) % TwoTo64 + MinInt64
  }

  /** Wrapping an intermediate result does not change the wrapped sum. */
  lemma Wrap64Add(a: int, b: int)
    ensures Wrap64(Wrap64(a) + b) == Wrap64(a + b)
  {
    var w := Wrap64(a);
    var k := (w - a) / TwoTo64;
    assert w - a == k * TwoTo64;
    assert (w + b) - MinInt64 == (a + b - MinInt64) + k * TwoTo64;
    ModShift(a + b - MinInt64, k);
  }

  lemma ModShift(x: int, k: int)
    ensures (x + k * TwoTo64) % TwoTo64 == x % TwoTo64
  {
    var q := x / TwoTo64;
    assert x == q * TwoTo64 + x % TwoTo64;
    assert x + k * TwoTo64 == (q + k) * TwoTo64 + x % TwoTo64;
  }

  // ---------------------------------------------------------------------
  // Characters
  // ---------------------------------------------------------------------

  /** unicode.IsSpace, which strings.Fields and strings.TrimSpace use. */
  predicate IsSpace(c: char)
  {
    c == '\t' || c == '\n' || c == '\U{B}' || c == '\U{C}' || c == '\r' || c == ' '
    || c == '\U{85}' || c == '\U{A0}' || c == '\U{1680}'
    || ('\U{2000}' <= c <= '\U{200A}')
    || c == '\U{2028}' || c == '\U{2029}' || c == '\U{202F}' || c == '\U{205F}'
    || c == '\U{3000}'
  }

  predicate IsDigit(c: char) { '0' <= c <= '9' }

  predicate IsAsciiAlnum(c: char) { 'a' <= c <= 'z' || 'A' <= c <= 'Z' || IsDigit(c) }

  function LowerAscii(c: char): char
  {
    if 'A' <= c <= 'Z' then (c as int + 32) as char else c
  }

  function UpperAscii(c: char): char
  {
    if 'a' <= c <= 'z' then (c as int - 32) as char else c
  }

  /** strings.ToLower, restricted to the ASCII letters. */
  function ToLower(s: string): (r: string)
    ensures |r| == |s| && forall i :: 0 <= i < |s| ==> r[i] == LowerAscii(s[i])
  {
    seq(|s|, i requires 0 <= i < |s| => LowerAscii(s[i]))
  }

  /** strings.ToUpper, restricted to the ASCII letters. */
  function ToUpper(s: string): (r: string)
    ensures |r| == |s| && forall i :: 0 <= i < |s| ==> r[i] == UpperAscii(s[i])
  {
    seq(|s|, i requires 0 <= i < |s| => UpperAscii(s[i]))
  }

  // ---------------------------------------------------------------------
  // Substrings
  // ---------------------------------------------------------------------

  predicate HasPrefix(s: string, p: string) { |p| <= |s| && s[..|p|] == p }

  predicate HasSuffix(s: string, p: string) { |p| <= |s| && s[|s| - |p|..] == p }

  predicate OccursAt(s: string, p: string, i: int)
  {
    0 <= i && i + |p| <= |s| && s[i..i + |p|] == p
  }

  /** strings.Contains. */
  predicate Contains(s: string, p: string) { exists i | 0 <= i <= |s| :: OccursAt(s, p, i) }

  function IndexFrom(s: string, p: string, k: nat): (r: int)
    requires k <= |s|
    ensures r == -1 || (k <= r && OccursAt(s, p, r))
    ensures forall j :: k <= j && (r == -1 || j < r) ==> !OccursAt(s, p, j)
    decreases |s| - k
  {
    if k + |p| > |s| then -1
    else if s[k..k + |p|] == p then k
    else IndexFrom(s, p, k + 1)
  }

  /** strings.Index: the leftmost occurrence of `p` in `s`, or -1. */
  function IndexOf(s: string, p: string): (r: int)
    ensures r == -1 <==> !Contains(s, p)
    ensures r != -1 ==> OccursAt(s, p, r) && forall j :: 0 <= j < r ==> !OccursAt(s, p, j)
  {
    IndexFrom(s, p, 0)
  }

  /** strings.TrimPrefix / strings.TrimSuffix. */
  function TrimPrefix(s: string, p: string): string
  {
    if HasPrefix(s, p) then s[|p|..] else s
  }

  function TrimSuffix(s: string, p: string): string
  {
    if HasSuffix(s, p) then s[..|s| - |p|] else s
  }

  function TrimLeftSpace(s: string): (r: string)
    ensures |r| <= |s| && r == s[|s| - |r|..]
    ensures forall i :: 0 <= i < |s| - |r| ==> IsSpace(s[i])
    ensures r != [] ==> !IsSpace(r[0])
  {
    if s != [] && IsSpace(s[0]) then TrimLeftSpace(s[1..]) else s
  }

  function TrimRightSpace(s: string): (r: string)
    ensures |r| <= |s| && r == s[..|r|]
    ensures forall i :: |r| <= i < |s| ==> IsSpace(s[i])
    ensures r != [] ==> !IsSpace(r[|r| - 1])
  {
    if s != [] && IsSpace(s[|s| - 1]) then TrimRightSpace(s[..|s| - 1]) else s
  }

  /** strings.TrimSpace. */
  function TrimSpace(s: string): string
  {
    TrimRightSpace(TrimLeftSpace(s))
  }

  /** strings.ReplaceAll for a non-empty pattern: leftmost, non-overlapping. */
  function ReplaceAll(s: string, pat: string, rep: string): string
    requires |pat| > 0
    decreases |s|
  {
    if |s| < |pat| then s
    else if s[..|pat|] == pat then rep + ReplaceAll(s[|pat|..], pat, rep)
    else [s[0]] + ReplaceAll(s[1..], pat, rep)
  }

  /** `s` without any occurrence of `c`. */
  function RemoveChar(s: string, c: char): (r: string)
    ensures c !in r
    ensures forall x :: x in r <==> x in s && x != c
  {
    if s == [] then [] else (if s[0] == c then [] else [s[0]]) + RemoveChar(s[1..], c)
  }

  lemma {:induction false} ReplaceCharByNothing(s: string, c: char)
    ensures ReplaceAll(s, [c], []) == RemoveChar(s, c)
  {
    if |s| >= 1 {
      ReplaceCharByNothing(s[1..], c);
    }
  }

  // ---------------------------------------------------------------------
  // Words
  // ---------------------------------------------------------------------

  function WordPrefix(s: string): (w: string)
    ensures |w| <= |s| && w == s[..|w|]
    ensures forall i :: 0 <= i < |w| ==> !IsSpace(w[i])
    ensures s != [] && !IsSpace(s[0]) ==> |w| > 0
  {
    if s != [] && !IsSpace(s[0]) then [s[0]] + WordPrefix(s[1..]) else []
  }

  /** strings.Fields: the maximal runs of non-space characters, in order. */
  function Fields(s: string): (ws: seq<string>)
    ensures forall k :: 0 <= k < |ws| ==> |ws[k]| > 0
    decreases |s|
  {
    var t := TrimLeftSpace(s);
    if t == [] then []
    else
      var w := WordPrefix(t);
      assert 0 < |w| <= |t| <= |s|;
      [w] + Fields(t[|w|..])
  }

  // ---------------------------------------------------------------------
  // Decimal numbers
  // ---------------------------------------------------------------------

  predicate AllDigits(s: string) { forall i :: 0 <= i < |s| ==> IsDigit(s[i]) }

  function DigitChar(d: int): char
    requires 0 <= d < 10
  {
    ('0' as int + d) as char
  }

  function DecimalDigits(n: nat): (r: string)
    ensures |r| > 0 && AllDigits(r)
    decreases n
  {
    if n < 10 then [DigitChar(n)] else DecimalDigits(n / 10) + [DigitChar(n % 10)]
  }

  /** The value of a string of decimal digits, most significant first. */
  function DigitsValue(s: string): nat
    requires AllDigits(s)
    decreases |s|
  {
    if s == [] then 0 else DigitsValue(s[..|s| - 1]) * 10 + (s[|s| - 1] as int - '0' as int)
  }

  function Zeros(k: nat): (r: string)
    ensures |r| == k && AllDigits(r)
    ensures forall i :: 0 <= i < k ==> r[i] == '0'
  {
    if k == 0 then [] else Zeros(k - 1) + "0"
  }

  /** strconv.Itoa / fmt's %d. */
  function FormatInt(n: int): string
  {
    if n < 0 then "-" + DecimalDigits(-n) else DecimalDigits(n)
  }

  function PadZeros(s: string, width: int): string
  {
    if |s| >= width then s else Zeros(width - |s|) + s
  }

  /** fmt's %05d: the sign first, then zeros up to five characters in all. */
  function Format05d(n: int): string
  {
    if n < 0 then "-" + PadZeros(DecimalDigits(-n), 4) else PadZeros(DecimalDigits(n), 5)
  }

  /** strconv.ParseInt(s, 10, 64), and strconv.Atoi on a 64-bit server. */
  function ParseInt64(s: string): (r: Option<int>)
    ensures r.Some? ==> InInt64(r.value)
  {
    if |s| == 0 then None
    else
      var body := if s[0] == '+' || s[0] == '-' then s[1..] else s;
      if |body| == 0 || !AllDigits(body) then None
      else
        var v: int := DigitsValue(body);
        var n := if s[0] == '-' then -v else v;
        if InInt64(n) then Some(n) else None
  }

  lemma {:induction false} DigitsValueOfDecimal(n: nat)
    ensures DigitsValue(DecimalDigits(n)) == n
    decreases n
  {
    if n >= 10 {
      var d := DecimalDigits(n);
      assert d[..|d| - 1] == DecimalDigits(n / 10);
      DigitsValueOfDecimal(n / 10);
    }
  }

  lemma {:induction false} DigitsValueOfZeros(k: nat)
    ensures DigitsValue(Zeros(k)) == 0
  {
    if k > 0 {
      assert Zeros(k)[..k - 1] == Zeros(k - 1);
      DigitsValueOfZeros(k - 1);
    }
  }

  lemma {:induction false} DigitsValueLeadingZeros(k: nat, s: string)
    requires AllDigits(s)
    ensures AllDigits(Zeros(k) + s) && DigitsValue(Zeros(k) + s) == DigitsValue(s)
    decreases |s|
  {
    var t := Zeros(k) + s;
    assert AllDigits(t) by {
      forall i | 0 <= i < |t| ensures IsDigit(t[i]) {
        if i < k { assert t[i] == Zeros(k)[i]; } else { assert t[i] == s[i - k]; }
      }
    }
    if s == [] {
      assert t == Zeros(k);
      DigitsValueOfZeros(k);
    } else {
      assert t[..|t| - 1] == Zeros(k) + s[..|s| - 1];
      DigitsValueLeadingZeros(k, s[..|s| - 1]);
    }
  }

  /** Itoa and Atoi are inverse on every 64-bit integer. */
  lemma FormatParseRoundTrip(n: int)
    requires InInt64(n)
    ensures ParseInt64(FormatInt(n)) == Some(n)
  {
    var m := if n < 0 then -n else n;
    DigitsValueOfDecimal(m);
    assert IsDigit(DecimalDigits(m)[0]);
    if n < 0 {
      assert FormatInt(n)[1..] == DecimalDigits(m);
    }
  }

  // ---------------------------------------------------------------------
  // Sequential identifiers "PREFIX-00001", "PREFIX-00002", ...
  // ---------------------------------------------------------------------

  function LeadingDigits(s: string): (r: string)
    ensures AllDigits(r) && |r| <= |s| && r == s[..|r|]
    ensures |r| < |s| ==> !IsDigit(s[|r|])
  {
    if s != [] && IsDigit(s[0]) then [s[0]] + LeadingDigits(s[1..]) else []
  }

  lemma {:induction false} LeadingDigitsOfDigits(s: string)
    requires AllDigits(s)
    ensures LeadingDigits(s) == s
  {
    if s != [] {
      LeadingDigitsOfDigits(s[1..]);
    }
  }

  /**
   * fmt.Sscanf(id, prefix + "%d", &n) with n initially 0: the literal prefix,
   * an optional sign and a sequence of digits; n stays 0 when any step fails.
   */
  function ScanNumber(prefix: string, id: string): int
  {
    if !HasPrefix(id, prefix) then 0
    else
      var rest := id[|prefix|..];
      var signed := rest != [] && (rest[0] == '+' || rest[0] == '-');
      var digits := LeadingDigits(if signed then rest[1..] else rest);
      match ParseInt64((if signed then [rest[0]] else []) + digits)
      case Some(n) => n
      case None => 0
  }

  /** fmt.Sprintf(prefix + "%05d", n). */
  function FormatId(prefix: string, n: int): string
  {
    prefix + Format05d(n)
  }

  /**
   * The Next*ID step: "PREFIX00001" when nothing is stored yet, otherwise the
   * number scanned from the last stored ID plus one (with int64 wrap-around).
   */
  function NextId(prefix: string, last: Option<string>): string
  {
    match last
    case None => FormatId(prefix, 1)
    case Some(id) => FormatId(prefix, Wrap64(ScanNumber(prefix, id) + 1))
  }

  lemma ParseNegativeDigits(body: string)
    requires |body| > 0 && AllDigits(body)
    requires InInt64(-(DigitsValue(body) as int))
    ensures ParseInt64("-" + body) == Some(-(DigitsValue(body) as int))
  {
    var s := "-" + body;
    assert s[0] == '-';
    assert s[1..] == body;
  }

  lemma ParseUnsignedDigits(body: string)
    requires |body| > 0 && AllDigits(body)
    requires InInt64(DigitsValue(body))
    ensures ParseInt64(body) == Some(DigitsValue(body))
  {
    assert IsDigit(body[0]);
    assert body[0] != '+' && body[0] != '-';
  }

  /** The first ID of every sequence: %05d of 1. */
  lemma Format05dOfOne()
    ensures Format05d(1) == "00001"
  {
    assert DecimalDigits(1) == "1";
    assert Zeros(4) == "0000";
  }

  lemma PaddedDigits(m: nat, width: int)
    ensures |PadZeros(DecimalDigits(m), width)| > 0
    ensures AllDigits(PadZeros(DecimalDigits(m), width))
    ensures DigitsValue(PadZeros(DecimalDigits(m), width)) == m
  {
    var d := DecimalDigits(m);
    DigitsValueOfDecimal(m);
    if |d| < width {
      DigitsValueLeadingZeros(width - |d|, d);
    }
  }

  lemma ParsePaddedNegative(n: int)
    requires InInt64(n) && n < 0
    ensures ParseInt64(Format05d(n)) == Some(n)
  {
    var m: nat := -n;
    var pad := PadZeros(DecimalDigits(m), 4);
    PaddedDigits(m, 4);
    assert -(DigitsValue(pad) as int) == n;
    ParseNegativeDigits(pad);
  }

  lemma ParsePaddedNonNegative(n: int)
    requires InInt64(n) && n >= 0
    ensures ParseInt64(Format05d(n)) == Some(n)
  {
    var pad := PadZeros(DecimalDigits(n), 5);
    PaddedDigits(n, 5);
    ParseUnsignedDigits(pad);
  }

  lemma ParsePadded(n: int)
    requires InInt64(n)
    ensures ParseInt64(Format05d(n)) == Some(n)
  {
    if n < 0 {
      ParsePaddedNegative(n);
    } else {
      ParsePaddedNonNegative(n);
    }
  }

  /** The shape Sscanf's %d consumes: an optional minus sign, then digits. */
  predicate SignedDigits(t: string)
  {
    (|t| > 0 && AllDigits(t)) || (|t| > 1 && t[0] == '-' && AllDigits(t[1..]))
  }

  lemma PaddedShape(n: int)
    ensures SignedDigits(Format05d(n))
  {
    if n < 0 {
      var m: nat := -n;
      var pad := PadZeros(DecimalDigits(m), 4);
      PaddedDigits(m, 4);
      assert Format05d(n)[1..] == pad;
    } else {
      PaddedDigits(n, 5);
    }
  }

  lemma ScanSignedDigits(prefix: string, t: string)
    requires SignedDigits(t)
    ensures ScanNumber(prefix, prefix + t) == match ParseInt64(t) case Some(n) => n case None => 0
  {
    var id := prefix + t;
    assert id[..|prefix|] == prefix;
    assert id[|prefix|..] == t;
    if t[0] == '-' {
      LeadingDigitsOfDigits(t[1..]);
      assert [t[0]] + t[1..] == t;
    } else {
      LeadingDigitsOfDigits(t);
      assert [] + t == t;
    }
  }

  /** Scanning a formatted identifier gives its number back. */
  lemma ScanFormatRoundTrip(prefix: string, n: int)
    requires InInt64(n)
    ensures ScanNumber(prefix, FormatId(prefix, n)) == n
  {
    ParsePadded(n);
    PaddedShape(n);
    ScanSignedDigits(prefix, Format05d(n));
  }

  /** Every generated ID starts with its prefix and has at least five more characters. */
  lemma FormatIdShape(prefix: string, n: int)
    ensures HasPrefix(FormatId(prefix, n), prefix)
    ensures |FormatId(prefix, n)| >= |prefix| + 5
  {
    assert FormatId(prefix, n)[..|prefix|] == prefix;
  }

  /** The first ID of a sequence is the prefix followed by 00001. */
  lemma NextIdFirst(prefix: string)
    ensures NextId(prefix, None) == prefix + "00001"
  {
    Format05dOfOne();
  }

  /** The next ID scans back to the previous number plus one, wrapped to int64. */
  lemma NextIdStep(prefix: string, last: string)
    ensures ScanNumber(prefix, NextId(prefix, Some(last))) == Wrap64(ScanNumber(prefix, last) + 1)
  {
    ScanFormatRoundTrip(prefix, Wrap64(ScanNumber(prefix, last) + 1));
  }

  // ---------------------------------------------------------------------
  // Byte length and option lists
  // ---------------------------------------------------------------------

  /** Go's len() of a string: its length in UTF-8 bytes. */
  function Utf8Length(s: string): (n: nat)
    ensures n >= |s|
  {
    if s == [] then 0
    else
      var c := s[0] as int;
      (if c < 0x80 then 1 else if c < 0x800 then 2 else if c < 0x1_0000 then 3 else 4)
      + Utf8Length(s[1..])
  }

  /** The loop shared by the IsValid* option checks: a search with early return. */
  method LinearSearch<T(==)>(options: seq<T>, v: T) returns (found: bool)
    ensures found <==> v in options
  {
    var i := 0;
    while i < |options|
      invariant 0 <= i <= |options|
      invariant forall j :: 0 <= j < i ==> options[j] != v
    {
      if options[i] == v {
        return true;
      }
      i := i + 1;
    }
    return false;
  }
}
