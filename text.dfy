// String helpers shared by the backend (Go `strings`/`strconv`) and the front end
// (JavaScript `toLowerCase`, `includes`, `trim`, `toFixed`). Case mapping covers
// ASCII letters only.
module Text {
  import opened Wrappers

  function LowerChar(c: char): char { if 'A' <= c <= 'Z' then (c as int + 32) as char else c }

  function UpperChar(c: char): char { if 'a' <= c <= 'z' then (c as int - 32) as char else c }

  function ToLower(s: string): (r: string)
    ensures |r| == |s| && forall i :: 0 <= i < |s| ==> r[i] == LowerChar(s[i])
  {
    seq(|s|, i requires 0 <= i < |s| => LowerChar(s[i]))
  }

  function ToUpper(s: string): (r: string)
    ensures |r| == |s| && forall i :: 0 <= i < |s| ==> r[i] == UpperChar(s[i])
  {
    seq(|s|, i requires 0 <= i < |s| => UpperChar(s[i]))
  }

  predicate HasLowercaseLetter(s: string) { exists i :: 0 <= i < |s| && 'a' <= s[i] <= 'z' }

  /** An upper-cased string carries no lower-case ASCII letter. */
  lemma UpperHasNoLowercase(s: string)
    ensures !HasLowercaseLetter(ToUpper(s))
  {
  }

  /** Upper-casing twice is upper-casing once. */
  lemma UpperIdempotent(s: string)
    ensures ToUpper(ToUpper(s)) == ToUpper(s)
  {
  }

  /** t occurs in s starting at index i. */
  predicate OccursAt(s: string, t: string, i: int)
  {
    0 <= i <= |s| - |t| && s[i..i + |t|] == t
  }

  /** Substring test (`strings.Contains`, JavaScript `includes`); the empty string is in every string. */
  function Includes(s: string, t: string): (b: bool)
    ensures b <==> exists i :: OccursAt(s, t, i)
    decreases |s|
  {
    if |t| > |s| then false
    else if s[..|t|] == t then assert OccursAt(s, t, 0); true
    else
      IncludesShift(s, t);
      Includes(s[1..], t)
  }

  /** An occurrence of t that is not at position 0 is an occurrence in s[1..]. */
  lemma IncludesShift(s: string, t: string)
    requires |t| <= |s| && s[..|t|] != t
    ensures (exists i :: OccursAt(s, t, i)) <==> (exists i :: OccursAt(s[1..], t, i))
  {
    if exists i :: OccursAt(s[1..], t, i) {
      var i :| OccursAt(s[1..], t, i);
      assert s[i + 1..i + 1 + |t|] == s[1..][i..i + |t|];
      assert OccursAt(s, t, i + 1);
    }
    if exists i :: OccursAt(s, t, i) {
      var i :| OccursAt(s, t, i);
      assert i > 0;
      assert s[1..][i - 1..i - 1 + |t|] == s[i..i + |t|];
      assert OccursAt(s[1..], t, i - 1);
    }
  }

  /** The characters JavaScript's `trim` removes. */
  predicate IsJsSpace(c: char)
  {
    c == ' ' || c == '\t' || c == '\n' || c == '\r' || c == '\U{B}' || c == '\U{C}'
    || c == '\U{A0}' || c == '\U{1680}' || ('\U{2000}' <= c <= '\U{200A}')
    || c == '\U{2028}' || c == '\U{2029}' || c == '\U{202F}' || c == '\U{205F}'
    || c == '\U{3000}' || c == '\U{FEFF}'
  }

  /** `s.trim()` is the empty string. */
  predicate IsBlank(s: string) { forall i :: 0 <= i < |s| ==> IsJsSpace(s[i]) }

  function TrimPrefix(s: string, prefix: string): (r: string)
    ensures prefix <= s ==> prefix + r == s
    ensures !(prefix <= s) ==> r == s
  {
    if prefix <= s then s[|prefix|..] else s
  }

  function TrimSuffix(s: string, suffix: string): (r: string)
    ensures |suffix| <= |s| && s[|s| - |suffix|..] == suffix ==> r + suffix == s
    ensures !(|suffix| <= |s| && s[|s| - |suffix|..] == suffix) ==> r == s
  {
    if |suffix| <= |s| && s[|s| - |suffix|..] == suffix then s[..|s| - |suffix|] else s
  }

  /** `strings.ReplaceAll(s, string(c), "")`. */
  function RemoveChar(s: string, c: char): (r: string)
    ensures c !in r
    ensures forall x :: x != c ==> (x in r <==> x in s)
  {
    if s == [] then [] else (if s[0] == c then [] else [s[0]]) + RemoveChar(s[1..], c)
  }

  /** Removing a character that does not occur changes nothing. */
  lemma {:induction false} RemoveAbsentChar(s: string, c: char)
    requires c !in s
    ensures RemoveChar(s, c) == s
  {
    if s != [] {
      RemoveAbsentChar(s[1..], c);
      assert s == [s[0]] + s[1..];
    }
  }

  /** A rendered two-decimal number holds digits, '.' and '-' only, so no comma. */
  lemma Fixed2HasNoComma(x: real)
    ensures ',' !in Fixed2(x)
  {
    var c := Cents(x);
    var ip, fp := NatToString(c / 100), Pad2(c % 100);
    assert Fixed2(x) == (if x < 0.0 then "-" else "") + (ip + "." + fp);
    assert forall i :: 0 <= i < |ip| ==> ip[i] != ',';
    assert forall i :: 0 <= i < |fp| ==> fp[i] != ',';
  }

  /** Index of the first occurrence of `c`. */
  function IndexOf(s: string, c: char): (r: Option<nat>)
    ensures r.None? <==> c !in s
    ensures r.Some? ==> r.value < |s| && s[r.value] == c && c !in s[..r.value]
  {
    if s == [] then None
    else if s[0] == c then Some(0)
    else match IndexOf(s[1..], c)
      case None => None
      case Some(k) => assert s[..k + 1] == [s[0]] + s[1..][..k]; Some(k + 1)
  }

  // ---- decimal digits ----

  predicate IsDigit(c: char) { '0' <= c <= '9' }

  predicate AllDigits(s: string) { forall i :: 0 <= i < |s| ==> IsDigit(s[i]) }

  function DigitChar(d: nat): char requires d < 10 { ('0' as int + d) as char }

  /** Value of a run of decimal digits, most significant first. */
  function DigitsValue(s: string): nat
    requires AllDigits(s)
  {
    if s == [] then 0 else DigitsValue(s[..|s| - 1]) * 10 + (s[|s| - 1] as int - '0' as int)
  }

  function Pow10(k: nat): (r: nat)
    ensures r >= 1
  {
    if k == 0 then 1 else 10 * Pow10(k - 1)
  }

  /** Decimal rendering of a natural number, without leading zeros. */
  function NatToString(n: nat): (r: string)
    ensures |r| >= 1 && AllDigits(r)
  {
    if n < 10 then [DigitChar(n)] else NatToString(n / 10) + [DigitChar(n % 10)]
  }

  lemma {:induction false} NatToStringValue(n: nat)
    ensures DigitsValue(NatToString(n)) == n
  {
    if n >= 10 {
      NatToStringValue(n / 10);
      var s := NatToString(n);
      assert s[..|s| - 1] == NatToString(n / 10);
    }
  }

  function IntToString(n: int): (r: string)
  {
    if n < 0 then "-" + NatToString(-n) else NatToString(n)
  }

  /** Splits an optional leading sign off `s`: (negative, rest). */
  function SplitSign(s: string): (bool, string)
  {
    if |s| > 0 && (s[0] == '+' || s[0] == '-') then (s[0] == '-', s[1..]) else (false, s)
  }

  const MinInt64: int := -0x8000_0000_0000_0000
  const MaxInt64: int := 0x7fff_ffff_ffff_ffff

  /**
   * Go's `strconv.Atoi` on a 64-bit platform: an optional sign followed by at
   * least one decimal digit, whose value must fit in an int64.
   */
  function Atoi(s: string): (r: Option<int>)
    ensures r.Some? ==> MinInt64 <= r.value <= MaxInt64
    ensures r.Some? ==> |s| > 0 && AllDigits(SplitSign(s).1) && SplitSign(s).1 != []
  {
    var (neg, ds) := SplitSign(s);
    if ds == [] || !AllDigits(ds) then None
    else
      var v: int := if neg then -(DigitsValue(ds) as int) else DigitsValue(ds);
      if MinInt64 <= v <= MaxInt64 then Some(v) else None
  }

  /** Rendering then reading back gives the same integer, over the whole int64 range. */
  lemma AtoiRoundTrip(n: int)
    requires MinInt64 <= n <= MaxInt64
    ensures Atoi(IntToString(n)) == Some(n)
  {
    var m: nat := if n < 0 then -n else n;
    NatToStringValue(m);
    if n < 0 {
      assert SplitSign(IntToString(n)).1 == NatToString(m);
    } else {
      assert IntToString(n)[0] != '+' && IntToString(n)[0] != '-';
    }
  }

  /**
   * The subset of Go's `strconv.ParseFloat` accepted here: an optional sign, then
   * digits with at most one '.', and at least one digit in all ("5", "5.", ".5",
   * "-4.20"). The value is exact; binary rounding is not modelled.
   */
  function ParseDecimal(s: string): (r: Option<real>)
  {
    var (neg, body) := SplitSign(s);
    match ParseUnsignedDecimal(body)
    case None => None
    case Some(mag) => Some(if neg then -mag else mag)
  }

  /** Digits with at most one '.', at least one digit in all. */
  function ParseUnsignedDecimal(body: string): (r: Option<real>)
  {
    var dot := IndexOf(body, '.');
    var ip := if dot.Some? then body[..dot.value] else body;
    var fp := if dot.Some? then body[dot.value + 1..] else "";
    if AllDigits(ip) && AllDigits(fp) && |ip| + |fp| > 0 then Some(DecimalValue(ip, fp)) else None
  }

  /** The value of the digits ip '.' fp. */
  function DecimalValue(ip: string, fp: string): real
    requires AllDigits(ip) && AllDigits(fp)
  {
    DigitsValue(ip) as real + DigitsValue(fp) as real / Pow10(|fp|) as real
  }

  /** Two digits, with a leading zero below ten. */
  function Pad2(n: nat): (r: string)
    requires n < 100
    ensures |r| == 2 && AllDigits(r)
  {
    [DigitChar(n / 10), DigitChar(n % 10)]
  }

  /**
   * JavaScript `x.toFixed(2)` on an exact decimal: the magnitude is rounded to the
   * nearest hundredth, ties away from zero, and a minus sign is kept for x < 0.
   */
  function Fixed2(x: real): (r: string)
  {
    RenderCents(x < 0.0, Cents(x))
  }

  /** |x| in hundredths, rounded half up. */
  function Cents(x: real): nat
  {
    var m := if x < 0.0 then -x else x;
    (m * 100.0 + 0.5).Floor
  }

  function RenderCents(neg: bool, c: nat): string
  {
    (if neg then "-" else "") + (NatToString(c / 100) + "." + Pad2(c % 100))
  }

  lemma Pad2Value(n: nat)
    requires n < 100
    ensures DigitsValue(Pad2(n)) == n
  {
    var s := Pad2(n);
    assert s[..1] == [DigitChar(n / 10)] && s[..1][..0] == [];
    assert DigitsValue(s[..1]) == n / 10;
  }

  /** Reading "ip.fp" gives the integer part plus the scaled fraction. */
  lemma ParseUnsignedPoint(ip: string, fp: string)
    requires |ip| >= 1 && AllDigits(ip) && AllDigits(fp)
    ensures ParseUnsignedDecimal(ip + "." + fp) == Some(DecimalValue(ip, fp))
  {
    var body := ip + "." + fp;
    assert body[..|ip|] == ip;
    assert IndexOf(body, '.') == Some(|ip|);
    assert body[|ip| + 1..] == fp;
  }

  /** A leading minus negates, no sign keeps the value, when the body starts with a digit. */
  lemma ParseSigned(neg: bool, body: string)
    requires |body| >= 1 && IsDigit(body[0])
    ensures var s := (if neg then "-" else "") + body;
      ParseDecimal(s) == match ParseUnsignedDecimal(body)
        case None => None
        case Some(mag) => Some(if neg then -mag else mag)
  {
    var s := (if neg then "-" else "") + body;
    if neg { assert s[1..] == body; } else { assert s == body; }
    assert SplitSign(s) == (neg, body);
  }

  /** Cents split into whole units and the two-digit remainder. */
  lemma CentsSplit(c: nat)
    ensures (c / 100) as real + (c % 100) as real / 100.0 == c as real / 100.0
  {
    assert c == (c / 100) * 100 + c % 100;
  }

  /** "units.cc" reads back as units plus cc hundredths. */
  lemma UnitsPointCents(u: nat, r: nat)
    requires r < 100
    ensures ParseUnsignedDecimal(NatToString(u) + "." + Pad2(r)) == Some(u as real + r as real / 100.0)
  {
    var ip, fp := NatToString(u), Pad2(r);
    NatToStringValue(u);
    Pad2Value(r);
    ParseUnsignedPoint(ip, fp);
    assert Pow10(|fp|) == 100;
  }

  /** v with a minus sign applied when neg. */
  function Signed(neg: bool, v: real): real
  {
    if neg then -v else v
  }

  /** c hundredths as a number. */
  function Hundredths(c: nat): real
  {
    c as real / 100.0
  }

  /** A signed body that reads back as v reads back as v with its sign applied. */
  lemma SignedValue(neg: bool, body: string, v: real)
    requires |body| >= 1 && IsDigit(body[0]) && ParseUnsignedDecimal(body) == Some(v)
    ensures ParseDecimal((if neg then "-" else "") + body) == Some(Signed(neg, v))
  {
    ParseSigned(neg, body);
  }

  /** A rendered amount of hundredths reads back with its sign. */
  lemma RenderCentsParses(neg: bool, c: nat)
    ensures ParseDecimal(RenderCents(neg, c)) == Some(Signed(neg, Hundredths(c)))
  {
    var u, r := c / 100, c % 100;
    var ip := NatToString(u);
    var body := ip + "." + Pad2(r);
    UnitsPointCents(u, r);
    CentsSplit(c);
    assert ParseUnsignedDecimal(body) == Some(Hundredths(c));
    assert body[0] == ip[0];
    SignedValue(neg, body, Hundredths(c));
    assert RenderCents(neg, c) == (if neg then "-" else "") + body;
  }

  /** `toFixed(2)` reads back as the signed number of hundredths it rendered. */
  lemma Fixed2Parses(x: real)
    ensures ParseDecimal(Fixed2(x)) == Some(SignedCents(x))
  {
    RenderCentsParses(x < 0.0, Cents(x));
  }

  /** The rendered value: the rounded hundredths with x's sign. */
  function SignedCents(x: real): real
  {
    Signed(x < 0.0, Hundredths(Cents(x)))
  }

  /** Rounding to the nearest hundredth moves x by at most half a hundredth. */
  lemma SignedCentsNear(x: real)
    ensures x - 0.005 <= SignedCents(x) <= x + 0.005
  {
    var m := if x < 0.0 then -x else x;
    var c := Cents(x);
    assert m * 100.0 - 0.5 < c as real <= m * 100.0 + 0.5;
    assert m - 0.005 < c as real / 100.0 <= m + 0.005;
  }

  /** `toFixed(2)` read back with ParseDecimal lies within half a hundredth of x. */
  lemma Fixed2ReadsBack(x: real)
    ensures ParseDecimal(Fixed2(x)).Some?
    ensures var v := ParseDecimal(Fixed2(x)).value; x - 0.005 <= v <= x + 0.005
  {
    Fixed2Parses(x);
    SignedCentsNear(x);
  }
}
