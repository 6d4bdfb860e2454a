/**
 * String helpers with the meaning Python gives them in the planner:
 * `str.lower`/`str.upper` (on ASCII letters), `str.strip`, `str(int)`,
 * the `{x:,}` thousands grouping, `str.join`, `s * n`, and `str(float)` for
 * values with one decimal place (held here as integer tenths).
 */
module Text {
  import opened Wrappers

  // ---------------------------------------------------------------------
  // Whitespace and case

  /** The characters Python's `str.strip()` removes (those for which `str.isspace()` holds). */
  predicate IsSpace(c: char) {
    c == ' ' || c == '\t' || c == '\n' || c == '\r' || c == '\U{000B}' || c == '\U{000C}'
    || ('\U{001C}' <= c <= '\U{001F}') || c == '\U{0085}' || c == '\U{00A0}' || c == '\U{1680}'
    || ('\U{2000}' <= c <= '\U{200A}') || c == '\U{2028}' || c == '\U{2029}' || c == '\U{202F}'
    || c == '\U{205F}' || c == '\U{3000}'
  }

  predicate AllSpace(s: string) {
    forall i :: 0 <= i < |s| ==> IsSpace(s[i])
  }

  function LowerChar(c: char): char {
    if 'A' <= c <= 'Z' then (c as int + 32) as char else c
  }

  function UpperChar(c: char): char {
    if 'a' <= c <= 'z' then (c as int - 32) as char else c
  }

  function ToLower(s: string): string {
    seq(|s|, i requires 0 <= i < |s| => LowerChar(s[i]))
  }

  function ToUpper(s: string): string {
    seq(|s|, i requires 0 <= i < |s| => UpperChar(s[i]))
  }

  /** Drops leading whitespace (`str.lstrip()`). */
  function TrimStart(s: string): string {
    if |s| > 0 && IsSpace(s[0]) then TrimStart(s[1..]) else s
  }

  /** Drops trailing whitespace (`str.rstrip()`). */
  function TrimEnd(s: string): string {
    if |s| > 0 && IsSpace(s[|s| - 1]) then TrimEnd(s[..|s| - 1]) else s
  }

  /** `str.strip()`. */
  function Trim(s: string): string {
    TrimEnd(TrimStart(s))
  }

  lemma ToLowerAppend(a: string, b: string)
    ensures ToLower(a + b) == ToLower(a) + ToLower(b)
  {
  }

  lemma ToLowerKeepsSpace(w: string)
    requires AllSpace(w)
    ensures ToLower(w) == w
  {
  }

  /** Lower-casing is idempotent, and lower-casing an upper-cased string is lower-casing it. */
  lemma ToLowerOfToUpper(s: string)
    ensures ToLower(ToUpper(s)) == ToLower(s)
    ensures ToLower(ToLower(s)) == ToLower(s)
  {
  }

  lemma {:induction false} TrimStartSpacePrefix(w: string, s: string)
    requires AllSpace(w)
    ensures TrimStart(w + s) == TrimStart(s)
  {
    if w != [] {
      assert IsSpace(w[0]) && (w + s)[0] == w[0];
      assert (w + s)[1..] == w[1..] + s;
      assert AllSpace(w[1..]);
      TrimStartSpacePrefix(w[1..], s);
    } else {
      assert w + s == s;
    }
  }

  lemma {:induction false} TrimEndSpaceSuffix(s: string, w: string)
    requires AllSpace(w)
    ensures TrimEnd(s + w) == TrimEnd(s)
  {
    if w != [] {
      assert (s + w)[..|s + w| - 1] == s + w[..|w| - 1];
      TrimEndSpaceSuffix(s, w[..|w| - 1]);
    } else {
      assert s + w == s;
    }
  }

  /** Stripping the start of `s + w` either keeps all of `w` or consumes everything. */
  lemma {:induction false} TrimStartAppend(s: string, w: string)
    ensures AllSpace(s) ==> TrimStart(s + w) == TrimStart(w)
    ensures !AllSpace(s) ==> TrimStart(s + w) == TrimStart(s) + w
  {
    if s == [] {
      assert s + w == w;
    } else {
      assert (s + w)[1..] == s[1..] + w;
      TrimStartAppend(s[1..], w);
    }
  }

  lemma {:induction false} TrimStartAllSpace(s: string)
    requires AllSpace(s)
    ensures TrimStart(s) == []
  {
    if s != [] {
      TrimStartAllSpace(s[1..]);
    }
  }

  /** `str.strip()` ignores any whitespace added around a string. */
  lemma TrimSurrounded(w1: string, s: string, w2: string)
    requires AllSpace(w1) && AllSpace(w2)
    ensures Trim(w1 + s + w2) == Trim(s)
  {
    assert w1 + s + w2 == w1 + (s + w2);
    TrimStartSpacePrefix(w1, s + w2);
    TrimStartAppend(s, w2);
    if AllSpace(s) {
      TrimStartAllSpace(w2);
      TrimStartAllSpace(s);
    } else {
      TrimEndSpaceSuffix(TrimStart(s), w2);
    }
  }

  // ---------------------------------------------------------------------
  // Decimal numbers

  predicate IsDigit(c: char) {
    '0' <= c <= '9'
  }

  predicate AllDigits(s: string) {
    forall i :: 0 <= i < |s| ==> IsDigit(s[i])
  }

  function DigitChar(d: nat): (c: char)
    requires d < 10
    ensures IsDigit(c)
  {
    (d + '0' as int) as char
  }

  function DigitValue(c: char): (d: nat)
    requires IsDigit(c)
    ensures d < 10
  {
    c as int - '0' as int
  }

  /** `str(n)` for a natural number. */
  function NatToString(n: nat): string {
    if n < 10 then [DigitChar(n)] else NatToString(n / 10) + [DigitChar(n % 10)]
  }

  /** `str(i)` for an integer. */
  function IntToString(i: int): string {
    if i < 0 then "-" + NatToString(-i) else NatToString(i)
  }

  /** The value of a string of decimal digits, most significant first. */
  function DigitsValue(s: string): nat
    requires AllDigits(s)
  {
    if s == [] then 0 else DigitsValue(s[..|s| - 1]) * 10 + DigitValue(s[|s| - 1])
  }

  /** `int(s)` restricted to an optional minus sign followed by decimal digits. */
  function ParseInt(s: string): Option<int> {
    if |s| > 1 && s[0] == '-' && AllDigits(s[1..]) then Some(-(DigitsValue(s[1..]) as int))
    else if |s| > 0 && AllDigits(s) then Some(DigitsValue(s))
    else None
  }

  lemma {:induction false} NatToStringDigits(n: nat)
    ensures |NatToString(n)| > 0 && AllDigits(NatToString(n))
    ensures DigitsValue(NatToString(n)) == n
  {
    if n >= 10 {
      NatToStringDigits(n / 10);
      var s := NatToString(n);
      assert s[..|s| - 1] == NatToString(n / 10);
    }
  }

  /** Printing an integer and reading it back gives the integer. */
  lemma IntToStringRoundTrip(i: int)
    ensures ParseInt(IntToString(i)) == Some(i)
  {
    if i < 0 {
      NatToStringDigits(-i);
      assert IntToString(i)[1..] == NatToString(-i);
    } else {
      NatToStringDigits(i);
    }
  }

  /** A zero-padded rendering of `k` in exactly `width` digits. */
  function FixedDigits(k: nat, width: nat): (s: string)
    ensures |s| == width && AllDigits(s)
  {
    if width == 0 then [] else FixedDigits(k / 10, width - 1) + [DigitChar(k % 10)]
  }

  function Pow10(n: nat): (p: nat)
    ensures p >= 1
  {
    if n == 0 then 1 else 10 * Pow10(n - 1)
  }

  lemma {:induction false} FixedDigitsValue(k: nat, width: nat)
    requires k < Pow10(width)
    ensures DigitsValue(FixedDigits(k, width)) == k
  {
    if width > 0 {
      var p := Pow10(width - 1);
      assert k / 10 < p by { DivBelow(k, p); }
      FixedDigitsValue(k / 10, width - 1);
      var s := FixedDigits(k, width);
      assert s[..|s| - 1] == FixedDigits(k / 10, width - 1);
      assert DigitValue(s[|s| - 1]) == k % 10;
      assert DigitsValue(s) == (k / 10) * 10 + k % 10;
    }
  }

  lemma DivBelow(k: nat, p: nat)
    requires k < 10 * p
    ensures k / 10 < p
  {
  }

  lemma {:induction false} DigitsValueBound(s: string)
    requires AllDigits(s)
    ensures DigitsValue(s) < Pow10(|s|)
  {
    if s != [] {
      DigitsValueBound(s[..|s| - 1]);
    }
  }

  /** `f"{n:02d}"` for `n < 100`. */
  function Pad2(n: nat): string
    requires n < 100
  {
    FixedDigits(n, 2)
  }

  // ---------------------------------------------------------------------
  // Thousands grouping: Python's `format(i, ",")`

  function GroupedNat(n: nat): string {
    if n < 1000 then NatToString(n) else GroupedNat(n / 1000) + "," + FixedDigits(n % 1000, 3)
  }

  /** `f"{i:,}"`: the decimal digits of `i` with a comma before every group of three from the right. */
  function Grouped(i: int): string {
    if i < 0 then "-" + GroupedNat(-i) else GroupedNat(i)
  }

  function RemoveCommas(s: string): string {
    if s == [] then [] else RemoveCommas(s[..|s| - 1]) + (if s[|s| - 1] == ',' then [] else [s[|s| - 1]])
  }

  lemma {:induction false} RemoveCommasAppend(a: string, b: string)
    ensures RemoveCommas(a + b) == RemoveCommas(a) + RemoveCommas(b)
  {
    if b == [] {
      assert a + b == a;
    } else {
      assert (a + b)[..|a + b| - 1] == a + b[..|b| - 1];
      RemoveCommasAppend(a, b[..|b| - 1]);
    }
  }

  lemma {:induction false} RemoveCommasDigits(s: string)
    requires AllDigits(s)
    ensures RemoveCommas(s) == s
  {
    if s != [] {
      RemoveCommasDigits(s[..|s| - 1]);
    }
  }

  /** The decimal digits of `n >= 1000` are those of `n / 1000` followed by three more. */
  lemma NatToStringThousands(n: nat)
    requires n >= 1000
    ensures NatToString(n) == NatToString(n / 1000) + FixedDigits(n % 1000, 3)
  {
    var q, r := n / 1000, n % 1000;
    var a := n / 10;
    var b := a / 10;
    assert a == 100 * q + r / 10;
    assert b == 10 * q + r / 10 / 10;
    assert b / 10 == q;
    assert n % 10 == r % 10;
    assert a % 10 == (r / 10) % 10;
    assert b % 10 == (r / 10 / 10) % 10;
    assert NatToString(n) == NatToString(a) + [DigitChar(n % 10)];
    assert NatToString(a) == NatToString(b) + [DigitChar(a % 10)];
    assert NatToString(b) == NatToString(q) + [DigitChar(b % 10)];
    assert FixedDigits(r, 3) == FixedDigits(r / 10, 2) + [DigitChar(r % 10)];
    assert FixedDigits(r / 10, 2) == FixedDigits(r / 10 / 10, 1) + [DigitChar((r / 10) % 10)];
    assert FixedDigits(r / 10 / 10, 1) == [DigitChar((r / 10 / 10) % 10)];
  }

  lemma RemoveCommasAroundComma(a: string, b: string)
    ensures RemoveCommas(a + "," + b) == RemoveCommas(a) + RemoveCommas(b)
  {
    var comma := ",";
    assert comma[..0] == [];
    assert RemoveCommas(comma) == [];
    RemoveCommasAppend(a, comma);
    RemoveCommasAppend(a + comma, b);
  }

  /** Removing the commas of a grouped number gives its plain decimal digits. */
  lemma {:induction false} GroupedNatUngroups(n: nat)
    ensures RemoveCommas(GroupedNat(n)) == NatToString(n)
  {
    NatToStringDigits(n);
    if n < 1000 {
      RemoveCommasDigits(NatToString(n));
    } else {
      var head, tail := GroupedNat(n / 1000), FixedDigits(n % 1000, 3);
      GroupedNatUngroups(n / 1000);
      RemoveCommasAroundComma(head, tail);
      RemoveCommasDigits(tail);
      NatToStringThousands(n);
    }
  }

  /** Reads back a `{i:,}`-grouped integer. */
  function ParseGrouped(s: string): Option<int> {
    ParseInt(RemoveCommas(s))
  }

  lemma RemoveCommasAfterSign(g: string)
    ensures RemoveCommas("-" + g) == "-" + RemoveCommas(g)
  {
    RemoveCommasAppend("-", g);
    assert RemoveCommas("-") == RemoveCommas([]) + "-";
  }

  lemma GroupedUngroups(i: int)
    ensures RemoveCommas(Grouped(i)) == IntToString(i)
  {
    if i < 0 {
      var n: nat := -i;
      RemoveCommasAfterSign(GroupedNat(n));
      GroupedNatUngroups(n);
    } else {
      GroupedNatUngroups(i);
    }
  }

  /** Grouping round-trips: dropping the commas and parsing recovers the integer. */
  lemma GroupedRoundTrip(i: int)
    ensures ParseGrouped(Grouped(i)) == Some(i)
  {
    GroupedUngroups(i);
    IntToStringRoundTrip(i);
  }

  // ---------------------------------------------------------------------
  // One-decimal numbers and assorted builders

  /** `str(t / 10)` as Python prints a float that has one decimal place (`31.0`, `-0.5`). */
  function TenthsToString(t: int): string {
    var a := if t < 0 then -t else t;
    (if t < 0 then "-" else "") + NatToString(a / 10) + "." + [DigitChar(a % 10)]
  }

  /** `s * n`. */
  function Repeat(s: string, n: nat): string {
    if n == 0 then [] else s + Repeat(s, n - 1)
  }

  /** `sep.join(parts)`. */
  function Join(parts: seq<string>, sep: string): string {
    if parts == [] then []
    else if |parts| == 1 then parts[0]
    else Join(parts[..|parts| - 1], sep) + sep + parts[|parts| - 1]
  }

  predicate StartsWith(s: string, prefix: string) {
    |prefix| <= |s| && s[..|prefix|] == prefix
  }

  // ---------------------------------------------------------------------
  // Small facts used by the report builders

  function Min(a: int, b: int): int {
    if a <= b then a else b
  }

  predicate EndsWith(s: string, suffix: string) {
    |suffix| <= |s| && s[|s| - |suffix|..] == suffix
  }

  lemma AppendAssoc(a: string, b: string, c: string)
    ensures (a + b) + c == a + (b + c)
  {
  }

  lemma StartsWithSelf(a: string, b: string)
    ensures StartsWith(a + b, a)
  {
    assert (a + b)[..|a|] == a;
  }

  lemma EndsWithSelf(a: string, b: string)
    ensures EndsWith(a + b, b)
  {
    assert (a + b)[|a + b| - |b|..] == b;
  }

  lemma EndsWithAppend(a: string, b: string, c: string)
    requires EndsWith(b, c)
    ensures EndsWith(a + b, c)
  {
    assert (a + b)[|a + b| - |c|..] == b[|b| - |c|..];
  }

  /** Lower-casing and stripping ignore surrounding whitespace. */
  lemma TrimLowerSurrounded(w1: string, s: string, w2: string)
    requires AllSpace(w1) && AllSpace(w2)
    ensures Trim(ToLower(w1 + s + w2)) == Trim(ToLower(s))
  {
    ToLowerAppend(w1 + s, w2);
    ToLowerAppend(w1, s);
    ToLowerKeepsSpace(w1);
    ToLowerKeepsSpace(w2);
    TrimSurrounded(w1, ToLower(s), w2);
  }
}
