/**
 * The JavaScript string primitives the pages rely on: the whitespace class
 * shared by `\s`/`\S` in regular expressions and by `String.prototype.trim`,
 * `trim` itself, `length` (counted in UTF-16 code units), `Number#toString`
 * for naturals, and the NaN test of `parseFloat`.
 */
module Text {
  import opened Seqs

  /** WhiteSpace or LineTerminator in ECMAScript: the characters `\s` matches and `trim` removes. */
  predicate IsSpace(c: char) {
    || c == '\t' || c == '\n' || c == '\U{000B}' || c == '\U{000C}' || c == '\r'
    || c == ' ' || c == '\U{00A0}' || c == '\U{1680}'
    || ('\U{2000}' <= c <= '\U{200A}')
    || c == '\U{2028}' || c == '\U{2029}' || c == '\U{202F}' || c == '\U{205F}'
    || c == '\U{3000}' || c == '\U{FEFF}'
  }

  predicate AllSpace(s: string) {
    forall k :: 0 <= k < |s| ==> IsSpace(s[k])
  }

  predicate NoSpace(s: string) {
    forall k :: 0 <= k < |s| ==> !IsSpace(s[k])
  }

  /** The index of the first non-whitespace character at or after `from`, or |s| if there is none. */
  function LeadingSpace(s: string, from: nat): (n: nat)
    requires from <= |s| && AllSpace(s[..from])
    ensures from <= n <= |s| && AllSpace(s[..n])
    ensures n == |s| || !IsSpace(s[n])
    decreases |s| - from
  {
    if from < |s| && IsSpace(s[from]) then
      assert forall k :: 0 <= k < from + 1 ==> s[..from + 1][k] == s[k];
      LeadingSpace(s, from + 1)
    else
      from
  }

  /** `trimStart`: drops the leading whitespace and nothing else. */
  function TrimStart(s: string): (r: string)
    ensures |r| <= |s| && r == s[|s| - |r|..]
    ensures AllSpace(s[..|s| - |r|])
    ensures r == [] || !IsSpace(r[0])
  {
    s[LeadingSpace(s, 0)..]
  }

  /** `trimEnd`: drops the trailing whitespace and nothing else. */
  function TrimEnd(s: string): (r: string)
    ensures |r| <= |s| && r == s[..|r|]
    ensures AllSpace(s[|r|..])
    ensures r == [] || !IsSpace(r[|r| - 1])
  {
    if |s| > 0 && IsSpace(s[|s| - 1]) then
      var r := TrimEnd(s[..|s| - 1]);
      assert s[|r|..] == s[..|s| - 1][|r|..] + [s[|s| - 1]];
      r
    else
      s
  }

  /** `trim`: empty exactly for all-whitespace text, and otherwise with no whitespace at either end. */
  function Trim(s: string): (r: string)
    ensures |r| <= |s|
    ensures r != [] ==> !IsSpace(r[0]) && !IsSpace(r[|r| - 1])
    ensures r == [] <==> AllSpace(s)
  {
    var t := TrimStart(s);
    var r := TrimEnd(t);
    TrimSlice(s, t, r);
    r
  }

  lemma TrimSlice(s: string, t: string, r: string)
    requires t == TrimStart(s) && r == TrimEnd(t)
    ensures r != [] ==> r[0] == t[0]
    ensures r == [] <==> AllSpace(s)
  {
    assert |t| > 0 ==> t[0] == s[|s| - |t|];
    if r == [] {
      assert t[|r|..] == t;
      assert t == [];
      assert s[..|s| - |t|] == s;
    }
  }

  /** The characters outside the Basic Multilingual Plane, which UTF-16 writes as two code units. */
  const IsAstral: char -> bool := (c: char) => c as int >= 0x1_0000

  /** `s.length` in JavaScript: one code unit per character, plus one more for each astral character. */
  function Utf16Length(s: string): (n: nat)
    ensures n == |s| + |Filter(s, IsAstral)|
    ensures (forall k :: 0 <= k < |s| ==> !IsAstral(s[k])) ==> n == |s|
    ensures |s| <= n <= 2 * |s|
    ensures n == 0 <==> s == []
  {
    if s == [] then 0 else (if IsAstral(s[0]) then 2 else 1) + Utf16Length(s[1..])
  }

  predicate IsDigit(c: char) {
    '0' <= c <= '9'
  }

  predicate AllDigits(s: string) {
    forall k :: 0 <= k < |s| ==> IsDigit(s[k])
  }

  function DigitChar(d: nat): (c: char)
    requires d < 10
    ensures IsDigit(c)
  {
    ('0' as int + d) as char
  }

  function DigitValue(c: char): (d: nat)
    requires IsDigit(c)
    ensures d < 10 && DigitChar(d) == c
  {
    c as int - '0' as int
  }

  /** `n.toString()` for a natural number: decimal digits, no leading zero. */
  function DecimalString(n: nat): (r: string)
    ensures |r| >= 1 && AllDigits(r)
    ensures r[0] != '0' || n == 0
  {
    if n < 10 then [DigitChar(n)] else DecimalString(n / 10) + [DigitChar(n % 10)]
  }

  /** The value of a string of decimal digits: the inverse of DecimalString. */
  function DecimalValue(s: string): nat
    requires AllDigits(s)
  {
    if s == [] then 0 else DecimalValue(s[..|s| - 1]) * 10 + DigitValue(s[|s| - 1])
  }

  lemma {:induction false} DecimalRoundTrip(n: nat)
    ensures DecimalValue(DecimalString(n)) == n
  {
    var r := DecimalString(n);
    if n >= 10 {
      assert r[..|r| - 1] == DecimalString(n / 10);
      DecimalRoundTrip(n / 10);
      assert DigitValue(r[|r| - 1]) == n % 10;
    } else {
      assert r[..|r| - 1] == [];
    }
  }

  /** Distinct numbers print as distinct strings. */
  lemma DecimalStringInjective(m: nat, n: nat)
    ensures DecimalString(m) == DecimalString(n) ==> m == n
  {
    DecimalRoundTrip(m);
    DecimalRoundTrip(n);
  }

  /**
   * `!isNaN(parseFloat(s))`: after leading whitespace and at most one sign,
   * the text starts with a digit, with `.` and a digit, or with `Infinity`.
   * Any longer numeric prefix and any trailing junk do not change the verdict.
   */
  predicate ParsesAsNumber(s: string) {
    var t := TrimStart(s);
    var u := if |t| > 0 && (t[0] == '+' || t[0] == '-') then t[1..] else t;
    || (|u| > 0 && IsDigit(u[0]))
    || (|u| > 1 && u[0] == '.' && IsDigit(u[1]))
    || "Infinity" <= u
  }

  /** A text that holds no digit and no `I` can never parse as a number. */
  lemma NoDigitIsNaN(s: string)
    requires forall k :: 0 <= k < |s| ==> !IsDigit(s[k]) && s[k] != 'I'
    ensures !ParsesAsNumber(s)
  {
    var t := TrimStart(s);
    forall k | 0 <= k < |t|
      ensures !IsDigit(t[k]) && t[k] != 'I'
    {
      assert t[k] == s[|s| - |t| + k];
    }
    var u := if |t| > 0 && (t[0] == '+' || t[0] == '-') then t[1..] else t;
    NoNumberStart(u);
  }

  /** Without a digit or an `I`, none of the three ways a number may start is present. */
  lemma NoNumberStart(u: string)
    requires forall k :: 0 <= k < |u| ==> !IsDigit(u[k]) && u[k] != 'I'
    ensures !(|u| > 0 && IsDigit(u[0])) && !(|u| > 1 && u[0] == '.' && IsDigit(u[1])) && !("Infinity" <= u)
  {
    if |u| > 0 {
      assert u[0] != "Infinity"[0];
    }
  }

  /** A text whose first non-blank character is a digit parses as a number. */
  lemma LeadingDigitParses(s: string, k: nat)
    requires k < |s| && AllSpace(s[..k]) && IsDigit(s[k])
    ensures ParsesAsNumber(s)
  {
    var t := TrimStart(s);
    var d := |s| - |t|;
    assert |t| > 0 ==> t[0] == s[d];
    assert forall j :: 0 <= j < d ==> s[j] == s[..d][j];
    assert forall j :: 0 <= j < k ==> s[j] == s[..k][j];
  }
}
