/** The pieces of JavaScript string semantics the deploy handlers and the router
    depend on: `String.prototype.trim`, the truthiness of an optional string,
    `substring` clamping and the decimal rendering of a port number. */
module JsText {
  import opened Wrappers

  /* ---------------- trim ---------------- */

  /** The characters `trim` removes: the WhiteSpace and LineTerminator code
      points of ECMAScript (tab, vertical tab, form feed, space, no-break space,
      byte-order mark, the space separators, line feed, carriage return, line
      and paragraph separators). */
  predicate IsWhitespace(c: char)
  {
    var n := c as int;
    || n == 0x09 || n == 0x0A || n == 0x0B || n == 0x0C || n == 0x0D
    || n == 0x20 || n == 0xA0 || n == 0x1680
    || (0x2000 <= n <= 0x200A)
    || n == 0x2028 || n == 0x2029 || n == 0x202F || n == 0x205F
    || n == 0x3000 || n == 0xFEFF
  }

  predicate AllWhitespace(s: string)
  {
    forall i :: 0 <= i < |s| ==> IsWhitespace(s[i])
  }

  /** Drops the leading whitespace: the result is a suffix of `s`, everything
      cut off was whitespace, and what is left does not start with whitespace. */
  function TrimStart(s: string): (r: string)
    ensures |r| <= |s| && r == s[|s| - |r|..]
    ensures forall i :: 0 <= i < |s| - |r| ==> IsWhitespace(s[i])
    ensures r != [] ==> !IsWhitespace(r[0])
  {
    if s != [] && IsWhitespace(s[0]) then TrimStart(s[1..]) else s
  }

  /** Drops the trailing whitespace: the result is a prefix of `s`, everything
      cut off was whitespace, and what is left does not end with whitespace. */
  function TrimEnd(s: string): (r: string)
    ensures |r| <= |s| && r == s[..|r|]
    ensures forall i :: |r| <= i < |s| ==> IsWhitespace(s[i])
    ensures r != [] ==> !IsWhitespace(r[|r| - 1])
  {
    if s != [] && IsWhitespace(s[|s| - 1]) then TrimEnd(s[..|s| - 1]) else s
  }

  /** `r` is what is left of `s` once the whitespace prefix `s[..i]` and the
      whitespace suffix `s[j..]` are cut off. */
  predicate CutBetweenWhitespace(s: string, i: int, j: int, r: string)
  {
    0 <= i <= j <= |s| && r == s[i..j] && AllWhitespace(s[..i]) && AllWhitespace(s[j..])
  }

  /** `s.trim()`: the result is empty exactly when `s` is all whitespace, and
      otherwise neither starts nor ends with whitespace. TrimIsCut states that
      it is the slice of `s` between a whitespace prefix and suffix. */
  function Trim(s: string): (r: string)
    ensures |r| <= |s|
    ensures r == [] <==> AllWhitespace(s)
    ensures r != [] ==> !IsWhitespace(r[0]) && !IsWhitespace(r[|r| - 1])
  {
    var t := TrimStart(s);
    var r := TrimEnd(t);
    assert r != [] ==> r[0] == t[0];
    r
  }

  /** `s.trim()` is what is left of `s` once a whitespace prefix and a
      whitespace suffix are cut off. */
  lemma TrimIsCut(s: string)
    ensures exists i, j :: CutBetweenWhitespace(s, i, j, Trim(s))
  {
    assert Trim(s) == TrimEnd(TrimStart(s));
    CutsLeaveSlice(s, TrimStart(s), TrimEnd(TrimStart(s)));
  }

  /** Cutting a whitespace prefix off `s`, leaving `t`, and then a whitespace
      suffix off `t`, leaving `r`, leaves a slice of `s` between a whitespace
      prefix and a whitespace suffix. */
  lemma CutsLeaveSlice(s: string, t: string, r: string)
    requires |t| <= |s| && t == s[|s| - |t|..]
    requires forall i :: 0 <= i < |s| - |t| ==> IsWhitespace(s[i])
    requires |r| <= |t| && r == t[..|r|]
    requires forall i :: |r| <= i < |t| ==> IsWhitespace(t[i])
    ensures exists i, j :: CutBetweenWhitespace(s, i, j, r)
  {
    PrefixOfSuffix(s, t, r);
    LeadingCutIsWhitespace(s, t);
    TrailingCutIsWhitespace(s, t, r);
    assert CutBetweenWhitespace(s, |s| - |t|, |s| - |t| + |r|, r);
  }

  /** A prefix `r` of a suffix `t` of `s` is a slice of `s`. */
  lemma PrefixOfSuffix(s: string, t: string, r: string)
    requires |t| <= |s| && t == s[|s| - |t|..]
    requires |r| <= |t| && r == t[..|r|]
    ensures r == s[|s| - |t|..|s| - |t| + |r|]
  {
  }

  /** What TrimStart cuts off `s` is a whitespace prefix of `s`. */
  lemma LeadingCutIsWhitespace(s: string, t: string)
    requires |t| <= |s| && forall k :: 0 <= k < |s| - |t| ==> IsWhitespace(s[k])
    ensures AllWhitespace(s[..|s| - |t|])
  {
    var i := |s| - |t|;
    forall k | 0 <= k < i ensures IsWhitespace(s[..i][k]) {
      assert s[..i][k] == s[k];
    }
  }

  /** What TrimEnd cuts off a suffix `t` of `s` is a whitespace suffix of `s`. */
  lemma TrailingCutIsWhitespace(s: string, t: string, r: string)
    requires |t| <= |s| && t == s[|s| - |t|..]
    requires |r| <= |t| && r == t[..|r|] && forall k :: |r| <= k < |t| ==> IsWhitespace(t[k])
    ensures AllWhitespace(s[|s| - |t| + |r|..])
  {
    var j := |s| - |t| + |r|;
    forall k | 0 <= k < |s| - j ensures IsWhitespace(s[j..][k]) {
      assert s[j..][k] == t[|r| + k];
    }
  }

  /* ---------------- truthiness ---------------- */

  /** `x` used as a condition where `x` is a string field of a JSON body that
      may be missing (undefined) or null: only a non-empty string is truthy. */
  predicate Truthy(s: Option<string>)
  {
    s.Some? && s.value != ""
  }

  /** `x || fallback` for such a field. */
  function OrElse(s: Option<string>, fallback: string): (r: string)
    ensures Truthy(s) ==> r == s.value
    ensures !Truthy(s) ==> r == fallback
  {
    if Truthy(s) then s.value else fallback
  }

  /* ---------------- substring ---------------- */

  function Min(a: int, b: int): int { if a <= b then a else b }

  /** `s.substring(start, end)` for `0 <= start <= end`: both bounds are
      clamped to the length of `s`. */
  function Substring(s: string, start: nat, end: nat): (r: string)
    requires start <= end
    ensures |r| == Min(end, |s|) - Min(start, |s|)
    ensures forall i :: 0 <= i < |r| ==> r[i] == s[start + i]
  {
    s[Min(start, |s|)..Min(end, |s|)]
  }

  /* ---------------- decimal rendering ---------------- */

  predicate IsDigit(c: char)
  {
    '0' <= c <= '9'
  }

  predicate AllDigits(s: string)
  {
    forall i :: 0 <= i < |s| ==> IsDigit(s[i])
  }

  function DigitChar(d: nat): (c: char)
    requires d < 10
    ensures IsDigit(c) && c as int - '0' as int == d
  {
    (d + '0' as int) as char
  }

  /** The string a template literal makes of a non-negative integer
      (`${port}`, and the value a number becomes in a child's environment):
      one or more decimal digits. */
  function NatToString(n: nat): (r: string)
    ensures |r| >= 1 && AllDigits(r)
  {
    if n < 10 then [DigitChar(n)] else NatToString(n / 10) + [DigitChar(n % 10)]
  }

  /** The value of a string of decimal digits, as the child reads `PORT`
      back; the inverse of NatToString. */
  function DecimalValue(s: string): nat
    requires |s| >= 1 && AllDigits(s)
  {
    var last := s[|s| - 1] as int - '0' as int;
    if |s| == 1 then last else 10 * DecimalValue(s[..|s| - 1]) + last
  }

  /** Reading a rendered number back gives the number. */
  lemma {:induction false} DecimalRoundTrip(n: nat)
    ensures DecimalValue(NatToString(n)) == n
  {
    if n >= 10 {
      var s := NatToString(n);
      assert s[..|s| - 1] == NatToString(n / 10);
      DecimalRoundTrip(n / 10);
    }
  }

  /** Distinct numbers render as distinct strings. */
  lemma NatToStringInjective(a: nat, b: nat)
    ensures NatToString(a) == NatToString(b) <==> a == b
  {
    DecimalRoundTrip(a);
    DecimalRoundTrip(b);
  }
}
