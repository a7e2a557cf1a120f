/**
 * The two PHP built-ins whose exact behaviour decides which requests are
 * rejected: `trim`, and `empty` applied to its result.
 */
module Php {

  /** The characters `trim` strips by default: space, tab, newline, carriage return, NUL and vertical tab. */
  predicate IsTrimChar(c: char) {
    c == ' ' || c == '\t' || c == '\n' || c == '\r' || c == '\0' || c == '\U{0B}'
  }

  /** The end of the run of trim characters that starts at `i`: what `ltrim` skips. */
  function SkipForward(s: string, i: nat): (j: nat)
    requires i <= |s|
    ensures i <= j <= |s|
    ensures forall k :: i <= k < j ==> IsTrimChar(s[k])
    ensures j < |s| ==> !IsTrimChar(s[j])
    decreases |s| - i
  {
    if i < |s| && IsTrimChar(s[i]) then SkipForward(s, i + 1) else i
  }

  /** The start of the run of trim characters that ends at `j`, not going below `lo`: what `rtrim` skips. */
  function SkipBackward(s: string, lo: nat, j: nat): (i: nat)
    requires lo <= j <= |s|
    ensures lo <= i <= j
    ensures forall k :: i <= k < j ==> IsTrimChar(s[k])
    ensures lo < i ==> !IsTrimChar(s[i - 1])
    decreases j - lo
  {
    if lo < j && IsTrimChar(s[j - 1]) then SkipBackward(s, lo, j - 1) else j
  }

  /** Where the text `trim` keeps begins. */
  function TrimStart(s: string): nat
    ensures TrimStart(s) <= |s|
  {
    SkipForward(s, 0)
  }

  /** Where the text `trim` keeps ends. */
  function TrimEnd(s: string): nat
    ensures TrimStart(s) <= TrimEnd(s) <= |s|
  {
    SkipBackward(s, TrimStart(s), |s|)
  }

  /**
   * `trim`: `ltrim` then `rtrim`. What is left is a slice of `s` with only
   * trim characters before and after it and none at either of its ends.
   */
  function Trim(s: string): (r: string)
    ensures r == s[TrimStart(s)..TrimEnd(s)]
    ensures forall k :: 0 <= k < |s| && !(TrimStart(s) <= k < TrimEnd(s)) ==> IsTrimChar(s[k])
    ensures r != [] ==> !IsTrimChar(r[0]) && !IsTrimChar(r[|r| - 1])
  {
    s[TrimStart(s)..TrimEnd(s)]
  }

  /**
   * `empty(trim($s))`: PHP's `empty` is true of `""` and also of `"0"`, so a
   * name such as `" 0 "` is rejected as missing.
   */
  predicate IsBlank(s: string) {
    var t := Trim(s);
    t == "" || t == "0"
  }

  /** Trim characters only, or trim characters around one `'0'`. */
  ghost predicate BlankShape(s: string) {
    || (forall k :: 0 <= k < |s| ==> IsTrimChar(s[k]))
    || exists i :: 0 <= i < |s| && s[i] == '0' && forall k :: 0 <= k < |s| && k != i ==> IsTrimChar(s[k])
  }

  /** Every blank string has one of the two shapes. */
  lemma BlankHasShape(s: string)
    requires IsBlank(s)
    ensures BlankShape(s)
  {
    var a, b := TrimStart(s), TrimEnd(s);
    if Trim(s) == "" {
      assert a == b;
    } else {
      assert b == a + 1 && s[a] == '0';
      assert forall k :: 0 <= k < |s| && k != a ==> IsTrimChar(s[k]);
    }
  }

  /** Every string of either shape is blank. */
  lemma ShapeIsBlank(s: string)
    requires BlankShape(s)
    ensures IsBlank(s)
  {
    var a, b := TrimStart(s), TrimEnd(s);
    if forall k :: 0 <= k < |s| ==> IsTrimChar(s[k]) {
      assert a == |s|;
    } else {
      var i :| 0 <= i < |s| && s[i] == '0' && forall k :: 0 <= k < |s| && k != i ==> IsTrimChar(s[k]);
      assert a == i;
      assert b == i + 1;
      assert Trim(s) == [s[i]];
    }
  }

  /**
   * An independent description of the blank strings: those made only of trim
   * characters, and those made of trim characters around a single `'0'`.
   */
  lemma BlankIff(s: string)
    ensures IsBlank(s) <==> BlankShape(s)
  {
    if IsBlank(s) {
      BlankHasShape(s);
    }
    if BlankShape(s) {
      ShapeIsBlank(s);
    }
  }

  /** Trimming twice changes nothing more than trimming once. */
  lemma TrimIdempotent(s: string)
    ensures Trim(Trim(s)) == Trim(s)
  {
    var t := Trim(s);
    if t != [] {
      assert TrimStart(t) == 0;
      assert TrimEnd(t) == |t|;
    }
  }

  /** The digit for `d`. */
  function DigitChar(d: int): (c: char)
    requires 0 <= d < 10
    ensures '0' <= c <= '9' && c as int - '0' as int == d
  {
    (d + '0' as int) as char
  }

  /** PHP's decimal rendering of a non-negative integer: digits only, no leading zero. */
  function NatToString(n: nat): (r: string)
    ensures r != [] && (r[0] == '0' ==> n == 0)
    ensures forall k :: 0 <= k < |r| ==> '0' <= r[k] <= '9'
    decreases n
  {
    if n < 10 then [DigitChar(n)] else NatToString(n / 10) + [DigitChar(n % 10)]
  }

  /** The value of a string of decimal digits. */
  function DigitsValue(s: string): nat
    requires forall k :: 0 <= k < |s| ==> '0' <= s[k] <= '9'
  {
    if s == [] then 0 else 10 * DigitsValue(s[..|s| - 1]) + (s[|s| - 1] as int - '0' as int)
  }

  /** Reading the rendering back gives the number: distinct ids give distinct messages. */
  lemma {:induction false} NatToStringRoundTrip(n: nat)
    ensures DigitsValue(NatToString(n)) == n
    decreases n
  {
    if n >= 10 {
      NatToStringRoundTrip(n / 10);
      var r := NatToString(n);
      assert r[..|r| - 1] == NatToString(n / 10);
    }
  }

  /** PHP's string conversion of an `int`, as used by the `.` operator: a `-` only for negatives. */
  function IntToString(n: int): (r: string)
    ensures r != [] && (r[0] == '-' <==> n < 0)
  {
    if n < 0 then "-" + NatToString(-n) else NatToString(n)
  }

  /** Different integers render differently. */
  lemma IntToStringInjective(m: int, n: int)
    requires IntToString(m) == IntToString(n)
    ensures m == n
  {
    var r := IntToString(m);
    if m < 0 {
      assert n < 0;
      assert NatToString(-m) == r[1..] == NatToString(-n);
      NatToStringRoundTrip(-m);
      NatToStringRoundTrip(-n);
    } else {
      assert n >= 0;
      NatToStringRoundTrip(m);
      NatToStringRoundTrip(n);
    }
  }
}
