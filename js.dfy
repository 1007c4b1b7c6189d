/** The few pieces of JavaScript semantics the service relies on: `undefined`,
    truthiness of strings, template-literal rendering, `${n}` for integers,
    `String.prototype.replace` with a string pattern, `split("/").pop()` and
    `toUpperCase` on ASCII letters. */
module Js {

  /** A value that may be `undefined` (or `null`, which every test here treats alike). */
  datatype Option<+T> = None | Some(value: T)

  /** JavaScript truthiness of a string-or-undefined: `undefined` and `""` are falsy. */
  predicate Truthy(v: Option<string>)
  {
    v.Some? && v.value != ""
  }

  /** What a template literal `${v}` produces for a string-or-undefined. */
  function Render(v: Option<string>): string
  {
    if v.Some? then v.value else "undefined"
  }

  /* ---------------- `${n}` for integers ---------------- */

  function DigitChar(d: nat): char
    requires d < 10
  {
    (48 + d) as char
  }

  /** `${n}` for a non-negative integer (no leading zeros); JavaScript switches
      to exponent notation only from 10^21 on, far above every value rendered here. */
  function NatToDecimal(n: nat): (s: string)
    ensures 1 <= |s|
    ensures n < 10 <==> |s| == 1
    ensures forall i :: 0 <= i < |s| ==> '0' <= s[i] <= '9'
    decreases n
  {
    if n < 10 then [DigitChar(n)] else NatToDecimal(n / 10) + [DigitChar(n % 10)]
  }

  /** `${n}` for any integer: a leading `-` exactly for a negative number,
      then the digits of its magnitude. */
  function IntToDecimal(n: int): (s: string)
    ensures 1 <= |s|
    ensures s[0] == '-' <==> n < 0
    ensures forall i :: 0 < i < |s| ==> '0' <= s[i] <= '9'
  {
    if n < 0 then "-" + NatToDecimal(-n) else NatToDecimal(n)
  }

  /** The number a string of decimal digits spells, read left to right. */
  function DecimalValue(s: string): nat
    requires forall i :: 0 <= i < |s| ==> '0' <= s[i] <= '9'
  {
    if s == [] then 0 else 10 * DecimalValue(s[..|s| - 1]) + (s[|s| - 1] as int - '0' as int)
  }

  /** `${n}` spells `n`, without leading zeros. */
  lemma {:induction false} NatToDecimalSpells(n: nat)
    ensures DecimalValue(NatToDecimal(n)) == n
    ensures |NatToDecimal(n)| > 1 ==> NatToDecimal(n)[0] != '0'
    decreases n
  {
    var s := NatToDecimal(n);
    if n < 10 {
      assert s[..0] == [];
    } else {
      var t := NatToDecimal(n / 10);
      assert s == t + [DigitChar(n % 10)];
      assert s[..|s| - 1] == t;
      NatToDecimalSpells(n / 10);
      assert s[0] == t[0];
    }
  }

  /** `${n}` for an integer spells its magnitude after the optional `-`, without
      leading zeros. */
  lemma IntToDecimalSpells(n: int)
    ensures var s := IntToDecimal(n);
      var digits := if n < 0 then s[1..] else s;
      && DecimalValue(digits) == (if n < 0 then -n else n)
      && (|digits| > 1 ==> digits[0] != '0')
  {
    if n < 0 {
      NatToDecimalSpells(-n);
      assert IntToDecimal(n)[1..] == NatToDecimal(-n);
    } else {
      NatToDecimalSpells(n);
    }
  }

  /** Distinct numbers render differently. */
  lemma {:induction false} NatToDecimalInjective(a: nat, b: nat)
    requires NatToDecimal(a) == NatToDecimal(b)
    ensures a == b
    decreases a
  {
    if a < 10 || b < 10 {
      assert NatToDecimal(a)[0] == NatToDecimal(b)[0];
    } else {
      var sa, sb := NatToDecimal(a / 10), NatToDecimal(b / 10);
      var s := NatToDecimal(a);
      assert s == sa + [DigitChar(a % 10)];
      assert s == sb + [DigitChar(b % 10)];
      assert |sa| == |sb|;
      assert sa == s[..|s| - 1] == sb;
      assert s[|s| - 1] == DigitChar(a % 10) == DigitChar(b % 10);
      NatToDecimalInjective(a / 10, b / 10);
    }
  }

  /** Distinct integers render differently: a minus sign is never a digit. */
  lemma IntToDecimalInjective(a: int, b: int)
    requires IntToDecimal(a) == IntToDecimal(b)
    ensures a == b
  {
    var s := IntToDecimal(a);
    assert s[0] == '-' <==> a < 0;
    assert IntToDecimal(b)[0] == '-' <==> b < 0;
    if a < 0 && b < 0 {
      assert NatToDecimal(-a) == s[1..] == NatToDecimal(-b);
      NatToDecimalInjective(-a, -b);
    } else if a >= 0 && b >= 0 {
      NatToDecimalInjective(a, b);
    }
  }

  /* ---------------- s.replace(pattern, "") ---------------- */

  predicate OccursAt(s: string, pattern: string, i: nat)
  {
    i + |pattern| <= |s| && s[i..i + |pattern|] == pattern
  }

  /** `s.indexOf(pattern, from)`: the first position at or after `from` where
      `pattern` occurs, or -1. */
  function IndexOf(s: string, pattern: string, from: nat): (r: int)
    ensures r == -1 || (from <= r && OccursAt(s, pattern, r))
    ensures forall j :: from <= j && (r == -1 || j < r) ==> !OccursAt(s, pattern, j)
    decreases |s| - from
  {
    if from + |pattern| > |s| then -1
    else if s[from..from + |pattern|] == pattern then from
    else IndexOf(s, pattern, from + 1)
  }

  /** `s.replace(pattern, "")` with a string pattern: only the first
      occurrence is removed. */
  function RemoveFirst(s: string, pattern: string): string
  {
    var i := IndexOf(s, pattern, 0);
    if i < 0 then s else s[..i] + s[i + |pattern|..]
  }

  /** Removing a leading pattern gives back what followed it. */
  lemma RemoveLeadingPattern(pattern: string, rest: string)
    ensures RemoveFirst(pattern + rest, pattern) == rest
  {
    var s := pattern + rest;
    assert OccursAt(s, pattern, 0);
    assert IndexOf(s, pattern, 0) == 0;
  }

  /** Strings equal after the same suffix are equal. */
  lemma CancelRight(a: string, b: string, c: string)
    requires a + c == b + c
    ensures a == b
  {
    assert |a| == |b|;
    assert a == (a + c)[..|a|];
    assert b == (b + c)[..|b|];
  }

  /** Strings equal after the same prefix are equal. */
  lemma CancelLeft(c: string, a: string, b: string)
    requires c + a == c + b
    ensures a == b
  {
    assert a == (c + a)[|c|..];
    assert b == (c + b)[|c|..];
  }

  /** `s.startsWith(p)`. */
  predicate StartsWith(s: string, p: string)
  {
    |p| <= |s| && s[..|p|] == p
  }

  /** Appending keeps a prefix. */
  lemma StartsWithAppend(a: string, b: string, p: string)
    requires StartsWith(a, p)
    ensures StartsWith(a + b, p)
  {
    assert (a + b)[..|p|] == a[..|p|];
  }

  /* ---------------- s.split("/").pop() ---------------- */

  /** `s.split("/").pop()`: the text after the last `/`, or all of `s` when it
      has no `/`. */
  function LastSegment(s: string): (r: string)
    ensures '/' !in r
    ensures |r| <= |s| && r == s[|s| - |r|..]
    ensures |r| < |s| ==> s[|s| - |r| - 1] == '/'
    decreases |s|
  {
    if |s| == 0 then ""
    else if s[|s| - 1] == '/' then ""
    else
      var init := s[..|s| - 1];
      var rest := LastSegment(init);
      assert s[|s| - |rest| - 1..] == init[|init| - |rest|..] + [s[|s| - 1]];
      rest + [s[|s| - 1]]
  }

  /** `split("/").pop()` returns exactly the text after the last `/`. */
  lemma {:induction false} LastSegmentAt(s: string, n: nat)
    requires 0 < n <= |s| && s[n - 1] == '/'
    requires forall k :: n <= k < |s| ==> s[k] != '/'
    ensures LastSegment(s) == s[n..]
    decreases |s|
  {
    if n < |s| {
      LastSegmentAt(s[..|s| - 1], n);
      assert s[..|s| - 1][n..] + [s[|s| - 1]] == s[n..];
    }
  }

  /** The segment after a final `/` is recovered exactly when it holds no `/`. */
  lemma LastSegmentAfterSlash(prefix: string, segment: string)
    requires '/' !in segment
    ensures LastSegment(prefix + "/" + segment) == segment
  {
    var s := prefix + "/" + segment;
    var n := |prefix| + 1;
    forall k | n <= k < |s| ensures s[k] != '/' {
      assert s[k] == segment[k - n];
    }
    LastSegmentAt(s, n);
    assert s[n..] == segment;
  }

  /* ---------------- toUpperCase ---------------- */

  function UpperChar(c: char): char
  {
    if 'a' <= c <= 'z' then (c as int - 32) as char else c
  }

  /** `s.toUpperCase()` on ASCII letters. */
  function ToUpperCase(s: string): (r: string)
    ensures |r| == |s|
    ensures forall i :: 0 <= i < |s| ==> r[i] == UpperChar(s[i])
  {
    seq(|s|, i requires 0 <= i < |s| => UpperChar(s[i]))
  }

  /** Two characters that are the same letter in either case, or the same character. */
  predicate SameIgnoringCase(c: char, d: char)
  {
    c == d || ('a' <= c <= 'z' && d as int == c as int - 32) || ('A' <= c <= 'Z' && d as int == c as int + 32)
  }

  /** Strings that differ only in the case of ASCII letters upper-case alike. */
  lemma UpperCaseIgnoresCase(s: string, t: string)
    requires |s| == |t|
    requires forall i :: 0 <= i < |s| ==> SameIgnoringCase(s[i], t[i])
    ensures ToUpperCase(s) == ToUpperCase(t)
  {
    forall i | 0 <= i < |s|
      ensures ToUpperCase(s)[i] == ToUpperCase(t)[i]
    {
      assert SameIgnoringCase(s[i], t[i]);
    }
  }
}
