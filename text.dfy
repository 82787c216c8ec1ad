/** Java string primitives the plugin relies on: decimal rendering of an `int`
    (string concatenation), `Integer.parseInt`, `String.toLowerCase`,
    `String.equalsIgnoreCase` and `String.contains`. */
module Text {
  import opened Wrappers

  const MinInt32: int := -0x8000_0000
  const MaxInt32: int := 0x7FFF_FFFF

  /** A value of Java's 32-bit `int`. */
  type Int32 = i: int | MinInt32 <= i <= MaxInt32

  /** Java's narrowing of an integer to `int`: keep the low 32 bits, two's complement. */
  function Int32Wrap(x: int): (r: Int32)
    ensures (r - x) % 0x1_0000_0000 == 0
    ensures MinInt32 <= x <= MaxInt32 ==> r == x
  {
    var m := x % 0x1_0000_0000;
    if m <= MaxInt32 then m else m - 0x1_0000_0000
  }

  // ---------------------------------------------------------------------------
  // Decimal rendering (what `"..." + n` produces for an int n)

  predicate IsDigit(c: char) { '0' <= c <= '9' }

  predicate AllDigits(s: string) { forall i :: 0 <= i < |s| ==> IsDigit(s[i]) }

  function DigitChar(d: int): (c: char)
    requires 0 <= d <= 9
    ensures IsDigit(c) && c as int - '0' as int == d
  {
    ('0' as int + d) as char
  }

  function DigitValue(c: char): (d: nat)
    requires IsDigit(c)
    ensures d <= 9 && DigitChar(d) == c
  {
    c as int - '0' as int
  }

  /** Decimal digits of a natural number, most significant first, no leading zeros. */
  function NatToString(n: nat): (s: string)
    ensures 1 <= |s| && AllDigits(s)
    ensures n < 10 <==> |s| == 1
    decreases n
  {
    if n < 10 then [DigitChar(n)] else NatToString(n / 10) + [DigitChar(n % 10)]
  }

  /** `Integer.toString(n)`: a minus sign for negative values, then the digits. */
  function IntToString(n: int): string
  {
    if n < 0 then "-" + NatToString(-n) else NatToString(n)
  }

  /** The value of a string of decimal digits. */
  function DigitsValue(s: string): nat
    requires AllDigits(s)
  {
    if |s| == 0 then 0 else DigitsValue(s[..|s| - 1]) * 10 + DigitValue(s[|s| - 1])
  }

  lemma {:induction false} DigitsValueOfNatToString(n: nat)
    ensures DigitsValue(NatToString(n)) == n
    decreases n
  {
    if n >= 10 {
      var s := NatToString(n);
      assert s[..|s| - 1] == NatToString(n / 10);
      DigitsValueOfNatToString(n / 10);
    }
  }

  /** A single decimal digit renders as exactly that digit. */
  lemma SmallIntToString(n: int)
    requires 0 <= n <= 9
    ensures IntToString(n) == [DigitChar(n)]
  {
  }

  /** `Integer.parseInt(s)`: an optional `+` or `-`, then one or more ASCII
      digits, and a value that fits in an `int`; anything else is a
      `NumberFormatException`, modelled as `None`. */
  function ParseInt(s: string): (r: Option<Int32>)
    ensures r.Some? ==> 1 <= |s|
  {
    if |s| == 0 then None
    else
      var signed := s[0] == '-' || s[0] == '+';
      var digits := if signed then s[1..] else s;
      if |digits| == 0 || !AllDigits(digits) then None
      else
        var v := if s[0] == '-' then -(DigitsValue(digits) as int) else DigitsValue(digits) as int;
        if MinInt32 <= v <= MaxInt32 then Some(v) else None
  }

  /** Parsing what `Integer.toString` printed gives the number back. */
  lemma ParseIntOfIntToString(n: Int32)
    ensures ParseInt(IntToString(n)) == Some(n)
  {
    var s := IntToString(n);
    if n < 0 {
      var digits := NatToString(-(n as int));
      assert s == "-" + digits && s[1..] == digits;
      DigitsValueOfNatToString(-(n as int));
      assert ParseInt(s) == Some(-(DigitsValue(digits) as int));
    } else {
      var digits := NatToString(n);
      assert s == digits;
      assert IsDigit(s[0]);
      DigitsValueOfNatToString(n);
      assert ParseInt(s) == Some(DigitsValue(digits) as int);
    }
  }

  /** The shape `Integer.parseInt` accepts: an optional sign, then one or more digits. */
  predicate IsNumeral(s: string)
  {
    |s| > 0 &&
    var digits := if s[0] == '-' || s[0] == '+' then s[1..] else s;
    |digits| > 0 && AllDigits(digits)
  }

  /** Only a numeral parses; a numeral fails only when its value is outside
      the `int` range. */
  lemma ParseIntOnlyNumerals(s: string)
    ensures ParseInt(s).Some? ==> IsNumeral(s)
    ensures IsNumeral(s) && ParseInt(s).None? ==>
      var digits := if s[0] == '-' || s[0] == '+' then s[1..] else s;
      var v := if s[0] == '-' then -(DigitsValue(digits) as int) else DigitsValue(digits) as int;
      v < MinInt32 || MaxInt32 < v
  {
  }

  /** A string without a single digit never parses. */
  lemma ParseIntRejectsNonNumerals(s: string)
    requires forall i :: 0 <= i < |s| ==> !IsDigit(s[i])
    ensures ParseInt(s) == None
  {
    if |s| > 0 {
      var digits := if s[0] == '-' || s[0] == '+' then s[1..] else s;
      if |digits| > 0 {
        assert !IsDigit(digits[0]);
      }
    }
  }

  // ---------------------------------------------------------------------------
  // Case

  /** Lower-casing of one character, restricted to the ASCII letters. */
  function LowerChar(c: char): (r: char)
    ensures 'A' <= c <= 'Z' ==> r as int == c as int + 32
    ensures !('A' <= c <= 'Z') ==> r == c
  {
    if 'A' <= c <= 'Z' then (c as int + 32) as char else c
  }

  function ToLower(s: string): (r: string)
    ensures |r| == |s|
    ensures forall i :: 0 <= i < |s| ==> r[i] == LowerChar(s[i])
  {
    if |s| == 0 then [] else [LowerChar(s[0])] + ToLower(s[1..])
  }

  /** Lower-casing twice is lower-casing once. */
  lemma ToLowerIdempotent(s: string)
    ensures ToLower(ToLower(s)) == ToLower(s)
  {
    var t := ToLower(s);
    assert forall i :: 0 <= i < |t| ==> LowerChar(t[i]) == t[i];
  }

  /** `String.equalsIgnoreCase`, over the ASCII letters. */
  predicate EqualsIgnoreCase(a: string, b: string)
  {
    |a| == |b| && forall i :: 0 <= i < |a| ==> LowerChar(a[i]) == LowerChar(b[i])
  }

  /** Comparing without case is comparing the lower-cased strings. */
  lemma EqualsIgnoreCaseIsLowerEquality(a: string, b: string)
    ensures EqualsIgnoreCase(a, b) <==> ToLower(a) == ToLower(b)
  {
    if ToLower(a) == ToLower(b) {
      assert |a| == |b|;
      forall i | 0 <= i < |a| ensures LowerChar(a[i]) == LowerChar(b[i]) {
        assert ToLower(a)[i] == ToLower(b)[i];
      }
    }
  }

  // ---------------------------------------------------------------------------
  // Substrings

  predicate OccursAt(s: string, t: string, k: int)
  {
    0 <= k && k + |t| <= |s| && s[k..k + |t|] == t
  }

  /** `s.contains(t)`. */
  predicate Contains(s: string, t: string)
  {
    exists k :: 0 <= k <= |s| - |t| && OccursAt(s, t, k)
  }

  /** A pattern that starts with a character absent from `s` does not occur in it. */
  lemma NotContainsWithoutFirstChar(s: string, t: string)
    requires |t| > 0 && t[0] !in s
    ensures !Contains(s, t)
  {
  }

  /** An occurrence inside the suffix of `a + b` is an occurrence in `b`. */
  lemma OccursInSuffix(a: string, b: string, t: string, k: int)
    requires |a| <= k && OccursAt(a + b, t, k)
    ensures OccursAt(b, t, k - |a|)
  {
    assert (a + b)[k..k + |t|] == b[k - |a|..k - |a| + |t|];
  }
}
