/**
 * The little string handling the engines rely on: decimal rendering of
 * integers (`Number.prototype.toString`), its inverse, two-digit zero padding
 * (`padStart(2, '0')`), first-occurrence replacement (`String.prototype.replace`
 * with a string pattern) and case-insensitive substring search
 * (`toLowerCase().includes(...)`).
 */
module Text {

  predicate IsDigit(ch: char) { '0' <= ch <= '9' }

  predicate AllDigits(s: string) { forall i :: 0 <= i < |s| ==> IsDigit(s[i]) }

  function DigitChar(d: nat): (ch: char)
    requires d < 10
    ensures IsDigit(ch) && ch as int - '0' as int == d
  {
    ('0' as int + d) as char
  }

  /** Decimal rendering of a natural number, without leading zeros. */
  function NatToString(n: nat): (s: string)
    ensures 1 <= |s| && AllDigits(s)
    ensures |s| == 1 <==> n < 10
    ensures |s| > 1 ==> s[0] != '0'
  {
    if n < 10 then [DigitChar(n)] else NatToString(n / 10) + [DigitChar(n % 10)]
  }

  /** Value of a digit string; a non-digit character counts as 0. */
  function ParseDigits(s: string): nat
  {
    if s == [] then 0
    else
      var last := s[|s| - 1];
      ParseDigits(s[..|s| - 1]) * 10 + (if IsDigit(last) then last as int - '0' as int else 0)
  }

  lemma {:induction false} ParseNatToString(n: nat)
    ensures ParseDigits(NatToString(n)) == n
  {
    if n >= 10 {
      var s := NatToString(n);
      assert s[..|s| - 1] == NatToString(n / 10);
      ParseNatToString(n / 10);
    }
  }

  /** Decimal rendering of an integer: a '-' for negatives, then the digits. */
  function IntToString(i: int): (s: string)
    ensures 1 <= |s|
    ensures s[0] == '-' <==> i < 0
    ensures forall k :: 0 <= k < |s| ==> IsDigit(s[k]) || (k == 0 && s[k] == '-')
  {
    if i < 0 then "-" + NatToString(-i) else NatToString(i)
  }

  function ParseInt(s: string): int
  {
    if |s| > 0 && s[0] == '-' then 0 - ParseDigits(s[1..]) as int else ParseDigits(s)
  }

  lemma ParseIntToString(i: int)
    ensures ParseInt(IntToString(i)) == i
  {
    if i < 0 {
      assert IntToString(i)[1..] == NatToString(-i);
      ParseNatToString(-i);
    } else {
      ParseNatToString(i);
    }
  }

  /** Distinct numbers have distinct renderings, so keying a map by
      `n.toString()` is keying it by `n`. */
  lemma IntToStringInjective(a: int, b: int)
    ensures IntToString(a) == IntToString(b) ==> a == b
  {
    ParseIntToString(a);
    ParseIntToString(b);
  }

  /** `n.toString().padStart(2, '0')`. */
  function Pad2(n: nat): (s: string)
    ensures AllDigits(s) && ParseDigits(s) == n
    ensures n < 100 ==> |s| == 2
    ensures n >= 10 ==> s == NatToString(n)
  {
    var digits := NatToString(n);
    ParseNatToString(n);
    if |digits| < 2 then
      assert ("0" + digits)[..1] == "0";
      "0" + digits
    else
      digits
  }

  /** Index of the first occurrence of `ch` in `s`, or `|s|` when there is none. */
  function FirstIndex(s: string, ch: char): (i: nat)
    ensures i <= |s|
    ensures i < |s| ==> s[i] == ch
    ensures ch !in s[..i]
    ensures i == |s| <==> ch !in s
  {
    if s == [] then 0
    else if s[0] == ch then 0
    else
      var j := FirstIndex(s[1..], ch);
      assert s[..1 + j] == [s[0]] + s[1..][..j];
      1 + j
  }

  /** `s.replace(target, rep)` for a one-character string pattern. */
  function ReplaceFirst(s: string, target: char, rep: string): string
  {
    if s == [] then []
    else if s[0] == target then rep + s[1..]
    else [s[0]] + ReplaceFirst(s[1..], target, rep)
  }

  /** A prefix without the target is kept as it is. */
  lemma {:induction false} ReplaceFirstSkips(a: string, b: string, target: char, rep: string)
    requires target !in a
    ensures ReplaceFirst(a + b, target, rep) == a + ReplaceFirst(b, target, rep)
  {
    if a == [] {
      assert a + b == b;
    } else {
      assert (a + b)[0] == a[0];
      assert (a + b)[1..] == a[1..] + b;
      ReplaceFirstSkips(a[1..], b, target, rep);
      assert a == [a[0]] + a[1..];
    }
  }

  /** Only the first occurrence is replaced; without one the string is unchanged. */
  lemma {:induction false} ReplaceFirstSpec(s: string, target: char, rep: string)
    ensures target !in s ==> ReplaceFirst(s, target, rep) == s
    ensures target in s ==>
      var i := FirstIndex(s, target);
      ReplaceFirst(s, target, rep) == s[..i] + rep + s[i + 1..]
  {
    var i := FirstIndex(s, target);
    var a, b := s[..i], s[i..];
    assert s == a + b;
    ReplaceFirstSkips(a, b, target, rep);
    if i == |s| {
      assert b == [] && a == s;
      assert a + [] == s;
    } else {
      assert b[0] == target && b[1..] == s[i + 1..];
      assert ReplaceFirst(b, target, rep) == rep + s[i + 1..];
      assert a + (rep + s[i + 1..]) == a + rep + s[i + 1..];
    }
  }

  function LowerChar(ch: char): char
  {
    if 'A' <= ch <= 'Z' then (ch as int + 32) as char else ch
  }

  /** `toLowerCase()` on the ASCII letters. */
  function ToLower(s: string): (r: string)
    ensures |r| == |s|
    ensures forall i :: 0 <= i < |s| ==> r[i] == LowerChar(s[i])
  {
    if s == [] then [] else [LowerChar(s[0])] + ToLower(s[1..])
  }

  predicate OccursAt(s: string, sub: string, i: int)
  {
    0 <= i <= |s| - |sub| && s[i..i + |sub|] == sub
  }

  /** `s.includes(sub)`. */
  predicate Includes(s: string, sub: string)
  {
    exists i | 0 <= i <= |s| - |sub| :: OccursAt(s, sub, i)
  }

  /** `sub` occurs in the lowered text wherever the lowered characters spell it. */
  lemma IncludesLowered(s: string, i: nat, sub: string)
    requires i + |sub| <= |s|
    requires forall k :: 0 <= k < |sub| ==> LowerChar(s[i + k]) == sub[k]
    ensures Includes(ToLower(s), sub)
  {
    var low := ToLower(s);
    assert low[i..i + |sub|] == sub;
    assert OccursAt(low, sub, i);
  }

  /** A pattern whose first character never appears lowered does not occur. */
  lemma NotIncludesLowered(s: string, sub: string)
    requires sub != []
    requires forall i :: 0 <= i < |s| ==> LowerChar(s[i]) != sub[0]
    ensures !Includes(ToLower(s), sub)
  {
    var low := ToLower(s);
    forall i | 0 <= i <= |low| - |sub|
      ensures !OccursAt(low, sub, i)
    {
      assert low[i..i + |sub|][0] == low[i];
    }
  }
}
