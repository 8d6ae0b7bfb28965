/** The string operations of the harness: `sep.join(...)`, `str(int)` and `str.upper()`. */
module Text {

  /** Python's `sep.join(parts)`. */
  function JoinWith(sep: string, parts: seq<string>): string
  {
    if |parts| == 0 then ""
    else if |parts| == 1 then parts[0]
    else parts[0] + sep + JoinWith(sep, parts[1..])
  }

  /** Python's `s.startswith(t)`. */
  predicate StartsWith(s: string, t: string)
  {
    |t| <= |s| && s[..|t|] == t
  }

  /** Python's `s.endswith(t)`. */
  predicate EndsWith(s: string, t: string)
  {
    |t| <= |s| && s[|s| - |t|..] == t
  }

  /** Python's `s.split(c)` for a one-character separator: the inverse of joining. */
  function SplitOn(c: char, s: string): (r: seq<string>)
    ensures |r| >= 1
  {
    if |s| == 0 then [""]
    else
      var rest := SplitOn(c, s[1..]);
      if s[0] == c then [""] + rest else [[s[0]] + rest[0]] + rest[1..]
  }

  lemma {:induction false} SplitWithoutSeparator(c: char, p: string)
    requires c !in p
    ensures SplitOn(c, p) == [p]
  {
    if |p| > 0 {
      SplitWithoutSeparator(c, p[1..]);
      assert [p[0]] + p[1..] == p;
    }
  }

  lemma {:induction false} SplitAfterPart(c: char, p: string, s: string)
    requires c !in p
    ensures SplitOn(c, p + [c] + s) == [p] + SplitOn(c, s)
  {
    if |p| == 0 {
      assert p + [c] + s == [c] + s;
      assert ([c] + s)[1..] == s;
    } else {
      assert (p + [c] + s)[1..] == p[1..] + [c] + s;
      SplitAfterPart(c, p[1..], s);
      assert [p[0]] + p[1..] == p;
    }
  }

  /** Splitting a join on a separator that occurs in no part gives the parts back. */
  lemma {:induction false} SplitJoinRoundTrip(c: char, parts: seq<string>)
    requires |parts| >= 1
    requires forall i :: 0 <= i < |parts| ==> c !in parts[i]
    ensures SplitOn(c, JoinWith([c], parts)) == parts
  {
    if |parts| == 1 {
      SplitWithoutSeparator(c, parts[0]);
    } else {
      SplitJoinRoundTrip(c, parts[1..]);
      SplitAfterPart(c, parts[0], JoinWith([c], parts[1..]));
      assert [parts[0]] + parts[1..] == parts;
    }
  }

  predicate IsDigit(c: char)
  {
    '0' as int <= c as int <= '9' as int
  }

  function DigitChar(d: nat): (c: char)
    requires d < 10
    ensures IsDigit(c) && c as int - '0' as int == d
  {
    ('0' as int + d) as char
  }

  /** Python's `str(n)` for a non-negative integer: decimal digits, no leading zero. */
  function NatToString(n: nat): (r: string)
    ensures |r| >= 1
    ensures forall i :: 0 <= i < |r| ==> IsDigit(r[i])
    ensures r[0] == '0' ==> n == 0
  {
    if n < 10 then [DigitChar(n)] else NatToString(n / 10) + [DigitChar(n % 10)]
  }

  /** Reading decimal digits back as a number (the partner of NatToString). */
  function ParseDigits(s: string): nat
    requires forall i :: 0 <= i < |s| ==> IsDigit(s[i])
  {
    if |s| == 0 then 0
    else
      assert IsDigit(s[|s| - 1]);
      ParseDigits(s[..|s| - 1]) * 10 + (s[|s| - 1] as int - '0' as int)
  }

  lemma {:induction false} NatToStringRoundTrip(n: nat)
    ensures ParseDigits(NatToString(n)) == n
  {
    if n >= 10 {
      NatToStringRoundTrip(n / 10);
      var s := NatToString(n);
      assert s[..|s| - 1] == NatToString(n / 10);
    }
  }

  /** Python's `str(i)` for any integer: a minus sign before the digits of a negative one, and
      the digits read back as the number's magnitude. */
  function IntToString(i: int): (r: string)
    ensures |r| >= 1
    ensures r[0] == '-' <==> i < 0
    ensures forall k :: 0 < k < |r| ==> IsDigit(r[k])
    ensures i >= 0 ==> (forall k :: 0 <= k < |r| ==> IsDigit(r[k])) && ParseDigits(r) == i
    ensures i < 0 ==> (forall k :: 0 <= k < |r| - 1 ==> IsDigit(r[1..][k])) && ParseDigits(r[1..]) == -i
  {
    if i < 0 then
      NatToStringRoundTrip(-i);
      assert ("-" + NatToString(-i))[1..] == NatToString(-i);
      "-" + NatToString(-i)
    else
      NatToStringRoundTrip(i);
      NatToString(i)
  }

  /** `str.upper()` restricted to ASCII letters; other characters are kept. */
  function AsciiUpper(s: string): string
  {
    seq(|s|, i requires 0 <= i < |s| => if 'a' <= s[i] <= 'z' then (s[i] as int - 32) as char else s[i])
  }

  /** Each lower-case letter becomes its capital (32 code points lower), every other character is
      kept in place, no lower-case letter is left, and upper-casing twice is upper-casing once. */
  lemma AsciiUpperIdempotent(s: string)
    ensures |AsciiUpper(s)| == |s|
    ensures forall i :: 0 <= i < |s| ==> !('a' <= AsciiUpper(s)[i] <= 'z')
    ensures forall i :: 0 <= i < |s| ==> !('a' <= s[i] <= 'z') ==> AsciiUpper(s)[i] == s[i]
    ensures forall i :: 0 <= i < |s| && 'a' <= s[i] <= 'z' ==> AsciiUpper(s)[i] as int == s[i] as int - 32
    ensures AsciiUpper(AsciiUpper(s)) == AsciiUpper(s)
  {
    var u := AsciiUpper(s);
    assert forall i :: 0 <= i < |s| ==> AsciiUpper(u)[i] == u[i];
  }
}
