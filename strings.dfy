/**
  The few `java.lang.String` operations the core relies on, over
  `seq<char>`. Case mapping covers ASCII letters only.
 */
module Strings {
  import opened Common

  function LowerChar(c: char): char {
    if 'A' <= c <= 'Z' then (c as int + 32) as char else c
  }

  function UpperChar(c: char): char {
    if 'a' <= c <= 'z' then (c as int - 32) as char else c
  }

  /** `s.toLowerCase()` restricted to ASCII. */
  function ToLower(s: string): (r: string)
    ensures |r| == |s|
    ensures forall i :: 0 <= i < |s| ==> r[i] == LowerChar(s[i])
  {
    seq(|s|, i requires 0 <= i < |s| => LowerChar(s[i]))
  }

  /** `s.toUpperCase()` restricted to ASCII. */
  function ToUpper(s: string): (r: string)
    ensures |r| == |s|
    ensures forall i :: 0 <= i < |s| ==> r[i] == UpperChar(s[i])
  {
    seq(|s|, i requires 0 <= i < |s| => UpperChar(s[i]))
  }

  lemma ToLowerIdempotent(s: string)
    ensures ToLower(ToLower(s)) == ToLower(s)
  {
  }

  predicate StartsWith(s: string, prefix: string) {
    |prefix| <= |s| && s[..|prefix|] == prefix
  }

  predicate EndsWith(s: string, suffix: string) {
    |suffix| <= |s| && s[|s| - |suffix|..] == suffix
  }

  /** `s.contains(sub)`. */
  predicate Contains(s: string, sub: string) {
    exists i :: 0 <= i <= |s| - |sub| && OccursAt(s, sub, i)
  }

  predicate OccursAt(s: string, sub: string, i: int)
    requires 0 <= i <= |s| - |sub|
  {
    s[i..i + |sub|] == sub
  }

  /** Whatever stands between two strings is contained in their concatenation. */
  lemma ContainsMiddle(a: string, b: string, c: string)
    ensures Contains(a + b + c, b)
  {
    var s := a + b + c;
    assert OccursAt(s, b, |a|);
  }

  lemma ContainsPrefix(a: string, c: string)
    ensures Contains(a + c, a)
  {
    ContainsMiddle("", a, c);
    assert "" + a + c == a + c;
  }

  /** `s.lastIndexOf(c)`: the last position holding `c`, or -1. */
  function LastIndexOf(s: string, c: char): (k: int)
    ensures -1 <= k < |s|
    ensures k >= 0 ==> s[k] == c
    ensures forall j :: k < j < |s| ==> s[j] != c
  {
    if |s| == 0 then -1
    else if s[|s| - 1] == c then |s| - 1
    else LastIndexOf(s[..|s| - 1], c)
  }

  /** `s.trim()`: drops every leading and trailing character up to U+0020. */
  function TrimStart(s: string): (r: string)
    ensures |r| <= |s| && r == s[|s| - |r|..]
    ensures r == [] || r[0] > ' '
    ensures forall k :: 0 <= k < |s| - |r| ==> s[k] <= ' '
  {
    if |s| > 0 && s[0] <= ' ' then TrimStart(s[1..]) else s
  }

  function TrimEnd(s: string): (r: string)
    ensures |r| <= |s| && r == s[..|r|]
    ensures r == [] || r[|r| - 1] > ' '
    ensures forall k :: |r| <= k < |s| ==> s[k] <= ' '
  {
    if |s| > 0 && s[|s| - 1] <= ' ' then TrimEnd(s[..|s| - 1]) else s
  }

  function Trim(s: string): string {
    TrimEnd(TrimStart(s))
  }

  /** `t` is what `trim` leaves of `s` when it starts at `i`: the slice of
      `s` from `i`, with only characters up to U+0020 outside it, that is
      empty or begins and ends above U+0020. */
  predicate TrimmedAt(s: string, t: string, i: int) {
    0 <= i <= |s| - |t| && t == s[i..i + |t|] &&
    (forall k :: 0 <= k < i ==> s[k] <= ' ') &&
    (forall k :: i + |t| <= k < |s| ==> s[k] <= ' ') &&
    (t == [] || (t[0] > ' ' && t[|t| - 1] > ' '))
  }

  /** `trim` removes the leading and the trailing characters up to U+0020
      and nothing else. */
  lemma TrimIsTrimmed(s: string)
    ensures TrimmedAt(s, Trim(s), |s| - |TrimStart(s)|)
  {
    var u := TrimStart(s);
    var t := TrimEnd(u);
    assert Trim(s) == t;
    TrimmedOfParts(s, u, t, |s| - |u|);
  }

  /** A slice from `i` of the part after the blanks, with blanks after it. */
  lemma TrimmedOfParts(s: string, u: string, t: string, i: int)
    requires 0 <= i <= |s| && u == s[i..] && (forall k :: 0 <= k < i ==> s[k] <= ' ')
    requires u == [] || u[0] > ' '
    requires |t| <= |u| && t == u[..|t|] && (forall k :: |t| <= k < |u| ==> u[k] <= ' ')
    requires t == [] || t[|t| - 1] > ' '
    ensures TrimmedAt(s, t, i)
  {
    assert s[i..i + |t|] == u[..|t|];
    forall k | i + |t| <= k < |s|
      ensures s[k] <= ' '
    {
      assert s[k] == u[k - i];
    }
    if t != [] {
      assert t[0] == u[0];
    }
  }

  /** Skipping a run of blanks that ends at `i` is what `TrimStart` does. */
  lemma {:induction false} TrimStartSkips(s: string, i: int)
    requires 0 <= i <= |s| && (forall k :: 0 <= k < i ==> s[k] <= ' ') && (i == |s| || s[i] > ' ')
    ensures TrimStart(s) == s[i..]
    decreases i
  {
    if i > 0 {
      assert s[1..][i - 1..] == s[i..];
      TrimStartSkips(s[1..], i - 1);
    }
  }

  /** Dropping a run of blanks that starts at `j` is what `TrimEnd` does. */
  lemma {:induction false} TrimEndSkips(s: string, j: int)
    requires 0 <= j <= |s| && (forall k :: j <= k < |s| ==> s[k] <= ' ') && (j == 0 || s[j - 1] > ' ')
    ensures TrimEnd(s) == s[..j]
    decreases |s| - j
  {
    if j < |s| {
      var init := s[..|s| - 1];
      assert init[..j] == s[..j];
      TrimEndSkips(init, j);
    }
  }

  /** The description determines the result: a slice with only blanks
      outside it that is empty or begins and ends above U+0020 is what
      `trim` returns. */
  lemma TrimUnique(s: string, t: string, i: int)
    requires TrimmedAt(s, t, i)
    ensures Trim(s) == t
  {
    if t == [] {
      TrimStartSkips(s, |s|);
    } else {
      TrimStartSkips(s, i);
      var u := s[i..];
      assert u[..|t|] == t;
      TrimEndSkips(u, |t|);
    }
  }

  function Digit(d: nat): char
    requires d < 10
  {
    "0123456789"[d]
  }

  /** Decimal rendering of a natural number, most significant digit first. */
  function NatToString(n: nat): (r: string)
    ensures |r| > 0
    ensures forall i :: 0 <= i < |r| ==> '0' <= r[i] <= '9'
    decreases n
  {
    (if n < 10 then "" else NatToString(n / 10)) + [Digit(n % 10)]
  }

  /** `String.valueOf(int)` and the `"" + n` of string concatenation. */
  function IntToString(n: int): string {
    if n < 0 then "-" + NatToString(-n) else NatToString(n)
  }

  /** The value a string of decimal digits denotes. */
  function DigitsValue(s: string): int
    requires forall i :: 0 <= i < |s| ==> '0' <= s[i] <= '9'
  {
    if s == [] then 0
    else DigitsValue(s[..|s| - 1]) * 10 + (s[|s| - 1] as int - '0' as int)
  }

  /** Reading the digits back gives the number: the rendering loses nothing. */
  lemma {:induction false} NatToStringRoundTrip(n: nat)
    ensures DigitsValue(NatToString(n)) == n
    decreases n
  {
    var s := NatToString(n);
    var d := n % 10;
    assert s[|s| - 1] == Digit(d);
    assert "0123456789"[d] as int - '0' as int == d;
    if n >= 10 {
      assert s[..|s| - 1] == NatToString(n / 10);
      NatToStringRoundTrip(n / 10);
    } else {
      assert s[..|s| - 1] == "";
    }
  }

  /** The rendering of a number starts with '-' exactly when it is negative. */
  lemma IntToStringSign(n: int)
    ensures |IntToString(n)| > 0
    ensures IntToString(n)[0] == '-' <==> n < 0
    ensures n < 0 ==> IntToString(n)[1..] == NatToString(-n)
  {
    if n >= 0 {
      var s := NatToString(n);
      assert '0' <= s[0] <= '9';
    }
  }

  lemma NatToStringInjective(a: nat, b: nat)
    requires NatToString(a) == NatToString(b)
    ensures a == b
  {
    NatToStringRoundTrip(a);
    NatToStringRoundTrip(b);
  }

  /** Distinct codes give distinct renderings, so a message that embeds a code
      identifies it. */
  lemma {:induction false} IntToStringInjective(m: int, n: int)
    requires IntToString(m) == IntToString(n)
    ensures m == n
  {
    IntToStringSign(m);
    IntToStringSign(n);
    if m < 0 {
      NatToStringInjective(-m, -n);
    } else {
      NatToStringInjective(m, n);
    }
  }

  /** `s.indexOf(c)`: the first position holding `c`, or -1. */
  function IndexOf(s: string, c: char): (k: int)
    ensures -1 <= k < |s|
    ensures k >= 0 ==> s[k] == c
    ensures forall j :: 0 <= j < |s| && (k < 0 || j < k) ==> s[j] != c
  {
    if |s| == 0 then -1
    else if s[0] == c then 0
    else
      var k := IndexOf(s[1..], c);
      if k < 0 then -1 else k + 1
  }

  /** What follows the last `c` in `s`; all of `s` when it holds none. */
  function AfterLast(s: string, c: char): (r: string)
    ensures EndsWith(s, r)
    ensures forall i :: 0 <= i < |r| ==> r[i] != c
    ensures |r| < |s| ==> s[|s| - |r| - 1] == c
  {
    s[LastIndexOf(s, c) + 1..]
  }

  /** A suffix of a suffix is a suffix. */
  lemma EndsWithTransitive(s: string, t: string, u: string)
    requires EndsWith(s, t) && EndsWith(t, u)
    ensures EndsWith(s, u)
  {
    assert s[|s| - |u|..] == t[|t| - |u|..];
  }

  /** A string that begins with `a + b` begins with `a`. */
  lemma StartsWithPrefix(s: string, a: string, b: string)
    requires StartsWith(s, a + b)
    ensures StartsWith(s, a)
  {
    assert s[..|a|] == (a + b)[..|a|];
  }

  /** The three properties of `AfterLast` determine it: a suffix free of
      `c` that is all of `s` or follows a `c` is what follows the last one. */
  lemma AfterLastUnique(s: string, c: char, r: string)
    requires EndsWith(s, r)
    requires forall i :: 0 <= i < |r| ==> r[i] != c
    requires |r| < |s| ==> s[|s| - |r| - 1] == c
    ensures AfterLast(s, c) == r
  {
    var k := LastIndexOf(s, c);
    assert forall j :: |s| - |r| <= j < |s| ==> s[j] == r[j - (|s| - |r|)];
    if |r| < |s| {
      assert k >= |s| - |r| - 1;
    }
    assert k + 1 == |s| - |r|;
  }

  /** A name free of `c` after a prefix ending in `c` is what follows the
      last `c` of the whole. */
  lemma AfterLastAfterSeparator(prefix: string, name: string, c: char)
    requires prefix != [] && prefix[|prefix| - 1] == c
    requires forall i :: 0 <= i < |name| ==> name[i] != c
    ensures AfterLast(prefix + name, c) == name
  {
    var s := prefix + name;
    assert s[|s| - |name|..] == name;
    assert s[|s| - |name| - 1] == prefix[|prefix| - 1];
    AfterLastUnique(s, c, name);
  }

  // ----------------------------------------------------------------- UTF-8

  /** The UTF-8 encoding of one character: one byte below U+0080, then two,
      three or four. */
  function Utf8Char(c: char): (bs: seq<Byte>)
    ensures 1 <= |bs| <= 4
    ensures c as int < 0x80 <==> bs == [c as int]
  {
    var n := c as int;
    if n < 0x80 then [n]
    else if n < 0x800 then [0xC0 + n / 64, 0x80 + n % 64]
    else if n < 0x10000 then [0xE0 + n / 4096, 0x80 + (n / 64) % 64, 0x80 + n % 64]
    else [0xF0 + n / 0x40000, 0x80 + (n / 4096) % 64, 0x80 + (n / 64) % 64, 0x80 + n % 64]
  }

  /** `s.getBytes(UTF_8)`, and what a UTF-8 `Writer` emits for `s`. */
  function Utf8(s: string): (bs: seq<Byte>)
    ensures |s| <= |bs| <= 4 * |s|
  {
    if s == [] then [] else Utf8(s[..|s| - 1]) + Utf8Char(s[|s| - 1])
  }

  /** Writing two strings one after the other emits the encoding of their
      concatenation. */
  lemma {:induction false} Utf8Concat(a: string, b: string)
    ensures Utf8(a + b) == Utf8(a) + Utf8(b)
    decreases |b|
  {
    if b == [] {
      assert a + b == a;
    } else {
      var init, c := b[..|b| - 1], b[|b| - 1];
      var ab := a + b;
      assert ab[..|ab| - 1] == a + init && ab[|ab| - 1] == c;
      assert Utf8(ab) == Utf8(a + init) + Utf8Char(c);
      Utf8Concat(a, init);
      assert Utf8(b) == Utf8(init) + Utf8Char(c);
      Assoc(Utf8(a), Utf8(init), Utf8Char(c));
    }
  }

  predicate IsAscii(s: string) {
    forall i :: 0 <= i < |s| ==> s[i] as int < 0x80
  }

  /** An ASCII string is encoded one byte per character, each its code. */
  lemma {:induction false} Utf8Ascii(s: string)
    requires IsAscii(s)
    ensures |Utf8(s)| == |s|
    ensures forall i :: 0 <= i < |s| ==> Utf8(s)[i] == s[i] as int
  {
    if s != [] {
      Utf8Ascii(s[..|s| - 1]);
    }
  }
}
