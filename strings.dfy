/** Python string operations used throughout the services: `strip`,
    case mapping, prefix/suffix/substring tests, `sep.join`, `str(int)` and
    the `" ".join(s.split())` whitespace collapse. */
module Strings {

  /** The whitespace characters `str.strip()` and `str.split()` remove:
      the characters `str.isspace()` accepts, ASCII and Unicode alike. */
  predicate IsSpace(c: char) {
    c == ' ' || ('\t' <= c <= '\r') || ('\U{1C}' <= c <= '\U{1F}') || ('\U{85}' <= c && WideSpace(c))
  }

  /** The whitespace characters outside ASCII. */
  predicate WideSpace(c: char) {
    c == '\U{85}' || c == '\U{A0}' || c == '\U{1680}' || ('\U{2000}' <= c <= '\U{200A}') ||
    c == '\U{2028}' || c == '\U{2029}' || c == '\U{202F}' || c == '\U{205F}' || c == '\U{3000}'
  }

  predicate NoSpace(s: string) {
    forall i :: 0 <= i < |s| ==> !IsSpace(s[i])
  }

  predicate AllSpace(s: string) {
    forall i :: 0 <= i < |s| ==> IsSpace(s[i])
  }

  /** `s.lstrip()`. */
  function StripLeft(s: string): (r: string)
    ensures |r| <= |s| && r == s[|s| - |r|..]
    ensures r == [] || !IsSpace(r[0])
    ensures AllSpace(s[..|s| - |r|])
  {
    if s != [] && IsSpace(s[0]) then
      var r := StripLeft(s[1..]);
      assert s[..|s| - |r|] == [s[0]] + s[1..][..|s| - 1 - |r|];
      r
    else s
  }

  /** `s.rstrip()`. */
  function StripRight(s: string): (r: string)
    ensures |r| <= |s| && r == s[..|r|]
    ensures r == [] || !IsSpace(r[|r| - 1])
    ensures AllSpace(s[|r|..])
  {
    if s != [] && IsSpace(s[|s| - 1]) then
      var r := StripRight(s[..|s| - 1]);
      assert s[|r|..] == s[..|s| - 1][|r|..] + [s[|s| - 1]];
      r
    else s
  }

  /** `s.strip()`. */
  function Strip(s: string): string {
    StripRight(StripLeft(s))
  }

  /** `not s.strip()`: the string is empty or whitespace only. */
  predicate IsBlank(s: string) {
    Strip(s) == []
  }

  lemma StripBlank(s: string)
    ensures IsBlank(s) <==> AllSpace(s)
  {
    var l := StripLeft(s);
    var r := StripRight(l);
    if l != [] {
      assert s[|s| - |l|] == l[0];
      assert r[0] == l[0];
    } else {
      assert s[..|s|] == s;
    }
  }

  /** Text with no whitespace at either end. */
  predicate Trimmed(s: string) {
    s == [] || (!IsSpace(s[0]) && !IsSpace(s[|s| - 1]))
  }

  /** Text with no whitespace at either end is its own strip. */
  lemma StripOfTrimmed(s: string)
    requires Trimmed(s)
    ensures Strip(s) == s
  {
  }

  /** The stripped text carries no surrounding whitespace. */
  lemma StripEnds(s: string)
    ensures Trimmed(Strip(s))
  {
    var l := StripLeft(s);
    var r := StripRight(l);
    if r != [] {
      assert r[0] == l[0];
    }
  }

  /** Stripping twice is stripping once. */
  lemma StripIdempotent(s: string)
    ensures Strip(Strip(s)) == Strip(s)
  {
    StripEnds(s);
  }

  /** The lower case of a character, for ASCII letters and the Kelvin
      sign (which Python lowers to `k`); other characters are kept. */
  function LowerChar(c: char): char {
    if 'A' <= c <= 'Z' then (c as int + 32) as char
    else if c == '\U{212A}' then 'k'
    else c
  }

  /** The upper case of a character, for ASCII letters and the two
      non-ASCII letters Python raises to an ASCII one (dotless `ı` to `I`,
      long `ſ` to `S`); other characters are kept. */
  function UpperChar(c: char): char {
    if 'a' <= c <= 'z' then (c as int - 32) as char
    else if c == '\U{131}' then 'I'
    else if c == '\U{17F}' then 'S'
    else c
  }

  /** `s.lower()`, one character at a time. */
  function Lower(s: string): (r: string)
    ensures |r| == |s|
    ensures forall i :: 0 <= i < |r| ==> !('A' <= r[i] <= 'Z')
  {
    seq(|s|, i requires 0 <= i < |s| => LowerChar(s[i]))
  }

  /** `s.upper()`, one character at a time. */
  function Upper(s: string): (r: string)
    ensures |r| == |s|
    ensures forall i :: 0 <= i < |r| ==> !('a' <= r[i] <= 'z')
  {
    seq(|s|, i requires 0 <= i < |s| => UpperChar(s[i]))
  }

  /** Text laid out as a head, two blocks and a tail starts with the head
      and ends as the tail ends. */
  lemma Framed(head: string, a: string, b: string, tail: string, p: string)
    requires EndsWith(tail, p)
    ensures StartsWith(head + a + b + tail, head)
    ensures EndsWith(head + a + b + tail, p)
  {
    var r := head + a + b + tail;
    assert r[..|head|] == head;
    assert r[|r| - |p|..] == tail[|tail| - |p|..];
  }

  /** Text laid out as a head and two blocks starts with the head. */
  lemma Headed(head: string, a: string, b: string)
    ensures StartsWith(head + a + b, head)
  {
    assert (head + a + b)[..|head|] == head;
  }

  /** `s.startswith(p)`. */
  predicate StartsWith(s: string, p: string) {
    |p| <= |s| && s[..|p|] == p
  }

  /** `s.endswith(p)`. */
  predicate EndsWith(s: string, p: string) {
    |p| <= |s| && s[|s| - |p|..] == p
  }

  /** `sub in s`. */
  predicate Contains(s: string, sub: string) {
    exists i :: 0 <= i <= |s| && StartsWith(s[i..], sub)
  }

  /** `sep.join(parts)`. */
  function Join(sep: string, parts: seq<string>): string
  {
    if |parts| == 0 then []
    else if |parts| == 1 then parts[0]
    else Join(sep, parts[..|parts| - 1]) + sep + parts[|parts| - 1]
  }

  /** `s[:n]` for `n >= 0`. */
  function Take(s: string, n: nat): (r: string)
    ensures |r| <= |s| && |r| <= n && r == s[..|r|]
    ensures |s| <= n ==> r == s
    ensures |s| > n ==> r == s[..n]
  {
    if |s| <= n then s else s[..n]
  }

  /** The decimal digit character of `d`. */
  function Digit(d: nat): (c: char)
    requires d < 10
    ensures '0' <= c <= '9' && c as int - '0' as int == d
  {
    ('0' as int + d) as char
  }

  /** `str(n)` for a natural number. */
  function NatToString(n: nat): (r: string)
    ensures |r| >= 1
    ensures n >= 10 ==> |r| >= 2
    ensures forall i :: 0 <= i < |r| ==> '0' <= r[i] <= '9'
  {
    if n < 10 then [Digit(n)] else NatToString(n / 10) + [Digit(n % 10)]
  }

  /** `str(n)` for an integer. */
  function IntToString(n: int): string {
    if n < 0 then "-" + NatToString(-n) else NatToString(n)
  }

  /** Distinct numbers have distinct decimal renderings. */
  lemma {:induction false} NatToStringInjective(a: nat, b: nat)
    requires NatToString(a) == NatToString(b)
    ensures a == b
  {
    var ra, rb := NatToString(a), NatToString(b);
    if a < 10 && b < 10 {
      assert Digit(a) == ra[0] == Digit(b);
    } else if a >= 10 && b >= 10 {
      assert ra[..|ra| - 1] == NatToString(a / 10);
      assert rb[..|rb| - 1] == NatToString(b / 10);
      NatToStringInjective(a / 10, b / 10);
      assert Digit(a % 10) == ra[|ra| - 1] == Digit(b % 10);
    }
  }

  /** Distinct integers have distinct renderings: only negative ones start
      with a minus sign. */
  lemma IntToStringInjective(a: int, b: int)
    requires IntToString(a) == IntToString(b)
    ensures a == b
  {
    SignShown(a);
    SignShown(b);
    var ra, rb := IntToString(a), IntToString(b);
    if a < 0 {
      assert ra[1..] == NatToString(-a) && rb[1..] == NatToString(-b);
      NatToStringInjective(-a, -b);
    } else {
      NatToStringInjective(a, b);
    }
  }

  lemma SignShown(n: int)
    ensures IntToString(n)[0] == '-' <==> n < 0
  {
    if n >= 0 {
      assert '0' <= NatToString(n)[0] <= '9';
    }
  }

  /** Number of leading decimal digits. */
  function DigitRun(s: string): (n: nat)
    ensures n <= |s|
  {
    if s == [] || !('0' <= s[0] <= '9') then 0 else 1 + DigitRun(s[1..])
  }

  /** A rendered number followed by a non-digit can be read back off the
      front: the leading digit run is exactly the number. */
  lemma {:induction false} DigitRunOfNumber(digits: string, rest: string)
    requires forall i :: 0 <= i < |digits| ==> '0' <= digits[i] <= '9'
    requires rest != [] && !('0' <= rest[0] <= '9')
    ensures DigitRun(digits + rest) == |digits|
  {
    if digits != [] {
      assert (digits + rest)[1..] == digits[1..] + rest;
      DigitRunOfNumber(digits[1..], rest);
    } else {
      assert digits + rest == rest;
    }
  }

  /** Number of leading non-space characters. */
  function WordLength(t: string): (n: nat)
    ensures n <= |t| && NoSpace(t[..n])
    ensures n < |t| ==> IsSpace(t[n])
  {
    if t == [] || IsSpace(t[0]) then 0
    else
      var n := 1 + WordLength(t[1..]);
      assert t[..n] == [t[0]] + t[1..][..n - 1];
      n
  }

  /** `s.split()`: the maximal runs of non-space characters, in order. */
  function Words(s: string): (ws: seq<string>)
    ensures forall k :: 0 <= k < |ws| ==> ws[k] != [] && NoSpace(ws[k])
    decreases |s|
  {
    var t := StripLeft(s);
    if t == [] then []
    else
      var n := WordLength(t);
      var word := t[..n];
      var rest := Words(t[n..]);
      assert word != [] && NoSpace(word) by { assert !IsSpace(t[0]); }
      var ws := [word] + rest;
      assert forall k :: 0 <= k < |ws| ==> ws[k] != [] && NoSpace(ws[k]) by {
        forall k | 0 <= k < |ws| ensures ws[k] != [] && NoSpace(ws[k]) {
          if k > 0 { assert ws[k] == rest[k - 1]; }
        }
      }
      ws
  }

  /** `" ".join(s.split())`: whitespace runs collapsed to one space and the
      ends trimmed. */
  function Collapse(s: string): string {
    Join(" ", Words(s))
  }

  /** Text in which every whitespace character is a single space standing
      between two non-space characters. */
  predicate SingleSpaced(c: string) {
    forall i :: 0 <= i < |c| && IsSpace(c[i]) ==>
      c[i] == ' ' && 0 < i < |c| - 1 && !IsSpace(c[i - 1]) && !IsSpace(c[i + 1])
  }

  lemma {:induction false} JoinSingleSpaced(ws: seq<string>)
    requires forall k :: 0 <= k < |ws| ==> ws[k] != [] && NoSpace(ws[k])
    ensures SingleSpaced(Join(" ", ws))
    ensures ws != [] ==> Join(" ", ws) != [] && !IsSpace(Join(" ", ws)[|Join(" ", ws)| - 1])
  {
    if |ws| > 1 {
      var front, w := ws[..|ws| - 1], ws[|ws| - 1];
      JoinSingleSpaced(front);
      var a := Join(" ", front);
      var c := a + " " + w;
      assert c == Join(" ", ws);
      forall i | 0 <= i < |c| && IsSpace(c[i])
        ensures c[i] == ' ' && 0 < i < |c| - 1 && !IsSpace(c[i - 1]) && !IsSpace(c[i + 1])
      {
        if i < |a| {
          assert c[i] == a[i];
          if i + 1 < |a| { assert c[i + 1] == a[i + 1]; }
          else { assert false; }
          assert c[i - 1] == a[i - 1];
        } else if i == |a| {
          assert c[i - 1] == a[|a| - 1];
          assert c[i + 1] == w[0];
        }
      }
    }
  }

  /** The collapse is empty exactly for blank text. */
  lemma CollapseBlank(s: string)
    ensures Collapse(s) == [] <==> IsBlank(s)
  {
    StripBlank(s);
    var t := StripLeft(s);
    if t == [] {
      assert s[..|s| - |t|] == s;
    } else {
      assert s[|s| - |t|] == t[0];
      JoinSingleSpaced(Words(s));
    }
  }

  /** The collapse leaves only single spaces between non-space runs. */
  lemma CollapseSingleSpaced(s: string)
    ensures SingleSpaced(Collapse(s))
  {
    JoinSingleSpaced(Words(s));
  }
}
