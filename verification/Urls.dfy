/**
 * What happens to a URL on its way back to a handler: percent-encoding, the cut
 * at the query and the fragment, and the segments that survive both. A Go string
 * is a sequence of bytes: a char below 256 stands for one.
 */
module Urls {
  import opened Basics
  import opened Strings

  // ---------------------------------------------------------------- percent-encoding

  /** What url.PathEscape leaves alone. */
  predicate Kept(c: char) {
    'a' <= c <= 'z' || 'A' <= c <= 'Z' || '0' <= c <= '9' || c in "-_.~$&+:=@" || c as int >= 256
  }

  function HexDigit(n: nat): char
    requires n < 16
  {
    if n < 10 then (48 + n) as char else (55 + n) as char
  }

  function Unhex(c: char): Option<nat> {
    if '0' <= c <= '9' then Some(c as int - 48)
    else if 'A' <= c <= 'F' then Some(c as int - 55)
    else if 'a' <= c <= 'f' then Some(c as int - 87)
    else None
  }

  function EscapeChar(c: char): string {
    if Kept(c) then [c] else ['%', HexDigit(c as int / 16), HexDigit(c as int % 16)]
  }

  function Escape(s: string): string {
    if s == "" then "" else EscapeChar(s[0]) + Escape(s[1..])
  }

  /** Percent-decoding of one segment; None for a malformed escape. */
  function Unescape(s: string): Option<string> {
    if s == "" then Some("")
    else if s[0] != '%' then
      match Unescape(s[1..])
      case None => None
      case Some(t) => Some([s[0]] + t)
    else if |s| < 3 || Unhex(s[1]).None? || Unhex(s[2]).None? then None
    else
      var b := 16 * Unhex(s[1]).value + Unhex(s[2]).value;
      if b >= 256 then None
      else
        match Unescape(s[3..])
        case None => None
        case Some(t) => Some([b as char] + t)
  }

  /** The characters that structure a path. */
  predicate Structural(c: char) {
    c == '/' || c == '?' || c == '#'
  }

  lemma EscapedChar(c: char, rest: string)
    ensures Unescape(EscapeChar(c) + rest) ==
            match Unescape(rest) case None => None case Some(t) => Some([c] + t)
    ensures forall d :: d in EscapeChar(c) ==> !Structural(d)
  {
    var s := EscapeChar(c) + rest;
    if Kept(c) {
      assert s[1..] == rest;
    } else {
      var n := c as int;
      assert s[1] == HexDigit(n / 16) && s[2] == HexDigit(n % 16) && s[3..] == rest;
      assert Unhex(HexDigit(n / 16)) == Some(n / 16) && Unhex(HexDigit(n % 16)) == Some(n % 16);
    }
  }

  /** Decoding undoes encoding, and an encoded segment has no structure. */
  lemma {:induction false} EscapeRoundTrip(s: string)
    ensures Unescape(Escape(s)) == Some(s)
    ensures forall d :: d in Escape(s) ==> !Structural(d)
    decreases |s|
  {
    if s != "" {
      EscapeRoundTrip(s[1..]);
      EscapedChar(s[0], Escape(s[1..]));
      assert s == [s[0]] + s[1..];
    }
  }

  predicate DotOrEmpty(s: string) {
    s == "" || s == "." || s == ".."
  }

  lemma EscapeKeepsDots(s: string)
    ensures DotOrEmpty(Escape(s)) <==> DotOrEmpty(s)
  {
    EscapeRoundTrip(s);
    if DotOrEmpty(Escape(s)) {
      PlainDecodes(Escape(s));
    }
    if s == "." || s == ".." {
      assert Kept('.');
      assert Escape(".") == "." by {
        assert "."[1..] == "";
      }
      assert ".."[1..] == ".";
    }
  }

  /** Decoding never lengthens, and keeps the length only of what it leaves alone. */
  lemma {:induction false} DecodingShrinks(s: string)
    ensures Unescape(s).Some? ==> |Unescape(s).value| <= |s|
    ensures Unescape(s).Some? && |Unescape(s).value| == |s| ==> '%' !in s && Unescape(s).value == s
    decreases |s|
  {
    if s != "" {
      if s[0] != '%' {
        DecodingShrinks(s[1..]);
        assert s == [s[0]] + s[1..];
      } else if |s| >= 3 {
        DecodingShrinks(s[3..]);
      }
    }
  }

  lemma {:induction false} PlainDecodes(s: string)
    requires '%' !in s
    ensures Unescape(s) == Some(s)
    decreases |s|
  {
    if s != "" {
      assert s[0] in s && forall d :: d in s[1..] ==> d in s;
      PlainDecodes(s[1..]);
      assert s == [s[0]] + s[1..];
    }
  }

  // ---------------------------------------------------------------------- paths

  /** The path of a URL reference: what stands before the query or the fragment. */
  function PathOf(p: string): (q: string)
    ensures q <= p && '?' !in q && '#' !in q
    ensures q == p || p[|q|] == '?' || p[|q|] == '#'
  {
    if p == "" || p[0] == '?' || p[0] == '#' then "" else [p[0]] + PathOf(p[1..])
  }

  /** From some point on nothing cuts. */
  lemma CutBefore(p: string, i: nat)
    requires forall j :: i <= j < |p| ==> p[j] != '?' && p[j] != '#'
    ensures PathOf(p) == p || |PathOf(p)| < i
  {
  }

  /** Neither the cut nor the decoding looks back at what it leaves alone. */
  lemma {:induction false} PathOfAfter(x: string, y: string)
    requires '?' !in x && '#' !in x
    ensures PathOf(x + y) == x + PathOf(y)
    decreases |x|
  {
    if x == "" {
      assert x + y == y;
    } else {
      assert x[0] in x && forall d :: d in x[1..] ==> d in x;
      assert (x + y)[1..] == x[1..] + y;
      PathOfAfter(x[1..], y);
      assert x == [x[0]] + x[1..];
    }
  }

  lemma {:induction false} UnescapeAfter(x: string, y: string)
    requires '%' !in x
    ensures Unescape(x + y) == match Unescape(y) case None => None case Some(t) => Some(x + t)
    decreases |x|
  {
    if x == "" {
      assert x + y == y && forall t: string :: x + t == t;
    } else {
      assert x[0] in x && forall d :: d in x[1..] ==> d in x;
      assert (x + y)[1..] == x[1..] + y;
      UnescapeAfter(x[1..], y);
      match Unescape(y)
      case None =>
      case Some(t) => assert [x[0]] + (x[1..] + t) == x + t;
    }
  }

  /** A segment that can stand in a path as it is. */
  predicate Plain(s: string) {
    !DotOrEmpty(s) && '/' !in s && '?' !in s && '#' !in s && '%' !in s
  }
}
