/** The string functions the naming layer is made of, and how they undo each other. */
module Strings {
  import opened Basics

  predicate HasPrefix(s: string, p: string) {
    p <= s
  }

  predicate HasSuffix(s: string, suf: string) {
    |suf| <= |s| && s[|s| - |suf|..] == suf
  }

  function TrimPrefix(s: string, p: string): string {
    if HasPrefix(s, p) then s[|p|..] else s
  }

  function TrimSuffix(s: string, suf: string): string {
    if HasSuffix(s, suf) then s[..|s| - |suf|] else s
  }

  lemma PrefixTrims(p: string, s: string)
    ensures HasPrefix(p + s, p) && TrimPrefix(p + s, p) == s && (p + s)[|p|..] == s
  {
  }

  lemma SuffixTrims(s: string, suf: string)
    ensures HasSuffix(s + suf, suf) && TrimSuffix(s + suf, suf) == s
  {
  }

  // --------------------------------------------------------------- split and join

  /** strings.Split at a one-character separator: never empty. */
  function Split(s: string, c: char): (segs: seq<string>)
    ensures segs != []
  {
    if s == "" then [""]
    else if s[0] == c then [""] + Split(s[1..], c)
    else
      var rest := Split(s[1..], c);
      [[s[0]] + rest[0]] + rest[1..]
  }

  function Join(segs: seq<string>, c: char): string {
    if segs == [] then "" else if |segs| == 1 then segs[0] else segs[0] + [c] + Join(segs[1..], c)
  }

  /** No segment holds the separator. */
  predicate Separate(segs: seq<string>, c: char) {
    forall i :: 0 <= i < |segs| ==> c !in segs[i]
  }

  /** Extending the first segment extends the join. */
  lemma JoinHeads(x: string, segs: seq<string>, c: char)
    requires segs != []
    ensures Join([x + segs[0]] + segs[1..], c) == x + Join(segs, c)
  {
    var all := [x + segs[0]] + segs[1..];
    assert all[1..] == segs[1..];
  }

  lemma {:induction false} JoinOfSplit(s: string, c: char)
    ensures Join(Split(s, c), c) == s && Separate(Split(s, c), c)
    decreases |s|
  {
    if s != "" {
      JoinOfSplit(s[1..], c);
      var rest := Split(s[1..], c);
      assert s == [s[0]] + s[1..];
      if s[0] == c {
        assert Split(s, c) == [""] + rest && ([""] + rest)[1..] == rest;
        assert Join(Split(s, c), c) == "" + [c] + Join(rest, c);
      } else {
        JoinHeads([s[0]], rest, c);
      }
    }
  }

  lemma {:induction false} SplitPlain(s: string, c: char)
    requires c !in s
    ensures Split(s, c) == [s]
    decreases |s|
  {
    if s != "" {
      assert s[0] in s && forall d :: d in s[1..] ==> d in s;
      SplitPlain(s[1..], c);
      assert s == [s[0]] + s[1..];
    }
  }

  /** Splitting at the first separator. */
  lemma {:induction false} SplitFirst(x: string, rest: string, c: char)
    requires c !in x
    ensures Split(x + [c] + rest, c) == [x] + Split(rest, c)
    decreases |x|
  {
    var s := x + [c] + rest;
    if x == "" {
      assert s[1..] == rest;
    } else {
      assert x[0] in x && forall d :: d in x[1..] ==> d in x;
      SplitFirst(x[1..], rest, c);
      assert s[1..] == x[1..] + [c] + rest;
      assert x == [x[0]] + x[1..];
    }
  }

  lemma {:induction false} SplitOfJoin(segs: seq<string>, c: char)
    requires segs != [] && Separate(segs, c)
    ensures Split(Join(segs, c), c) == segs
    decreases |segs|
  {
    if |segs| == 1 {
      SplitPlain(segs[0], c);
    } else {
      var head, tail := segs[0], segs[1..];
      assert forall i :: 0 <= i < |tail| ==> tail[i] == segs[i + 1];
      SplitOfJoin(tail, c);
      SplitFirst(head, Join(tail, c), c);
      assert segs == [head] + tail;
    }
  }

  lemma {:induction false} JoinAppend(a: seq<string>, b: seq<string>, c: char)
    requires a != [] && b != []
    ensures Join(a + b, c) == Join(a, c) + [c] + Join(b, c)
    decreases |a|
  {
    if |a| == 1 {
      assert (a + b)[1..] == b;
    } else {
      assert (a + b)[1..] == a[1..] + b;
      JoinAppend(a[1..], b, c);
    }
  }

  /** Splitting at any one separator. */
  lemma SplitConcat(x: string, rest: string, c: char)
    ensures Split(x + [c] + rest, c) == Split(x, c) + Split(rest, c)
  {
    JoinOfSplit(x, c);
    JoinOfSplit(rest, c);
    JoinAppend(Split(x, c), Split(rest, c), c);
    SplitOfJoin(Split(x, c) + Split(rest, c), c);
  }

  /** Some segment has the character. */
  predicate InSome(d: char, segs: seq<string>) {
    exists i :: 0 <= i < |segs| && d in segs[i]
  }

  lemma InSomeFirst(d: char, x: string, more: seq<string>)
    ensures InSome(d, [x] + more) <==> d in x || InSome(d, more)
  {
    var segs := [x] + more;
    assert segs[0] == x && forall i :: 0 <= i < |more| ==> segs[i + 1] == more[i];
    assert forall i :: 1 <= i < |segs| ==> segs[i] == more[i - 1];
  }

  /** Apart from the separators, a string has the characters of its segments. */
  lemma {:induction false} CharsOfSplit(s: string, c: char, d: char)
    requires c != d
    ensures d in s <==> InSome(d, Split(s, c))
    decreases |s|
  {
    if s != "" {
      CharsOfSplit(s[1..], c, d);
      assert s == [s[0]] + s[1..];
      var rest := Split(s[1..], c);
      if s[0] == c {
        InSomeFirst(d, "", rest);
      } else {
        assert rest == [rest[0]] + rest[1..];
        InSomeFirst(d, rest[0], rest[1..]);
        InSomeFirst(d, [s[0]] + rest[0], rest[1..]);
      }
    }
  }

  // -------------------------------------------------------------------- searching

  /** `sub` occurs in `s` at i. */
  predicate OccursAt(s: string, sub: string, i: nat) {
    i + |sub| <= |s| && s[i..i + |sub|] == sub
  }

  /** strings.Index: the first occurrence from i on. */
  function IndexFrom(s: string, sub: string, i: nat): (r: Option<nat>)
    requires i <= |s|
    ensures r.Some? ==> i <= r.value && OccursAt(s, sub, r.value)
                        && forall j :: i <= j < r.value ==> !OccursAt(s, sub, j)
    ensures r.None? ==> forall j :: i <= j <= |s| ==> !OccursAt(s, sub, j)
    decreases |s| - i
  {
    if OccursAt(s, sub, i) then Some(i) else if i == |s| then None else IndexFrom(s, sub, i + 1)
  }

  function Index(s: string, sub: string): Option<nat> {
    IndexFrom(s, sub, 0)
  }

  /** strings.LastIndex of a character. */
  function LastIndex(s: string, c: char): (r: Option<nat>)
    ensures r.Some? ==> r.value < |s| && s[r.value] == c && c !in s[r.value + 1..]
    ensures r.None? ==> c !in s
  {
    if s == "" then None
    else if s[|s| - 1] == c then Some(|s| - 1)
    else
      var r := LastIndex(s[..|s| - 1], c);
      assert r.Some? ==> s[r.value + 1..] == s[..|s| - 1][r.value + 1..] + [s[|s| - 1]];
      assert s == s[..|s| - 1] + [s[|s| - 1]];
      r
  }

  lemma LastIndexIs(s: string, c: char, i: nat)
    requires i < |s| && s[i] == c && c !in s[i + 1..]
    ensures LastIndex(s, c) == Some(i)
  {
    var r := LastIndex(s, c);
    assert s[i] in s;
    assert forall j :: r.value < j < |s| ==> s[j] == s[r.value + 1..][j - r.value - 1];
    assert forall j :: i < j < |s| ==> s[j] == s[i + 1..][j - i - 1];
  }

  /** path.Base. */
  function Base(p: string): string {
    var q := TrimSlashes(p);
    if p == "" then "."
    else if q == "" then "/"
    else
      match LastIndex(q, '/')
      case None => q
      case Some(i) => q[i + 1..]
  }

  /** Without trailing slashes. */
  function TrimSlashes(p: string): string {
    if p != "" && p[|p| - 1] == '/' then TrimSlashes(p[..|p| - 1]) else p
  }

  lemma {:induction false} TrimSlashesEnd(p: string)
    ensures var q := TrimSlashes(p); q <= p && (q != "" ==> q[|q| - 1] != '/')
    decreases |p|
  {
    if p != "" && p[|p| - 1] == '/' {
      TrimSlashesEnd(p[..|p| - 1]);
    }
  }

  /** A base name is one non-empty segment, or "/" for a path of slashes. */
  lemma BaseIsSegment(p: string)
    ensures Base(p) != "" && (Base(p) == "/" || '/' !in Base(p))
  {
    TrimSlashesEnd(p);
  }
}
