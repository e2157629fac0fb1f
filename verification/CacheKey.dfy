/** internal/middleware/retrieval/localcache/localcache.go:169-202: cache keys. */
module CacheKey {
  import opened Basics
  import opened Strings

  datatype Artifact = Artifact(registry: string, name: string, version: string, artifactID: string)

  predicate ValidSeg(s: string) {
    s != "" && s != "." && s != ".." && '/' !in s
  }

  predicate AllValid(segs: seq<string>) {
    forall i :: 0 <= i < |segs| ==> ValidSeg(segs[i])
  }

  /** The segments before the file name, and the file name. */
  function SegmentsOf(a: Artifact): seq<string> {
    if a.artifactID == "" then [a.registry] + Split(a.name, '/') + [a.version + ".bin"]
    else [a.registry] + Split(a.name, '/') + [a.version, a.artifactID + ".bin"]
  }

  /** Which identities cacheKey accepts. */
  predicate Accepted(a: Artifact) {
    && ValidSeg(a.registry) && AllValid(Split(a.name, '/')) && ValidSeg(a.version)
    && (a.artifactID != "" ==> ValidSeg(a.artifactID))
  }

  /** filepath.Join of the segments; None for a rejected identity. */
  function KeyOf(a: Artifact): Option<string> {
    if Accepted(a) then Some(Clean(Join(SegmentsOf(a), '/'))) else None
  }

  // ---------------------------------------------------------------- filepath.Clean

  /** One segment of a path against those already kept. */
  function CleanStep(rooted: bool, kept: seq<string>, seg: string): seq<string> {
    if seg == "" || seg == "." then kept
    else if seg != ".." then kept + [seg]
    else if kept != [] && kept[|kept| - 1] != ".." then kept[..|kept| - 1]
    else if rooted then kept
    else kept + [".."]
  }

  function CleanSegs(rooted: bool, segs: seq<string>): seq<string> {
    if segs == [] then []
    else CleanStep(rooted, CleanSegs(rooted, segs[..|segs| - 1]), segs[|segs| - 1])
  }

  function Clean(p: string): string {
    var rooted := HasPrefix(p, "/");
    var kept := CleanSegs(rooted, Split(p, '/'));
    if rooted then "/" + Join(kept, '/') else if kept == [] then "." else Join(kept, '/')
  }

  lemma {:induction false} CleanKeepsValid(rooted: bool, segs: seq<string>)
    requires AllValid(segs)
    ensures CleanSegs(rooted, segs) == segs
    decreases |segs|
  {
    if segs != [] {
      assert ValidSeg(segs[|segs| - 1]);
      assert forall i :: 0 <= i < |segs| - 1 ==> segs[..|segs| - 1][i] == segs[i];
      CleanKeepsValid(rooted, segs[..|segs| - 1]);
      assert segs == segs[..|segs| - 1] + [segs[|segs| - 1]];
    }
  }

  lemma ValidAreSeparate(segs: seq<string>)
    requires AllValid(segs)
    ensures Separate(segs, '/')
  {
  }

  /** A path of valid segments is relative and already clean. */
  lemma ValidPathIsClean(segs: seq<string>)
    requires segs != [] && AllValid(segs)
    ensures Clean(Join(segs, '/')) == Join(segs, '/') && Split(Join(segs, '/'), '/') == segs
    ensures !HasPrefix(Join(segs, '/'), "/")
  {
    ValidAreSeparate(segs);
    SplitOfJoin(segs, '/');
    assert ValidSeg(segs[0]) && segs[0][0] in segs[0];
    assert Join(segs, '/')[0] == segs[0][0];
    CleanKeepsValid(false, segs);
  }

  lemma BinIsValid(s: string)
    requires ValidSeg(s)
    ensures ValidSeg(s + ".bin")
  {
    assert forall c :: c in s + ".bin" ==> c in s || c in ".bin";
  }

  lemma SegmentsValid(a: Artifact)
    requires Accepted(a)
    ensures AllValid(SegmentsOf(a)) && |SegmentsOf(a)| >= 3
  {
    BinIsValid(if a.artifactID == "" then a.version else a.artifactID);
  }

  // ------------------------------------------------------------------ main results

  /**
   * Confinement: an accepted key is a clean relative path of at least three
   * segments, none of them empty, "." or "..", so under any cache root it stays
   * below the root.
   */
  lemma KeyConfined(a: Artifact, root: seq<string>)
    requires KeyOf(a).Some? && AllValid(root)
    ensures var k := KeyOf(a).value;
            && Clean(k) == k && !HasPrefix(k, "/") && |Split(k, '/')| >= 3 && AllValid(Split(k, '/'))
            && Clean(Join(root + [k], '/')) == Join(root + Split(k, '/'), '/')
  {
    SegmentsValid(a);
    ValidPathIsClean(SegmentsOf(a));
    var k, segs := KeyOf(a).value, SegmentsOf(a);
    if root == [] {
      assert root + [k] == [k] && root + segs == segs;
    } else {
      JoinAppend(root, [k], '/');
      JoinAppend(root, segs, '/');
      assert AllValid(root + segs);
      ValidPathIsClean(root + segs);
    }
  }

  /** Exactly the traversal-free identities are accepted: every segment they bring is a plain name. */
  lemma RejectedIff(a: Artifact)
    ensures KeyOf(a).None? <==>
            !ValidSeg(a.registry) || !ValidSeg(a.version) || (a.artifactID != "" && !ValidSeg(a.artifactID))
            || exists i :: 0 <= i < |Split(a.name, '/')| && Split(a.name, '/')[i] in {"", ".", ".."}
  {
    JoinOfSplit(a.name, '/');
    var segs := Split(a.name, '/');
    assert AllValid(segs) <==> forall i :: 0 <= i < |segs| ==> segs[i] !in {"", ".", ".."};
  }

  lemma KeyIsJoin(a: Artifact)
    requires Accepted(a)
    ensures KeyOf(a) == Some(Join(SegmentsOf(a), '/')) && Split(KeyOf(a).value, '/') == SegmentsOf(a)
  {
    SegmentsValid(a);
    ValidPathIsClean(SegmentsOf(a));
  }

  /** Among identities that all have, or all lack, an artifact id, the key is the identity. */
  lemma KeyInjective(a: Artifact, b: Artifact)
    requires KeyOf(a).Some? && KeyOf(a) == KeyOf(b) && (a.artifactID == "" <==> b.artifactID == "")
    ensures a == b
  {
    KeyIsJoin(a);
    KeyIsJoin(b);
    JoinOfSplit(a.name, '/');
    JoinOfSplit(b.name, '/');
    var s, t := SegmentsOf(a), SegmentsOf(b);
    var m := |Split(a.name, '/')|;
    assert s[0] == a.registry && t[0] == b.registry;
    assert s[1..1 + m] == Split(a.name, '/') && t[1..1 + m] == Split(b.name, '/');
    SuffixTrims(a.version, ".bin");
    SuffixTrims(b.version, ".bin");
    SuffixTrims(a.artifactID, ".bin");
    SuffixTrims(b.artifactID, ".bin");
    assert s[1 + m] == t[1 + m] && s[|s| - 1] == t[|t| - 1];
  }

  /**
   * Across the two kinds the key does collide, exactly when the name of the one
   * without an artifact id is the other's name and version, and its version is
   * the other's artifact id.
   */
  lemma MixedCollision(a: Artifact, b: Artifact)
    requires Accepted(a) && Accepted(b) && a.artifactID == "" && b.artifactID != ""
    ensures KeyOf(a) == KeyOf(b) <==>
            a.registry == b.registry && a.name == b.name + "/" + b.version && a.version == b.artifactID
  {
    KeyIsJoin(a);
    KeyIsJoin(b);
    JoinOfSplit(a.name, '/');
    JoinOfSplit(b.name, '/');
    NameAndVersion(b);
    var s, t := SegmentsOf(a), SegmentsOf(b);
    var n := Split(a.name, '/');
    SuffixTrims(a.version, ".bin");
    SuffixTrims(b.artifactID, ".bin");
    assert s == [a.registry] + n + [a.version + ".bin"];
    assert t == [b.registry] + (Split(b.name, '/') + [b.version]) + [b.artifactID + ".bin"];
    if KeyOf(a) == KeyOf(b) {
      assert s[0] == t[0] && s[|s| - 1] == t[|t| - 1];
      assert s[1..|s| - 1] == n && t[1..|t| - 1] == Split(b.name, '/') + [b.version];
    }
  }

  lemma NameAndVersion(b: Artifact)
    requires Accepted(b)
    ensures Split(b.name + "/" + b.version, '/') == Split(b.name, '/') + [b.version]
    ensures Join(Split(b.name, '/') + [b.version], '/') == b.name + "/" + b.version
  {
    JoinOfSplit(b.name, '/');
    var segs := Split(b.name, '/') + [b.version];
    JoinAppend(Split(b.name, '/'), [b.version], '/');
    SplitOfJoin(segs, '/');
  }
}
