/**
 * The URLs of a rewritten index (internal/registry/pypi/routes.go:422-453) as a
 * client and the router read them: cut at the query and the fragment, split at
 * slashes, cleaned of dot segments, percent-decoded, and matched against
 * /files/{name}/{version}/{filename} (routes.go:59).
 */
module PypiUrls {
  import opened Basics
  import opened Strings
  import opened PypiNames
  import opened Urls

  // ------------------------------------------------------------------ following a URL

  /** The three path values the file route hands to its handler; None when it does not match. */
  function Follow(p: string): Option<(string, string, string)> {
    Matched(Split(PathOf(p), '/'))
  }

  function Matched(segs: seq<string>): Option<(string, string, string)> {
    if |segs| != 5 || segs[0] != "" || segs[1] != "files"
       || DotOrEmpty(segs[2]) || DotOrEmpty(segs[3]) || DotOrEmpty(segs[4])
    then None
    else
      var n, v, f := Unescape(segs[2]), Unescape(segs[3]), Unescape(segs[4]);
      if n.None? || v.None? || f.None? then None else Some((n.value, v.value, f.value))
  }

  lemma SplitHead(name: string, version: string, last: string)
    requires '/' !in name && '/' !in version && '/' !in last
    ensures Split(FilePath(name, version, last), '/') == ["", "files", name, version, last]
  {
    var segs := ["", "files", name, version, last];
    assert segs[1..] == ["files", name, version, last] && segs[1..][1..] == [name, version, last]
        && segs[1..][1..][1..] == [version, last] && segs[1..][1..][1..][1..] == [last];
    assert Join(segs[1..][1..][1..], '/') == version + "/" + last;
    assert Join(segs[1..][1..], '/') == name + "/" + (version + "/" + last);
    assert Join(segs[1..], '/') == "files" + "/" + (name + "/" + (version + "/" + last));
    assert Join(segs, '/') == "" + "/" + ("files" + "/" + (name + "/" + (version + "/" + last)));
    assert Join(segs, '/') == Head(name, version) + "/" + last == FilePath(name, version, last);
    SplitOfJoin(segs, '/');
  }

  /** A last segment without slashes is split off whole. */
  lemma SplitLast(x: string, last: string)
    requires '/' !in last
    ensures Split(x + "/" + last, '/') == Split(x, '/') + [last]
  {
    SplitConcat(x, last, '/');
    SplitPlain(last, '/');
  }

  /** Four segments that begin with "" and "files" are a head. */
  lemma JoinHead(segs: seq<string>)
    requires |segs| == 4 && segs[0] == "" && segs[1] == "files"
    ensures Join(segs, '/') == Head(segs[2], segs[3])
  {
    assert segs[1..][1..][1..] == [segs[3]] && segs[1..][1..][0] == segs[2] && segs[1..][0] == "files";
    assert Join(segs[1..][1..], '/') == segs[2] + "/" + segs[3];
    assert Join(segs[1..], '/') == "files" + "/" + (segs[2] + "/" + segs[3]);
    assert Join(segs, '/') == "" + "/" + ("files" + "/" + (segs[2] + "/" + segs[3]));
  }

  lemma LeadsBack(name: string, version: string, filename: string)
    requires Plain(name) && Plain(version) && !DotOrEmpty(filename)
    ensures Follow(FilePath(name, version, Escape(filename))) == Some((name, version, filename))
  {
    EscapeRoundTrip(filename);
    NoCut(name, version, Escape(filename));
    SplitHead(name, version, Escape(filename));
    MatchesPlain(name, version, filename);
  }

  lemma MatchesPlain(name: string, version: string, filename: string)
    requires Plain(name) && Plain(version) && !DotOrEmpty(filename)
    ensures Matched(["", "files", name, version, Escape(filename)]) == Some((name, version, filename))
  {
    EscapeRoundTrip(filename);
    EscapeKeepsDots(filename);
    PlainDecodes(name);
    PlainDecodes(version);
  }

  lemma NoCut(name: string, version: string, last: string)
    requires forall c :: c in name || c in version || c in last ==> c != '?' && c != '#'
    ensures PathOf(FilePath(name, version, last)) == FilePath(name, version, last)
  {
    var p := FilePath(name, version, last);
    assert forall c :: c in p ==> c in "/files/" || c in name || c in version || c in last;
    assert forall j :: 0 <= j < |p| ==> p[j] in p;
    CutBefore(p, 0);
  }

  /** What a followed path says about the lengths of its segments. */
  lemma FollowedLengths(p: string, name: string, version: string, filename: string)
    requires Follow(p) == Some((name, version, filename))
    ensures |PathOf(p)| >= 9 + |name| + |version| + |filename|
  {
    var segs := Split(PathOf(p), '/');
    JoinOfSplit(PathOf(p), '/');
    DecodingShrinks(segs[2]);
    DecodingShrinks(segs[3]);
    DecodingShrinks(segs[4]);
    assert segs == segs[..4] + [segs[4]];
    JoinAppend(segs[..4], [segs[4]], '/');
    JoinHead(segs[..4]);
  }

  lemma LedBack(name: string, version: string, filename: string)
    requires Follow(FilePath(name, version, Escape(filename))) == Some((name, version, filename))
    ensures Plain(name) && Plain(version) && !DotOrEmpty(filename)
  {
    var last := Escape(filename);
    EscapeRoundTrip(filename);
    EscapeKeepsDots(filename);
    var p := FilePath(name, version, Escape(filename));
    var q := PathOf(p);
    FollowedLengths(p, name, version, filename);
    CutInHead(name, version, last);
    assert q == p;
    SplitLast(Head(name, version), last);
    var segs := Split(q, '/');
    JoinOfSplit(Head(name, version), '/');
    assert segs[..4] == Split(Head(name, version), '/');
    JoinHead(segs[..4]);
    DecodingShrinks(segs[2]);
    DecodingShrinks(segs[3]);
    SameHalves(segs[2], segs[3], name, version);
    assert forall c :: c in name || c in version ==> c in p;
    JoinOfSplit(q, '/');
  }

  /** A cut can only fall into the head. */
  lemma CutInHead(name: string, version: string, last: string)
    requires '?' !in last && '#' !in last
    ensures var p := FilePath(name, version, last); PathOf(p) != p ==> |PathOf(p)| < |Head(name, version)|
  {
    var p := FilePath(name, version, last);
    var h := |Head(name, version)|;
    assert forall j :: h < j < |p| ==> p[j] == last[j - h - 1];
    CutBefore(p, h);
  }

  lemma SameHalves(a: string, b: string, x: string, y: string)
    requires Head(a, b) == Head(x, y) && |a| >= |x| && |b| >= |y|
    ensures a == x && b == y
  {
    assert Head(a, b)[7..7 + |a|] == a && Head(x, y)[7..7 + |x|] == x;
    assert Head(a, b)[8 + |a|..] == b && Head(x, y)[8 + |x|..] == y;
  }

  // ------------------------------------------------------------------- main results

  /**
   * A rewritten path leads back to its name, version and filename exactly when the
   * two unescaped ones are plain segments.
   */
  lemma LeadsBackIff(name: string, version: string, filename: string)
    ensures Follow(FilePath(name, version, Escape(filename))) == Some((name, version, filename)) <==>
            Plain(name) && Plain(version) && !DotOrEmpty(filename)
  {
    if Plain(name) && Plain(version) && !DotOrEmpty(filename) {
      LeadsBack(name, version, filename);
    }
    if Follow(FilePath(name, version, Escape(filename))) == Some((name, version, filename)) {
      LedBack(name, version, filename);
    }
  }

  /** The URL the index gives an entry. */
  function EntryUrl(f: File, base: string, name: string): string {
    RewrittenFile(f, base, name, Escape)["url"]
  }

  /** Following the URL of an entry reaches the file route with that very file, and the gates let it pass. */
  predicate Reaches(url: string, base: string, name: string, filename: string) {
    && HasPrefix(url, base)
    && Follow(url[|base|..]) == Some((name, PathVersion(filename), filename))
    && HandleFile(name, PathVersion(filename), filename).Some?
  }

  /**
   * A rewritten URL reaches its own file exactly when the filename encodes a
   * version and is not a metadata file, and that version, which the rewrite does
   * not escape, is a plain path segment, as is the project name.
   */
  lemma RewrittenPassesIff(f: File, base: string, name: string)
    ensures var fn := FilenameOf(f);
            Reaches(EntryUrl(f, base, name), base, name, fn) <==>
              && VersionIn(fn).Some? && !HasSuffix(fn, METADATA)
              && Plain(VersionIn(fn).value) && Plain(name)
  {
    var fn := FilenameOf(f);
    RewrittenUrl(f, base, name);
    PrefixTrims(base, FilePath(name, PathVersion(fn), Escape(fn)));
    PathPasses(name, fn);
  }

  lemma RewrittenUrl(f: File, base: string, name: string)
    ensures var fn := FilenameOf(f);
            EntryUrl(f, base, name) == base + FilePath(name, PathVersion(fn), Escape(fn))
  {
  }

  lemma PathPasses(name: string, filename: string)
    ensures
      && Follow(FilePath(name, PathVersion(filename), Escape(filename)))
        == Some((name, PathVersion(filename), filename))
      && HandleFile(name, PathVersion(filename), filename).Some?
      <==>
      && VersionIn(filename).Some? && !HasSuffix(filename, METADATA)
      && Plain(VersionIn(filename).value) && Plain(name)
  {
    LeadsBackIff(name, PathVersion(filename), filename);
    if name != "" {
      GatesPassIff(name, filename);
    }
    DotFilenames();
  }

  /** The filenames that are no segment have no plain version either. */
  lemma DotFilenames()
    ensures VersionIn("").None? && VersionIn(".") == Some(".") && VersionIn("..") == Some("..")
  {
    assert Stem(".") == "." && Stem("..") == "..";
    assert LastIndex(".", '-') == None && LastIndex("..", '-') == None;
  }

  /**
   * So the gates alone do not decide: for any version that is not a plain
   * segment there is a filename that encodes it and is no metadata file, and the
   * URL the index gives it does not lead back to it.
   */
  lemma UnroutableFilename(f: File, base: string, name: string, dist: string, version: string)
    requires version != "" && '-' !in version && !Plain(version)
    requires FilenameOf(f) == dist + "-" + version + ZIP
    ensures VersionIn(FilenameOf(f)) == Some(version) && !HasSuffix(FilenameOf(f), METADATA)
    ensures !Reaches(EntryUrl(f, base, name), base, name, FilenameOf(f))
  {
    SdistParsesBackIff(dist, version, ZIP);
    StemOf(dist + "-" + version, ZIP);
    SuffixTrims(dist + "-" + version, ZIP);
    LastOfSuffix(FilenameOf(f), ZIP);
    LastOfSuffix(FilenameOf(f), METADATA);
    RewrittenPassesIff(f, base, name);
  }

  /** For instance a-1/2.zip, whose version 1/2 becomes two segments, and a-..zip, whose version is a dot. */
  lemma UnroutableExamples(f: File, base: string)
    requires FilenameOf(f) == "a-1/2.zip" || FilenameOf(f) == "a-..zip"
    ensures VersionIn(FilenameOf(f)) == Some(if FilenameOf(f) == "a-1/2.zip" then "1/2" else ".")
    ensures !HasSuffix(FilenameOf(f), METADATA) && !Reaches(EntryUrl(f, base, "a"), base, "a", FilenameOf(f))
  {
    if FilenameOf(f) == "a-1/2.zip" {
      assert "a" + "-" + "1/2" + ZIP == "a-1/2.zip" && "1/2"[1] == '/';
      UnroutableFilename(f, base, "a", "a", "1/2");
    } else {
      assert "a" + "-" + "." + ZIP == "a-..zip";
      UnroutableFilename(f, base, "a", "a", ".");
    }
  }
}
