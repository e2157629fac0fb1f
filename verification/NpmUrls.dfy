/**
 * The tarball URLs of a rewritten packument (internal/registry/npm/routes.go:
 * 303-325) as a client and the server read them: cut at the query and the
 * fragment, refused unless clean, percent-decoded, stripped of a project scope
 * (routes.go:43-58), and parsed (routes.go:328-354).
 */
module NpmUrls {
  import opened Basics
  import opened Strings
  import opened ProjectPath
  import opened TarballPath
  import opened Urls

  datatype Target = Target(project: string, pkg: string, version: string)

  /** A path the router passes on as it is: no dot segments, no doubled slashes. */
  predicate Clean(segs: seq<string>) {
    && |segs| >= 2 && segs[0] == ""
    && forall i :: 1 <= i < |segs| ==> segs[i] != "." && segs[i] != ".." && (segs[i] == "" ==> i == |segs| - 1)
  }

  /** serve and handleTarball: what a decoded path asks for; None when it is no tarball. */
  function Route(path: string): Option<Target> {
    var (rest, key) := ParseProjectPath(path);
    match Parse(rest)
    case None => None
    case Some((pkg, version)) => Some(Target(key, pkg, version))
  }

  /** Where a URL, behind the base, leads. */
  function Follow(p: string): Option<Target> {
    var raw := PathOf(p);
    if !Clean(Split(raw, '/')) then None
    else
      match Unescape(raw)
      case None => None
      case Some(path) => Route(path)
  }

  /** Every segment of the package can stand in a path as it is. */
  predicate PlainPackage(pkg: string) {
    forall i :: 0 <= i < |Split(pkg, '/')| ==> Plain(Split(pkg, '/')[i])
  }

  /** Package and version a rewritten URL can carry. */
  predicate Routable(pkg: string, version: string) {
    && PlainPackage(pkg) && Plain(version)
    && NoDashSegment(pkg) && !HasSuffix(version, ".tgz") && !HasPrefix(version, Base(pkg) + "-")
    && !ScopeLike(pkg)
  }

  // ------------------------------------------------------------------ from the parts

  /** No character of the path is cut at or decoded. */
  predicate Untouched(s: string) {
    '?' !in s && '#' !in s && '%' !in s
  }

  lemma PlainIsUntouched(pkg: string)
    requires PlainPackage(pkg)
    ensures Untouched(pkg) && pkg != ""
  {
    CharsOfSplit(pkg, '/', '?');
    CharsOfSplit(pkg, '/', '#');
    CharsOfSplit(pkg, '/', '%');
    assert Plain(Split(pkg, '/')[0]);
  }

  lemma UntouchedPath(p: string)
    requires Untouched(p)
    ensures PathOf(p) == p && Unescape(p) == Some(p)
  {
    assert forall j :: 0 <= j < |p| ==> p[j] in p;
    CutBefore(p, 0);
    PlainDecodes(p);
  }

  lemma OwnUntouched(pkg: string, version: string)
    ensures Untouched(OwnPath(pkg, version)) <==> Untouched(pkg) && Untouched(version)
  {
    var p := OwnPath(pkg, version);
    assert forall c :: c in p <==> c == '/' || c in pkg || c in "/-/" || c in version;
    assert forall c :: c in "/-/" ==> c == '/' || c == '-';
  }

  lemma PathSegments(pkg: string, version: string)
    requires '/' !in version
    ensures Split(OwnPath(pkg, version), '/') == [""] + Split(pkg, '/') + ["-", version]
  {
    var s := pkg + "/-/" + version;
    assert OwnPath(pkg, version) == "" + ['/'] + s;
    SplitFirst("", s, '/');
    OwnSegments(pkg, version);
    SplitPlain(version, '/');
    assert ["-"] + [version] == ["-", version];
  }

  /**
   * The segments of the path are clean exactly when those of the package, and the
   * version, are no dots and not empty.
   */
  lemma CleanIff(pkg: string, version: string)
    requires '/' !in version && version != ""
    ensures Clean(Split(OwnPath(pkg, version), '/')) <==>
            !DotOrEmpty(version) && forall i :: 0 <= i < |Split(pkg, '/')| ==> !DotOrEmpty(Split(pkg, '/')[i])
  {
    var own, segs := Split(pkg, '/'), Split(OwnPath(pkg, version), '/');
    PathSegments(pkg, version);
    assert forall i :: 0 <= i < |own| ==> segs[i + 1] == own[i];
    assert segs[|own| + 1] == "-" && segs[|own| + 2] == version;
    assert forall i :: 1 <= i <= |own| ==> segs[i] == own[i - 1];
  }

  lemma LeadsBack(pkg: string, version: string)
    requires Routable(pkg, version)
    ensures Follow(OwnPath(pkg, version)) == Some(Target("", pkg, version))
  {
    PlainIsUntouched(pkg);
    OwnUntouched(pkg, version);
    UntouchedPath(OwnPath(pkg, version));
    CleanIff(pkg, version);
    TarballsAreProjectless(pkg, version);
    RewrittenParsesBackIff(pkg, version);
  }

  // --------------------------------------------------------------------- to the parts

  /** What is parsed out of a path with a leading slash is shorter than it by four characters at least. */
  lemma ParsedLength(path: string)
    requires HasPrefix(path, "/") && Parse(path).Some?
    ensures var (pkg, version) := Parse(path).value; |path| >= |pkg| + |version| + 4
  {
    var idx := Index(path, "/-/").value;
    assert path[..idx][0] == '/';
    assert |TrimPrefix(path[..idx], "/")| == idx - 1;
  }

  lemma CleanLeads(raw: string)
    requires Clean(Split(raw, '/'))
    ensures HasPrefix(raw, "/") && (Unescape(raw).Some? ==> HasPrefix(Unescape(raw).value, "/"))
  {
  }

  /** A URL that leads back was neither cut nor decoded. */
  lemma LedBackWhole(pkg: string, version: string)
    requires Follow(OwnPath(pkg, version)) == Some(Target("", pkg, version))
    ensures var p := OwnPath(pkg, version); PathOf(p) == p && '%' !in p && Unescape(p) == Some(p)
  {
    var p := OwnPath(pkg, version);
    var raw := PathOf(p);
    CleanLeads(raw);
    var path := Unescape(raw).value;
    FoundIsPrinted(path);
    ParsedLength(path);
    DecodingShrinks(raw);
    assert |p| == |pkg| + |version| + 4;
  }

  lemma LedBack(pkg: string, version: string)
    requires Follow(OwnPath(pkg, version)) == Some(Target("", pkg, version))
    ensures Routable(pkg, version)
  {
    LedBackWhole(pkg, version);
    FoundIsPrinted(OwnPath(pkg, version));
    TarballsAreProjectless(pkg, version);
    RewrittenParsesBackIff(pkg, version);
    CleanIff(pkg, version);
    OwnUntouched(pkg, version);
    PiecesArePlain(pkg);
  }

  lemma PiecesArePlain(pkg: string)
    requires Untouched(pkg) && forall i :: 0 <= i < |Split(pkg, '/')| ==> !DotOrEmpty(Split(pkg, '/')[i])
    ensures PlainPackage(pkg)
  {
    JoinOfSplit(pkg, '/');
    CharsOfSplit(pkg, '/', '?');
    CharsOfSplit(pkg, '/', '#');
    CharsOfSplit(pkg, '/', '%');
  }

  // --------------------------------------------------------------------- main results

  /**
   * Following the URL that a rewritten packument gives a version leads back to
   * that package and version, without a project, exactly when the segments of
   * the package and the version, none of which is escaped, are plain; the pair
   * parses back; and the package does not read as a project scope.
   */
  lemma RewrittenLeadsBackIff(base: string, pkg: string, version: string)
    ensures HasPrefix(RewrittenUrl(base, pkg, version), base)
    ensures Follow(RewrittenUrl(base, pkg, version)[|base|..]) == Some(Target("", pkg, version)) <==>
            Routable(pkg, version)
  {
    PrefixTrims(base, OwnPath(pkg, version));
    if Routable(pkg, version) {
      LeadsBack(pkg, version);
    }
    if Follow(OwnPath(pkg, version)) == Some(Target("", pkg, version)) {
      LedBack(pkg, version);
    }
  }

  /**
   * A package p/key is taken for project key with no package: its rewritten URLs
   * lead nowhere, whatever the version.
   */
  lemma ScopeNamedPackage(base: string, key: string, version: string)
    requires ValidProjectKey(key)
    ensures Follow(RewrittenUrl(base, "p/" + key, version)[|base|..]).None?
  {
    var head := "/p/" + key + "/-/";
    PrefixTrims(base, OwnPath("p/" + key, version));
    assert OwnPath("p/" + key, version) == head + version;
    HeadUntouched(key);
    PathOfAfter(head, version);
    UnescapeAfter(head, PathOf(version));
    if Unescape(PathOf(version)).Some? {
      NoPackage(key, Unescape(PathOf(version)).value);
    }
  }

  lemma HeadUntouched(key: string)
    requires ValidProjectKey(key)
    ensures Untouched("/p/" + key + "/-/")
  {
    assert forall c :: c in "/p/" + key + "/-/" <==> c in "/p/" || c in key || c in "/-/";
    assert forall c :: c in "/p/" || c in "/-/" ==> c == '/' || c == 'p' || c == '-';
  }

  lemma NoPackage(key: string, tail: string)
    requires ValidProjectKey(key)
    ensures Route("/p/" + key + "/-/" + tail).None?
  {
    var rest := "/-/" + tail;
    assert "/p/" + key + "/-/" + tail == "/p/" + key + rest;
    ParsesBack(key, rest);
    assert OccursAt(rest, "/-/", 0);
  }

  /** A version with a question mark leads to another version: what stands before it. */
  lemma QueriedVersion(base: string, pkg: string, version: string, query: string)
    requires Routable(pkg, version)
    ensures Follow(RewrittenUrl(base, pkg, version + "?" + query)[|base|..]) == Some(Target("", pkg, version))
  {
    var p := OwnPath(pkg, version);
    PrefixTrims(base, OwnPath(pkg, version + "?" + query));
    assert OwnPath(pkg, version + "?" + query) == p + ("?" + query);
    PlainIsUntouched(pkg);
    OwnUntouched(pkg, version);
    QueryIsCut(p, query);
    LeadsBack(pkg, version);
  }

  lemma QueryIsCut(p: string, query: string)
    requires Untouched(p)
    ensures Follow(p + ("?" + query)) == Follow(p)
  {
    PathOfAfter(p, "?" + query);
    UntouchedPath(p);
    assert PathOf("?" + query) == "" && p + "" == p;
  }

  /** For instance p/x at 1.0 leads nowhere, and a at 1?x leads to a at 1. */
  lemma MisledExamples(base: string)
    ensures Follow(RewrittenUrl(base, "p/x", "1.0")[|base|..]).None?
    ensures Follow(RewrittenUrl(base, "a", "1?x")[|base|..]) == Some(Target("", "a", "1"))
  {
    assert "p/" + "x" == "p/x";
    ScopeNamedPackage(base, "x", "1.0");
    assert "1" + "?" + "x" == "1?x";
    PackageA();
    QueriedVersion(base, "a", "1", "x");
  }

  lemma PackageA()
    ensures Routable("a", "1")
  {
    SplitPlain("a", '/');
    assert Base("a") == "a" && !HasPrefix("1", "a" + "-");
    assert "/" + "a" + "/" == "/a/";
    assert "/a/"[0..3] == "/a/" && "/a/"[1] != "/-/"[1];
  }
}
