/** internal/registry/npm/routes.go:303-354: tarball URLs, printed and parsed. */
module TarballPath {
  import opened Basics
  import opened Strings
  import opened ProjectPath

  /** parseTarballPath. */
  function Parse(p: string): Option<(string, string)> {
    match Index(p, "/-/")
    case None => None
    case Some(idx) =>
      if idx == 0 then None
      else
        var pkg, tail := TrimPrefix(p[..idx], "/"), p[idx + 3..];
        if pkg == "" || tail == "" || '/' in tail then None
        else
          var version := TrimPrefix(TrimSuffix(tail, ".tgz"), Base(pkg) + "-");
          if version == "" then None else Some((pkg, version))
  }

  /** The path of a tarball in the proxy's own form. */
  function OwnPath(pkg: string, version: string): string {
    "/" + pkg + "/-/" + version
  }

  /** The same in the public registry's form. */
  function PublicPath(pkg: string, version: string): string {
    OwnPath(pkg, Base(pkg) + "-" + version + ".tgz")
  }

  /** No path segment of `pkg` is "-" (leading and trailing slashes count as in "/pkg/"). */
  predicate NoDashSegment(pkg: string) {
    forall i :: 0 <= i <= |pkg| ==> !OccursAt("/" + pkg + "/", "/-/", i)
  }

  lemma FoundAfter(pkg: string, tail: string)
    requires pkg != ""
    ensures Index(OwnPath(pkg, tail), "/-/") == Some(|pkg| + 1) <==> NoDashSegment(pkg)
    ensures !NoDashSegment(pkg) ==> Index(OwnPath(pkg, tail), "/-/").Some?
                                    && Index(OwnPath(pkg, tail), "/-/").value <= |pkg|
  {
    var p, q := OwnPath(pkg, tail), "/" + pkg + "/";
    assert p[..|q|] == q;
    assert p[|pkg| + 1..|pkg| + 4] == "/-/";
    assert OccursAt(p, "/-/", |pkg| + 1);
    forall i | 0 <= i <= |pkg|
      ensures OccursAt(p, "/-/", i) <==> OccursAt(q, "/-/", i)
    {
      if i + 3 <= |q| {
        assert p[i..i + 3] == q[i..i + 3];
      } else {
        assert i == |pkg|;
        assert p[i + 1] == '/' && p[i + 2] == '-';
        assert p[i..i + 3][1] == '/' && "/-/"[1] == '-';
      }
    }
  }

  /** What is made of the part behind "/-/". */
  function VersionOf(pkg: string, tail: string): string {
    TrimPrefix(TrimSuffix(tail, ".tgz"), Base(pkg) + "-")
  }

  lemma ParseAt(pkg: string, tail: string)
    requires pkg != "" && NoDashSegment(pkg)
    ensures Parse(OwnPath(pkg, tail)) ==
            if tail == "" || '/' in tail || VersionOf(pkg, tail) == "" then None else Some((pkg, VersionOf(pkg, tail)))
  {
    FoundAfter(pkg, tail);
    var p := OwnPath(pkg, tail);
    assert p[..|pkg| + 1] == "/" + pkg && p[|pkg| + 4..] == tail;
  }

  /** A pair that parses back names a package without a "-" segment. */
  lemma ParsedPackage(pkg: string, tail: string)
    ensures Parse(OwnPath(pkg, tail)).Some? && Parse(OwnPath(pkg, tail)).value.0 == pkg ==>
              pkg != "" && NoDashSegment(pkg)
  {
    var p := OwnPath(pkg, tail);
    if pkg == "" {
      assert p[0] == '/' && p[1] == '/' && p[1..4] == "/-/";
      assert !OccursAt(p, "/-/", 0);
    } else if !NoDashSegment(pkg) {
      FoundAfter(pkg, tail);
      var idx := Index(p, "/-/").value;
      assert |TrimPrefix(p[..idx], "/")| <= idx;
      assert idx > 0 ==> p[..idx][0] == '/';
    }
  }

  /**
   * The proxy's own form pkg/-/version parses back to the same pair exactly when
   * pkg is not empty, no segment of it is "-", and version is one segment that
   * neither ends in ".tgz" nor begins with the package's base name and a hyphen.
   */
  lemma RewrittenParsesBackIff(pkg: string, version: string)
    ensures Parse(OwnPath(pkg, version)) == Some((pkg, version)) <==>
            && pkg != "" && NoDashSegment(pkg) && version != "" && '/' !in version
            && !HasSuffix(version, ".tgz") && !HasPrefix(version, Base(pkg) + "-")
  {
    ParsedPackage(pkg, version);
    if pkg != "" && NoDashSegment(pkg) {
      ParseAt(pkg, version);
    }
  }

  /**
   * The public registry's form pkg/-/name-version.tgz parses back for exactly the
   * one-segment versions of such packages.
   */
  lemma PublicParsesBackIff(pkg: string, version: string)
    ensures Parse(PublicPath(pkg, version)) == Some((pkg, version)) <==>
            pkg != "" && NoDashSegment(pkg) && Base(pkg) != "/" && version != "" && '/' !in version
  {
    var tail := Base(pkg) + "-" + version + ".tgz";
    ParsedPackage(pkg, tail);
    BaseIsSegment(pkg);
    if pkg != "" && NoDashSegment(pkg) {
      ParseAt(pkg, tail);
      SuffixTrims(Base(pkg) + "-" + version, ".tgz");
      assert forall c :: c in tail <==> c in Base(pkg) || c == '-' || c in version || c in ".tgz";
    }
  }

  /** Through a project scope, both forms name the same package, version and project. */
  lemma ScopedFormsAgree(key: string, pkg: string, version: string)
    requires ValidProjectKey(key) && pkg != "" && NoDashSegment(pkg) && Base(pkg) != "/"
    requires version != "" && '/' !in version
    requires !HasSuffix(version, ".tgz") && !HasPrefix(version, Base(pkg) + "-")
    ensures var (own, k1) := ParseProjectPath("/p/" + key + OwnPath(pkg, version));
            var (public, k2) := ParseProjectPath("/p/" + key + PublicPath(pkg, version));
            k1 == k2 == key && Parse(own) == Parse(public) == Some((pkg, version))
  {
    ParsesBack(key, OwnPath(pkg, version));
    ParsesBack(key, PublicPath(pkg, version));
    RewrittenParsesBackIff(pkg, version);
    PublicParsesBackIff(pkg, version);
  }

  /** A package whose name reads as a project scope: segment "p", then a valid key. */
  predicate ScopeLike(pkg: string) {
    var segs := Split(pkg, '/');
    |segs| >= 2 && segs[0] == "p" && ValidProjectKey(segs[1])
  }

  /**
   * A tarball path is free of a project scope exactly when its package does not
   * begin with "p" and a valid key as segments. A package called "p" does not:
   * what follows it is "-", which is no key. Otherwise the second segment of the
   * package is taken for the project.
   */
  lemma TarballsAreProjectless(pkg: string, version: string)
    ensures ParseProjectPath(OwnPath(pkg, version)) == (OwnPath(pkg, version), "") <==> !ScopeLike(pkg)
    ensures ParseProjectPath(OwnPath(pkg, version)).1 == if ScopeLike(pkg) then Split(pkg, '/')[1] else ""
  {
    TrimOwn(pkg, version);
    OwnSegments(pkg, version);
    var segs := Split(pkg + "/-/" + version, '/');
    assert segs[0] == Split(pkg, '/')[0];
    assert segs[1] == if |Split(pkg, '/')| >= 2 then Split(pkg, '/')[1] else "-";
  }

  lemma TrimOwn(pkg: string, version: string)
    ensures TrimPrefix(OwnPath(pkg, version), "/") == pkg + "/-/" + version
  {
    var s := pkg + "/-/" + version;
    assert OwnPath(pkg, version) == "/" + s;
    PrefixTrims("/", s);
  }

  lemma OwnSegments(pkg: string, version: string)
    ensures Split(pkg + "/-/" + version, '/') == Split(pkg, '/') + ["-"] + Split(version, '/')
  {
    var tail := "-" + ['/'] + version;
    assert pkg + "/-/" + version == pkg + ['/'] + tail;
    SplitConcat(pkg, tail, '/');
    SplitFirst("-", version, '/');
  }

  // ----------------------------------------------------------- rewriting a packument

  // One entry of "versions": an object with its "dist" object, if that is one.
  datatype VersionDoc = NotAnObject | Object(dist: Option<map<string, string>>)

  function RewrittenUrl(base: string, pkg: string, version: string): string {
    base + OwnPath(pkg, version)
  }

  /** The "dist" object, a new one if there is none. */
  function DistOf(dist: Option<map<string, string>>): map<string, string> {
    if dist.Some? then dist.value else map[]
  }

  /** rewriteTarballs: every version object's dist.tarball points at the proxy, and nothing else changes. */
  method RewriteTarballs(versions: map<string, VersionDoc>, base: string, pkg: string)
    returns (out: map<string, VersionDoc>)
    ensures out.Keys == versions.Keys
    ensures forall v, d :: v in versions && versions[v] == Object(Some(d)) ==>
              && out[v].Object? && out[v].dist.Some? && out[v].dist.value.Keys == d.Keys + {"tarball"}
              && forall k :: k in d && k != "tarball" ==> out[v].dist.value[k] == d[k]
    ensures forall v :: v in versions ==>
              out[v] == match versions[v]
                        case NotAnObject => NotAnObject
                        case Object(dist) =>
                          Object(Some(DistOf(dist)["tarball" := RewrittenUrl(base, pkg, v)]))
  {
    out := versions;
    var left := versions.Keys;
    while left != {}
      invariant left <= versions.Keys == out.Keys
      invariant forall v :: v in left ==> out[v] == versions[v]
      invariant forall v :: v in versions && v !in left ==>
                  out[v] == match versions[v]
                            case NotAnObject => NotAnObject
                            case Object(dist) =>
                              Object(Some(DistOf(dist)["tarball" := RewrittenUrl(base, pkg, v)]))
      decreases |left|
    {
      var ver :| ver in left;
      left := left - {ver};
      if out[ver].Object? {
        var dist := if out[ver].dist.Some? then out[ver].dist.value else map[];
        assert base + "/" + pkg + "/-/" + ver == RewrittenUrl(base, pkg, ver);
        out := out[ver := Object(Some(dist["tarball" := base + "/" + pkg + "/-/" + ver]))];
      }
    }
  }
}
