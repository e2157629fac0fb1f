/**
 * internal/pypifilename/pypifilename.go, NormalizeName of
 * internal/registry/pypi/client.go and the routing gates of
 * internal/registry/pypi/routes.go: which (name, version, filename) a request
 * names, by either route.
 */
module PypiNames {
  import opened Basics
  import opened Strings

  datatype Info = Info(name: string, version: string, fileType: string, pythonTag: string, abiTag: string,
                       platformTag: string)

  const WHL := ".whl"
  const TAR_GZ := ".tar.gz"
  const ZIP := ".zip"
  const METADATA := ".metadata"

  function ParseWheel(filename: string): Option<Info> {
    var parts := Split(TrimSuffix(filename, WHL), '-');
    if |parts| < 5 then None
    else Some(Info(parts[0], parts[1], "wheel", parts[|parts| - 3], parts[|parts| - 2], parts[|parts| - 1]))
  }

  /** Without the archive suffix. */
  function Stem(filename: string): string {
    if HasSuffix(filename, TAR_GZ) then TrimSuffix(filename, TAR_GZ) else TrimSuffix(filename, ZIP)
  }

  function SdistInfo(filename: string): Info {
    var stem := Stem(filename);
    match LastIndex(stem, '-')
    case None => Info("", stem, "sdist", "", "", "")
    case Some(i) => Info(stem[..i], stem[i + 1..], "sdist", "", "", "")
  }

  method ParseSdist(filename: string) returns (out: Info)
    ensures out == SdistInfo(filename)
  {
    var name := TrimArchive(filename);
    out := Info("", name, "sdist", "", "", "");
    var idx := LastIndex(name, '-');
    if idx.Some? {
      out := out.(name := name[..idx.value], version := name[idx.value + 1..]);
    }
  }

  /** Its loop: the first archive suffix that matches comes off. */
  method TrimArchive(filename: string) returns (name: string)
    ensures name == Stem(filename)
  {
    var suffixes := [TAR_GZ, ZIP];
    for i := 0 to |suffixes|
      invariant i > 0 ==> !HasSuffix(filename, TAR_GZ)
      invariant i > 1 ==> !HasSuffix(filename, ZIP)
    {
      var suffix := suffixes[i];
      assert suffix == if i == 0 then TAR_GZ else ZIP;
      if HasSuffix(filename, suffix) {
        return TrimSuffix(filename, suffix);
      }
    }
    return filename;
  }

  function Parse(filename: string): Option<Info> {
    if filename == "" then None
    else if HasSuffix(filename, WHL) then ParseWheel(filename)
    else Some(SdistInfo(filename))
  }

  /** The version a filename encodes, when it encodes one. */
  function VersionIn(filename: string): Option<string> {
    match Parse(filename)
    case None => None
    case Some(info) => if info.version == "" then None else Some(info.version)
  }

  // ------------------------------------------------------------------ round trips

  /** A wheel name, section "File name convention" of PEP 427. */
  function PrintWheel(name: string, version: string, build: Option<string>, python: string, abi: string,
                      platform: string): string
  {
    Join([name, version] + (if build.Some? then [build.value] else []) + [python, abi, platform], '-') + WHL
  }

  lemma WheelParsesBack(name: string, version: string, build: Option<string>, python: string, abi: string,
                        platform: string)
    requires Separate([name, version, python, abi, platform], '-') && (build.Some? ==> '-' !in build.value)
    ensures Parse(PrintWheel(name, version, build, python, abi, platform))
         == Some(Info(name, version, "wheel", python, abi, platform))
  {
    var parts := [name, version] + (if build.Some? then [build.value] else []) + [python, abi, platform];
    var five := [name, version, python, abi, platform];
    assert five[0] == name && five[1] == version && five[2] == python && five[3] == abi && five[4] == platform;
    assert Separate(parts, '-');
    SplitOfJoin(parts, '-');
    SuffixTrims(Join(parts, '-'), WHL);
  }

  /** And every wheel name of five or six parts is a printed one. */
  lemma WheelPrintsBack(filename: string)
    requires HasSuffix(filename, WHL) && 5 <= |Split(TrimSuffix(filename, WHL), '-')| <= 6
    ensures Parse(filename).Some?
    ensures var i, parts := Parse(filename).value, Split(TrimSuffix(filename, WHL), '-');
            var build := if |parts| == 6 then Some(parts[2]) else None;
            PrintWheel(i.name, i.version, build, i.pythonTag, i.abiTag, i.platformTag)
            == filename
  {
    var stem := TrimSuffix(filename, WHL);
    JoinOfSplit(stem, '-');
    assert filename == stem + WHL;
    var parts := Split(stem, '-');
    if |parts| == 5 {
      assert parts == [parts[0], parts[1]] + [] + [parts[2], parts[3], parts[4]];
    } else {
      assert parts == [parts[0], parts[1]] + [parts[2]] + [parts[3], parts[4], parts[5]];
    }
  }

  lemma StemOf(stem: string, suffix: string)
    requires suffix == TAR_GZ || suffix == ZIP
    ensures Stem(stem + suffix) == stem && stem + suffix != "" && !HasSuffix(stem + suffix, WHL)
  {
    var f := stem + suffix;
    SuffixTrims(stem, suffix);
    LastOfSuffix(f, suffix);
    LastOfSuffix(f, WHL);
    LastOfSuffix(f, TAR_GZ);
  }

  lemma LastOfSuffix(s: string, suf: string)
    requires suf != ""
    ensures HasSuffix(s, suf) ==> s[|s| - 1] == suf[|suf| - 1]
  {
    if HasSuffix(s, suf) {
      assert s[|s| - |suf|..][|suf| - 1] == s[|s| - 1];
    }
  }

  /** A source archive name-version parses back, whatever the name, exactly when the version has no hyphen. */
  lemma SdistParsesBackIff(name: string, version: string, suffix: string)
    requires suffix == TAR_GZ || suffix == ZIP
    ensures Parse(name + "-" + version + suffix) == Some(Info(name, version, "sdist", "", "", "")) <==> '-' !in version
  {
    var stem := name + "-" + version;
    StemOf(stem, suffix);
    assert stem[|name|] == '-' && stem[|name| + 1..] == version && stem[..|name|] == name;
    if '-' !in version {
      LastIndexIs(stem, '-', |name|);
    }
  }

  // --------------------------------------------------------------- normalized names

  predicate Separator(c: char) {
    c == '-' || c == '_' || c == '.'
  }

  function Lower(c: char): char {
    if 'A' <= c <= 'Z' then c - 'A' + 'a' else c
  }

  function ToLower(s: string): (r: string)
    ensures |r| == |s| && forall i :: 0 <= i < |s| ==> r[i] == Lower(s[i])
  {
    if s == "" then "" else [Lower(s[0])] + ToLower(s[1..])
  }

  /** Every run of separators becomes one hyphen. */
  function Collapse(s: string): string {
    if s == "" then ""
    else if !Separator(s[0]) then [s[0]] + Collapse(s[1..])
    else if |s| > 1 && Separator(s[1]) then Collapse(s[1..])
    else "-" + Collapse(s[1..])
  }

  function NormalizeName(name: string): string {
    Collapse(ToLower(name))
  }

  /** The normal form: lower case, hyphens only, never two in a row. */
  predicate Normal(s: string) {
    && (forall i :: 0 <= i < |s| ==> s[i] == Lower(s[i]) && s[i] != '_' && s[i] != '.')
    && (forall i :: 0 <= i < |s| - 1 ==> s[i] != '-' || s[i + 1] != '-')
  }

  lemma {:induction false} CollapseNormal(s: string)
    requires forall i :: 0 <= i < |s| ==> s[i] == Lower(s[i])
    ensures Normal(Collapse(s)) && (s != "" ==> Collapse(s) != "")
    ensures s != "" ==> Collapse(s)[0] == if Separator(s[0]) then '-' else s[0]
    decreases |s|
  {
    if s != "" {
      CollapseNormal(s[1..]);
      var rest := Collapse(s[1..]);
      if !(Separator(s[0]) && |s| > 1 && Separator(s[1])) {
        var head := if Separator(s[0]) then '-' else s[0];
        assert Collapse(s) == [head] + rest;
        assert head == Lower(head);
      }
    }
  }

  lemma {:induction false} CollapseFixes(s: string)
    requires Normal(s)
    ensures Collapse(s) == s
    decreases |s|
  {
    if s != "" {
      assert s == [s[0]] + s[1..];
      assert forall i :: 0 <= i < |s| - 1 ==> s[1..][i] == s[i + 1];
      CollapseFixes(s[1..]);
    }
  }

  /**
   * PEP 503: the result is normal, and exactly the normal names are left alone; so
   * normalizing twice is normalizing once.
   */
  lemma Normalization(name: string)
    ensures Normal(NormalizeName(name)) && (name != "" ==> NormalizeName(name) != "")
    ensures NormalizeName(name) == name <==> Normal(name)
    ensures NormalizeName(NormalizeName(name)) == NormalizeName(name)
  {
    LowerIsLower(name);
    CollapseNormal(ToLower(name));
    NormalIsFixed(NormalizeName(name));
    if Normal(name) {
      NormalIsFixed(name);
    }
  }

  /** The same letter up to ASCII case, or any two separators. */
  predicate SameLetter(c: char, d: char) {
    || c == d || (Separator(c) && Separator(d))
    || ('A' <= c <= 'Z' && d as int == c as int + 32) || ('A' <= d <= 'Z' && c as int == d as int + 32)
  }

  /** The first two characters are in one run of separators. */
  predicate InRun(s: string) {
    |s| > 1 && Separator(s[0]) && Separator(s[1])
  }

  /** Alike letter by letter, a run of separators counting as one. */
  predicate Alike(a: string, b: string)
    decreases |a| + |b|
  {
    if InRun(a) then Alike(a[1..], b)
    else if InRun(b) then Alike(a, b[1..])
    else if a == "" || b == "" then a == b
    else SameLetter(a[0], b[0]) && Alike(a[1..], b[1..])
  }

  /** Which names are one project: exactly those that are alike. */
  lemma {:induction false} NormalizesAlike(a: string, b: string)
    ensures NormalizeName(a) == NormalizeName(b) <==> Alike(a, b)
    decreases |a| + |b|
  {
    if InRun(a) {
      SkipsRun(a);
      NormalizesAlike(a[1..], b);
    } else if InRun(b) {
      SkipsRun(b);
      NormalizesAlike(a, b[1..]);
    } else if a == "" || b == "" {
      Normalization(a);
      Normalization(b);
    } else {
      KeepsFirst(a);
      KeepsFirst(b);
      NormalizesAlike(a[1..], b[1..]);
      FirstAlike(a[0], b[0]);
      var x, y := NormalizeName(a), NormalizeName(b);
      if x == y {
        assert x[0] == y[0] && x[1..] == y[1..];
      }
    }
  }

  /** What a character becomes. */
  function Folded(c: char): char {
    if Separator(c) then '-' else Lower(c)
  }

  lemma FirstAlike(c: char, d: char)
    ensures Folded(c) == Folded(d) <==> SameLetter(c, d)
  {
  }

  lemma SkipsRun(s: string)
    requires InRun(s)
    ensures NormalizeName(s) == NormalizeName(s[1..])
  {
    assert ToLower(s)[1..] == ToLower(s[1..]);
  }

  lemma KeepsFirst(s: string)
    requires s != "" && !InRun(s)
    ensures NormalizeName(s) == [Folded(s[0])] + NormalizeName(s[1..])
  {
    assert ToLower(s)[1..] == ToLower(s[1..]);
  }

  lemma LowerIsLower(s: string)
    ensures forall i :: 0 <= i < |s| ==> ToLower(s)[i] == Lower(ToLower(s)[i])
  {
  }

  lemma NormalIsFixed(s: string)
    requires Normal(s)
    ensures NormalizeName(s) == s
  {
    assert ToLower(s) == s;
    CollapseFixes(s);
  }

  // ------------------------------------------------------------------------ routes

  /** What the trust store, the cache and every version-keyed check are keyed on. */
  datatype Triple = Triple(name: string, version: string, filename: string)

  /** The gates of serveArtifact; None is a 404. */
  function ServeArtifact(name: string, filename: string): Option<Triple> {
    if name == "" || filename == "" || HasSuffix(filename, METADATA) then None
    else
      match VersionIn(filename)
      case None => None
      case Some(v) => Some(Triple(name, v, filename))
  }

  /** handleFile: the version in the path must be the filename's own. */
  function HandleFile(pkg: string, version: string, filename: string): Option<Triple> {
    if pkg == "" || version == "" || filename == "" || HasSuffix(filename, METADATA) then None
    else if VersionIn(filename) != Some(version) then None
    else ServeArtifact(NormalizeName(pkg), filename)
  }

  /** handleUpstream: the path is decoration, only its last segment counts. */
  function HandleUpstream(allows: string -> bool, host: string, rest: string): Option<Triple> {
    if host == "" || rest == "" || !allows(host) then None
    else
      var filename := Base(rest);
      match Parse(filename)
      case None => None
      case Some(info) => if info.name == "" then None else ServeArtifact(NormalizeName(info.name), filename)
  }

  /** A filename is served under its own version only, and under one triple per project name. */
  lemma VersionBound(pkg: string, version: string, filename: string, t: Triple)
    requires HandleFile(pkg, version, filename) == Some(t)
    ensures t == Triple(NormalizeName(pkg), version, filename) && VersionIn(filename) == Some(version)
    ensures forall v :: HandleFile(pkg, v, filename).Some? ==> v == version
    ensures forall p :: NormalizeName(p) == NormalizeName(pkg) && p != "" ==>
              HandleFile(p, version, filename) == Some(t)
  {
  }

  /** The alias serves exactly an allowed host's file that /files/ serves under the name and version it encodes. */
  lemma AliasServesIff(allows: string -> bool, host: string, rest: string, t: Triple)
    ensures HandleUpstream(allows, host, rest) == Some(t) <==>
            && host != "" && rest != "" && allows(host)
            && Parse(Base(rest)).Some? && Parse(Base(rest)).value.name != ""
            && HandleFile(Parse(Base(rest)).value.name, Parse(Base(rest)).value.version, Base(rest)) == Some(t)
  {
    var filename := Base(rest);
    if Parse(filename).Some? && Parse(filename).value.name != "" {
      Normalization(Parse(filename).value.name);
    }
  }

  /** No metadata file is ever served, by either route. */
  lemma MetadataIsNotServed(allows: string -> bool, pkg: string, version: string, host: string, rest: string)
    ensures HasSuffix(rest, METADATA) ==> HandleFile(pkg, version, rest).None?
    ensures HasSuffix(Base(rest), METADATA) ==> HandleUpstream(allows, host, rest).None?
  {
  }

  /** The upstream alias names nothing new: whatever it serves, /files/ serves under the very same key. */
  lemma AliasIsReachable(allows: string -> bool, host: string, rest: string, t: Triple)
    requires HandleUpstream(allows, host, rest) == Some(t)
    ensures exists pkg, version :: HandleFile(pkg, version, t.filename) == Some(t)
    ensures t.filename == Base(rest) && '/' !in t.filename
  {
    var info := Parse(t.filename).value;
    BaseIsSegment(rest);
    assert Base(rest) != "/" by {
      assert LastIndex("/", '-') == None;
      assert Stem("/") == "/";
    }
    assert HandleFile(info.name, t.version, t.filename) == Some(t);
  }

  // ------------------------------------------------------------------- the index

  const UNPARSEABLE := "_"

  type File = map<string, string>

  function FilenameOf(f: File): string {
    if "filename" in f then f["filename"] else ""
  }

  /** The version segment of a rewritten URL. */
  function PathVersion(filename: string): string {
    match VersionIn(filename)
    case None => UNPARSEABLE
    case Some(v) => v
  }

  /** The path of a rewritten URL, behind the base: name and version as they are, the filename escaped. */
  function FilePath(name: string, version: string, escaped: string): string {
    Head(name, version) + "/" + escaped
  }

  function Head(name: string, version: string): string {
    "/files/" + name + "/" + version
  }

  lemma UrlParts(base: string, name: string, version: string, escaped: string)
    ensures base + "/files/" + name + "/" + version + "/" + escaped == base + FilePath(name, version, escaped)
  {
    assert base + "/files/" + name + "/" + version == base + Head(name, version);
    assert (base + Head(name, version)) + "/" + escaped == base + (Head(name, version) + "/" + escaped);
  }

  function RewrittenFile(f: File, base: string, name: string, escape: string -> string): File {
    f["url" := base + FilePath(name, PathVersion(FilenameOf(f)), escape(FilenameOf(f)))]
      - {"data-dist-info-metadata", "core-metadata"}
  }

  /** An entry gets its URL, loses both metadata advertisements, and keeps the rest. */
  lemma RewrittenKeeps(f: File, base: string, name: string, escape: string -> string)
    ensures var r := RewrittenFile(f, base, name, escape);
            && r.Keys == f.Keys + {"url"} - {"data-dist-info-metadata", "core-metadata"}
            && forall k :: k in r && k != "url" ==> r[k] == f[k]
  {
  }

  /**
   * rewriteIndexJSON: every file entry points at the proxy and advertises no
   * metadata; None entries are not objects.
   */
  method RewriteIndex(files: seq<Option<File>>, base: string, name: string, escape: string -> string)
    returns (out: seq<Option<File>>)
    ensures |out| == |files|
    ensures forall i :: 0 <= i < |files| ==>
              out[i] == if files[i].None? then None else Some(RewrittenFile(files[i].value, base, name, escape))
  {
    out := files;
    for i := 0 to |files|
      invariant |out| == |files| && forall j :: i <= j < |files| ==> out[j] == files[j]
      invariant forall j :: 0 <= j < i ==>
                  out[j] == if files[j].None? then None else Some(RewrittenFile(files[j].value, base, name, escape))
    {
      if out[i].Some? {
        var m := out[i].value;
        var fn := if "filename" in m then m["filename"] else "";
        var info := Parse(fn);
        var ver := if info.None? || info.value.version == "" then UNPARSEABLE else info.value.version;
        UrlParts(base, name, ver, escape(fn));
        m := m["url" := base + "/files/" + name + "/" + ver + "/" + escape(fn)];
        m := m - {"data-dist-info-metadata"};
        m := m - {"core-metadata"};
        assert m == RewrittenFile(files[i].value, base, name, escape);
        out := out[i := Some(m)];
      }
    }
  }

  /**
   * The sentinel version never passes: the gates pass exactly a filename that
   * encodes a version and is no metadata file.
   */
  lemma GatesPassIff(name: string, filename: string)
    requires name != ""
    ensures HandleFile(name, PathVersion(filename), filename) ==
            if VersionIn(filename).Some? && !HasSuffix(filename, METADATA)
            then Some(Triple(NormalizeName(name), VersionIn(filename).value, filename)) else None
  {
    Normalization(name);
  }
}
