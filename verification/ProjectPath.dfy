/** internal/pipeline/project.go: project keys and project-scoped URL paths. */
module ProjectPath {
  import opened Strings

  /** [a-zA-Z0-9._-] */
  predicate KeyChar(c: char) {
    'a' <= c <= 'z' || 'A' <= c <= 'Z' || '0' <= c <= '9' || c == '.' || c == '_' || c == '-'
  }

  predicate ValidProjectKey(key: string) {
    key != "-" && 1 <= |key| <= 128 && forall i :: 0 <= i < |key| ==> KeyChar(key[i])
  }

  /** The rest of the path, and the project key ("" when the path has no project scope). */
  function ParseProjectPath(path: string): (string, string) {
    var segs := Split(TrimPrefix(path, "/"), '/');
    if |segs| < 2 || segs[0] != "p" || !ValidProjectKey(segs[1]) then (path, "")
    else ("/" + Join(segs[2..], '/'), segs[1])
  }

  lemma KeyHasNoSlash(key: string)
    requires ValidProjectKey(key)
    ensures '/' !in key && key != ""
  {
  }

  lemma SplitScoped(key: string, rest: string)
    requires ValidProjectKey(key)
    ensures Split("p/" + key + "/" + rest, '/') == ["p", key] + Split(rest, '/')
  {
    var tail := key + ['/'] + rest;
    assert "p/" + key + "/" + rest == "p" + ['/'] + tail;
    KeyHasNoSlash(key);
    SplitFirst("p", tail, '/');
    SplitFirst(key, rest, '/');
    assert ["p"] + ([key] + Split(rest, '/')) == ["p", key] + Split(rest, '/');
  }

  lemma SplitBareScope(key: string)
    requires ValidProjectKey(key)
    ensures Split("p/" + key, '/') == ["p", key]
  {
    assert "p/" + key == "p" + ['/'] + key;
    KeyHasNoSlash(key);
    SplitFirst("p", key, '/');
    SplitPlain(key, '/');
  }

  lemma ScopedParse(path: string, key: string, rest: string)
    requires ValidProjectKey(key) && TrimPrefix(path, "/") == "p/" + key + "/" + rest
    ensures ParseProjectPath(path) == ("/" + rest, key)
  {
    SplitScoped(key, rest);
    JoinOfSplit(rest, '/');
    assert (["p", key] + Split(rest, '/'))[2..] == Split(rest, '/');
  }

  lemma BareScopeParse(path: string, key: string)
    requires ValidProjectKey(key) && TrimPrefix(path, "/") == "p/" + key
    ensures ParseProjectPath(path) == ("/", key)
  {
    SplitBareScope(key);
    assert ["p", key][2..] == [];
    assert "/" + "" == "/";
  }

  /** Printing a scope and parsing it back, for every valid key and every rest; with or without the leading slash. */
  lemma ParsesBack(key: string, rest: string)
    requires ValidProjectKey(key) && HasPrefix(rest, "/")
    ensures ParseProjectPath("/p/" + key + rest) == (rest, key)
    ensures ParseProjectPath("p/" + key + rest) == (rest, key)
  {
    var s, r := "p/" + key + rest, rest[1..];
    assert rest == "/" + r && s == "p/" + key + "/" + r;
    PrefixTrims("/", s);
    assert "/p/" + key + rest == "/" + s;
    ScopedParse("/" + s, key, r);
    assert s[0] == 'p' && !HasPrefix(s, "/");
    ScopedParse(s, key, r);
  }

  /** The other direction: a found scope is the one printed in the path, and no scope means an untouched path. */
  lemma FoundIsPrinted(path: string)
    ensures var (rest, key) := ParseProjectPath(path);
            && (key == "" ==> rest == path)
            && (key != "" ==>
                  ValidProjectKey(key)
                  && (TrimPrefix(path, "/") == "p/" + key + rest
                      || (TrimPrefix(path, "/") == "p/" + key && rest == "/")))
  {
    var s := TrimPrefix(path, "/");
    var segs := Split(s, '/');
    JoinOfSplit(s, '/');
    var (rest, key) := ParseProjectPath(path);
    if key != "" {
      assert segs == ["p", key] + segs[2..];
      JoinScoped(key, segs[2..]);
    }
  }

  lemma JoinScoped(key: string, more: seq<string>)
    ensures Join(["p", key] + more, '/') == if more == [] then "p/" + key else "p/" + key + "/" + Join(more, '/')
  {
    assert Join(["p", key], '/') == "p" + "/" + key == "p/" + key;
    if more == [] {
      assert ["p", key] + more == ["p", key];
    } else {
      JoinAppend(["p", key], more, '/');
    }
  }

  /** A path is project-scoped exactly when it begins with p/key as whole segments, for a valid key. */
  lemma ScopedIff(path: string)
    ensures ParseProjectPath(path).1 != "" <==>
            exists key :: ValidProjectKey(key)
                          && (TrimPrefix(path, "/") == "p/" + key || HasPrefix(TrimPrefix(path, "/"), "p/" + key + "/"))
  {
    var s := TrimPrefix(path, "/");
    FoundIsPrinted(path);
    var (rest, key) := ParseProjectPath(path);
    if key != "" && s != "p/" + key {
      assert rest[0] == '/';
      assert "p/" + key + rest == "p/" + key + "/" + rest[1..];
      PrefixTrims("p/" + key + "/", rest[1..]);
    }
    if k :| ValidProjectKey(k) && (s == "p/" + k || HasPrefix(s, "p/" + k + "/")) {
      if s == "p/" + k {
        BareScopeParse(path, k);
      } else {
        var r := s[|"p/" + k + "/"|..];
        assert s == "p/" + k + "/" + r;
        ScopedParse(path, k, r);
      }
    }
  }
}
