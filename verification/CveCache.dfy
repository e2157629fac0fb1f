/**
 * internal/middleware/cveosv/cveosv.go:177-259: the keys of OSV answers and the
 * bounded TTL cache that holds them. Clock readings are arguments.
 */
module CveCache {
  import opened Basics
  import opened CveSeverity

  // ------------------------------------------------------------------------- keys

  datatype Package = Package(ecosystem: string, name: string, version: string)

  const BAR := '|'

  function Key(p: Package): string {
    p.ecosystem + [BAR] + p.name + [BAR] + p.version
  }

  function Ecosystem(registry: string): Option<string> {
    if registry == "npm" || registry == "pypi" then Some(registry)
    else if registry == "goproxy" then Some("Go")
    else None
  }

  predicate BarFree(s: string) {
    BAR !in s
  }

  /** No field holds the separator. */
  predicate AllBarFree(p: Package) {
    BarFree(p.ecosystem) && BarFree(p.name) && BarFree(p.version)
  }

  function Bars(s: string): nat {
    if s == "" then 0 else (if s[0] == BAR then 1 else 0) + Bars(s[1..])
  }

  lemma {:induction false} BarsConcat(a: string, b: string)
    ensures Bars(a + b) == Bars(a) + Bars(b)
  {
    if a == "" {
      assert a + b == b;
    } else {
      BarsConcat(a[1..], b);
      assert (a + b)[1..] == a[1..] + b;
    }
  }

  lemma {:induction false} BarsZero(s: string)
    ensures Bars(s) == 0 <==> BarFree(s)
  {
    if s != "" {
      BarsZero(s[1..]);
      assert s == [s[0]] + s[1..];
    }
  }

  /** The key has the two separators' bars and the fields' own. */
  lemma KeyBars(p: Package)
    ensures Bars(Key(p)) == Bars(p.ecosystem) + Bars(p.name) + Bars(p.version) + 2
    ensures Bars(Key(p)) == 2 <==> AllBarFree(p)
  {
    var tail := p.name + [BAR] + p.version;
    assert Key(p) == p.ecosystem + ([BAR] + tail);
    BarsConcat(p.ecosystem, [BAR] + tail);
    BarsConcat([BAR], tail);
    assert tail == p.name + ([BAR] + p.version);
    BarsConcat(p.name, [BAR] + p.version);
    BarsConcat([BAR], p.version);
    BarsZero(p.ecosystem);
    BarsZero(p.name);
    BarsZero(p.version);
  }

  lemma PeelBar(x: string, r: string, y: string, s: string)
    requires BarFree(x) && BarFree(y) && x + [BAR] + r == y + [BAR] + s
    ensures x == y && r == s
  {
    var k := x + [BAR] + r;
    assert k[|x|] == BAR && k[|y|] == BAR;
    assert forall i :: 0 <= i < |x| ==> k[i] == x[i] && x[i] in x;
    assert forall i :: 0 <= i < |y| ==> k[i] == y[i] && y[i] in y;
    assert x == k[..|x|] && y == k[..|y|] && r == k[|x| + 1..];
  }

  /** A package without bars shares its key with no package, whatever that one holds. */
  lemma KeyInjective(p: Package, q: Package)
    requires AllBarFree(p) && Key(p) == Key(q)
    ensures p == q
  {
    KeyBars(p);
    KeyBars(q);
    KeyTail(p);
    KeyTail(q);
    PeelBar(p.ecosystem, Tail(p), q.ecosystem, Tail(q));
    PeelBar(p.name, p.version, q.name, q.version);
  }

  /** The key behind the ecosystem. */
  function Tail(p: Package): string {
    p.name + [BAR] + p.version
  }

  lemma KeyTail(p: Package)
    ensures Key(p) == p.ecosystem + [BAR] + Tail(p)
  {
  }

  /** A bar in a field can be read as a separator: another package with the same key. */
  lemma Collision(p: Package) returns (q: Package)
    requires !AllBarFree(p)
    ensures q != p && Key(q) == Key(p)
    ensures BarFree(p.ecosystem) ==> q.ecosystem == p.ecosystem
  {
    if !BarFree(p.name) {
      var i :| 0 <= i < |p.name| && p.name[i] == BAR;
      q := Package(p.ecosystem, p.name[..i], p.name[i + 1..] + [BAR] + p.version);
      assert p.name == p.name[..i] + [BAR] + p.name[i + 1..];
      assert |q.name| < |p.name|;
    } else if !BarFree(p.version) {
      var i :| 0 <= i < |p.version| && p.version[i] == BAR;
      q := Package(p.ecosystem, p.name + [BAR] + p.version[..i], p.version[i + 1..]);
      assert p.version == p.version[..i] + [BAR] + p.version[i + 1..];
      assert |q.version| < |p.version|;
    } else {
      var i :| 0 <= i < |p.ecosystem| && p.ecosystem[i] == BAR;
      q := Package(p.ecosystem[..i], p.ecosystem[i + 1..], p.name + [BAR] + p.version);
      assert p.ecosystem == p.ecosystem[..i] + [BAR] + p.ecosystem[i + 1..];
      assert |q.ecosystem| < |p.ecosystem|;
    }
  }

  /**
   * A package owns its key exactly when no field holds a bar; and among the
   * packages of one covered ecosystem, exactly when name and version hold none.
   */
  lemma KeyUniqueIffClean(p: Package)
    ensures AllBarFree(p) <==> forall q :: Key(q) == Key(p) ==> q == p
    ensures BarFree(p.ecosystem) ==>
              (BarFree(p.name) && BarFree(p.version) <==>
                forall q: Package :: q.ecosystem == p.ecosystem && Key(q) == Key(p) ==> q == p)
  {
    if AllBarFree(p) {
      forall q | Key(q) == Key(p)
        ensures q == p
      {
        KeyInjective(p, q);
      }
    } else {
      var q := Collision(p);
      assert Key(q) == Key(p) && q != p;
    }
  }

  /** Exactly three registries are covered, each by its own ecosystem, whose name holds no bar. */
  lemma CoveredEcosystems(registry: string)
    ensures Ecosystem(registry).Some? <==> registry == "npm" || registry == "pypi" || registry == "goproxy"
    ensures Ecosystem(registry).Some? ==>
              Ecosystem(registry).value == (if registry == "goproxy" then "Go" else registry)
              && BarFree(Ecosystem(registry).value)
    ensures forall other :: Ecosystem(other) == Ecosystem(registry) && Ecosystem(other).Some? ==> other == registry
  {
    assert |"Go"| != |"npm"| && |"Go"| != |"pypi"|;
  }

  // ---------------------------------------------------------------- the TTL cache

  datatype Item = Item(vulns: seq<Vuln>, expiry: int)

  type Items = map<string, Item>

  /** The entries that are not expired at `now`. */
  function Live(items: Items, now: int): (live: Items)
    ensures live.Keys <= items.Keys
  {
    map k | k in items && now <= items[k].expiry :: items[k]
  }

  /** Whether Put stores: there is room, or there is once the expired entries are gone. */
  predicate HasRoom(items: Items, max: nat, now: int) {
    |items| < max || |Live(items, now)| < max
  }

  function Stored(items: Items, max: nat, now: int, key: string, item: Item): Items {
    if |items| < max then items[key := item]
    else if |Live(items, now)| < max then Live(items, now)[key := item]
    else Live(items, now)
  }

  lemma LiveSmaller(items: Items, now: int)
    ensures |Live(items, now)| <= |items|
  {
    SubsetSize(Live(items, now).Keys, items.Keys);
  }

  lemma {:induction false} SubsetSize(a: set<string>, b: set<string>)
    requires a <= b
    ensures |a| <= |b|
    decreases |a|
  {
    if a != {} {
      var x :| x in a;
      SubsetSize(a - {x}, b - {x});
    }
  }

  class TtlCache {
    const ttl: nat
    const max: nat
    var items: Items

    ghost predicate Valid()
      reads this
    {
      |items| <= max
    }

    constructor (ttl: nat, max: nat)
      ensures Valid() && items == map[] && this.ttl == ttl && this.max == max
    {
      this.ttl, this.max, items := ttl, max, map[];
    }

    /** A hit is an unexpired entry; an expired one is deleted. */
    method Get(key: string, now: int) returns (r: Option<seq<Vuln>>)
      requires Valid()
      modifies this
      ensures Valid()
      ensures r.Some? <==> key in old(items) && now <= old(items)[key].expiry
      ensures r.Some? ==> r.value == old(items)[key].vulns && items == old(items)
      ensures r.None? ==> items == old(items) - {key}
    {
      if key !in items {
        assert items - {key} == items;
        return None;
      }
      var e := items[key];
      if now > e.expiry {
        SubsetSize((items - {key}).Keys, items.Keys);
        items := items - {key};
        return None;
      }
      return Some(e.vulns);
    }

    /** Never grows past max: full of live entries, it drops the value, even an update of a key it holds. */
    method Put(key: string, vulns: seq<Vuln>, now: int)
      requires Valid()
      modifies this
      ensures Valid() && items == Stored(old(items), max, now, key, Item(vulns, now + ttl))
    {
      LiveSmaller(items, now);
      if |items| >= max {
        PurgeExpired(now);
      }
      if |items| >= max {
        return;
      }
      InsertSize(items, key, Item(vulns, now + ttl));
      items := items[key := Item(vulns, now + ttl)];
    }

    method PurgeExpired(now: int)
      modifies this
      ensures items == Live(old(items), now)
      ensures forall k :: k in items <==> k in old(items) && now <= old(items)[k].expiry
      ensures forall k :: k in items ==> items[k] == old(items)[k]
    {
      var left := items.Keys;
      while left != {}
        invariant left <= old(items).Keys
        invariant items == map k | k in old(items) && (k in left || now <= old(items)[k].expiry) :: old(items)[k]
        decreases |left|
      {
        var k :| k in left;
        left := left - {k};
        if now > items[k].expiry {
          items := items - {k};
        }
      }
    }
  }

  lemma InsertSize(items: Items, key: string, item: Item)
    ensures |items[key := item]| <= |items| + 1
  {
    var more := items[key := item];
    assert more.Keys == items.Keys + {key};
    SubsetSize(items.Keys + {key}, items.Keys + {key});
    assert |items.Keys + {key}| <= |items.Keys| + 1;
    assert |more.Keys| == |more| && |items.Keys| == |items|;
  }

  /** After a Put the key reads back the new value if and only if there was room. */
  lemma PutReadsBackIff(items: Items, max: nat, ttl: nat, now: int, key: string, vulns: seq<Vuln>)
    requires key !in items || items[key] != Item(vulns, now + ttl)
    ensures var t, item := Stored(items, max, now, key, Item(vulns, now + ttl)), Item(vulns, now + ttl);
            (key in t && t[key] == item) <==> HasRoom(items, max, now)
  {
  }

  /** Full of live entries, an update of a key it holds is dropped and the old value stays. */
  lemma FullDropsUpdate(items: Items, max: nat, now: int, key: string, item: Item)
    requires |items| == max && key in items && forall k :: k in items ==> now <= items[k].expiry
    ensures Stored(items, max, now, key, item) == items
  {
    assert Live(items, now) == items;
  }

  /** A Put never touches another live entry; an expired one goes exactly when the cache is full. */
  lemma PutKeepsOthers(items: Items, max: nat, now: int, key: string, item: Item, other: string)
    requires other != key
    ensures var t := Stored(items, max, now, key, item);
            && (other in t <==> other in items && (|items| < max || now <= items[other].expiry))
            && (other in t ==> t[other] == items[other])
  {
  }
}
