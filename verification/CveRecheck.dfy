/**
 * internal/middleware/cveosv/cveosv.go:261-318 (the client) and
 * internal/middleware/retrieval/cverecheck/cverecheck.go:63-192 (the re-check of
 * every serve), one request at a time: what a decision rests on, and how old
 * that may be.
 */
module CveRecheck {
  import opened Basics
  import opened CveSeverity
  import opened CveCache
  import R = Retrieval

  /** An answer OSV really gave, with the time it was given. */
  datatype Advisory = Advisory(pkg: Package, vulns: seq<Vuln>, at: int)

  // OSV: the answers it has given so far.
  class Osv {
    ghost var given: set<Advisory>

    constructor ()
      ensures given == {}
    {
      given := {};
    }

    /** One live query; `reply` is what the service does with it. */
    method Ask(pkg: Package, now: int, reply: Option<seq<Vuln>>) returns (r: Option<seq<Vuln>>)
      modifies this
      ensures r == reply
      ensures given == if reply.Some? then old(given) + {Advisory(pkg, reply.value, now)} else old(given)
    {
      if reply.Some? {
        given := given + {Advisory(pkg, reply.value, now)};
      }
      return reply;
    }
  }

  /** The filtered list that a process with threshold `min` acts on. */
  function Filtered(a: Advisory, min: string): seq<Vuln> {
    AtLeast(a.vulns, SeverityRank(min))
  }

  /** A cached list is the filtered form of an answer OSV gave for that key, and expires TTL after it. */
  ghost predicate BackedItem(k: string, item: Item, origin: map<string, Advisory>, given: set<Advisory>, min: string,
                             ttl: nat)
  {
    && k in origin && origin[k] in given && Key(origin[k].pkg) == k
    && item == Item(Filtered(origin[k], min), origin[k].at + ttl)
  }

  ghost predicate Backed(items: Items, origin: map<string, Advisory>, given: set<Advisory>, min: string, ttl: nat) {
    forall k :: k in items ==> BackedItem(k, items[k], origin, given, min, ttl)
  }

  lemma BackedFewer(items: Items, fewer: Items, origin: map<string, Advisory>, given: set<Advisory>,
                    more: set<Advisory>, min: string, ttl: nat)
    requires Backed(items, origin, given, min, ttl) && given <= more
    requires forall k :: k in fewer ==> k in items && fewer[k] == items[k]
    ensures Backed(fewer, origin, more, min, ttl)
  {
    forall k | k in fewer
      ensures BackedItem(k, fewer[k], origin, more, min, ttl)
    {
      assert BackedItem(k, items[k], origin, given, min, ttl);
    }
  }

  lemma BackedStored(items: Items, origin: map<string, Advisory>, given: set<Advisory>, min: string, ttl: nat,
                     max: nat, key: string, a: Advisory)
    returns (after: map<string, Advisory>)
    requires Backed(items, origin, given, min, ttl) && a in given && Key(a.pkg) == key
    ensures Backed(Stored(items, max, a.at, key, Item(Filtered(a, min), a.at + ttl)), after, given, min, ttl)
  {
    var t := Stored(items, max, a.at, key, Item(Filtered(a, min), a.at + ttl));
    after := if HasRoom(items, max, a.at) then origin[key := a] else origin;
    forall k | k in t
      ensures BackedItem(k, t[k], after, given, min, ttl)
    {
      if k != key || !HasRoom(items, max, a.at) {
        assert BackedItem(k, items[k], origin, given, min, ttl);
      }
    }
  }

  /** An unexpired entry for the key. */
  predicate Warm(items: Items, key: string, now: int) {
    key in items && now <= items[key].expiry
  }

  class Client {
    const osv: Osv
    const cache: TtlCache
    const minSeverity: string
    ghost var origin: map<string, Advisory>  // what each cached list came from

    ghost predicate Valid()
      reads this, osv, cache
    {
      cache.Valid() && Backed(cache.items, origin, osv.given, minSeverity, cache.ttl)
    }

    constructor (osv: Osv, ttl: nat, max: nat, minSeverity: string)
      ensures Valid() && this.osv == osv && this.minSeverity == minSeverity && cache.ttl == ttl
      ensures fresh(cache) && cache.items == map[]
    {
      this.osv, this.minSeverity := osv, minSeverity;
      cache := new TtlCache(ttl, max);
      origin := map[];
    }

    /** A list that was served under `key` at `now`: it rests on an answer for that key, at most TTL old. */
    ghost predicate Rests(key: string, now: int, vulns: seq<Vuln>, a: Advisory)
      reads osv
    {
      a in osv.given && Key(a.pkg) == key && now - a.at <= cache.ttl && vulns == Filtered(a, minSeverity)
    }

    /** The warm path. */
    method Cached(key: string, now: int) returns (r: Option<seq<Vuln>>, ghost source: Option<Advisory>)
      requires Valid()
      modifies cache
      ensures Valid() && (r.Some? <==> source.Some?)
      ensures r.Some? ==> Rests(key, now, r.value, source.value)
      ensures r.Some? <==> Warm(old(cache.items), key, now)
      ensures r.Some? ==> r.value == old(cache.items)[key].vulns
      ensures cache.items == if r.Some? then old(cache.items) else old(cache.items) - {key}
    {
      ghost var before := cache.items;
      r := cache.Get(key, now);
      BackedFewer(before, cache.items, origin, osv.given, osv.given, minSeverity, cache.ttl);
      if r.Some? {
        assert BackedItem(key, before[key], origin, osv.given, minSeverity, cache.ttl);
        source := Some(origin[key]);
      } else {
        source := None;
      }
    }

    /** Query: a cached or a live answer for this key, filtered; a failure is returned and never cached. */
    method Query(pkg: Package, now: int, reply: Option<seq<Vuln>>)
      returns (r: Option<seq<Vuln>>, ghost source: Option<Advisory>)
      requires Valid()
      modifies this`origin, cache, osv
      ensures Valid() && (r.Some? <==> source.Some?) && old(osv.given) <= osv.given
      ensures r.Some? ==> Rests(Key(pkg), now, r.value, source.value)
      ensures Key(pkg) !in old(cache.items) ==>
                source == if reply.None? then None else Some(Advisory(pkg, reply.value, now))
      ensures r.None? ==> reply.None? && cache.items == old(cache.items) - {Key(pkg)} && osv.given == old(osv.given)
      ensures Warm(old(cache.items), Key(pkg), now) ==>
                r.Some? && cache.items == old(cache.items) && osv.given == old(osv.given)
      ensures !Warm(old(cache.items), Key(pkg), now) && r.Some? ==>
                cache.items == Stored(old(cache.items) - {Key(pkg)}, cache.max, now, Key(pkg),
                                      Item(r.value, now + cache.ttl))
    {
      var key := Key(pkg);
      var hit;
      hit, source := Cached(key, now);
      if hit.Some? {
        return hit, source;
      }
      ghost var given := osv.given;
      var answer := osv.Ask(pkg, now, reply);
      BackedFewer(cache.items, cache.items, origin, given, osv.given, minSeverity, cache.ttl);
      if answer.None? {
        return None, None;
      }
      var kept := FilterBySeverity(answer.value, minSeverity);
      source := Some(Advisory(pkg, answer.value, now));
      Remember(key, kept, now, source.value);
      return Some(kept), source;
    }

    /** The Put of a fresh answer. */
    method Remember(key: string, kept: seq<Vuln>, now: int, ghost a: Advisory)
      requires Valid() && a in osv.given && Key(a.pkg) == key && a.at == now && kept == Filtered(a, minSeverity)
      modifies this`origin, cache
      ensures Valid() && cache.items == Stored(old(cache.items), cache.max, now, key, Item(kept, now + cache.ttl))
    {
      ghost var after := BackedStored(cache.items, origin, osv.given, minSeverity, cache.ttl, cache.max, key, a);
      cache.Put(key, kept, now);
      origin := after;
    }
  }

  // ------------------------------------------------------------ persisted counts

  datatype Row = Row(counts: Counts, retrievedAt: int)

  // An answer, and the threshold of the process that stored its counts.
  datatype Source = Source(advisory: Advisory, min: string)

  /** Every row counts an answer OSV gave for exactly that package, and carries the time it was given. */
  ghost predicate RowsBacked(rows: map<Package, Row>, sources: map<Package, Source>, given: set<Advisory>) {
    forall p :: p in rows ==> RowBacked(p, rows[p], sources, given)
  }

  ghost predicate RowBacked(p: Package, row: Row, sources: map<Package, Source>, given: set<Advisory>) {
    && p in sources && sources[p].advisory in given && sources[p].advisory.pkg == p
    && row == Row(CountsOf(Filtered(sources[p].advisory, sources[p].min)), sources[p].advisory.at)
  }

  lemma RowsBackedGrow(rows: map<Package, Row>, sources: map<Package, Source>, given: set<Advisory>,
                       more: set<Advisory>)
    requires RowsBacked(rows, sources, given) && given <= more
    ensures RowsBacked(rows, sources, more)
  {
    forall p | p in rows
      ensures RowBacked(p, rows[p], sources, more)
    {
      assert RowBacked(p, rows[p], sources, given);
    }
  }

  lemma RowsBackedPut(rows: map<Package, Row>, sources: map<Package, Source>, given: set<Advisory>, s: Source)
    requires RowsBacked(rows, sources, given) && s.advisory in given
    ensures RowsBacked(rows[s.advisory.pkg := Row(CountsOf(Filtered(s.advisory, s.min)), s.advisory.at)],
                       sources[s.advisory.pkg := s], given)
  {
    forall p | p in rows && p != s.advisory.pkg
      ensures RowBacked(p, rows[p], sources[s.advisory.pkg := s], given)
    {
      assert RowBacked(p, rows[p], sources, given);
    }
  }

  class CountStore {
    var rows: map<Package, Row>
    ghost var sources: map<Package, Source>

    constructor ()
      ensures rows == map[] && sources == map[]
    {
      rows, sources := map[], map[];
    }

    ghost predicate Valid(osv: Osv)
      reads this, osv
    {
      RowsBacked(rows, sources, osv.given)
    }

    method Put(p: Package, counts: Counts, now: int, ghost source: Source, ok: bool)
      modifies this
      ensures rows == if ok then old(rows)[p := Row(counts, now)] else old(rows)
      ensures sources == if ok then old(sources)[p := source] else old(sources)
    {
      if ok {
        rows, sources := rows[p := Row(counts, now)], sources[p := source];
      }
    }
  }

  datatype Outcome = Decided(decision: Decision) | OutageServed | OutageDenied

  // The clock and the outside world of one re-check: whether the row read and
  // the row write succeed, and OSV's reply (None is an outage).
  datatype Moment = Moment(now: int, readOk: bool, writeOk: bool, reply: Option<seq<Vuln>>)

  const FAIL_CLOSED := "fail_closed"

  class Middleware {
    const client: Client
    const store: CountStore
    const mode: string
    const onError: string
    const persist: bool         // a store is configured
    const cacheDuration: int

    ghost predicate Valid()
      reads this, client, client.osv, client.cache, store
    {
      client.Valid() && store.Valid(client.osv)
    }

    /** A process starts: an empty TTL cache over whatever rows earlier processes left. */
    constructor (client: Client, store: CountStore, mode: string, onError: string, persist: bool, cacheDuration: int)
      requires client.Valid() && store.Valid(client.osv)
      ensures Valid() && this.client == client && this.store == store && this.mode == mode
      ensures this.onError == onError && this.persist == persist && this.cacheDuration == cacheDuration
    {
      this.client, this.store, this.mode, this.onError := client, store, mode, onError;
      this.persist, this.cacheDuration := persist, cacheDuration;
    }

    /**
     * What a decision rests on: an answer OSV gave for a package with this key,
     * at most TTL old, or fresher than the persistence window; and it is the
     * decision on that answer's list under the stronger of the threshold it was
     * stored under and the current one.
     */
    ghost predicate RestsOn(pkg: Package, now: int, decision: Decision, s: Source)
      reads client.osv
    {
      && s.advisory in client.osv.given && Key(s.advisory.pkg) == Key(pkg)
      && (now - s.advisory.at <= client.cache.ttl || (persist && now - s.advisory.at < cacheDuration))
      && decision == Decide(mode, AtLeast(s.advisory.vulns, Stronger(s.min, client.minSeverity)))
    }

    /**
     * Fetch after a downstream hit: a registry OSV does not cover is served
     * unchecked; a denial always rests on an answer, a failure on an outage.
     */
    method Fetch(registry: string, name: string, version: string, w: Moment)
      returns (d: R.CveDecision, ghost source: Option<Source>)
      requires Valid()
      modifies client`origin, client.cache, client.osv, store
      ensures Valid()
      ensures Ecosystem(registry).None? ==> d == R.Serve && source.None?
      ensures Ecosystem(registry).Some? && d == R.DenyServe ==>
                source.Some? && RestsOn(Package(Ecosystem(registry).value, name, version), w.now, Deny, source.value)
      ensures d == R.FailClosed ==> w.reply.None? && onError == FAIL_CLOSED
      // what is decided on: a warm list, a fresh row, or OSV's reply
      ensures Ecosystem(registry).Some? && Warms(old(client.cache.items), Covered(registry, name, version), w.now) ==>
                (d == R.DenyServe <==>
                   mode != "warn" && old(client.cache.items)[Key(Covered(registry, name, version))].vulns != [])
                && d != R.FailClosed
      ensures Ecosystem(registry).Some? && !Warms(old(client.cache.items), Covered(registry, name, version), w.now)
              && RowServes(old(store.rows), Covered(registry, name, version), w) ==>
                var s := old(store.sources)[Covered(registry, name, version)];
                (d == R.DenyServe <==> mode != "warn" && Serious(s.advisory.vulns, s.min, client.minSeverity))
                && d != R.FailClosed
      ensures Ecosystem(registry).Some? && !Warms(old(client.cache.items), Covered(registry, name, version), w.now)
              && !RowServes(old(store.rows), Covered(registry, name, version), w) ==>
                if w.reply.None? then d == if onError == "fail_closed" then R.FailClosed else R.Serve
                else
                  (d == R.DenyServe <==>
                     mode != "warn"
                     && exists v :: v in w.reply.value && SeverityRank(v.severity) >= SeverityRank(client.minSeverity))
                  && d != R.FailClosed
      ensures d == R.Serve && Ecosystem(registry).Some? && source.None? ==> w.reply.None? && onError != FAIL_CLOSED
      ensures Ecosystem(registry).Some? && d == R.Serve && source.Some? ==>
                RestsOn(Package(Ecosystem(registry).value, name, version), w.now, Serve, source.value)
                || RestsOn(Package(Ecosystem(registry).value, name, version), w.now, ServeWarned, source.value)
    {
      var eco := Ecosystem(registry);
      if eco.None? {
        return R.Serve, None;
      }
      var out;
      var pkg := Package(eco.value, name, version);
      out, source := Recheck(pkg, w);
      d := ToChain(out);
      if source.Some? {
        DecideExactly(mode, source.value.advisory.vulns, source.value.min, client.minSeverity);
      }
    }

    /** The package OSV is asked about. */
    ghost function Covered(registry: string, name: string, version: string): Package
      requires Ecosystem(registry).Some?
    {
      Package(Ecosystem(registry).value, name, version)
    }

    /** A list cached for the package's key has not expired. */
    ghost predicate Warms(items: Items, pkg: Package, now: int) {
      Key(pkg) in items && now <= items[Key(pkg)].expiry
    }

    /** Rows are in use, and the package's can be read and is young enough. */
    ghost predicate RowServes(rows: map<Package, Row>, pkg: Package, w: Moment) {
      persist && cacheDuration > 0 && w.readOk && pkg in rows && w.now < rows[pkg].retrievedAt + cacheDuration
    }

    /** The re-check of a covered package. */
    method Recheck(pkg: Package, w: Moment) returns (out: Outcome, ghost source: Option<Source>)
      requires Valid()
      modifies client`origin, client.cache, client.osv, store
      ensures Valid() && old(client.osv.given) <= client.osv.given
      ensures out.Decided? <==> source.Some?
      ensures out.Decided? ==> RestsOn(pkg, w.now, out.decision, source.value)
      ensures !out.Decided? ==> w.reply.None? && out == ApplyError()
      ensures Warm(old(client.cache.items), Key(pkg), w.now) ==>
                out == Decided(Apply(old(client.cache.items)[Key(pkg)].vulns))
                && client.osv.given == old(client.osv.given) && store.rows == old(store.rows)
      ensures !Warm(old(client.cache.items), Key(pkg), w.now) && RowServes(old(store.rows), pkg, w) ==>
                source == Some(old(store.sources)[pkg])
      ensures !Warm(old(client.cache.items), Key(pkg), w.now) && !RowServes(old(store.rows), pkg, w) ==>
                source == if w.reply.None? then None
                          else Some(Source(Advisory(pkg, w.reply.value, w.now), client.minSeverity))
    {
      var hit;
      ghost var a: Option<Advisory>;
      hit, a := client.Cached(Key(pkg), w.now);
      if hit.Some? {
        source := Some(Source(a.value, client.minSeverity));
        RestsOnList(pkg, w.now, hit.value, a.value);
        return Decided(Apply(hit.value)), source;
      }
      if persist && cacheDuration > 0 {
        out, source := FetchWithCache(pkg, w);
        return;
      }
      out, source := FetchLive(pkg, w);
    }

    /** The path without persisted rows. */
    method FetchLive(pkg: Package, w: Moment) returns (out: Outcome, ghost source: Option<Source>)
      requires Valid() && Key(pkg) !in client.cache.items
      modifies client`origin, client.cache, client.osv
      ensures Valid() && old(client.osv.given) <= client.osv.given
      ensures source == if w.reply.None? then None
                        else Some(Source(Advisory(pkg, w.reply.value, w.now), client.minSeverity))
      ensures out.Decided? <==> source.Some?
      ensures out.Decided? ==> RestsOn(pkg, w.now, out.decision, source.value)
      ensures !out.Decided? ==> w.reply.None? && out == ApplyError()
    {
      var vulns;
      ghost var a: Option<Advisory>;
      ghost var given := client.osv.given;
      vulns, a := client.Query(pkg, w.now, w.reply);
      RowsBackedGrow(store.rows, store.sources, given, client.osv.given);
      if vulns.None? {
        return ApplyError(), None;
      }
      source := Some(Source(a.value, client.minSeverity));
      RestsOnList(pkg, w.now, vulns.value, a.value);
      return Decided(Apply(vulns.value)), source;
    }

    lemma RestsOnList(pkg: Package, now: int, vulns: seq<Vuln>, a: Advisory)
      requires client.Rests(Key(pkg), now, vulns, a)
      ensures RestsOn(pkg, now, Apply(vulns), Source(a, client.minSeverity))
    {
    }

    /** A row that may be served from counts. */
    predicate Fresh(rows: map<Package, Row>, pkg: Package, w: Moment) {
      w.readOk && pkg in rows && w.now - rows[pkg].retrievedAt < cacheDuration
    }

    /** A fresh row decides without asking OSV; otherwise OSV's answer is persisted, if the write succeeds. */
    method FetchWithCache(pkg: Package, w: Moment) returns (out: Outcome, ghost source: Option<Source>)
      requires Valid() && Key(pkg) !in client.cache.items && persist
      modifies client`origin, client.cache, client.osv, store
      ensures out.Decided? <==> source.Some?
      ensures Fresh(old(store.rows), pkg, w) ==> source == Some(old(store.sources)[pkg])
                                                 && client.osv.given == old(client.osv.given)
      ensures !Fresh(old(store.rows), pkg, w) ==>
                source == if w.reply.None? then None
                          else Some(Source(Advisory(pkg, w.reply.value, w.now), client.minSeverity))
      ensures store.rows == if !Fresh(old(store.rows), pkg, w) && out.Decided? && w.writeOk
                            then old(store.rows)[pkg :=
                                   Row(CountsOf(Filtered(source.value.advisory, client.minSeverity)), w.now)]
                            else old(store.rows)
      ensures Valid() && old(client.osv.given) <= client.osv.given
      ensures out.Decided? ==> RestsOn(pkg, w.now, out.decision, source.value)
      ensures !out.Decided? ==> w.reply.None? && out == ApplyError()
    {
      if Fresh(store.rows, pkg, w) {
        assert RowBacked(pkg, store.rows[pkg], store.sources, client.osv.given);
        source := Some(store.sources[pkg]);
        CountsDecideAsList(mode, source.value.advisory.vulns, source.value.min, client.minSeverity);
        return Decided(DecideFromCounts(mode, store.rows[pkg].counts, client.minSeverity)), source;
      }
      var vulns;
      ghost var a: Option<Advisory>;
      ghost var given := client.osv.given;
      vulns, a := client.Query(pkg, w.now, w.reply);
      RowsBackedGrow(store.rows, store.sources, given, client.osv.given);
      if vulns.None? {
        return ApplyError(), None;
      }
      source := Some(Source(a.value, client.minSeverity));
      RestsOnList(pkg, w.now, vulns.value, a.value);
      RowsBackedPut(store.rows, store.sources, client.osv.given, source.value);
      var counts := CountBySeverity(vulns.value);
      store.Put(pkg, counts, w.now, source.value, w.writeOk);
      return Decided(Apply(vulns.value)), source;
    }

    function Apply(vulns: seq<Vuln>): Decision {
      Decide(mode, vulns)
    }

    /** applyError: an outage serves, unless on_error is fail_closed. */
    function ApplyError(): (out: Outcome)
      ensures out == OutageDenied <==> onError == FAIL_CLOSED
      ensures !out.Decided?
    {
      if onError == FAIL_CLOSED then OutageDenied else OutageServed
    }
  }

  /** What the re-check's outcome means for the retrieval chain above it. */
  function ToChain(out: Outcome): R.CveDecision {
    match out
    case Decided(Deny) => R.DenyServe
    case OutageDenied => R.FailClosed
    case _ => R.Serve
  }

  /**
   * The sequential staleness bound: a decision not taken by on_error is at most
   * as old as the larger of the two windows, and for a package whose fields hold
   * no bar it rests on an answer about this very package, whatever was cached.
   */
  lemma Staleness(m: Middleware, pkg: Package, now: int, decision: Decision, s: Source)
    requires m.RestsOn(pkg, now, decision, s)
    ensures now - s.advisory.at <= Max(m.client.cache.ttl, m.cacheDuration)
    ensures Key(s.advisory.pkg) == Key(pkg) && (AllBarFree(pkg) ==> s.advisory.pkg == pkg)
  {
    if AllBarFree(pkg) {
      KeyInjective(pkg, s.advisory.pkg);
    }
  }
}
