/**
 * internal/project/resolver.go under internal/admin/admin.go: the memo cache of
 * built pipelines, the project store it must agree with, the hooks no project
 * override may drop, and the admin calls that change the store.
 */
module ProjectResolver {
  import opened Basics
  import opened DenyList
  import opened ProjectPath
  import R = Retrieval

  datatype Validation = Validation(chain: Chain, onFailure: Option<string>)

  /** `cache` is the evictor of the retrieval head, when it has one. */
  datatype Resolved = Resolved(validation: Validation, retrieval: R.Chain, mutation: seq<string>,
                               cache: Option<R.Chain>)

  datatype Hooks = Hooks(prepend: Option<Validator>, onFailure: Option<string>)

  // RegistryMiddlewareConfig: an empty list means "inherit".
  datatype RegistryConfig = RegistryConfig(validation: seq<R.Middleware>, retrieval: seq<R.Middleware>,
                                           mutation: seq<R.Middleware>)

  type ProjectConfig = map<string, RegistryConfig>

  datatype Factories = Factories(validation: map<string, string -> Option<Validator>>,
                                 retrieval: map<string, string -> Option<R.Layer>>,
                                 mutation: map<string, string -> Option<string>>)

  // What a resolver is made of: everything but its memo cache.
  datatype Site = Site(registryType: string, factories: Factories, hooks: Hooks, global: Resolved)

  datatype ResolveError = StoreDown | BuildFailed

  // ---------------------------------------------------------------------- hooks

  function ApplyHooks(h: Hooks, v: Validation): Validation {
    Validation(if h.prepend.Some? && (v.chain == [] || v.chain[0].Name() != h.prepend.value.Name())
               then [h.prepend.value] + v.chain else v.chain,
               if h.onFailure.Some? then h.onFailure else v.onFailure)
  }

  /** The guarantee of ValidationHooks: the prepended check, by name, comes first, and the recorder is set. */
  ghost predicate Hooked(h: Hooks, v: Validation) {
    && (h.prepend.Some? ==> v.chain != [] && v.chain[0].Name() == h.prepend.value.Name())
    && (h.onFailure.Some? ==> v.onFailure == h.onFailure)
  }

  /** The hooks reach every chain, take nothing out of it, and applying them again changes nothing. */
  lemma HooksHold(h: Hooks, v: Validation)
    ensures var w := ApplyHooks(h, v);
            Hooked(h, w) && ApplyHooks(h, w) == w && v.chain == w.chain[|w.chain| - |v.chain|..]
    ensures Hooked(h, v) <==> ApplyHooks(h, v) == v
  {
  }

  /**
   * Names are all that is compared: a chain keeps an enabled check at its head
   * exactly when it does not bring its own, disabled, middleware of that name.
   */
  lemma EnabledHeadIff(h: Hooks, v: Validation)
    requires h.prepend == Some(DenyListCheck(true))
    ensures EnabledHead(ApplyHooks(h, v).chain) <==>
            v.chain == [] || v.chain[0].Name() != CHECK || v.chain[0] == DenyListCheck(true)
  {
  }

  // -------------------------------------------------------------- building a scope

  function BuildAll<T>(factories: map<string, string -> Option<T>>, ms: seq<R.Middleware>): Option<seq<T>> {
    if forall i :: 0 <= i < |ms| ==> R.Buildable(factories, ms[i]) then Some(R.LayersOf(factories, ms)) else None
  }

  /** The retrieval head as an Evictor: cache layers and CVE checks are, the upstream is not. */
  function EvictorOf(c: R.Chain): Option<R.Chain> {
    if c.Wrap? && !c.layer.Upstream? then Some(c) else None
  }

  /** The pipelines of a stored config: each chain overridden or inherited by itself, then the hooks. */
  function Built(site: Site, cfg: ProjectConfig): Option<Resolved> {
    if site.registryType !in cfg then Some(site.global)
    else
      match Overridden(site, cfg[site.registryType])
      case None => None
      case Some(rp) => Some(rp.(validation := ApplyHooks(site.hooks, rp.validation)))
  }

  /** The scope before the hooks: each list overridden, or inherited with what belongs to it. */
  function Overridden(site: Site, rc: RegistryConfig): Option<Resolved> {
    var v := BuildAll(site.factories.validation, rc.validation);
    var r := BuildAll(site.factories.retrieval, rc.retrieval);
    var m := BuildAll(site.factories.mutation, rc.mutation);
    if v.None? || r.None? || m.None? then None
    else
      var head := R.ChainOf(r.value);
      Some(Resolved(
             if rc.validation == [] then site.global.validation else Validation(v.value, None),
             if rc.retrieval == [] then site.global.retrieval else head,
             if rc.mutation == [] then site.global.mutation else m.value,
             if rc.retrieval == [] then site.global.cache else EvictorOf(head)))
  }

  /** What Resolve must answer for a key, straight from the store. */
  function Uncached(site: Site, rows: map<string, ProjectConfig>, key: string): Result<Resolved, ResolveError> {
    if key !in rows then Ok(site.global)
    else
      match Built(site, rows[key])
      case None => Err(BuildFailed)
      case Some(rp) => Ok(rp)
  }

  /** Every chain a scope resolves to is hooked, whatever its override says. */
  lemma BuiltIsHooked(site: Site, cfg: ProjectConfig)
    requires Hooked(site.hooks, site.global.validation)
    ensures Built(site, cfg).Some? ==> Hooked(site.hooks, Built(site, cfg).value.validation)
  {
  }

  /**
   * Which scopes the deny results hold for: the chain of a built scope has an
   * enabled check at its head exactly when its validation override, if it has
   * one, does not begin with a middleware of that name other than the enabled check.
   */
  lemma ScopeEnabledIff(site: Site, cfg: ProjectConfig)
    requires site.hooks.prepend == Some(DenyListCheck(true)) && EnabledHead(site.global.validation.chain)
    requires Built(site, cfg).Some?
    ensures EnabledHead(Built(site, cfg).value.validation.chain) <==>
            (site.registryType in cfg && cfg[site.registryType].validation != [] ==>
               R.Buildable(site.factories.validation, cfg[site.registryType].validation[0])
               && var own := R.Built(site.factories.validation, cfg[site.registryType].validation[0]);
                  own.Name() != CHECK || own == DenyListCheck(true))
  {
    if site.registryType in cfg {
      var rc := cfg[site.registryType];
      var v := BuildAll(site.factories.validation, rc.validation);
      EnabledHeadIff(site.hooks, if rc.validation == [] then site.global.validation else Validation(v.value, None));
    }
  }

  /** Inheritance is chain by chain: an override of one list leaves the other two, and the evictor, global. */
  lemma InheritsPerChain(site: Site, cfg: ProjectConfig)
    requires Hooked(site.hooks, site.global.validation) && site.registryType in cfg
    ensures var rc, b := cfg[site.registryType], Built(site, cfg);
            b.Some? ==>
              && (rc.validation == [] ==> b.value.validation == site.global.validation)
              && (rc.retrieval == [] ==>
                  b.value.retrieval == site.global.retrieval && b.value.cache == site.global.cache)
              && (rc.mutation == [] ==> b.value.mutation == site.global.mutation)
  {
    HooksHold(site.hooks, site.global.validation);
  }

  /** Every entry of the list is of a registered type whose factory accepts its params. */
  ghost predicate AllBuild<T>(table: map<string, string -> Option<T>>, ms: seq<R.Middleware>) {
    forall i :: 0 <= i < |ms| ==> ms[i].typeName in table && table[ms[i].typeName](ms[i].params).Some?
  }

  /** Element i of `built` is what the factory makes of entry i, and there are no others. */
  ghost predicate BuiltFrom<T>(table: map<string, string -> Option<T>>, ms: seq<R.Middleware>, built: seq<T>) {
    && |built| == |ms|
    && forall i :: 0 <= i < |ms| ==>
         ms[i].typeName in table && table[ms[i].typeName](ms[i].params) == Some(built[i])
  }

  lemma BuildAllByIndex<T>(table: map<string, string -> Option<T>>, ms: seq<R.Middleware>)
    ensures BuildAll(table, ms).Some? <==> AllBuild(table, ms)
    ensures BuildAll(table, ms).Some? ==> BuiltFrom(table, ms, BuildAll(table, ms).value)
  {
    if AllBuild(table, ms) {
      assert forall i :: 0 <= i < |ms| ==> R.Buildable(table, ms[i]);
    }
    if BuildAll(table, ms).Some? {
      assert forall i :: 0 <= i < |ms| ==> R.Buildable(table, ms[i]);
    }
  }

  /**
   * The hooked chain of an override, position by position: the prepended check,
   * unless the first own middleware has its name; then every own middleware, in
   * config order.
   */
  ghost predicate OwnChain(site: Site, ms: seq<R.Middleware>, v: Validation)
    requires ms != []
  {
    exists own: seq<Validator> ::
      && BuiltFrom(site.factories.validation, ms, own)
      && v.onFailure == site.hooks.onFailure
      && v.chain == if site.hooks.prepend.Some? && site.hooks.prepend.value.Name() != own[0].Name()
                    then [site.hooks.prepend.value] + own else own
  }

  /**
   * What Resolve answers for a stored row, list by list and by index. It fails
   * exactly when some entry cannot be built. An override of a list is exactly its
   * own entries in config order, the validation list behind the hooks; and there
   * is an evictor exactly when the first retrieval layer is not the upstream.
   */
  lemma StoredScope(site: Site, rows: map<string, ProjectConfig>, key: string)
    requires key in rows && site.registryType in rows[key]
    ensures var rc, r := rows[key][site.registryType], Uncached(site, rows, key);
            && (r.Ok? <==> AllBuild(site.factories.validation, rc.validation)
                           && AllBuild(site.factories.retrieval, rc.retrieval)
                           && AllBuild(site.factories.mutation, rc.mutation))
            && (r.Err? ==> r.error == BuildFailed)
    ensures var rc, r := rows[key][site.registryType], Uncached(site, rows, key);
            r.Ok? ==>
              && (rc.validation != [] ==> OwnChain(site, rc.validation, r.value.validation))
              && (rc.retrieval != [] ==> OwnLayers(site, rc.retrieval, r.value))
              && (rc.mutation != [] ==> BuiltFrom(site.factories.mutation, rc.mutation, r.value.mutation))
  {
    var rc := rows[key][site.registryType];
    BuildAllByIndex(site.factories.validation, rc.validation);
    BuildAllByIndex(site.factories.retrieval, rc.retrieval);
    BuildAllByIndex(site.factories.mutation, rc.mutation);
    var r := Uncached(site, rows, key);
    if r.Ok? {
      R.ChainAt(BuildAll(site.factories.retrieval, rc.retrieval).value);
      var own := BuildAll(site.factories.validation, rc.validation).value;
      if rc.validation != [] {
        assert r.value.validation == ApplyHooks(site.hooks, Validation(own, None));
        assert OwnChain(site, rc.validation, r.value.validation);
      }
    }
  }

  /** The retrieval chain of an override, layer by layer, and its head as the evictor. */
  ghost predicate OwnLayers(site: Site, ms: seq<R.Middleware>, rp: Resolved)
    requires ms != []
  {
    && R.Depth(rp.retrieval) == |ms|
    && (forall i: nat :: i < |ms| ==>
          ms[i].typeName in site.factories.retrieval
          && site.factories.retrieval[ms[i].typeName](ms[i].params) == Some(R.LayerAt(rp.retrieval, i)))
    && rp.cache == if R.LayerAt(rp.retrieval, 0) == R.Upstream then None else Some(rp.retrieval)
  }

  /** And without one, or without a section for this registry, the global scope. */
  lemma UnstoredScope(site: Site, rows: map<string, ProjectConfig>, key: string)
    requires key !in rows || site.registryType !in rows[key]
    ensures Uncached(site, rows, key) == Ok(site.global)
  {
  }

  // -------------------------------------------------------------------- the store

  // A write may also be reported as failed after its row was committed.
  datatype WriteOutcome = Applied | Refused | AppliedButFailed

  class ProjectStore {
    var rows: map<string, ProjectConfig>

    constructor ()
      ensures rows == map[]
    {
      rows := map[];
    }

    method Get(key: string, up: bool) returns (r: Result<Option<ProjectConfig>, ResolveError>)
      ensures r == if !up then Err(StoreDown) else Ok(if key in rows then Some(rows[key]) else None)
    {
      if !up {
        return Err(StoreDown);
      }
      return Ok(if key in rows then Some(rows[key]) else None);
    }

    method Put(key: string, cfg: ProjectConfig, outcome: WriteOutcome) returns (ok: bool)
      modifies this
      ensures ok <==> outcome.Applied?
      ensures rows == if outcome.Refused? then old(rows) else old(rows)[key := cfg]
    {
      if !outcome.Refused? {
        rows := rows[key := cfg];
      }
      ok := outcome.Applied?;
    }

    method Delete(key: string, outcome: WriteOutcome) returns (ok: bool)
      modifies this
      ensures ok <==> outcome.Applied?
      ensures rows == if outcome.Refused? then old(rows) else old(rows) - {key}
    {
      if !outcome.Refused? {
        rows := rows - {key};
      }
      ok := outcome.Applied?;
    }
  }

  // ----------------------------------------------------------------- the resolver

  class Resolver {
    const registryType: string
    const factories: Factories
    const hooks: Hooks
    const store: ProjectStore
    var global: Resolved
    var cache: map<string, Resolved>

    ghost function At(): Site
      reads this
    {
      Site(registryType, factories, hooks, global)
    }

    /** A cached entry that agrees with the store. */
    ghost predicate Agrees(key: string)
      reads this, store
    {
      key in cache ==> key in store.rows && Built(At(), store.rows[key]) == Some(cache[key])
    }

    /** The cache agrees with the store on every key outside `tainted`; "" is always the hooked global. */
    ghost predicate Valid(tainted: set<string>)
      reads this, store
    {
      && "" in cache && cache[""] == global && Hooked(hooks, global.validation)
      && "" !in store.rows
      && forall key :: key != "" && key !in tainted ==> Agrees(key)
    }

    constructor (registryType: string, factories: Factories, store: ProjectStore, global: Resolved, hooks: Hooks)
      requires "" !in store.rows
      ensures Valid({}) && this.store == store && this.hooks == hooks && this.factories == factories
      ensures this.registryType == registryType
      ensures this.global == global.(validation := ApplyHooks(hooks, global.validation))
      ensures cache == map["" := this.global]
    {
      this.registryType, this.factories, this.store, this.hooks := registryType, factories, store, hooks;
      this.global := global;
      cache := map[];
      new;
      var v := ApplyHooksTo(this.global.validation);
      this.global := this.global.(validation := v);
      cache := map["" := this.global];
      HooksHold(hooks, global.validation);
    }

    method ApplyHooksTo(v0: Validation) returns (v: Validation)
      ensures v == ApplyHooks(hooks, v0)
    {
      v := v0;
      if hooks.prepend.Some? && (|v.chain| == 0 || v.chain[0].Name() != hooks.prepend.value.Name()) {
        v := v.(chain := [hooks.prepend.value] + v.chain);
      }
      if hooks.onFailure.Some? {
        v := v.(onFailure := hooks.onFailure);
      }
    }

    /**
     * Resolve: on an untainted key the answer is what the store alone would give,
     * whether or not it was cached. Only a successful build of an existing
     * project enters the cache: not an unknown key, not an error.
     */
    method Resolve(key: string, up: bool, ghost tainted: set<string>) returns (r: Result<Resolved, ResolveError>)
      requires Valid(tainted)
      modifies this`cache
      ensures Valid(tainted)
      ensures key !in tainted && (up || key in old(cache)) ==> r == Uncached(At(), store.rows, key)
      ensures !up && key !in old(cache) ==> r == Err(StoreDown)
      ensures cache == if key !in old(cache) && up && key in store.rows && r.Ok? then old(cache)[key := r.value]
                       else old(cache)
    {
      if key in cache {
        return Ok(cache[key]);
      }
      var got := store.Get(key, up);
      if got.Err? {
        return Err(got.error);
      }
      if got.value.None? {
        return Ok(global);
      }
      var rp := Build(got.value.value);
      if rp.None? {
        return Err(BuildFailed);
      }
      cache := cache[key := rp.value];
      return Ok(rp.value);
    }

    /**
     * Drops one entry, never the global one. So a cache that disagrees with the
     * store on the key at most, as after a write of it, agrees everywhere again.
     */
    method Invalidate(key: string, ghost tainted: set<string>)
      modifies this`cache
      ensures cache == if key == "" then old(cache) else old(cache) - {key}
      ensures old(Valid(tainted + {key})) ==> Valid(tainted)
    {
      if key == "" {
        assert forall k :: k != "" && k !in tainted ==> k !in tainted + {key};
        return;
      }
      cache := cache - {key};
      forall k | old(Valid(tainted + {key})) && k != "" && k !in tainted
        ensures Agrees(k)
      {
        assert k != key ==> old(Agrees(k));
      }
    }

    method Build(cfg: ProjectConfig) returns (r: Option<Resolved>)
      ensures r == Built(At(), cfg)
    {
      if registryType !in cfg {
        return Some(global);
      }
      var rp := Override(cfg[registryType]);
      if rp.None? {
        return None;
      }
      var hooked := ApplyHooksTo(rp.value.validation);
      return Some(rp.value.(validation := hooked));
    }

    method Override(rmw: RegistryConfig) returns (r: Option<Resolved>)
      ensures r == Overridden(At(), rmw)
    {
      var rp := global;
      NothingToBuild(At());
      if |rmw.validation| > 0 {
        var v := BuildEach(factories.validation, rmw.validation);
        if v.None? {
          return None;
        }
        rp := rp.(validation := Validation(v.value, None));
      }
      if |rmw.retrieval| > 0 {
        var head := BuildHead(rmw.retrieval);
        if head.None? {
          return None;
        }
        rp := rp.(retrieval := head.value, cache := EvictorOf(head.value));
      }
      if |rmw.mutation| > 0 {
        var m := BuildEach(factories.mutation, rmw.mutation);
        if m.None? {
          return None;
        }
        rp := rp.(mutation := m.value);
      }
      return Some(rp);
    }

    method BuildEach<T>(table: map<string, string -> Option<T>>, ms: seq<R.Middleware>) returns (r: Option<seq<T>>)
      ensures r == BuildAll(table, ms)
    {
      var built := R.BuildList(table, ms);
      return if built.Err? then None else Some(built.value);
    }

    method BuildHead(ms: seq<R.Middleware>) returns (r: Option<R.Chain>)
      ensures var all := BuildAll(factories.retrieval, ms);
              r == if all.None? then None else Some(R.ChainOf(all.value))
    {
      var built := R.BuildRetrieval(factories.retrieval, ms);
      return if built.Err? then None else Some(built.value);
    }
  }

  /** An empty list always builds. */
  lemma NothingToBuild(site: Site)
    ensures BuildAll(site.factories.validation, []) == Some([])
    ensures BuildAll(site.factories.retrieval, []) == Some([])
    ensures BuildAll(site.factories.mutation, []) == Some([])
  {
  }

  // -------------------------------------------------------------------- the admin

  datatype RegistryReq = RegistryReq(validation: seq<R.Middleware>, retrieval: seq<R.Middleware>,
                                     mutation: seq<R.Middleware>)

  datatype ProjectReq = ProjectReq(key: string, registries: map<string, RegistryReq>)

  // How the store behaves during one admin call.
  datatype StoreIo = StoreIo(getUp: bool, write: WriteOutcome)

  /** A request entry with a type and with params that convert from JSON. */
  predicate Convertible(yaml: string -> Option<string>, m: R.Middleware) {
    m.typeName != "" && yaml(m.params).Some?
  }

  predicate AllConvertible(yaml: string -> Option<string>, ms: seq<R.Middleware>) {
    forall i :: 0 <= i < |ms| ==> Convertible(yaml, ms[i])
  }

  predicate RegistryOk(yaml: string -> Option<string>, rr: RegistryReq) {
    AllConvertible(yaml, rr.validation) && AllConvertible(yaml, rr.retrieval) && AllConvertible(yaml, rr.mutation)
  }

  function Converted(yaml: string -> Option<string>, ms: seq<R.Middleware>): seq<R.Middleware>
    requires AllConvertible(yaml, ms)
  {
    seq(|ms|, i requires 0 <= i < |ms| => R.Middleware(ms[i].typeName, yaml(ms[i].params).value))
  }

  function ConvertedRegistry(yaml: string -> Option<string>, rr: RegistryReq): RegistryConfig
    requires RegistryOk(yaml, rr)
  {
    RegistryConfig(Converted(yaml, rr.validation), Converted(yaml, rr.retrieval), Converted(yaml, rr.mutation))
  }

  /** The stored section has the request's entries, one for one and in order, params converted. */
  lemma ConvertedByIndex(yaml: string -> Option<string>, rr: RegistryReq)
    requires RegistryOk(yaml, rr)
    ensures var rc := ConvertedRegistry(yaml, rr);
            && ConvertsTo(yaml, rr.validation, rc.validation) && ConvertsTo(yaml, rr.retrieval, rc.retrieval)
            && ConvertsTo(yaml, rr.mutation, rc.mutation)
  {
  }

  ghost predicate ConvertsTo(yaml: string -> Option<string>, ms: seq<R.Middleware>, out: seq<R.Middleware>) {
    && |out| == |ms|
    && forall i :: 0 <= i < |ms| ==> out[i].typeName == ms[i].typeName && yaml(ms[i].params) == Some(out[i].params)
  }

  /** buildConfig accepts exactly the requests that name known registries and convertible middlewares. */
  ghost predicate Acceptable(known: set<string>, yaml: string -> Option<string>, registries: map<string, RegistryReq>) {
    forall name :: name in registries ==> name != "" && name in known && RegistryOk(yaml, registries[name])
  }

  class Admin {
    const store: ProjectStore
    const resolver: Resolver
    const knownRegistries: set<string>
    const yaml: string -> Option<string>
    var auditLog: seq<(string, string)>
    ghost var tainted: set<string>

    /** The resolver agrees with the store on every key whose last write was reported truthfully. */
    ghost predicate Valid()
      reads this, resolver, store
    {
      resolver.store == store && resolver.Valid(tainted)
    }

    constructor (resolver: Resolver, knownRegistries: set<string>, yaml: string -> Option<string>)
      requires resolver.Valid({})
      ensures Valid() && this.resolver == resolver && store == resolver.store && tainted == {} && auditLog == []
      ensures this.knownRegistries == knownRegistries && this.yaml == yaml
    {
      this.store, this.resolver, this.knownRegistries, this.yaml := resolver.store, resolver, knownRegistries, yaml;
      auditLog, tainted := [], {};
    }

    twostate predicate Untouched()
      reads this, resolver, store
    {
      && store.rows == old(store.rows) && resolver.cache == old(resolver.cache)
      && tainted == old(tainted) && auditLog == old(auditLog)
    }

    /**
     * What a call that reached the store write did: row, cached pipelines and
     * audit entry change together, except when the row is committed under an
     * error report - then the cache is not told, and the key is tainted.
     */
    twostate predicate Wrote(op: string, key: string, cfg: Option<ProjectConfig>, outcome: WriteOutcome)
      reads this, resolver, store
    {
      && store.rows == (if outcome.Refused? then old(store.rows)
                        else if cfg.Some? then old(store.rows)[key := cfg.value] else old(store.rows) - {key})
      && resolver.cache == (if outcome.Applied? then old(resolver.cache) - {key} else old(resolver.cache))
      && auditLog == (if outcome.Applied? then old(auditLog) + [(op, key)] else old(auditLog))
      && tainted == (if outcome.Applied? then old(tainted) - {key}
                     else if outcome.Refused? then old(tainted) else old(tainted) + {key})
    }

    method Create(body: Option<ProjectReq>, io: StoreIo) returns (status: nat)
      requires Valid()
      modifies this, resolver`cache, store
      ensures Valid()
      ensures status == 400 <==> body.None? || !ValidProjectKey(body.value.key)
                                 || !Acceptable(knownRegistries, yaml, body.value.registries)
      ensures status != 400 ==>
                if !io.getUp then status == 500 && Untouched()
                else if body.value.key in old(store.rows) then status == 409 && Untouched()
                else status == (if io.write.Applied? then 201 else 500)
                     && Wrote("create", body.value.key, Some(ConfigOf(body.value.registries)), io.write)
      ensures status == 400 ==> Untouched()
    {
      if body.None? || !ValidProjectKey(body.value.key) {
        return 400;
      }
      var key := body.value.key;
      var cfg := BuildConfig(body.value.registries);
      if cfg.None? {
        return 400;
      }
      var got := store.Get(key, io.getUp);
      if got.Ok? && got.value.Some? {
        return 409;
      } else if got.Err? {
        return 500;
      }
      status := PutRow("create", key, cfg.value, io.write, 201);
    }

    /** PUT: create or replace; the path key is authoritative. */
    method Put(key: string, body: Option<ProjectReq>, io: StoreIo) returns (status: nat)
      requires Valid()
      modifies this, resolver`cache, store
      ensures Valid()
      ensures status == 400 <==> body.None? || !ValidProjectKey(key) || (body.value.key != "" && body.value.key != key)
                                 || !Acceptable(knownRegistries, yaml, body.value.registries)
      ensures status == 400 ==> Untouched()
      ensures status != 400 ==>
                if !io.getUp then status == 500 && Untouched()
                else status == (if !io.write.Applied? then 500 else if key in old(store.rows) then 200 else 201)
                     && Wrote("put", key, Some(ConfigOf(body.value.registries)), io.write)
    {
      if !ValidProjectKey(key) || body.None? || (body.value.key != "" && body.value.key != key) {
        return 400;
      }
      var cfg := BuildConfig(body.value.registries);
      if cfg.None? {
        return 400;
      }
      var got := store.Get(key, io.getUp);
      if got.Err? {
        return 500;
      }
      status := PutRow("put", key, cfg.value, io.write, if got.value.None? then 201 else 200);
    }

    method Delete(key: string, io: StoreIo) returns (status: nat)
      requires Valid()
      modifies this, resolver`cache, store
      ensures Valid()
      ensures if !ValidProjectKey(key) then status == 400 && Untouched()
              else if !io.getUp then status == 500 && Untouched()
              else if key !in old(store.rows) then status == 404 && Untouched()
              else status == (if io.write.Applied? then 204 else 500) && Wrote("delete", key, None, io.write)
    {
      if !ValidProjectKey(key) {
        return 400;
      }
      var got := store.Get(key, io.getUp);
      if got.Ok? && got.value.None? {
        return 404;
      } else if got.Err? {
        return 500;
      }
      var ok := store.Delete(key, io.write);
      Settle(key, io.write);
      if !ok {
        return 500;
      }
      resolver.Invalidate(key, tainted);
      auditLog := auditLog + [("delete", key)];
      return 204;
    }

    /** The common end of create and put: write the row, invalidate, audit. */
    method PutRow(op: string, key: string, cfg: ProjectConfig, outcome: WriteOutcome, success: nat)
      returns (status: nat)
      requires Valid() && ValidProjectKey(key)
      modifies this, resolver`cache, store
      ensures Valid() && Wrote(op, key, Some(cfg), outcome)
      ensures status == if outcome.Applied? then success else 500
    {
      var ok := store.Put(key, cfg, outcome);
      Settle(key, outcome);
      if !ok {
        return 500;
      }
      resolver.Invalidate(key, tainted);
      auditLog := auditLog + [(op, key)];
      return success;
    }

    ghost method Settle(key: string, outcome: WriteOutcome)
      modifies this`tainted
      ensures tainted == if outcome.Applied? then old(tainted) - {key}
                         else if outcome.Refused? then old(tainted) else old(tainted) + {key}
    {
      if outcome.Applied? {
        tainted := tainted - {key};
      } else if !outcome.Refused? {
        tainted := tainted + {key};
      }
    }

    /** The config that buildConfig makes of an acceptable request. */
    function ConfigOf(registries: map<string, RegistryReq>): ProjectConfig
      requires Acceptable(knownRegistries, yaml, registries)
    {
      map name | name in registries :: ConvertedRegistry(yaml, registries[name])
    }

    method BuildConfig(registries: map<string, RegistryReq>) returns (cfg: Option<ProjectConfig>)
      ensures cfg.Some? <==> Acceptable(knownRegistries, yaml, registries)
      ensures cfg.Some? ==> cfg.value == ConfigOf(registries)
    {
      var out: ProjectConfig := map[];
      var left := registries.Keys;
      while left != {}
        invariant left <= registries.Keys && out.Keys == registries.Keys - left
        invariant forall name :: name in out ==>
                    name != "" && name in knownRegistries && RegistryOk(yaml, registries[name])
                    && out[name] == ConvertedRegistry(yaml, registries[name])
        decreases |left|
      {
        var name :| name in left;
        left := left - {name};
        if name == "" || name !in knownRegistries {
          return None;
        }
        var validation := ToConfigMiddlewares(registries[name].validation);
        var retrieval := ToConfigMiddlewares(registries[name].retrieval);
        var mutation := ToConfigMiddlewares(registries[name].mutation);
        if validation.None? || retrieval.None? || mutation.None? {
          return None;
        }
        out := out[name := RegistryConfig(validation.value, retrieval.value, mutation.value)];
      }
      return Some(out);
    }

    method ToConfigMiddlewares(ms: seq<R.Middleware>) returns (r: Option<seq<R.Middleware>>)
      ensures r.Some? <==> AllConvertible(yaml, ms)
      ensures r.Some? ==> r.value == Converted(yaml, ms)
    {
      var out: seq<R.Middleware> := [];
      for i := 0 to |ms|
        invariant AllConvertible(yaml, ms[..i]) && out == Converted(yaml, ms[..i])
      {
        var m := ms[i];
        assert ms[..i + 1] == ms[..i] + [m];
        if m.typeName == "" {
          return None;
        }
        var n := yaml(m.params);
        if n.None? {
          return None;
        }
        out := out + [R.Middleware(m.typeName, n.value)];
      }
      assert ms[..|ms|] == ms;
      return Some(out);
    }
  }
}
