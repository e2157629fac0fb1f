/**
 * internal/pipeline/pipeline.go (builders and runners), the write-through cache
 * internal/middleware/retrieval/localcache/localcache.go, the terminal layer
 * internal/registry/npm/upstream.go, and the verify-or-evict step of
 * internal/registry/npm/routes.go on top of them.
 *
 * The outside world during one retrieval run is a value of type Outside: what
 * the upstream answers, what each CVE re-check decides, and which
 * cache backends fail. A cache slot is a (backend, key) pair; two layers may
 * share a backend.
 */
module Retrieval {
  import opened Basics

  datatype FetchError = NotFound | Rejected | NoResolver | BadKey | Unavailable

  datatype Layer = Cache(backend: nat) | CveCheck(check: nat) | Upstream

  /** The built decorator chain; noResolver is the innermost element. */
  datatype Chain = Terminal | Wrap(layer: Layer, next: Chain)

  function ChainOf(layers: seq<Layer>): Chain {
    if layers == [] then Terminal else Wrap(layers[0], ChainOf(layers[1..]))
  }

  function Depth(c: Chain): nat {
    match c
    case Terminal => 0
    case Wrap(_, next) => 1 + Depth(next)
  }

  /** The i-th layer from the outside. */
  function LayerAt(c: Chain, i: nat): Layer
    requires i < Depth(c)
  {
    if i == 0 then c.layer else LayerAt(c.next, i - 1)
  }

  lemma {:induction false} ChainAt(layers: seq<Layer>)
    ensures Depth(ChainOf(layers)) == |layers|
    ensures forall i: nat :: i < |layers| ==> LayerAt(ChainOf(layers), i) == layers[i]
    decreases |layers|
  {
    if layers != [] {
      ChainAt(layers[1..]);
      assert forall i: nat :: 0 < i < |layers| ==> layers[i] == layers[1..][i - 1];
    }
  }

  // ------------------------------------------------------------------- builders

  datatype Middleware = Middleware(typeName: string, params: string)

  /** A configured entry that its factory table can build. */
  predicate Buildable<T>(factories: map<string, string -> Option<T>>, m: Middleware) {
    m.typeName in factories && factories[m.typeName](m.params).Some?
  }

  function Built<T>(factories: map<string, string -> Option<T>>, m: Middleware): T
    requires Buildable(factories, m)
  {
    factories[m.typeName](m.params).value
  }

  /** The layers of a fully buildable configuration, in config order. */
  function LayersOf<T>(factories: map<string, string -> Option<T>>, ms: seq<Middleware>): (ls: seq<T>)
    requires forall i :: 0 <= i < |ms| ==> Buildable(factories, ms[i])
    ensures |ls| == |ms| && forall i :: 0 <= i < |ms| ==> ls[i] == Built(factories, ms[i])
  {
    if ms == [] then [] else [Built(factories, ms[0])] + LayersOf(factories, ms[1..])
  }

  /** BuildValidation and BuildMutation: config order; the error names the first bad entry. */
  method BuildList<T>(factories: map<string, string -> Option<T>>, ms: seq<Middleware>)
    returns (r: Result<seq<T>, nat>)
    ensures r.Ok? <==> forall i :: 0 <= i < |ms| ==> Buildable(factories, ms[i])
    ensures r.Ok? ==> r.value == LayersOf(factories, ms)
    ensures r.Err? ==> r.error < |ms| && !Buildable(factories, ms[r.error])
                       && forall i :: 0 <= i < r.error ==> Buildable(factories, ms[i])
  {
    var chain: seq<T> := [];
    for i := 0 to |ms|
      invariant |chain| == i
      invariant forall j :: 0 <= j < i ==> Buildable(factories, ms[j]) && chain[j] == Built(factories, ms[j])
    {
      var m := ms[i];
      if m.typeName !in factories {
        return Err(i);
      }
      var mw := factories[m.typeName](m.params);
      if mw.None? {
        return Err(i);
      }
      chain := chain + [mw.value];
    }
    return Ok(chain);
  }

  /** BuildRetrieval: wraps tail-first, so the chain is in config order and the error names the last bad entry. */
  method BuildRetrieval(factories: map<string, string -> Option<Layer>>, ms: seq<Middleware>)
    returns (r: Result<Chain, nat>)
    ensures r.Ok? <==> forall i :: 0 <= i < |ms| ==> Buildable(factories, ms[i])
    ensures r.Ok? ==> r.value == ChainOf(LayersOf(factories, ms))
    ensures r.Err? ==> r.error < |ms| && !Buildable(factories, ms[r.error])
                       && forall i :: r.error < i < |ms| ==> Buildable(factories, ms[i])
  {
    var next := Terminal;
    var i := |ms|;
    while i > 0
      invariant 0 <= i <= |ms|
      invariant forall j :: i <= j < |ms| ==> Buildable(factories, ms[j])
      invariant next == ChainOf(LayersOf(factories, ms[i..]))
    {
      i := i - 1;
      var m := ms[i];
      if m.typeName !in factories {
        return Err(i);
      }
      var mw := factories[m.typeName](m.params);
      if mw.None? {
        return Err(i);
      }
      assert ms[i..][1..] == ms[i + 1..];
      next := Wrap(mw.value, next);
    }
    assert ms[0..] == ms;
    return Ok(next);
  }

  // -------------------------------------------------------------------- one run

  datatype Packument = Packument(urls: map<string, string>)

  datatype CveDecision = Serve | DenyServe | FailClosed

  datatype Outside = Outside(
    packument: Result<Packument, FetchError>,
    tarball: string -> Result<Bytes, FetchError>,
    cve: nat -> CveDecision,                   // what each CVE check decides on a hit
    getFails: nat -> bool,                     // backend read fails with an error other than "not found"
    putFails: nat -> bool,
    deleteFails: nat -> bool)

  type Slots = map<(nat, string), Bytes>

  // The parts of PipelineContext a retrieval run touches. `key` is cacheKey's
  // answer for the artifact (None when it rejects the identity).
  datatype Ctx = Ctx(version: string, key: Option<string>, index: Option<Packument>, tarball: Option<Bytes>)

  datatype Answer = Hit | Miss | Failed(error: FetchError)

  datatype Fetched = Fetched(answer: Answer, ctx: Ctx, slots: Slots)

  /** upstreamRegistry.Fetch: fills ctx.Index and ctx.Tarball only where missing. */
  function UpstreamFetch(o: Outside, ctx: Ctx): (Answer, Ctx) {
    var indexed := if ctx.index.Some? then Ok(ctx.index.value) else o.packument;
    if indexed.Err? then (Failed(indexed.error), ctx)
    else
      var ctx1 := ctx.(index := Some(indexed.value));
      if ctx.version !in indexed.value.urls then (Failed(Unavailable), ctx1)
      else if ctx.tarball.Some? then (Hit, ctx1)
      else
        var b := o.tarball(indexed.value.urls[ctx.version]);
        if b.Err? then (Failed(b.error), ctx1) else (Hit, ctx1.(tarball := Some(b.value)))
  }

  /** The slot contents a cache read sees after dropping an unreadable entry. */
  function AfterGet(o: Outside, backend: nat, key: string, slots: Slots): Slots {
    if o.getFails(backend) && !o.deleteFails(backend) then slots - {(backend, key)} else slots
  }

  /** What the CVE re-check makes of a downstream hit. */
  function CveAnswer(d: CveDecision): Answer {
    match d
    case Serve => Hit
    case DenyServe => Failed(Rejected)
    case FailClosed => Failed(Unavailable)
  }

  /** The specification of Fetch over the whole chain. */
  function FetchSpec(c: Chain, o: Outside, ctx: Ctx, slots: Slots): Fetched {
    match c
    case Terminal => Fetched(Failed(NoResolver), ctx, slots)
    case Wrap(Upstream, _) =>
      var (a, ctx1) := UpstreamFetch(o, ctx);
      Fetched(a, ctx1, slots)
    case Wrap(CveCheck(check), next) =>
      var r := FetchSpec(next, o, ctx, slots);
      if r.answer != Hit then r else r.(answer := CveAnswer(o.cve(check)))
    case Wrap(Cache(b), next) =>
      if ctx.key.None? then Fetched(Failed(BadKey), ctx, slots)
      else
        var k := ctx.key.value;
        if !o.getFails(b) && (b, k) in slots then Fetched(Hit, ctx.(tarball := Some(slots[(b, k)])), slots)
        else
          var r := FetchSpec(next, o, ctx, AfterGet(o, b, k, slots));
          if r.answer == Hit && r.ctx.tarball.Some? && !o.putFails(b) then
            r.(slots := r.slots[(b, k) := r.ctx.tarball.value])
          else r
  }

  /** The slot Evict deletes: the first cache below the head, seen through CVE checks only. */
  function EvictTarget(c: Chain): Option<nat> {
    match c
    case Wrap(Cache(b), _) => Some(b)
    case Wrap(CveCheck(_), next) => EvictTarget(next)
    case _ => None
  }

  function EvictSpec(c: Chain, o: Outside, ctx: Ctx, slots: Slots): Slots {
    if EvictTarget(c).None? || ctx.key.None? || o.deleteFails(EvictTarget(c).value) then slots
    else slots - {(EvictTarget(c).value, ctx.key.value)}
  }

  /** The cache backends and one request's context, updated in place by the chain. */
  class Stack {
    var slots: Slots
    var ctx: Ctx

    constructor (slots: Slots, ctx: Ctx)
      ensures this.slots == slots && this.ctx == ctx
    {
      this.slots, this.ctx := slots, ctx;
    }

    method UpstreamRegistryFetch(o: Outside) returns (a: Answer)
      modifies this`ctx
      ensures (a, ctx) == UpstreamFetch(o, old(ctx))
    {
      var pack := ctx.index;
      if pack.None? {
        if o.packument.Err? {
          return Failed(o.packument.error);
        }
        ctx := ctx.(index := Some(o.packument.value));
        pack := Some(o.packument.value);
      }
      if ctx.version !in pack.value.urls {
        return Failed(Unavailable);
      }
      if ctx.tarball.None? {
        var b := o.tarball(pack.value.urls[ctx.version]);
        if b.Err? {
          return Failed(b.error);
        }
        ctx := ctx.(tarball := Some(b.value));
      }
      return Hit;
    }

    /** Middleware.Fetch of each layer. */
    method Fetch(c: Chain, o: Outside) returns (a: Answer)
      modifies this
      ensures Fetched(a, ctx, slots) == FetchSpec(c, o, old(ctx), old(slots))
      decreases c
    {
      match c
      case Terminal =>
        a := Failed(NoResolver);
      case Wrap(Upstream, _) =>
        a := UpstreamRegistryFetch(o);
      case Wrap(CveCheck(check), next) =>
        a := Fetch(next, o);
        if a == Hit {
          a := CveAnswer(o.cve(check));
        }
      case Wrap(Cache(b), next) =>
        if ctx.key.None? {
          return Failed(BadKey);
        }
        var slot := (b, ctx.key.value);
        if !o.getFails(b) && slot in slots {
          ctx := ctx.(tarball := Some(slots[slot]));
          return Hit;
        } else if o.getFails(b) && !o.deleteFails(b) {
          slots := slots - {slot};
        }
        a := Fetch(next, o);
        if a == Hit && ctx.tarball.Some? && !o.putFails(b) {
          slots := slots[slot := ctx.tarball.value];
        }
    }

    method Evict(c: Chain, o: Outside)
      modifies this`slots
      ensures slots == EvictSpec(c, o, ctx, old(slots))
    {
      match c
      case Wrap(Cache(b), _) =>
        if ctx.key.Some? && !o.deleteFails(b) {
          slots := slots - {(b, ctx.key.value)};
        }
      case Wrap(CveCheck(_), next) =>
        Evict(next, o);
      case _ =>
    }

    /**
     * fetchBytes then verifyOrEvict: the bytes to serve, or the failure. The
     * outside world may differ between the two retrieval runs.
     */
    method VerifiedBytes(sha: Bytes -> string, c: Chain, o1: Outside, o2: Outside, expected: string)
      returns (r: Result<Bytes, Option<FetchError>>)
      modifies this
      ensures (r, slots) == VerifySpec(sha, c, o1, o2, expected, old(ctx), old(slots))
      ensures r.Ok? ==> ctx.tarball == Some(r.value) && sha(r.value) == expected
      ensures ctx.key == old(ctx.key) && ctx.version == old(ctx.version)
    {
      FetchKeepsIdentity(c, o1, ctx, slots);
      var a := Fetch(c, o1);
      if a != Hit || ctx.tarball.None? {
        return Err(Some(if a.Failed? then a.error else NoResolver));
      }
      if sha(ctx.tarball.value) == expected {
        return Ok(ctx.tarball.value);
      }
      Evict(c, o1);
      ctx := ctx.(tarball := None);
      FetchKeepsIdentity(c, o2, ctx, slots);
      a := Fetch(c, o2);
      if a != Hit || ctx.tarball.None? {
        return Err(Some(if a.Failed? then a.error else NoResolver));
      }
      if sha(ctx.tarball.value) != expected {
        return Err(None);
      }
      return Ok(ctx.tarball.value);
    }
  }

  /** What fetchBytes returns: the tarball of a hit, an error otherwise. */
  function BytesOf(f: Fetched): Result<Bytes, FetchError> {
    if f.answer == Hit && f.ctx.tarball.Some? then Ok(f.ctx.tarball.value)
    else if f.answer.Failed? then Err(f.answer.error) else Err(NoResolver)
  }

  /** verifyOrEvict: Err(None) is the 502 integrity mismatch. */
  function VerifySpec(sha: Bytes -> string, c: Chain, o1: Outside, o2: Outside, expected: string, ctx: Ctx,
                      slots: Slots)
    : (Result<Bytes, Option<FetchError>>, Slots)
  {
    var f1 := FetchSpec(c, o1, ctx, slots);
    match BytesOf(f1)
    case Err(e) => (Err(Some(e)), f1.slots)
    case Ok(b1) =>
      if sha(b1) == expected then (Ok(b1), f1.slots)
      else
        var f2 := FetchSpec(c, o2, f1.ctx.(tarball := None), EvictSpec(c, o1, f1.ctx, f1.slots));
        match BytesOf(f2)
        case Err(e) => (Err(Some(e)), f2.slots)
        case Ok(b2) => if sha(b2) == expected then (Ok(b2), f2.slots) else (Err(None), f2.slots)
  }

  lemma FetchKeepsIdentity(c: Chain, o: Outside, ctx: Ctx, slots: Slots)
    ensures FetchSpec(c, o, ctx, slots).ctx.key == ctx.key && FetchSpec(c, o, ctx, slots).ctx.version == ctx.version
  {
  }

  // ------------------------------------------------- which layer resolves a run

  /** What layer `l` would answer by itself: Some for a readable cache entry or an upstream that answers. */
  function Resolves(l: Layer, o: Outside, ctx: Ctx, slots: Slots): Option<Bytes> {
    match l
    case CveCheck(_) => None
    case Cache(b) =>
      if ctx.key.Some? && !o.getFails(b) && (b, ctx.key.value) in slots then Some(slots[(b, ctx.key.value)]) else None
    case Upstream =>
      if ListedUrl(o, ctx).None? then None
      else if ctx.tarball.Some? then ctx.tarball
      else
        match o.tarball(ListedUrl(o, ctx).value)
        case Ok(b) => Some(b)
        case Err(_) => None
  }

  /** Where the packument, the context's or else the upstream's, says the version's tarball is. */
  function ListedUrl(o: Outside, ctx: Ctx): Option<string> {
    var pack := if ctx.index.Some? then ctx.index else if o.packument.Ok? then Some(o.packument.value) else None;
    if pack.Some? && ctx.version in pack.value.urls then Some(pack.value.urls[ctx.version]) else None
  }

  /**
   * The terminal layer, exactly: it needs a packument, the context's or else the
   * upstream's; that must list the version; and what the upstream answers at the
   * URL listed there is what the run brings, unless the tarball is there already.
   */
  lemma UpstreamAnswers(next: Chain, o: Outside, ctx: Ctx, slots: Slots)
    ensures ctx.index.None? && o.packument.Err? ==>
              FetchSpec(Wrap(Upstream, next), o, ctx, slots) == Fetched(Failed(o.packument.error), ctx, slots)
    ensures forall p :: ctx.index == Some(p) || (ctx.index.None? && o.packument == Ok(p)) ==>
              FetchSpec(Wrap(Upstream, next), o, ctx, slots) ==
              if ctx.version !in p.urls then Fetched(Failed(Unavailable), ctx.(index := Some(p)), slots)
              else if ctx.tarball.Some? then Fetched(Hit, ctx.(index := Some(p)), slots)
              else
                match o.tarball(p.urls[ctx.version])
                case Ok(b) => Fetched(Hit, ctx.(index := Some(p), tarball := Some(b)), slots)
                case Err(e) => Fetched(Failed(e), ctx.(index := Some(p)), slots)
  {
  }

  /** Layer `i` is the first of `layers` to resolve, with bytes `b`. */
  ghost predicate FirstResolver(layers: seq<Layer>, o: Outside, ctx: Ctx, slots: Slots, i: nat, b: Bytes) {
    && i < |layers| && Resolves(layers[i], o, ctx, slots) == Some(b)
    && forall j :: 0 <= j < i ==> Resolves(layers[j], o, ctx, slots).None? && !layers[j].Upstream?
  }

  /** Every CVE check among the first `i` layers serves. */
  ghost predicate CveServes(layers: seq<Layer>, o: Outside, i: nat) {
    forall j :: 0 <= j < i <= |layers| && layers[j].CveCheck? ==> o.cve(layers[j].check) == Serve
  }

  /** A built chain never answers (false, nil): it hits or fails. */
  lemma {:induction false} NeverMiss(c: Chain, o: Outside, ctx: Ctx, slots: Slots)
    ensures FetchSpec(c, o, ctx, slots).answer != Miss
    decreases c
  {
    match c
    case Terminal =>
    case Wrap(Upstream, _) =>
    case Wrap(CveCheck(_), next) => NeverMiss(next, o, ctx, slots);
    case Wrap(Cache(b), next) =>
      if ctx.key.Some? {
        NeverMiss(next, o, ctx, AfterGet(o, b, ctx.key.value, slots));
      }
  }

  /** Reading below a cache that missed: the caller's slots or the ones without its own entry look the same there. */
  lemma FirstResolverBelow(layers: seq<Layer>, o: Outside, ctx: Ctx, slots: Slots, i: nat, b: Bytes)
    requires 0 < i && layers != [] && layers[0].Cache? && ctx.key.Some?
    requires Resolves(layers[0], o, ctx, slots).None?
    ensures FirstResolver(layers, o, ctx, slots, i, b) <==>
            FirstResolver(layers[1..], o, ctx, AfterGet(o, layers[0].backend, ctx.key.value, slots), i - 1, b)
  {
    var below := AfterGet(o, layers[0].backend, ctx.key.value, slots);
    assert forall l: Layer :: Resolves(l, o, ctx, below) == Resolves(l, o, ctx, slots);
    assert forall j :: 0 < j < |layers| ==> layers[1..][j - 1] == layers[j];
    if FirstResolver(layers, o, ctx, slots, i, b) {
      forall j | 0 <= j < i - 1
        ensures Resolves(layers[1..][j], o, ctx, below).None? && !layers[1..][j].Upstream?
      {
        assert layers[1..][j] == layers[j + 1];
      }
    }
    if FirstResolver(layers[1..], o, ctx, below, i - 1, b) {
      forall j | 0 <= j < i
        ensures Resolves(layers[j], o, ctx, slots).None? && !layers[j].Upstream?
      {
        if j > 0 {
          assert layers[1..][j - 1] == layers[j];
        }
      }
    }
  }

  /**
   * Resolution order, both directions: a run hits with bytes b exactly when some
   * layer is the first in config order to resolve, it resolves to b, and every
   * CVE check above it serves.
   */
  lemma {:induction false} HitsAtFirstResolver(layers: seq<Layer>, o: Outside, ctx: Ctx, slots: Slots, b: Bytes)
    requires ctx.key.Some? && ctx.tarball.None?
    ensures BytesOf(FetchSpec(ChainOf(layers), o, ctx, slots)) == Ok(b)
            <==> exists i: nat :: FirstResolver(layers, o, ctx, slots, i, b) && CveServes(layers, o, i)
    decreases |layers|
  {
    if layers == [] {
    } else if layers[0].CveCheck? {
      var rest := layers[1..];
      HitsAtFirstResolver(rest, o, ctx, slots, b);
      ShiftCve(layers, o, ctx, slots, b);
    } else if layers[0].Upstream? {
      if BytesOf(FetchSpec(ChainOf(layers), o, ctx, slots)) == Ok(b) {
        assert FirstResolver(layers, o, ctx, slots, 0, b) && CveServes(layers, o, 0);
      }
    } else if Resolves(layers[0], o, ctx, slots).Some? {
      if Resolves(layers[0], o, ctx, slots) == Some(b) {
        assert FirstResolver(layers, o, ctx, slots, 0, b) && CveServes(layers, o, 0);
      }
    } else {
      var below := AfterGet(o, layers[0].backend, ctx.key.value, slots);
      HitsAtFirstResolver(layers[1..], o, ctx, below, b);
      ShiftCache(layers, o, ctx, slots, b);
    }
  }

  lemma ShiftServes(layers: seq<Layer>, o: Outside, i: nat)
    requires 0 < i <= |layers|
    ensures CveServes(layers, o, i) <==>
            CveServes(layers[1..], o, i - 1) && (layers[0].CveCheck? ==> o.cve(layers[0].check) == Serve)
  {
    var rest := layers[1..];
    assert forall j :: 0 <= j < |rest| ==> rest[j] == layers[j + 1];
    if CveServes(layers, o, i) {
      forall j | 0 <= j < i - 1 && rest[j].CveCheck?
        ensures o.cve(rest[j].check) == Serve
      {
        assert layers[j + 1].CveCheck?;
      }
    }
    if CveServes(rest, o, i - 1) && (layers[0].CveCheck? ==> o.cve(layers[0].check) == Serve) {
      forall j | 0 <= j < i && layers[j].CveCheck?
        ensures o.cve(layers[j].check) == Serve
      {
        if j > 0 {
          assert rest[j - 1].CveCheck?;
        }
      }
    }
  }

  lemma ShiftCve(layers: seq<Layer>, o: Outside, ctx: Ctx, slots: Slots, b: Bytes)
    requires layers != [] && layers[0].CveCheck?
    ensures (exists i: nat :: FirstResolver(layers, o, ctx, slots, i, b) && CveServes(layers, o, i)) <==>
            o.cve(layers[0].check) == Serve
            && exists i: nat :: FirstResolver(layers[1..], o, ctx, slots, i, b) && CveServes(layers[1..], o, i)
  {
    var rest := layers[1..];
    forall i: nat | i < |layers|
      ensures FirstResolver(layers, o, ctx, slots, i, b) <==> i > 0 && FirstResolver(rest, o, ctx, slots, i - 1, b)
    {
      ShiftFirst(layers, o, ctx, slots, i, b);
    }
    if i: nat :| FirstResolver(layers, o, ctx, slots, i, b) && CveServes(layers, o, i) {
      ShiftServes(layers, o, i);
      assert FirstResolver(rest, o, ctx, slots, i - 1, b);
    }
    if i: nat :| FirstResolver(rest, o, ctx, slots, i, b) && CveServes(rest, o, i) {
      if o.cve(layers[0].check) == Serve {
        ShiftServes(layers, o, i + 1);
        assert FirstResolver(layers, o, ctx, slots, i + 1, b);
      }
    }
  }

  lemma ShiftFirst(layers: seq<Layer>, o: Outside, ctx: Ctx, slots: Slots, i: nat, b: Bytes)
    requires layers != [] && i < |layers| && Resolves(layers[0], o, ctx, slots).None? && !layers[0].Upstream?
    ensures FirstResolver(layers, o, ctx, slots, i, b) <==> i > 0 && FirstResolver(layers[1..], o, ctx, slots, i - 1, b)
  {
    var rest := layers[1..];
    assert forall j :: 0 <= j < |rest| ==> rest[j] == layers[j + 1];
    if i > 0 && FirstResolver(rest, o, ctx, slots, i - 1, b) {
      forall j | 0 <= j < i
        ensures Resolves(layers[j], o, ctx, slots).None? && !layers[j].Upstream?
      {
        if j > 0 {
          assert layers[j] == rest[j - 1];
        }
      }
    }
    if FirstResolver(layers, o, ctx, slots, i, b) && i > 0 {
      forall j | 0 <= j < i - 1
        ensures Resolves(rest[j], o, ctx, slots).None? && !rest[j].Upstream?
      {
        assert rest[j] == layers[j + 1];
      }
    }
  }

  lemma ShiftCache(layers: seq<Layer>, o: Outside, ctx: Ctx, slots: Slots, b: Bytes)
    requires layers != [] && layers[0].Cache? && ctx.key.Some? && Resolves(layers[0], o, ctx, slots).None?
    ensures var below := AfterGet(o, layers[0].backend, ctx.key.value, slots);
            (exists i: nat :: FirstResolver(layers, o, ctx, slots, i, b) && CveServes(layers, o, i)) <==>
            exists i: nat :: FirstResolver(layers[1..], o, ctx, below, i, b) && CveServes(layers[1..], o, i)
  {
    var rest, below := layers[1..], AfterGet(o, layers[0].backend, ctx.key.value, slots);
    if i: nat :| FirstResolver(layers, o, ctx, slots, i, b) && CveServes(layers, o, i) {
      FirstResolverBelow(layers, o, ctx, slots, i, b);
      ShiftServes(layers, o, i);
      assert FirstResolver(rest, o, ctx, below, i - 1, b);
    }
    if i: nat :| FirstResolver(rest, o, ctx, below, i, b) && CveServes(rest, o, i) {
      FirstResolverBelow(layers, o, ctx, slots, i + 1, b);
      ShiftServes(layers, o, i + 1);
      assert FirstResolver(layers, o, ctx, slots, i + 1, b);
    }
  }

  // ---------------------------------------------------------- what a run fails with

  /** The innermost CVE check above layer i that does not serve. */
  ghost predicate Blocks(layers: seq<Layer>, o: Outside, j: nat, i: nat) {
    && j < i <= |layers| && layers[j].CveCheck? && o.cve(layers[j].check) != Serve
    && forall m :: j < m < i && layers[m].CveCheck? ==> o.cve(layers[m].check) == Serve
  }

  /**
   * When a CVE check above the first resolver does not serve, the run fails as
   * the innermost of them says: rejected by a denial, unavailable under
   * fail_closed.
   */
  lemma {:induction false} BlockedRun(layers: seq<Layer>, o: Outside, ctx: Ctx, slots: Slots, i: nat, b: Bytes, j: nat)
    requires ctx.key.Some? && ctx.tarball.None?
    requires FirstResolver(layers, o, ctx, slots, i, b) && Blocks(layers, o, j, i)
    ensures BytesOf(FetchSpec(ChainOf(layers), o, ctx, slots)) ==
            Err(if o.cve(layers[j].check) == DenyServe then Rejected else Unavailable)
    decreases |layers|
  {
    var rest := layers[1..];
    var below := if layers[0].Cache? then AfterGet(o, layers[0].backend, ctx.key.value, slots) else slots;
    if layers[0].Cache? {
      FirstResolverBelow(layers, o, ctx, slots, i, b);
    } else {
      ShiftFirst(layers, o, ctx, slots, i, b);
    }
    assert FirstResolver(rest, o, ctx, below, i - 1, b);
    assert forall m :: 0 <= m < |rest| ==> rest[m] == layers[m + 1];
    if j > 0 {
      assert Blocks(rest, o, j - 1, i - 1);
      BlockedRun(rest, o, ctx, below, i - 1, b, j - 1);
    } else {
      assert CveServes(rest, o, i - 1) by {
        forall m | 0 <= m < i - 1 && rest[m].CveCheck?
          ensures o.cve(rest[m].check) == Serve
        {
          assert layers[m + 1].CveCheck?;
        }
      }
      HitsAtFirstResolver(rest, o, ctx, below, b);
    }
  }

  /** Nothing above layer i resolves, and none of it is the upstream. */
  ghost predicate NothingAbove(layers: seq<Layer>, o: Outside, ctx: Ctx, slots: Slots, i: nat) {
    i <= |layers| && forall j :: 0 <= j < i ==> Resolves(layers[j], o, ctx, slots).None? && !layers[j].Upstream?
  }

  lemma NothingAboveRest(layers: seq<Layer>, o: Outside, ctx: Ctx, slots: Slots, i: nat)
    requires 0 < i && ctx.key.Some? && NothingAbove(layers, o, ctx, slots, i)
    ensures var below := if layers[0].Cache? then AfterGet(o, layers[0].backend, ctx.key.value, slots) else slots;
            NothingAbove(layers[1..], o, ctx, below, i - 1)
  {
    var below := if layers[0].Cache? then AfterGet(o, layers[0].backend, ctx.key.value, slots) else slots;
    assert forall l: Layer :: Resolves(l, o, ctx, slots).None? ==> Resolves(l, o, ctx, below).None?;
    assert forall j :: 0 <= j < i - 1 ==> layers[1..][j] == layers[j + 1];
  }

  /** Why the upstream does not resolve: no packument, no such version, or no tarball at the listed URL. */
  function UpstreamError(o: Outside, ctx: Ctx): FetchError
    requires Resolves(Upstream, o, ctx, map[]).None? && ctx.tarball.None?
  {
    if ctx.index.None? && o.packument.Err? then o.packument.error
    else if ListedUrl(o, ctx).None? then Unavailable
    else o.tarball(ListedUrl(o, ctx).value).error
  }

  /**
   * When no layer above the upstream resolves, whatever the upstream fails with
   * is what the run fails with: no CVE check is asked about a failure.
   */
  lemma {:induction false} UpstreamFails(layers: seq<Layer>, o: Outside, ctx: Ctx, slots: Slots, i: nat)
    requires ctx.key.Some? && ctx.tarball.None?
    requires i < |layers| && layers[i].Upstream? && NothingAbove(layers, o, ctx, slots, i)
    requires Resolves(Upstream, o, ctx, map[]).None?
    ensures FetchSpec(ChainOf(layers), o, ctx, slots).answer == Failed(UpstreamError(o, ctx))
    decreases |layers|
  {
    if i > 0 {
      var below := if layers[0].Cache? then AfterGet(o, layers[0].backend, ctx.key.value, slots) else slots;
      NothingAboveRest(layers, o, ctx, slots, i);
      UpstreamFails(layers[1..], o, ctx, below, i - 1);
    }
  }

  /** A chain without an upstream, and with nothing cached, has no resolver. */
  lemma {:induction false} NoResolverFails(layers: seq<Layer>, o: Outside, ctx: Ctx, slots: Slots)
    requires ctx.key.Some? && NothingAbove(layers, o, ctx, slots, |layers|)
    ensures FetchSpec(ChainOf(layers), o, ctx, slots).answer == Failed(NoResolver)
    decreases |layers|
  {
    if layers != [] {
      var below := if layers[0].Cache? then AfterGet(o, layers[0].backend, ctx.key.value, slots) else slots;
      NothingAboveRest(layers, o, ctx, slots, |layers|);
      NoResolverFails(layers[1..], o, ctx, below);
    }
  }

  /** An identity the cache rejects fails at the first cache, unless the upstream comes before it. */
  lemma {:induction false} BadKeyFails(layers: seq<Layer>, o: Outside, ctx: Ctx, slots: Slots, i: nat)
    requires ctx.key.None? && i < |layers| && layers[i].Cache? && forall j :: 0 <= j < i ==> layers[j].CveCheck?
    ensures FetchSpec(ChainOf(layers), o, ctx, slots).answer == Failed(BadKey)
    decreases |layers|
  {
    if i > 0 {
      assert forall j :: 0 <= j < |layers| - 1 ==> layers[1..][j] == layers[j + 1];
      BadKeyFails(layers[1..], o, ctx, slots, i - 1);
    }
  }

  // -------------------------------------------------------------- write-through

  /**
   * Write-through: when the first resolver is layer i, every working cache above
   * it, down from the outermost point `from` with all CVE checks between them
   * serving, ends holding the resolved bytes - whatever the CVE checks further
   * out then decide, and although the run may be denied there.
   */
  lemma {:induction false} WritesThrough(layers: seq<Layer>, o: Outside, ctx: Ctx, slots: Slots, i: nat, b: Bytes,
                                         j: nat)
    requires ctx.key.Some? && ctx.tarball.None?
    requires FirstResolver(layers, o, ctx, slots, i, b)
    requires j < i && layers[j].Cache? && !o.putFails(layers[j].backend)
    requires forall m :: j < m < i && layers[m].CveCheck? ==> o.cve(layers[m].check) == Serve
    ensures var t := FetchSpec(ChainOf(layers), o, ctx, slots).slots;
            (layers[j].backend, ctx.key.value) in t && t[(layers[j].backend, ctx.key.value)] == b
    decreases |layers|
  {
    var rest := layers[1..];
    var below := if layers[0].Cache? then AfterGet(o, layers[0].backend, ctx.key.value, slots) else slots;
    if layers[0].Cache? {
      FirstResolverBelow(layers, o, ctx, slots, i, b);
    } else {
      ShiftFirst(layers, o, ctx, slots, i, b);
    }
    assert FirstResolver(rest, o, ctx, below, i - 1, b);
    assert forall m :: 0 <= m < |rest| ==> rest[m] == layers[m + 1];
    if j == 0 {
      assert CveServes(rest, o, i - 1) by {
        forall m | 0 <= m < i - 1 && rest[m].CveCheck?
          ensures o.cve(rest[m].check) == Serve
        {
          assert layers[m + 1].CveCheck?;
        }
      }
      HitsAtFirstResolver(rest, o, ctx, below, b);
    } else {
      forall m | j - 1 < m < i - 1 && rest[m].CveCheck?
        ensures o.cve(rest[m].check) == Serve
      {
        assert layers[m + 1].CveCheck?;
      }
      WritesThrough(rest, o, ctx, below, i - 1, b, j - 1);
      if layers[0].Cache? && BytesOf(FetchSpec(ChainOf(rest), o, ctx, below)).Ok? {
        var b' := BytesOf(FetchSpec(ChainOf(rest), o, ctx, below)).value;
        HitsAtFirstResolver(rest, o, ctx, below, b');
        var i' :| FirstResolver(rest, o, ctx, below, i', b') && CveServes(rest, o, i');
        assert i' == i - 1;
      }
    }
  }

  /** A run touches only this artifact's own slots. */
  lemma {:induction false} TouchesOwnSlots(c: Chain, o: Outside, ctx: Ctx, slots: Slots, slot: (nat, string))
    requires ctx.key != Some(slot.1)
    ensures var t := FetchSpec(c, o, ctx, slots).slots;
            (slot in t <==> slot in slots) && (slot in t ==> t[slot] == slots[slot])
    decreases c
  {
    match c
    case Terminal =>
    case Wrap(Upstream, _) =>
    case Wrap(CveCheck(_), next) => TouchesOwnSlots(next, o, ctx, slots, slot);
    case Wrap(Cache(b), next) =>
      if ctx.key.Some? {
        TouchesOwnSlots(next, o, ctx, AfterGet(o, b, ctx.key.value, slots), slot);
      }
  }
}
