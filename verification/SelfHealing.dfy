/**
 * What verifyOrEvict (internal/registry/npm/routes.go:214-243) achieves on top
 * of the retrieval chain: when a corrupted cache heals itself, exactly when it
 * does not, and that a mismatch is never served.
 *
 * Throughout, the outside world is steady: one value `o` for both retrieval
 * runs, whose backends work. The CVE checks may serve or deny, each as it likes;
 * the cache contents are arbitrary.
 */
module SelfHealing {
  import opened Basics
  import opened Retrieval

  ghost predicate Working(o: Outside) {
    forall b :: !o.getFails(b) && !o.putFails(b) && !o.deleteFails(b)
  }

  /** A request context at the start of the trust flow. */
  ghost predicate Begun(ctx: Ctx) {
    ctx.key.Some? && ctx.tarball.None? && ctx.index.None?
  }

  /** ctx.Index is unset, or what the upstream answered: the upstream's bytes do not depend on which. */
  ghost predicate Consistent(o: Outside, ctx: Ctx) {
    ctx.key.Some? && ctx.tarball.None? && (ctx.index.Some? ==> o.packument == Ok(ctx.index.value))
  }

  lemma {:induction false} FetchConsistent(c: Chain, o: Outside, ctx: Ctx, slots: Slots)
    requires Consistent(o, ctx)
    ensures Consistent(o, FetchSpec(c, o, ctx, slots).ctx.(tarball := None))
    decreases c
  {
    match c
    case Terminal =>
    case Wrap(Upstream, _) =>
    case Wrap(CveCheck(_), next) => FetchConsistent(next, o, ctx, slots);
    case Wrap(Cache(b), next) => FetchConsistent(next, o, ctx, AfterGet(o, b, ctx.key.value, slots));
  }

  lemma ResolvesSame(l: Layer, o: Outside, ctx1: Ctx, ctx2: Ctx, slots: Slots)
    requires Consistent(o, ctx1) && Consistent(o, ctx2) && ctx1.key == ctx2.key && ctx1.version == ctx2.version
    ensures Resolves(l, o, ctx1, slots) == Resolves(l, o, ctx2, slots)
  {
  }

  // ---------------------------------------------------- what one run leaves behind

  /**
   * With working backends a hit only writes the resolved bytes: every slot keeps
   * its entry or now holds those bytes.
   */
  lemma {:induction false} OnlyWrites(c: Chain, o: Outside, ctx: Ctx, slots: Slots, backend: nat)
    requires Working(o) && ctx.key.Some?
    ensures var f, slot := FetchSpec(c, o, ctx, slots), (backend, ctx.key.value);
            slot in slots ==> slot in f.slots && (f.slots[slot] == slots[slot] || f.ctx.tarball == Some(f.slots[slot]))
    decreases c
  {
    match c
    case Terminal =>
    case Wrap(Upstream, _) =>
    case Wrap(CveCheck(_), next) => OnlyWrites(next, o, ctx, slots, backend);
    case Wrap(Cache(b), next) =>
      OnlyWrites(next, o, ctx, slots, backend);
      FetchKeepsIdentity(next, o, ctx, slots);
  }

  /** If layer i resolves to b and every layer above resolves to nothing or to b, the first resolver gives b. */
  lemma {:induction false} SomeFirstResolver(layers: seq<Layer>, o: Outside, ctx: Ctx, slots: Slots, i: nat, b: Bytes)
    requires i < |layers| && Resolves(layers[i], o, ctx, slots) == Some(b)
    requires forall j :: 0 <= j < i ==> !layers[j].Upstream?
    requires forall j :: 0 <= j < i ==> Resolves(layers[j], o, ctx, slots) in {None, Some(b)}
    ensures exists m: nat :: m <= i && FirstResolver(layers, o, ctx, slots, m, b)
    decreases i
  {
    if exists j :: 0 <= j < i && Resolves(layers[j], o, ctx, slots) == Some(b) {
      var j :| 0 <= j < i && Resolves(layers[j], o, ctx, slots) == Some(b);
      SomeFirstResolver(layers, o, ctx, slots, j, b);
    } else {
      assert FirstResolver(layers, o, ctx, slots, i, b);
    }
  }

  /** A run that first resolves at layer i gives its bytes exactly when the checks above serve. */
  lemma RunGives(layers: seq<Layer>, o: Outside, ctx: Ctx, slots: Slots, i: nat, b: Bytes)
    requires Consistent(o, ctx) && FirstResolver(layers, o, ctx, slots, i, b)
    ensures CveServes(layers, o, i) ==> BytesOf(FetchSpec(ChainOf(layers), o, ctx, slots)) == Ok(b)
    ensures !CveServes(layers, o, i) ==> BytesOf(FetchSpec(ChainOf(layers), o, ctx, slots)).Err?
  {
    HitsAtFirstResolver(layers, o, ctx, slots, b);
    var r := BytesOf(FetchSpec(ChainOf(layers), o, ctx, slots));
    if r.Ok? {
      HitsAtFirstResolver(layers, o, ctx, slots, r.value);
      var m: nat :| FirstResolver(layers, o, ctx, slots, m, r.value) && CveServes(layers, o, m);
      OneFirstResolver(layers, o, ctx, slots, i, b, m, r.value);
    }
  }

  lemma OneFirstResolver(layers: seq<Layer>, o: Outside, ctx: Ctx, slots: Slots, i: nat, b: Bytes, m: nat, c: Bytes)
    requires FirstResolver(layers, o, ctx, slots, i, b) && FirstResolver(layers, o, ctx, slots, m, c)
    ensures i == m && b == c
  {
  }

  /** Some layer is the first to resolve, to b, and every check above it serves. */
  ghost predicate Finds(layers: seq<Layer>, o: Outside, ctx: Ctx, slots: Slots, b: Bytes) {
    exists m: nat :: FirstResolver(layers, o, ctx, slots, m, b) && CveServes(layers, o, m)
  }

  /**
   * After a run that resolved b at layer i, and after dropping any one slot that
   * is not layer i's own, the chain still resolves to b.
   */
  lemma StillResolves(layers: seq<Layer>, o: Outside, ctx: Ctx, slots: Slots, i: nat, b: Bytes,
                      ctx2: Ctx, slots2: Slots, dropped: Option<nat>)
    requires Working(o) && Consistent(o, ctx) && FirstResolver(layers, o, ctx, slots, i, b) && CveServes(layers, o, i)
    requires Consistent(o, ctx2) && ctx2.key == ctx.key && ctx2.version == ctx.version
    requires var t := FetchSpec(ChainOf(layers), o, ctx, slots).slots;
             slots2 == if dropped.None? then t else t - {(dropped.value, ctx.key.value)}
    requires dropped.Some? ==> layers[i] != Cache(dropped.value)
    ensures Finds(layers, o, ctx2, slots2, b)
  {
    var f := FetchSpec(ChainOf(layers), o, ctx, slots);
    RunGives(layers, o, ctx, slots, i, b);
    forall j | 0 <= j < i
      ensures Resolves(layers[j], o, ctx2, slots2) in {None, Some(b)}
    {
      if layers[j].Cache? {
        WritesThrough(layers, o, ctx, slots, i, b, j);
      }
    }
    if layers[i].Cache? {
      OnlyWrites(ChainOf(layers), o, ctx, slots, layers[i].backend);
    } else {
      ResolvesSame(layers[i], o, ctx, ctx2, slots2);
    }
    assert Resolves(layers[i], o, ctx2, slots2) == Some(b);
    SomeFirstResolver(layers, o, ctx2, slots2, i, b);
    var m: nat :| m <= i && FirstResolver(layers, o, ctx2, slots2, m, b);
    assert CveServes(layers, o, m);
  }

  // ------------------------------------------------------------------ main results

  /** Layer i is the cache that Evict reaches: everything above it is a CVE check. */
  ghost predicate IsEvictTarget(layers: seq<Layer>, i: nat) {
    i < |layers| && layers[i].Cache? && forall j :: 0 <= j < i ==> layers[j].CveCheck?
  }

  lemma {:induction false} EvictTargetIs(layers: seq<Layer>)
    ensures forall i: nat :: IsEvictTarget(layers, i) ==> EvictTarget(ChainOf(layers)) == Some(layers[i].backend)
    ensures EvictTarget(ChainOf(layers)).Some? ==>
              exists i: nat :: IsEvictTarget(layers, i) && EvictTarget(ChainOf(layers)) == Some(layers[i].backend)
  {
    if layers != [] {
      var rest := layers[1..];
      EvictTargetIs(rest);
      assert forall j :: 0 <= j < |rest| ==> rest[j] == layers[j + 1];
      forall i: nat | IsEvictTarget(layers, i)
        ensures EvictTarget(ChainOf(layers)) == Some(layers[i].backend)
      {
        if i > 0 {
          assert layers[0].CveCheck? && IsEvictTarget(rest, i - 1);
        }
      }
      if EvictTarget(ChainOf(layers)).Some? {
        if layers[0].Cache? {
          assert IsEvictTarget(layers, 0);
        } else {
          var i: nat :| IsEvictTarget(rest, i) && EvictTarget(ChainOf(rest)) == Some(rest[i].backend);
          assert IsEvictTarget(layers, i + 1);
        }
      }
    }
  }

  /** A first resolver that is not the evictable cache lies below it: that cache has no entry. */
  lemma BelowTarget(layers: seq<Layer>, o: Outside, ctx: Ctx, slots: Slots, i: nat, b: Bytes)
    requires Working(o) && ctx.key.Some? && FirstResolver(layers, o, ctx, slots, i, b) && !IsEvictTarget(layers, i)
    ensures var target := EvictTarget(ChainOf(layers));
            target.Some? ==> layers[i] != Cache(target.value) && (target.value, ctx.key.value) !in slots
  {
    EvictTargetIs(layers);
    if EvictTarget(ChainOf(layers)).Some? {
      var e: nat :| IsEvictTarget(layers, e) && EvictTarget(ChainOf(layers)) == Some(layers[e].backend);
      assert !layers[i].CveCheck?;
      assert e < i;
      assert Resolves(layers[e], o, ctx, slots).None?;
    }
  }

  /**
   * The exact condition for healing. When the first bytes found are bad, the
   * request succeeds if and only if the CVE checks above them serve, they came
   * from the very cache Evict reaches, and the rest of the chain, asked without
   * that entry, has the good bytes. In particular a bad entry in any deeper
   * cache, or a drifted upstream, is never healed: it is the 502 mismatch. A
   * check that denies above the bad bytes hides them: the answer is its own.
   */
  lemma HealsExactlyWhen(sha: Bytes -> string, layers: seq<Layer>, o: Outside, expected: string, ctx: Ctx, slots: Slots,
                         i: nat, bad: Bytes)
    requires Working(o) && Begun(ctx)
    requires FirstResolver(layers, o, ctx, slots, i, bad) && sha(bad) != expected
    ensures var c := ChainOf(layers);
            VerifySpec(sha, c, o, o, expected, ctx, slots).0.Ok? <==>
              && CveServes(layers, o, i) && IsEvictTarget(layers, i)
              && var again := BytesOf(FetchSpec(c, o, ctx, slots - {(layers[i].backend, ctx.key.value)}));
                 again.Ok? && sha(again.value) == expected
    ensures CveServes(layers, o, i) && !IsEvictTarget(layers, i) ==>
              VerifySpec(sha, ChainOf(layers), o, o, expected, ctx, slots).0 == Err(None)
    ensures !CveServes(layers, o, i) ==>
              var f := FetchSpec(ChainOf(layers), o, ctx, slots);
              && BytesOf(f).Err?
              && VerifySpec(sha, ChainOf(layers), o, o, expected, ctx, slots) == (Err(Some(BytesOf(f).error)), f.slots)
  {
    RunGives(layers, o, ctx, slots, i, bad);
    if CveServes(layers, o, i) {
      HealsWhenServed(sha, layers, o, expected, ctx, slots, i, bad);
    }
  }

  lemma HealsWhenServed(sha: Bytes -> string, layers: seq<Layer>, o: Outside, expected: string, ctx: Ctx, slots: Slots,
                        i: nat, bad: Bytes)
    requires Working(o) && Begun(ctx) && CveServes(layers, o, i)
    requires FirstResolver(layers, o, ctx, slots, i, bad) && sha(bad) != expected
    ensures IsEvictTarget(layers, i) ==>
              var again := BytesOf(FetchSpec(ChainOf(layers), o, ctx, slots - {(layers[i].backend, ctx.key.value)}));
              VerifySpec(sha, ChainOf(layers), o, o, expected, ctx, slots).0.Ok? <==>
                again.Ok? && sha(again.value) == expected
    ensures !IsEvictTarget(layers, i) ==>
              VerifySpec(sha, ChainOf(layers), o, o, expected, ctx, slots).0 == Err(None)
  {
    var c := ChainOf(layers);
    var f1 := FetchSpec(c, o, ctx, slots);
    RunGives(layers, o, ctx, slots, i, bad);
    FetchConsistent(c, o, ctx, slots);
    FetchKeepsIdentity(c, o, ctx, slots);
    EvictTargetIs(layers);
    var ctx2 := f1.ctx.(tarball := None);
    if IsEvictTarget(layers, i) {
      TargetHitAlone(layers, o, ctx, slots, i, bad);
      assert EvictSpec(c, o, f1.ctx, f1.slots) == slots - {(layers[i].backend, ctx.key.value)};
      assert ctx2 == ctx;
    } else {
      var target := EvictTarget(c);
      BelowTarget(layers, o, ctx, slots, i, bad);
      var slots2 := EvictSpec(c, o, f1.ctx, f1.slots);
      StillResolves(layers, o, ctx, slots, i, bad, ctx2, slots2, target);
      FindsGives(layers, o, ctx2, slots2, bad);
    }
  }

  lemma FindsGives(layers: seq<Layer>, o: Outside, ctx: Ctx, slots: Slots, b: Bytes)
    requires Consistent(o, ctx) && Finds(layers, o, ctx, slots, b)
    ensures BytesOf(FetchSpec(ChainOf(layers), o, ctx, slots)) == Ok(b)
  {
    var m: nat :| FirstResolver(layers, o, ctx, slots, m, b) && CveServes(layers, o, m);
    RunGives(layers, o, ctx, slots, m, b);
  }

  /** A hit in the evictable cache writes nothing and leaves ctx.Index unset. */
  lemma {:induction false} TargetHitAlone(layers: seq<Layer>, o: Outside, ctx: Ctx, slots: Slots, i: nat, b: Bytes)
    requires ctx.key.Some? && IsEvictTarget(layers, i) && CveServes(layers, o, i)
    requires Resolves(layers[i], o, ctx, slots) == Some(b)
    ensures FetchSpec(ChainOf(layers), o, ctx, slots) == Fetched(Hit, ctx.(tarball := Some(b)), slots)
    decreases i
  {
    if i > 0 {
      assert layers[0].CveCheck? && layers[1..][i - 1] == layers[i];
      assert IsEvictTarget(layers[1..], i - 1) by {
        assert forall j :: 0 <= j < i - 1 ==> layers[1..][j] == layers[j + 1];
      }
      ShiftServes(layers, o, i);
      TargetHitAlone(layers[1..], o, ctx, slots, i - 1, b);
    }
  }

  /** The slots without the entry that Evict would delete. */
  function WithoutTarget(layers: seq<Layer>, key: string, slots: Slots): Slots {
    var target := EvictTarget(ChainOf(layers));
    if target.None? then slots else slots - {(target.value, key)}
  }

  /** The chain finds the bytes `bad`, and finds them again with the evictable entry gone. */
  ghost predicate Poisoned(layers: seq<Layer>, o: Outside, ctx: Ctx, slots: Slots, bad: Bytes)
    requires ctx.key.Some?
  {
    Finds(layers, o, ctx, slots, bad) && Finds(layers, o, ctx, WithoutTarget(layers, ctx.key.value, slots), bad)
  }

  /** A bad first resolver other than the evictable cache poisons the chain. */
  lemma DeepMismatchPoisons(layers: seq<Layer>, o: Outside, ctx: Ctx, slots: Slots, i: nat, bad: Bytes)
    requires Begun(ctx) && FirstResolver(layers, o, ctx, slots, i, bad) && !IsEvictTarget(layers, i)
    requires Working(o) && CveServes(layers, o, i)
    ensures Poisoned(layers, o, ctx, slots, bad)
  {
    BelowTarget(layers, o, ctx, slots, i, bad);
    assert WithoutTarget(layers, ctx.key.value, slots) == slots;
    assert Finds(layers, o, ctx, slots, bad);
  }

  /** The second retrieval run of a poisoned chain finds the bad bytes below the evicted slot. */
  lemma PoisonedAgain(layers: seq<Layer>, o: Outside, ctx: Ctx, slots: Slots, bad: Bytes) returns (m: nat)
    requires Working(o) && Begun(ctx) && Poisoned(layers, o, ctx, slots, bad)
    ensures var f1 := FetchSpec(ChainOf(layers), o, ctx, slots);
            var ctx2, slots2 := f1.ctx.(tarball := None), EvictSpec(ChainOf(layers), o, f1.ctx, f1.slots);
            && BytesOf(f1) == Ok(bad)
            && Consistent(o, ctx2) && ctx2.key == ctx.key && ctx2.version == ctx.version
            && FirstResolver(layers, o, ctx2, slots2, m, bad) && CveServes(layers, o, m)
            && (EvictTarget(ChainOf(layers)).Some? ==> layers[m] != Cache(EvictTarget(ChainOf(layers)).value))
  {
    var c := ChainOf(layers);
    var i: nat :| FirstResolver(layers, o, ctx, slots, i, bad) && CveServes(layers, o, i);
    RunGives(layers, o, ctx, slots, i, bad);
    FetchConsistent(c, o, ctx, slots);
    FetchKeepsIdentity(c, o, ctx, slots);
    EvictTargetIs(layers);
    var f1 := FetchSpec(c, o, ctx, slots);
    var ctx2, slots2, target := f1.ctx.(tarball := None), EvictSpec(c, o, f1.ctx, f1.slots), EvictTarget(c);
    if IsEvictTarget(layers, i) {
      TargetHitAlone(layers, o, ctx, slots, i, bad);
      assert slots2 == WithoutTarget(layers, ctx.key.value, slots) && ctx2 == ctx;
      m :| FirstResolver(layers, o, ctx2, slots2, m, bad) && CveServes(layers, o, m);
    } else {
      BelowTarget(layers, o, ctx, slots, i, bad);
      StillResolves(layers, o, ctx, slots, i, bad, ctx2, slots2, target);
      m :| FirstResolver(layers, o, ctx2, slots2, m, bad) && CveServes(layers, o, m);
    }
  }

  /** A poisoned chain answers 502 and stays poisoned. */
  lemma PoisonedStays(sha: Bytes -> string, layers: seq<Layer>, o: Outside, expected: string, ctx: Ctx, slots: Slots,
                      bad: Bytes)
    requires Working(o) && Begun(ctx) && Poisoned(layers, o, ctx, slots, bad) && sha(bad) != expected
    ensures var (r, after) := VerifySpec(sha, ChainOf(layers), o, o, expected, ctx, slots);
            r == Err(None) && Poisoned(layers, o, ctx, after, bad)
  {
    var c := ChainOf(layers);
    var m := PoisonedAgain(layers, o, ctx, slots, bad);
    var f1 := FetchSpec(c, o, ctx, slots);
    var ctx2, slots2 := f1.ctx.(tarball := None), EvictSpec(c, o, f1.ctx, f1.slots);
    RunGives(layers, o, ctx2, slots2, m, bad);
    var after := FetchSpec(c, o, ctx2, slots2).slots;
    StillResolves(layers, o, ctx2, slots2, m, bad, ctx, after, None);
    StillResolves(layers, o, ctx2, slots2, m, bad, ctx, WithoutTarget(layers, ctx.key.value, after), EvictTarget(c));
  }

  /** The slots after `n` trusted requests for the artifact, one after another. */
  function AfterRequests(sha: Bytes -> string, c: Chain, o: Outside, expected: string, ctx: Ctx, slots: Slots,
                         n: nat): Slots
  {
    if n == 0 then slots
    else VerifySpec(sha, c, o, o, expected, ctx, AfterRequests(sha, c, o, expected, ctx, slots, n - 1)).1
  }

  /**
   * A bad entry below the evictable cache (say, a corrupted object store behind
   * a disk cache) is a 502 for every later request too, although the upstream
   * has the good bytes: Evict reaches only the first cache, and each refetch
   * writes the bad bytes back into it.
   */
  lemma {:induction false} DeepMismatchIsPermanent(sha: Bytes -> string, layers: seq<Layer>, o: Outside,
                                                   expected: string, ctx: Ctx, slots: Slots, i: nat, bad: Bytes, n: nat)
    requires Working(o) && Begun(ctx) && !IsEvictTarget(layers, i) && CveServes(layers, o, i)
    requires FirstResolver(layers, o, ctx, slots, i, bad) && sha(bad) != expected
    ensures var now := AfterRequests(sha, ChainOf(layers), o, expected, ctx, slots, n);
            && Poisoned(layers, o, ctx, now, bad)
            && VerifySpec(sha, ChainOf(layers), o, o, expected, ctx, now).0 == Err(None)
  {
    if n == 0 {
      DeepMismatchPoisons(layers, o, ctx, slots, i, bad);
    } else {
      DeepMismatchIsPermanent(sha, layers, o, expected, ctx, slots, i, bad, n - 1);
      var before := AfterRequests(sha, ChainOf(layers), o, expected, ctx, slots, n - 1);
      PoisonedStays(sha, layers, o, expected, ctx, before, bad);
    }
    PoisonedStays(sha, layers, o, expected, ctx, AfterRequests(sha, ChainOf(layers), o, expected, ctx, slots, n), bad);
  }

  /** After any successful request the evictable cache holds bytes with the anchor's digest. */
  lemma CacheMatchesAfterSuccess(sha: Bytes -> string, layers: seq<Layer>, o: Outside, expected: string, ctx: Ctx,
                                 slots: Slots, e: nat)
    requires Working(o) && Begun(ctx) && IsEvictTarget(layers, e)
    requires VerifySpec(sha, ChainOf(layers), o, o, expected, ctx, slots).0.Ok?
    ensures var after := VerifySpec(sha, ChainOf(layers), o, o, expected, ctx, slots).1;
            var slot := (layers[e].backend, ctx.key.value);
            slot in after && sha(after[slot]) == expected
  {
    var c := ChainOf(layers);
    var f1 := FetchSpec(c, o, ctx, slots);
    FetchKeepsIdentity(c, o, ctx, slots);
    TargetHolds(layers, o, ctx, slots, e);
    if sha(BytesOf(f1).value) != expected {
      FetchConsistent(c, o, ctx, slots);
      TargetHolds(layers, o, f1.ctx.(tarball := None), EvictSpec(c, o, f1.ctx, f1.slots), e);
    }
  }

  /** After a hit, the evictable cache holds the bytes of the hit. */
  lemma TargetHolds(layers: seq<Layer>, o: Outside, ctx: Ctx, slots: Slots, e: nat)
    requires Working(o) && Consistent(o, ctx) && IsEvictTarget(layers, e)
    requires BytesOf(FetchSpec(ChainOf(layers), o, ctx, slots)).Ok?
    ensures var f, slot := FetchSpec(ChainOf(layers), o, ctx, slots), (layers[e].backend, ctx.key.value);
            slot in f.slots && Ok(f.slots[slot]) == BytesOf(f)
  {
    var b := BytesOf(FetchSpec(ChainOf(layers), o, ctx, slots)).value;
    HitsAtFirstResolver(layers, o, ctx, slots, b);
    var i: nat :| FirstResolver(layers, o, ctx, slots, i, b) && CveServes(layers, o, i);
    assert !layers[i].CveCheck?;
    assert e <= i;
    if e == i {
      TargetHitAlone(layers, o, ctx, slots, i, b);
    } else {
      WritesThrough(layers, o, ctx, slots, i, b, e);
    }
  }

  // ---------------------------------------------------------------- transparency

  /** The chain without its cache layers: the uncached flow. */
  function Uncached(layers: seq<Layer>): seq<Layer> {
    if layers == [] then []
    else (if layers[0].Cache? then [] else [layers[0]]) + Uncached(layers[1..])
  }

  /** On empty caches a working chain finds what the uncached chain finds, and its checks decide alike. */
  lemma {:induction false} EmptyCachesAreUncached(layers: seq<Layer>, o: Outside, ctx: Ctx)
    requires Working(o) && ctx.key.Some?
    ensures var f, g := FetchSpec(ChainOf(layers), o, ctx, map[]), FetchSpec(ChainOf(Uncached(layers)), o, ctx, map[]);
            f.answer == g.answer && f.ctx == g.ctx
    decreases |layers|
  {
    if layers != [] {
      EmptyCachesAreUncached(layers[1..], o, ctx);
      if layers[0].Cache? {
        assert Uncached(layers) == Uncached(layers[1..]);
      } else {
        assert Uncached(layers)[1..] == Uncached(layers[1..]);
      }
    }
  }

  /** What a run finds depends only on what each layer resolves to. */
  lemma FindsByResolvers(layers: seq<Layer>, o: Outside, ctx: Ctx, s1: Slots, s2: Slots)
    requires Consistent(o, ctx)
    requires forall j :: 0 <= j < |layers| ==> Resolves(layers[j], o, ctx, s1) == Resolves(layers[j], o, ctx, s2)
    ensures var r1 := BytesOf(FetchSpec(ChainOf(layers), o, ctx, s1));
            var r2 := BytesOf(FetchSpec(ChainOf(layers), o, ctx, s2));
            (r1.Ok? <==> r2.Ok?) && (r1.Ok? ==> r1 == r2)
  {
    FoundElsewhere(layers, o, ctx, s1, s2);
    FoundElsewhere(layers, o, ctx, s2, s1);
  }

  lemma FoundElsewhere(layers: seq<Layer>, o: Outside, ctx: Ctx, s1: Slots, s2: Slots)
    requires Consistent(o, ctx)
    requires forall j :: 0 <= j < |layers| ==> Resolves(layers[j], o, ctx, s1) == Resolves(layers[j], o, ctx, s2)
    ensures var r1 := BytesOf(FetchSpec(ChainOf(layers), o, ctx, s1));
            var r2 := BytesOf(FetchSpec(ChainOf(layers), o, ctx, s2));
            r1.Ok? ==> r2 == r1
  {
    var r1 := BytesOf(FetchSpec(ChainOf(layers), o, ctx, s1));
    if r1.Ok? {
      HitsAtFirstResolver(layers, o, ctx, s1, r1.value);
      var i: nat :| FirstResolver(layers, o, ctx, s1, i, r1.value) && CveServes(layers, o, i);
      assert FirstResolver(layers, o, ctx, s2, i, r1.value);
      RunGives(layers, o, ctx, s2, i, r1.value);
    }
  }

  /** The cache at `e` is the only one and Evict reaches it. */
  ghost predicate OneCache(layers: seq<Layer>, e: nat) {
    IsEvictTarget(layers, e) && forall j :: 0 <= j < |layers| && j != e ==> !layers[j].Cache?
  }

  /**
   * Cache transparency, with CVE checks that serve or deny as they like. With
   * one cache, whatever it holds: a trusted request succeeds if and only if the
   * uncached flow has bytes with the anchor's digest, or the cache entry has
   * that digest and the checks above the cache serve. So the cache never costs a
   * 200 the uncached flow would give, never changes its digest, and never gets
   * past a check above it.
   */
  lemma CacheTransparent(sha: Bytes -> string, layers: seq<Layer>, o: Outside, expected: string, ctx: Ctx, slots: Slots,
                         e: nat)
    requires Working(o) && Begun(ctx) && OneCache(layers, e)
    ensures var slot := (layers[e].backend, ctx.key.value);
            var plain := BytesOf(FetchSpec(ChainOf(Uncached(layers)), o, ctx, map[]));
            VerifySpec(sha, ChainOf(layers), o, o, expected, ctx, slots).0.Ok? <==>
              (slot in slots && sha(slots[slot]) == expected && CveServes(layers, o, e))
              || (plain.Ok? && sha(plain.value) == expected)
  {
    var slot := (layers[e].backend, ctx.key.value);
    EmptyCachesAreUncached(layers, o, ctx);
    FindsByResolvers(layers, o, ctx, slots - {slot}, map[]);
    PlainNeedsChecks(layers, o, ctx, slots - {slot}, e);
    if slot in slots {
      assert FirstResolver(layers, o, ctx, slots, e, slots[slot]);
      RunGives(layers, o, ctx, slots, e, slots[slot]);
      if sha(slots[slot]) != expected {
        HealsExactlyWhen(sha, layers, o, expected, ctx, slots, e, slots[slot]);
      }
    } else {
      assert slots - {slot} == slots;
      UncachedMismatch(sha, layers, o, expected, ctx, slots, e);
    }
  }

  /** Whatever a run finds without the cache's entry, it finds below the cache, past the checks above it. */
  lemma PlainNeedsChecks(layers: seq<Layer>, o: Outside, ctx: Ctx, slots: Slots, e: nat)
    requires Consistent(o, ctx) && IsEvictTarget(layers, e) && (layers[e].backend, ctx.key.value) !in slots
    ensures BytesOf(FetchSpec(ChainOf(layers), o, ctx, slots)).Ok? ==> CveServes(layers, o, e)
  {
    var r := BytesOf(FetchSpec(ChainOf(layers), o, ctx, slots));
    if r.Ok? {
      HitsAtFirstResolver(layers, o, ctx, slots, r.value);
      var i: nat :| FirstResolver(layers, o, ctx, slots, i, r.value) && CveServes(layers, o, i);
      assert Resolves(layers[e], o, ctx, slots).None?;
      assert !layers[i].CveCheck? && e < i;
    }
  }

  /** With no entry in the one cache, bytes with another digest come from the upstream and stay bad. */
  lemma UncachedMismatch(sha: Bytes -> string, layers: seq<Layer>, o: Outside, expected: string, ctx: Ctx, slots: Slots,
                         e: nat)
    requires Working(o) && Begun(ctx) && OneCache(layers, e) && (layers[e].backend, ctx.key.value) !in slots
    ensures var r := BytesOf(FetchSpec(ChainOf(layers), o, ctx, slots));
            VerifySpec(sha, ChainOf(layers), o, o, expected, ctx, slots).0.Ok? <==> r.Ok? && sha(r.value) == expected
  {
    var r := BytesOf(FetchSpec(ChainOf(layers), o, ctx, slots));
    if r.Ok? && sha(r.value) != expected {
      HitsAtFirstResolver(layers, o, ctx, slots, r.value);
      var i: nat :| FirstResolver(layers, o, ctx, slots, i, r.value) && CveServes(layers, o, i);
      assert Resolves(layers[e], o, ctx, slots).None?;
      HealsExactlyWhen(sha, layers, o, expected, ctx, slots, i, r.value);
    }
  }
}
