/**
 * What one retrieval run leaves in each cache of a chain, entry by entry
 * (internal/middleware/retrieval/localcache/localcache.go:129-157): which
 * layers are written through, which unreadable entries are dropped, and what a
 * denied or failed run leaves alone.
 */
module CacheSlots {
  import opened Basics
  import opened Retrieval

  /** The entry of one backend under one key. */
  function EntryAt(slots: Slots, backend: nat, key: string): Option<Bytes> {
    if (backend, key) in slots then Some(slots[(backend, key)]) else None
  }

  /** Layer j is the only cache over its backend. */
  ghost predicate OwnBackend(layers: seq<Layer>, j: nat) {
    && j < |layers| && layers[j].Cache?
    && forall m :: 0 <= m < |layers| && m != j && layers[m].Cache? ==> layers[m].backend != layers[j].backend
  }

  /** Every CVE check between layers j and i serves. */
  ghost predicate ServesBetween(layers: seq<Layer>, o: Outside, j: nat, i: nat) {
    forall m :: j < m < i <= |layers| && layers[m].CveCheck? ==> o.cve(layers[m].check) == Serve
  }

  /** An unreadable entry of the backend is deleted. */
  predicate Drops(o: Outside, backend: nat) {
    o.getFails(backend) && !o.deleteFails(backend)
  }

  /** What the layers below layer 0 start from. */
  function Below(layers: seq<Layer>, o: Outside, key: string, slots: Slots): Slots
    requires layers != []
  {
    if layers[0].Cache? then AfterGet(o, layers[0].backend, key, slots) else slots
  }

  /** A chain without a cache over the backend leaves its entries alone. */
  lemma {:induction false} ForeignBackend(layers: seq<Layer>, o: Outside, ctx: Ctx, slots: Slots, backend: nat)
    requires ctx.key.Some? && forall m :: 0 <= m < |layers| && layers[m].Cache? ==> layers[m].backend != backend
    ensures EntryAt(FetchSpec(ChainOf(layers), o, ctx, slots).slots, backend, ctx.key.value)
         == EntryAt(slots, backend, ctx.key.value)
    decreases |layers|
  {
    if layers != [] {
      assert forall m :: 0 <= m < |layers| - 1 ==> layers[1..][m] == layers[m + 1];
      ForeignBackend(layers[1..], o, ctx, Below(layers, o, ctx.key.value, slots), backend);
    }
  }

  /** The layer on top, when it does not resolve: what it makes of the run below it. */
  lemma TopLayer(layers: seq<Layer>, o: Outside, ctx: Ctx, slots: Slots, backend: nat)
    requires ctx.key.Some? && layers != [] && Resolves(layers[0], o, ctx, slots).None? && !layers[0].Upstream?
    ensures var key := ctx.key.value;
            var r := FetchSpec(ChainOf(layers[1..]), o, ctx, Below(layers, o, key, slots));
            EntryAt(FetchSpec(ChainOf(layers), o, ctx, slots).slots, backend, key) ==
            if layers[0] == Cache(backend) && r.answer == Hit && r.ctx.tarball.Some? && !o.putFails(backend)
            then r.ctx.tarball else EntryAt(r.slots, backend, key)
  {
  }

  /** The layer on top dropping its own entry. */
  lemma TopDrops(layers: seq<Layer>, o: Outside, key: string, slots: Slots, backend: nat)
    requires layers != []
    ensures EntryAt(Below(layers, o, key, slots), backend, key) ==
            if layers[0] == Cache(backend) && Drops(o, backend) then None else EntryAt(slots, backend, key)
  {
  }

  /**
   * A run that layer i resolves with b leaves every cache so: one above it holds
   * b, if it can be written and every CVE check between it and layer i serves;
   * otherwise its unreadable entry is dropped, if it can be, and nothing is put
   * in its place. One at or below layer i is as it was.
   */
  lemma {:induction false} ResolvedEntry(layers: seq<Layer>, o: Outside, ctx: Ctx, slots: Slots, i: nat, b: Bytes,
                                         j: nat)
    requires ctx.key.Some? && ctx.tarball.None?
    requires FirstResolver(layers, o, ctx, slots, i, b) && OwnBackend(layers, j)
    ensures var backend, key := layers[j].backend, ctx.key.value;
            EntryAt(FetchSpec(ChainOf(layers), o, ctx, slots).slots, backend, key) ==
            if j < i && ServesBetween(layers, o, j, i) && !o.putFails(backend) then Some(b)
            else if j < i && Drops(o, backend) then None
            else EntryAt(slots, backend, key)
    decreases |layers|
  {
    if i > 0 {
      var rest, key, backend := layers[1..], ctx.key.value, layers[j].backend;
      var below := Below(layers, o, key, slots);
      if layers[0].Cache? {
        FirstResolverBelow(layers, o, ctx, slots, i, b);
      } else {
        ShiftFirst(layers, o, ctx, slots, i, b);
      }
      assert forall m :: 0 <= m < |rest| ==> rest[m] == layers[m + 1];
      TopLayer(layers, o, ctx, slots, backend);
      TopDrops(layers, o, key, slots, backend);
      if j == 0 {
        ForeignBackend(rest, o, ctx, below, backend);
        HitsBelow(layers, o, ctx, below, i, b);
      } else {
        ResolvedEntry(rest, o, ctx, below, i - 1, b, j - 1);
        ShiftBetween(layers, o, j, i);
      }
    }
  }

  lemma ShiftBetween(layers: seq<Layer>, o: Outside, j: nat, i: nat)
    requires 0 < j && 0 < i <= |layers|
    ensures ServesBetween(layers, o, j, i) <==> ServesBetween(layers[1..], o, j - 1, i - 1)
  {
    var rest := layers[1..];
    assert forall m :: 0 <= m < |rest| ==> rest[m] == layers[m + 1];
    if ServesBetween(rest, o, j - 1, i - 1) {
      forall m | j < m < i && layers[m].CveCheck?
        ensures o.cve(layers[m].check) == Serve
      {
        assert rest[m - 1].CveCheck?;
      }
    }
  }

  /** The run below the top layer brings b exactly when the checks on its way serve. */
  lemma HitsBelow(layers: seq<Layer>, o: Outside, ctx: Ctx, below: Slots, i: nat, b: Bytes)
    requires ctx.key.Some? && ctx.tarball.None? && 0 < i <= |layers|
    requires FirstResolver(layers[1..], o, ctx, below, i - 1, b)
    ensures var r := FetchSpec(ChainOf(layers[1..]), o, ctx, below);
            if ServesBetween(layers, o, 0, i) then r.answer == Hit && r.ctx.tarball == Some(b)
            else r.answer != Hit || r.ctx.tarball.None?
  {
    var rest := layers[1..];
    assert forall m :: 0 <= m < |rest| ==> rest[m] == layers[m + 1];
    if ServesBetween(layers, o, 0, i) {
      forall m | 0 <= m < i - 1 && rest[m].CveCheck?
        ensures o.cve(rest[m].check) == Serve
      {
        assert layers[m + 1].CveCheck?;
      }
      HitsAtFirstResolver(rest, o, ctx, below, b);
    } else {
      var m := InnermostBlock(layers, o, i);
      assert Blocks(rest, o, m - 1, i - 1);
      BlockedRun(rest, o, ctx, below, i - 1, b, m - 1);
    }
  }

  lemma {:induction false} InnermostBlock(layers: seq<Layer>, o: Outside, i: nat) returns (m: nat)
    requires i <= |layers| && !ServesBetween(layers, o, 0, i)
    ensures 0 < m && Blocks(layers, o, m, i)
    decreases i
  {
    m := i - 1;
    if !(layers[m].CveCheck? && o.cve(layers[m].check) != Serve) {
      m := InnermostBlock(layers, o, i - 1);
    }
  }

  /**
   * A run that nothing resolves writes nothing: of the layers above a failing
   * upstream, or of all of them without one, each drops its unreadable entry, if
   * it can, and every other entry is as it was.
   */
  lemma {:induction false} FailedEntry(layers: seq<Layer>, o: Outside, ctx: Ctx, slots: Slots, i: nat, j: nat)
    requires ctx.key.Some? && ctx.tarball.None?
    requires NothingAbove(layers, o, ctx, slots, i) && OwnBackend(layers, j)
    requires i == |layers| || (layers[i].Upstream? && Resolves(Upstream, o, ctx, map[]).None?)
    ensures var backend, key := layers[j].backend, ctx.key.value;
            EntryAt(FetchSpec(ChainOf(layers), o, ctx, slots).slots, backend, key) ==
            if j < i && Drops(o, backend) then None else EntryAt(slots, backend, key)
    decreases |layers|
  {
    if i > 0 {
      var rest, key, backend := layers[1..], ctx.key.value, layers[j].backend;
      var below := Below(layers, o, key, slots);
      NothingAboveRest(layers, o, ctx, slots, i);
      assert forall m :: 0 <= m < |rest| ==> rest[m] == layers[m + 1];
      TopLayer(layers, o, ctx, slots, backend);
      TopDrops(layers, o, key, slots, backend);
      if i == |layers| {
        NoResolverFails(rest, o, ctx, below);
      } else {
        UpstreamFails(rest, o, ctx, below, i - 1);
      }
      if j == 0 {
        ForeignBackend(rest, o, ctx, below, backend);
      } else {
        FailedEntry(rest, o, ctx, below, i - 1, j - 1);
      }
    }
  }
}
