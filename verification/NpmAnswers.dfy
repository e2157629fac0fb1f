/**
 * What a client of internal/registry/npm/routes.go:88-265 gets, case by case and
 * said from outside: in terms of the chain's own entries, the deny list, the
 * scanners' answers and the retrieved bytes.
 */
module NpmAnswers {
  import opened Basics
  import opened DenyList
  import opened NpmAdapter
  import TrustResults
  import R = Retrieval

  /** PostFetch's output, or 500 when it fails. */
  predicate Posted(resp: Response, w: World, body: Bytes) {
    resp == if w.mutate(body).Some? then Response(200, w.mutate(body)) else Response(500, None)
  }

  /** The status of a failed retrieval. */
  predicate FailedWith(resp: Response, e: R.FetchError) {
    && resp.body.None?
    && resp.status == match e case NotFound => 404 case Rejected => 403 case _ => 502
  }

  /** The bytes of the first retrieval run. */
  function First(job: Job, w: World): Result<Bytes, R.FetchError> {
    R.BytesOf(R.FetchSpec(job.retrieval, w.first, job.ctx, job.slots))
  }

  /** The bytes of the second one, after the eviction. */
  function Second(job: Job, w: World): Result<Bytes, R.FetchError> {
    var f := R.FetchSpec(job.retrieval, w.first, job.ctx, job.slots);
    R.BytesOf(R.FetchSpec(job.retrieval, w.second, f.ctx.(tarball := None),
                          R.EvictSpec(job.retrieval, w.first, f.ctx, f.slots)))
  }

  /** The re-check lets verified bytes through, or answers 403. */
  ghost predicate Gated(resp: Response, job: Job, w: World, store: Store, anchor: string, body: Bytes) {
    if EnabledFirst(job.chain) && Listed(store.denials, job.key, anchor, body, w.outage)
    then resp == Response(403, None)
    else Posted(resp, w, body)
  }

  /**
   * The answer for a key with an anchor, exactly. Bytes with the anchor's digest
   * are a 403 if and only if the first deny-list-check of the chain is enabled
   * and the reachable deny list holds the anchor in this scope; otherwise they
   * are served. Other bytes are evicted and fetched once more. Nothing is stored.
   */
  lemma TrustedAnswer(sha: Bytes -> string, hook: Option<seq<string>>, job: Job, w: World, store: Store)
    requires w.lookupOk && job.key in store.records
    ensures HandleSpec(sha, hook, job, w, store).1 == store
    ensures var resp, anchor := HandleSpec(sha, hook, job, w, store).0, store.records[job.key];
            match First(job, w)
            case Err(e) => FailedWith(resp, e)
            case Ok(b) =>
              if sha(b) == anchor then Gated(resp, job, w, store, anchor, b)
              else
                match Second(job, w)
                case Err(e) => FailedWith(resp, e)
                case Ok(c) =>
                  if sha(c) == anchor then Gated(resp, job, w, store, anchor, c) else resp == Response(502, None)
  {
    var anchor := store.records[job.key];
    var v := R.VerifySpec(sha, job.retrieval, w.first, w.second, anchor, job.ctx, job.slots).0;
    if v.Ok? {
      TrustResults.GateDeniesIff(job.chain, job.key, store.denials, anchor, v.value, w.outage);
    }
  }

  /** The validator at position i stops the artifact. */
  predicate Stops(sha: Bytes -> string, job: Job, w: World, store: Store, body: Bytes, i: nat)
    requires i < |job.chain|
  {
    match job.chain[i]
    case DenyListCheck(enabled) => enabled && Listed(store.denials, job.key, sha(body), body, w.outage)
    case Scanner(_) => w.oracle(i) != Pass
  }

  /** It is the first to. */
  ghost predicate StopsFirst(sha: Bytes -> string, job: Job, w: World, store: Store, body: Bytes, i: nat) {
    && i < |job.chain| && Stops(sha, job, w, store, body, i)
    && forall j: nat :: j < i ==> !Stops(sha, job, w, store, body, j)
  }

  lemma StopsExactly(sha: Bytes -> string, job: Job, w: World, store: Store, body: Bytes, i: nat)
    requires i < |job.chain|
    ensures Stops(sha, job, w, store, body, i) <==> !VerdictAt(sha, job, w, store.denials, body, i).Pass?
    ensures job.chain[i].DenyListCheck? && Stops(sha, job, w, store, body, i) ==>
              VerdictAt(sha, job, w, store.denials, body, i) == Reject
    ensures job.chain[i].Scanner? ==> VerdictAt(sha, job, w, store.denials, body, i) == w.oracle(i)
  {
    VerdictExactly(job.chain[i], store.denials, job.key, sha(body), body, w.oracle(i), w.outage);
  }

  /**
   * The answer for a key without an anchor when no validator stops the artifact:
   * its digest becomes the anchor and PostFetch's output is served; 500, and no
   * anchor, if the write fails.
   */
  lemma AcceptedAnswer(sha: Bytes -> string, hook: Option<seq<string>>, job: Job, w: World, store: Store, b: Bytes)
    requires w.lookupOk && job.key !in store.records && First(job, w) == Ok(b)
    requires forall i: nat :: i < |job.chain| ==> !Stops(sha, job, w, store, b, i)
    ensures var (resp, after) := HandleSpec(sha, hook, job, w, store);
            && after.denials == store.denials
            && (if w.putOk then after.records == store.records[job.key := sha(b)] && Posted(resp, w, b)
                else after.records == store.records && resp == Response(500, None))
  {
    var failed := FirstFailure(sha, job, w, store.denials, b, 0);
    if failed < |job.chain| {
      StopsExactly(sha, job, w, store, b, failed);
    }
  }

  /**
   * And when validator i is the first to stop it: 403 and no anchor. The deny
   * list gains this artifact in this scope exactly when recording is enabled, its
   * write works, the artifact is not empty, and the failure is a rejection by a
   * middleware the allowlist names: never for a scanner that was unavailable.
   */
  lemma StoppedAnswer(sha: Bytes -> string, hook: Option<seq<string>>, job: Job, w: World, store: Store, b: Bytes,
                      i: nat)
    requires w.lookupOk && job.key !in store.records && First(job, w) == Ok(b)
    requires StopsFirst(sha, job, w, store, b, i)
    ensures var (resp, after) := HandleSpec(sha, hook, job, w, store);
            var verdict := if job.chain[i].Scanner? then w.oracle(i) else Reject;
            && resp == Response(403, None) && after.records == store.records
            && after.denials ==
               if hook.Some? && w.recordOk && b != [] && Recordable(hook.value, job.chain[i], verdict)
               then
                 var ArtifactKey(project, registry, name, version, _) := job.key;
                 store.denials + {DenialKey(registry, name, version, sha(b), project)}
               else store.denials
    ensures job.chain[i].Scanner? && w.oracle(i) == Unavailable ==> HandleSpec(sha, hook, job, w, store).1 == store
  {
    var failed := FirstFailure(sha, job, w, store.denials, b, 0);
    StopsExactly(sha, job, w, store, b, i);
    if failed < |job.chain| {
      StopsExactly(sha, job, w, store, b, failed);
    }
    assert failed == i;
    if hook.Some? {
      RecordsExactly(hook.value, job.chain[i], VerdictAt(sha, job, w, store.denials, b, i), b);
    }
  }

  /** Every artifact is in one of the two cases. */
  lemma StoppedOrNot(sha: Bytes -> string, job: Job, w: World, store: Store, b: Bytes)
    ensures (forall i: nat :: i < |job.chain| ==> !Stops(sha, job, w, store, b, i))
            || exists i :: StopsFirst(sha, job, w, store, b, i)
  {
    var failed := FirstFailure(sha, job, w, store.denials, b, 0);
    forall i: nat | i < |job.chain|
      ensures Stops(sha, job, w, store, b, i) <==> !VerdictAt(sha, job, w, store.denials, b, i).Pass?
    {
      StopsExactly(sha, job, w, store, b, i);
    }
    assert failed < |job.chain| ==> StopsFirst(sha, job, w, store, b, failed);
  }

  /** Without bytes, or without the lookup, nothing is stored either. */
  lemma FailedAnswer(sha: Bytes -> string, hook: Option<seq<string>>, job: Job, w: World, store: Store)
    ensures !w.lookupOk ==> HandleSpec(sha, hook, job, w, store) == (Response(500, None), store)
    ensures w.lookupOk && job.key !in store.records && First(job, w).Err? ==>
              FailedWith(HandleSpec(sha, hook, job, w, store).0, First(job, w).error)
              && HandleSpec(sha, hook, job, w, store).1 == store
  {
  }

  /**
   * What a client sees of a CVE check, on either path: when one above the first
   * resolver does not serve, the innermost of them decides. A denial is a 403, an
   * outage under fail_closed a 502; nothing is served, and nothing stored.
   */
  lemma CheckedAnswer(sha: Bytes -> string, hook: Option<seq<string>>, job: Job, w: World, store: Store,
                      layers: seq<R.Layer>, i: nat, b: Bytes, j: nat)
    requires w.lookupOk && job.retrieval == R.ChainOf(layers) && job.ctx.key.Some? && job.ctx.tarball.None?
    requires R.FirstResolver(layers, w.first, job.ctx, job.slots, i, b) && R.Blocks(layers, w.first, j, i)
    ensures var (resp, after) := HandleSpec(sha, hook, job, w, store);
            && resp == Response(if w.first.cve(layers[j].check) == R.DenyServe then 403 else 502, None)
            && after == store
  {
    R.BlockedRun(layers, w.first, job.ctx, job.slots, i, b, j);
    FailedRunAnswer(sha, hook, job, w, store, First(job, w).error);
  }

  /** A first run that fails is the answer, on either path. */
  lemma FailedRunAnswer(sha: Bytes -> string, hook: Option<seq<string>>, job: Job, w: World, store: Store,
                        e: R.FetchError)
    requires w.lookupOk && First(job, w) == Err(e)
    ensures FailedWith(HandleSpec(sha, hook, job, w, store).0, e) && HandleSpec(sha, hook, job, w, store).1 == store
  {
    if job.key in store.records {
      TrustedAnswer(sha, hook, job, w, store);
    } else {
      FailedAnswer(sha, hook, job, w, store);
    }
  }

  /**
   * And of the upstream, when nothing above it resolves: the failure is that of
   * the packument, that the version is not listed, or that of the tarball at the
   * listed URL; only a missing one is a 404.
   */
  lemma UpstreamAnswer(sha: Bytes -> string, hook: Option<seq<string>>, job: Job, w: World, store: Store,
                       layers: seq<R.Layer>, i: nat)
    requires w.lookupOk && job.retrieval == R.ChainOf(layers) && job.ctx.key.Some? && job.ctx.tarball.None?
    requires i < |layers| && layers[i].Upstream? && R.NothingAbove(layers, w.first, job.ctx, job.slots, i)
    requires R.Resolves(R.Upstream, w.first, job.ctx, map[]).None?
    ensures HandleSpec(sha, hook, job, w, store).1 == store
    ensures FailedWith(HandleSpec(sha, hook, job, w, store).0, R.UpstreamError(w.first, job.ctx))
  {
    R.UpstreamFails(layers, w.first, job.ctx, job.slots, i);
    FailedRunAnswer(sha, hook, job, w, store, R.UpstreamError(w.first, job.ctx));
  }
}
