/**
 * internal/registry/npm/routes.go:88-265 in its own form: one adapter object
 * that serves one request at a time over the trust store, the deny list and the
 * retrieval stack. Valid() says the adapter's state is reached by a run of
 * TrustProtocol and each handler extends that run, so the whole-run results
 * hold of this code.
 */
module NpmAdapter {
  import opened Basics
  import opened DenyList
  import opened TrustProtocol
  import TrustResults
  import R = Retrieval

  /** Everything outside the process that one request meets. */
  datatype World = World(
    lookupOk: bool,                        // the PreFetch hooks and the trust-store read succeed
    first: R.Outside, second: R.Outside,   // the two retrieval runs
    oracle: nat -> Verdict,                // what the scanner at each position answers
    outage: bool,                          // deny-list lookups fail
    recordOk: bool, putOk: bool,           // deny-list and trust-store writes
    mutate: Bytes -> Option<Bytes>)        // PostFetch; None is a failure

  datatype Response = Response(status: nat, body: Option<Bytes>)

  datatype Store = Store(records: map<ArtifactKey, string>, denials: set<DenialKey>)

  // The pipelines of the request's scope, and what the retrieval works on.
  datatype Job = Job(key: ArtifactKey, chain: Chain, retrieval: R.Chain, ctx: R.Ctx, slots: R.Slots)

  // --------------------------------------------------------------- specification

  /** fetchErr, and 502 for the integrity mismatch (None). */
  function StatusOf(e: Option<R.FetchError>): (status: nat)
    ensures status == 404 <==> e == Some(R.NotFound)
    ensures status == 403 <==> e == Some(R.Rejected)
    ensures status != 404 && status != 403 ==> status == 502
  {
    if e == Some(R.NotFound) then 404 else if e == Some(R.Rejected) then 403 else 502
  }

  /** RunPostFetch and the reply. */
  function PostFetched(w: World, body: Bytes): Response {
    var out := w.mutate(body);
    if out.Some? then Response(200, out) else Response(500, None)
  }

  function TrustedSpec(sha: Bytes -> string, job: Job, w: World, anchor: string, denials: set<DenialKey>): Response {
    match R.VerifySpec(sha, job.retrieval, w.first, w.second, anchor, job.ctx, job.slots).0
    case Err(e) => Response(StatusOf(e), None)
    case Ok(body) =>
      if GateDenies(job.chain, job.key, denials, anchor, body, w.outage) then Response(403, None)
      else PostFetched(w, body)
  }

  /** The verdict of the validator at position i. */
  function VerdictAt(sha: Bytes -> string, job: Job, w: World, denials: set<DenialKey>, body: Bytes, i: nat): Verdict
    requires i < |job.chain|
  {
    VerdictOf(job.chain[i], denials, job.key, sha(body), body, w.oracle(i), w.outage)
  }

  /** The first position from `i` on whose validator does not pass; the chain's length when all pass. */
  function FirstFailure(sha: Bytes -> string, job: Job, w: World, denials: set<DenialKey>, body: Bytes, i: nat)
    : (n: nat)
    requires i <= |job.chain|
    ensures i <= n <= |job.chain|
    ensures forall j :: i <= j < n ==> VerdictAt(sha, job, w, denials, body, j).Pass?
    ensures n < |job.chain| ==> !VerdictAt(sha, job, w, denials, body, n).Pass?
    decreases |job.chain| - i
  {
    if i == |job.chain| || !VerdictAt(sha, job, w, denials, body, i).Pass? then i
    else FirstFailure(sha, job, w, denials, body, i + 1)
  }

  /** What the OnFailure hook leaves in the deny list. */
  function Recorded(sha: Bytes -> string, hook: Option<seq<string>>, job: Job, w: World, denials: set<DenialKey>,
                    body: Bytes, failed: nat): set<DenialKey>
    requires failed < |job.chain|
  {
    if w.recordOk && hook.Some?
       && Records(hook.value, job.chain[failed].Name(), VerdictAt(sha, job, w, denials, body, failed), body)
    then denials + {DenialOf(job.key, sha(body))}
    else denials
  }

  function UntrustedSpec(sha: Bytes -> string, hook: Option<seq<string>>, job: Job, w: World, store: Store)
    : (Response, Store)
  {
    match R.BytesOf(R.FetchSpec(job.retrieval, w.first, job.ctx, job.slots))
    case Err(e) => (Response(StatusOf(Some(e)), None), store)
    case Ok(body) =>
      var failed := FirstFailure(sha, job, w, store.denials, body, 0);
      if failed < |job.chain| then
        (Response(403, None), store.(denials := Recorded(sha, hook, job, w, store.denials, body, failed)))
      else if !w.putOk then (Response(500, None), store)
      else (PostFetched(w, body), store.(records := store.records[job.key := sha(body)]))
  }

  /** handleTarball once the path is parsed and the project's pipelines are resolved. */
  function HandleSpec(sha: Bytes -> string, hook: Option<seq<string>>, job: Job, w: World, store: Store)
    : (Response, Store)
  {
    if !w.lookupOk then (Response(500, None), store)
    else if job.key in store.records then (TrustedSpec(sha, job, w, store.records[job.key], store.denials), store)
    else UntrustedSpec(sha, hook, job, w, store)
  }

  // --------------------------------------------------------------------- results

  /** A 200 is PostFetch's output on bytes whose digest is the stored anchor of the key. */
  lemma ServedMatchesAnchor(sha: Bytes -> string, hook: Option<seq<string>>, job: Job, w: World, store: Store)
    ensures var (resp, after) := HandleSpec(sha, hook, job, w, store);
            resp.status == 200 ==>
              && job.key in after.records
              && exists input :: sha(input) == after.records[job.key] && w.mutate(input) == resp.body && resp.body.Some?
  {
    if w.lookupOk && job.key in store.records {
      var r := R.VerifySpec(sha, job.retrieval, w.first, w.second, store.records[job.key], job.ctx, job.slots).0;
      if r.Ok? {
        assert sha(r.value) == store.records[job.key];
      }
    }
  }

  /**
   * Sequentially anchors are write-once: no request changes an existing anchor,
   * and a new one appears exactly when the whole chain passed and the write
   * succeeded - before PostFetch, so a PostFetch failure answers 500 and still
   * leaves the record.
   */
  lemma AnchorsWriteOnce(sha: Bytes -> string, hook: Option<seq<string>>, job: Job, w: World, store: Store)
    ensures var (resp, after) := HandleSpec(sha, hook, job, w, store);
            && (forall k :: k in store.records ==> k in after.records && after.records[k] == store.records[k])
            && (forall k :: k in after.records && k !in store.records ==> k == job.key)
    ensures var (resp, after) := HandleSpec(sha, hook, job, w, store);
            var fetched := R.BytesOf(R.FetchSpec(job.retrieval, w.first, job.ctx, job.slots));
            job.key !in store.records ==>
              && (job.key in after.records <==>
                    w.lookupOk && fetched.Ok? && w.putOk
                    && forall i :: 0 <= i < |job.chain| ==>
                      VerdictAt(sha, job, w, store.denials, fetched.value, i).Pass?)
              && (job.key in after.records ==>
                    after.records[job.key] == sha(fetched.value)
                    && resp.status == if w.mutate(fetched.value).Some? then 200 else 500)
  {
  }

  /** One request and the world it meets. */
  datatype Visit = Visit(job: Job, world: World)

  /** The stores after a history of requests, one after another. */
  function After(sha: Bytes -> string, hook: Option<seq<string>>, visits: seq<Visit>, store: Store): Store {
    if visits == [] then store
    else
      var last := visits[|visits| - 1];
      HandleSpec(sha, hook, last.job, last.world, After(sha, hook, visits[..|visits| - 1], store)).1
  }

  /** The answer of request i of the history. */
  function Answer(sha: Bytes -> string, hook: Option<seq<string>>, visits: seq<Visit>, store: Store, i: nat): Response
    requires i < |visits|
  {
    HandleSpec(sha, hook, visits[i].job, visits[i].world, After(sha, hook, visits[..i], store)).0
  }

  lemma AfterNext(sha: Bytes -> string, hook: Option<seq<string>>, visits: seq<Visit>, store: Store, i: nat)
    requires i < |visits|
    ensures After(sha, hook, visits[..i + 1], store)
         == HandleSpec(sha, hook, visits[i].job, visits[i].world, After(sha, hook, visits[..i], store)).1
  {
    assert visits[..i + 1][..i] == visits[..i];
  }

  /** Over any history anchors keep their values and denials stay. */
  lemma {:induction false} StoresOnlyGrow(sha: Bytes -> string, hook: Option<seq<string>>, visits: seq<Visit>,
                                          store: Store, i: nat, j: nat)
    requires i <= j <= |visits|
    ensures var s, t := After(sha, hook, visits[..i], store), After(sha, hook, visits[..j], store);
            && s.denials <= t.denials
            && forall k :: k in s.records ==> k in t.records && t.records[k] == s.records[k]
    decreases j
  {
    if i < j {
      StoresOnlyGrow(sha, hook, visits, store, i, j - 1);
      AfterNext(sha, hook, visits, store, j - 1);
      AnchorsWriteOnce(sha, hook, visits[j - 1].job, visits[j - 1].world, After(sha, hook, visits[..j - 1], store));
    }
  }

  /**
   * Any two 200s for one key, however far apart in a history and whatever their
   * worlds and what came between, were given bytes with one digest.
   */
  lemma SameDigestForever(sha: Bytes -> string, hook: Option<seq<string>>, visits: seq<Visit>, store: Store, i: nat,
                          j: nat)
    requires i < j < |visits| && visits[i].job.key == visits[j].job.key
    requires Answer(sha, hook, visits, store, i).status == 200 && Answer(sha, hook, visits, store, j).status == 200
    ensures exists a, b :: sha(a) == sha(b)
                           && visits[i].world.mutate(a) == Answer(sha, hook, visits, store, i).body
                           && visits[j].world.mutate(b) == Answer(sha, hook, visits, store, j).body
  {
    var a := ServedInput(sha, hook, visits, store, i);
    var b := ServedInput(sha, hook, visits, store, j);
    StoresOnlyGrow(sha, hook, visits, store, i + 1, j + 1);
    var k := visits[i].job.key;
    assert After(sha, hook, visits[..i + 1], store).records[k] == After(sha, hook, visits[..j + 1], store).records[k];
    assert sha(a) == sha(b);
  }

  /** The bytes given to PostFetch for a 200: their digest is the anchor from then on. */
  lemma ServedInput(sha: Bytes -> string, hook: Option<seq<string>>, visits: seq<Visit>, store: Store, i: nat)
    returns (input: Bytes)
    requires i < |visits| && Answer(sha, hook, visits, store, i).status == 200
    ensures var s := After(sha, hook, visits[..i + 1], store);
            visits[i].job.key in s.records && sha(input) == s.records[visits[i].job.key]
    ensures visits[i].world.mutate(input) == Answer(sha, hook, visits, store, i).body
  {
    var before := After(sha, hook, visits[..i], store);
    ServedMatchesAnchor(sha, hook, visits[i].job, visits[i].world, before);
    AfterNext(sha, hook, visits, store, i);
    var after := After(sha, hook, visits[..i + 1], store);
    input :| sha(input) == after.records[visits[i].job.key]
             && visits[i].world.mutate(input) == Answer(sha, hook, visits, store, i).body;
  }

  /** The bytes a request's first retrieval run brings. */
  function FetchedBytes(v: Visit): Result<Bytes, R.FetchError> {
    R.BytesOf(R.FetchSpec(v.job.retrieval, v.world.first, v.job.ctx, v.job.slots))
  }

  /** The request is rejected by an allowlisted validator on bytes `b`, and the hook records it. */
  predicate Rejected(sha: Bytes -> string, hook: Option<seq<string>>, v: Visit, store: Store, b: Bytes) {
    && v.job.key !in store.records && hook.Some? && v.world.recordOk && v.world.lookupOk && FetchedBytes(v) == Ok(b)
    && var i := FirstFailure(sha, v.job, v.world, store.denials, b, 0);
       i < |v.job.chain|
       && Records(hook.value, v.job.chain[i].Name(), VerdictAt(sha, v.job, v.world, store.denials, b, i), b)
  }

  /**
   * A recorded rejection closes the door for good. After it, at any later point
   * of any history, a request of the same scope with an enabled check at its
   * head and the deny store reachable: if it has no anchor and retrieves bytes
   * with that digest, it is a 403 at position 0 that changes no store, whatever
   * its scanners would say; and if its anchor is that digest (the empty
   * artifact's aside), it is not a 200.
   */
  lemma RejectedOnceRejectedAlways(sha: Bytes -> string, hook: Option<seq<string>>, visits: seq<Visit>, store: Store,
                                   i: nat, j: nat, b1: Bytes)
    requires i < j < |visits| && Rejected(sha, hook, visits[i], After(sha, hook, visits[..i], store), b1)
    requires DenialOf(visits[j].job.key, sha(b1)) == DenialOf(visits[i].job.key, sha(b1))
    requires visits[j].world.lookupOk && !visits[j].world.outage && EnabledHead(visits[j].job.chain)
    ensures var v, s := visits[j], After(sha, hook, visits[..j], store);
            v.job.key !in s.records && FetchedBytes(v).Ok? && FetchedBytes(v).value != []
              && sha(FetchedBytes(v).value) == sha(b1) ==>
              && Answer(sha, hook, visits, store, j).status == 403 && After(sha, hook, visits[..j + 1], store) == s
              && VerdictAt(sha, v.job, v.world, s.denials, FetchedBytes(v).value, 0).Reject?
    ensures var v, s := visits[j], After(sha, hook, visits[..j], store);
            v.job.key in s.records && s.records[v.job.key] == sha(b1) && sha([]) != sha(b1) ==>
              Answer(sha, hook, visits, store, j).status != 200
  {
    var v, s := visits[j], After(sha, hook, visits[..j], store);
    AfterNext(sha, hook, visits, store, i);
    StoresOnlyGrow(sha, hook, visits, store, i + 1, j);
    AfterNext(sha, hook, visits, store, j);
    assert DenialOf(v.job.key, sha(b1)) in s.denials;
    DeniedUntrusted(sha, hook, v, s, sha(b1));
    DeniedTrusted(sha, v, s, sha(b1));
  }

  lemma DeniedUntrusted(sha: Bytes -> string, hook: Option<seq<string>>, v: Visit, s: Store, digest: string)
    requires DenialOf(v.job.key, digest) in s.denials && v.world.lookupOk && !v.world.outage && EnabledHead(v.job.chain)
    ensures v.job.key !in s.records && FetchedBytes(v).Ok? && FetchedBytes(v).value != []
            && sha(FetchedBytes(v).value) == digest ==>
              && HandleSpec(sha, hook, v.job, v.world, s).0.status == 403
              && HandleSpec(sha, hook, v.job, v.world, s).1 == s
              && VerdictAt(sha, v.job, v.world, s.denials, FetchedBytes(v).value, 0).Reject?
  {
    if v.job.key !in s.records && FetchedBytes(v).Ok? {
      var b := FetchedBytes(v).value;
      if b != [] && sha(b) == digest {
        assert VerdictAt(sha, v.job, v.world, s.denials, b, 0).Reject?;
        assert s.denials + {DenialOf(v.job.key, sha(b))} == s.denials;
        assert FirstFailure(sha, v.job, v.world, s.denials, b, 0) == 0;
      }
    }
  }

  lemma DeniedTrusted(sha: Bytes -> string, v: Visit, s: Store, digest: string)
    requires DenialOf(v.job.key, digest) in s.denials && !v.world.outage && EnabledHead(v.job.chain)
    ensures sha([]) != digest ==> TrustedSpec(sha, v.job, v.world, digest, s.denials).status != 200
  {
    FindsHead(v.job.chain);
  }

  // ------------------------------------------------------------------ the adapter

  class Adapter {
    const sha: Bytes -> string
    const global: Chain
    const hook: Option<seq<string>>
    var records: map<ArtifactKey, string>
    var denials: set<DenialKey>
    ghost var configured: set<(string, Chain)>
    ghost var requests: map<nat, Request>
    ghost var log: seq<Event>

    ghost function St(): State
      reads this
    {
      State(global, hook, configured, records, denials, requests, log)
    }

    ghost predicate Valid()
      reads this
    {
      TrustResults.Leads(sha, Start(global, hook), St())
    }

    constructor (sha: Bytes -> string, global: Chain, hook: Option<seq<string>>)
      ensures Valid() && records == map[] && denials == {} && configured == {} && requests == map[]
      ensures this.sha == sha && this.global == global && this.hook == hook
    {
      this.sha, this.global, this.hook := sha, global, hook;
      records, denials, configured, requests, log := map[], {}, {}, map[], [];
      new;
      TrustResults.LeadsRefl(sha, Start(global, hook));
    }

    /** The protocol takes one step from `before`; the history follows the fields. */
    ghost method Take(before: State, step: Step, after: State)
      requires TrustResults.Leads(sha, Start(global, hook), before) && Apply(sha, before, step) == Some(after)
      requires after.global == global && after.hook == hook && after.records == records && after.denials == denials
      modifies this`configured, this`requests, this`log
      ensures Valid() && St() == after
    {
      TrustResults.LeadsStep(sha, Start(global, hook), before, step, after);
      configured, requests, log := after.configured, after.requests, after.log;
    }

    /** Request `rid` moves on without touching the shared state. */
    ghost method Go(rid: nat, step: Step, phase: Phase)
      requires Valid() && rid in requests && Apply(sha, St(), step) == Some(Move(St(), rid, phase))
      modifies this`configured, this`requests, this`log
      ensures Valid() && St() == Move(old(St()), rid, phase)
    {
      Take(St(), step, Move(St(), rid, phase));
    }

    /** A project's pipelines are (re)built by the resolver. */
    ghost method Configure(project: string, chain: Chain)
      requires Valid()
      modifies this`configured, this`requests, this`log
      ensures Valid() && configured == old(configured) + {(project, chain)} && requests == old(requests)
    {
      var step := TrustProtocol.Configure(project, chain);
      Take(St(), step, Apply(sha, St(), step).value);
    }

    method HandleTarball(ghost rid: nat, job: Job, stack: R.Stack, w: World) returns (resp: Response)
      requires Valid() && rid !in requests && stack.ctx == job.ctx && stack.slots == job.slots
      requires job.chain == global || (job.key.project, job.chain) in configured
      modifies this, stack
      ensures Valid() && rid in requests && requests[rid] == Request(job.key, job.chain, Finished(resp.status))
      ensures (resp, Store(records, denials)) == HandleSpec(sha, hook, job, w, Store(old(records), old(denials)))
    {
      Arrived(rid, job);
      if !w.lookupOk {
        Go(rid, Abort(rid), Finished(500));
        return Response(500, None);
      }
      Go(rid, Lookup(rid), if job.key in records then TrustedFetch(records[job.key]) else UntrustedFetch);
      if job.key in records {
        resp := ServeTrusted(rid, job, stack, w, records[job.key]);
      } else {
        resp := ServeUntrusted(rid, job, stack, w);
      }
    }

    /** The request arrives and resolves its pipelines. */
    ghost method Arrived(rid: nat, job: Job)
      requires Valid() && rid !in requests
      requires job.chain == global || (job.key.project, job.chain) in configured
      modifies this`configured, this`requests, this`log
      ensures Valid() && rid in requests
      ensures requests[rid] == Request(job.key, job.chain, Ready)
    {
      Take(St(), Arrive(rid, job.key), Apply(sha, St(), Arrive(rid, job.key)).value);
      Take(St(), Resolve(rid, job.chain), Apply(sha, St(), Resolve(rid, job.chain)).value);
    }

    method ServeTrusted(ghost rid: nat, job: Job, stack: R.Stack, w: World, anchor: string) returns (resp: Response)
      requires Valid() && stack.ctx == job.ctx && stack.slots == job.slots
      requires rid in requests && requests[rid] == Request(job.key, job.chain, TrustedFetch(anchor))
      modifies stack, this`configured, this`requests, this`log
      ensures Valid() && rid in requests && requests[rid] == Request(job.key, job.chain, Finished(resp.status))
      ensures resp == TrustedSpec(sha, job, w, anchor, denials)
    {
      var r := stack.VerifiedBytes(sha, job.retrieval, w.first, w.second, anchor);
      Retrieved(rid, job, w, anchor);
      if r.Err? {
        return Response(StatusOf(r.error), None);
      }
      resp := Recheck(rid, job, w, anchor, r.value);
    }

    /** The deny-list re-check on the anchor, then PostFetch. */
    method Recheck(ghost rid: nat, job: Job, w: World, anchor: string, body: Bytes) returns (resp: Response)
      requires Valid() && rid in requests && requests[rid] == Request(job.key, job.chain, TrustedGate(anchor, body))
      modifies this`configured, this`requests, this`log
      ensures Valid() && rid in requests && requests[rid] == Request(job.key, job.chain, Finished(resp.status))
      ensures resp == if GateDenies(job.chain, job.key, denials, anchor, body, w.outage) then Response(403, None)
                      else PostFetched(w, body)
    {
      var check := Find(job.chain, CHECK);
      if check.Some? && !VerdictOf(job.chain[check.value], denials, job.key, anchor, body, Pass, w.outage).Pass? {
        Go(rid, Gate(rid, w.outage), Finished(403));
        return Response(403, None);
      }
      Go(rid, Gate(rid, w.outage), Mutating(body, anchor));
      resp := Finish(rid, w, body);
    }

    /** The protocol steps of fetchBytes and verifyOrEvict. */
    ghost method Retrieved(rid: nat, job: Job, w: World, anchor: string)
      requires Valid() && rid in requests && requests[rid].phase == TrustedFetch(anchor)
      modifies this`configured, this`requests, this`log
      ensures Valid() && rid in requests
      ensures var r := R.VerifySpec(sha, job.retrieval, w.first, w.second, anchor, job.ctx, job.slots).0;
              requests[rid] == old(requests[rid]).(phase := if r.Ok? then TrustedGate(anchor, r.value)
                                                            else Finished(StatusOf(r.error)))
    {
      var f1 := R.FetchSpec(job.retrieval, w.first, job.ctx, job.slots);
      var b1 := R.BytesOf(f1);
      if b1.Err? {
        Go(rid, FetchFailed(rid, StatusOf(Some(b1.error))), Finished(StatusOf(Some(b1.error))));
        return;
      }
      Go(rid, Fetched(rid, b1.value), TrustedVerify(anchor, b1.value));
      if sha(b1.value) == anchor {
        Go(rid, Verify(rid), TrustedGate(anchor, b1.value));
        return;
      }
      Go(rid, Verify(rid), TrustedRefetch(anchor));
      Refetched(rid, anchor, R.BytesOf(R.FetchSpec(job.retrieval, w.second, f1.ctx.(tarball := None),
                                                   R.EvictSpec(job.retrieval, w.first, f1.ctx, f1.slots))));
    }

    /** The second half: what the run after the eviction brought. */
    ghost method Refetched(rid: nat, anchor: string, b: Result<Bytes, R.FetchError>)
      requires Valid() && rid in requests && requests[rid].phase == TrustedRefetch(anchor)
      modifies this`configured, this`requests, this`log
      ensures Valid() && rid in requests
      ensures requests[rid] == old(requests[rid]).(phase :=
                if b.Err? then Finished(StatusOf(Some(b.error)))
                else if sha(b.value) == anchor then TrustedGate(anchor, b.value) else Finished(502))
    {
      if b.Err? {
        Go(rid, FetchFailed(rid, StatusOf(Some(b.error))), Finished(StatusOf(Some(b.error))));
        return;
      }
      Go(rid, Fetched(rid, b.value), TrustedReverify(anchor, b.value));
      Go(rid, Verify(rid), if sha(b.value) == anchor then TrustedGate(anchor, b.value) else Finished(502));
    }

    /** RunPostFetch over the verified bytes, then the reply. */
    method Finish(ghost rid: nat, w: World, body: Bytes) returns (resp: Response)
      requires Valid() && rid in requests && requests[rid].phase.Mutating? && requests[rid].phase.body == body
      modifies this`configured, this`requests, this`log
      ensures Valid() && rid in requests && requests[rid] == old(requests[rid]).(phase := Finished(resp.status))
      ensures resp == PostFetched(w, body)
    {
      var out := w.mutate(body);
      Take(St(), PostFetch(rid, out.Some?), Apply(sha, St(), PostFetch(rid, out.Some?)).value);
      resp := if out.Some? then Response(200, out) else Response(500, None);
    }

    method ServeUntrusted(ghost rid: nat, job: Job, stack: R.Stack, w: World) returns (resp: Response)
      requires Valid() && stack.ctx == job.ctx && stack.slots == job.slots && job.key !in records
      requires rid in requests && requests[rid] == Request(job.key, job.chain, UntrustedFetch)
      modifies stack, this
      ensures Valid() && rid in requests && requests[rid] == Request(job.key, job.chain, Finished(resp.status))
      ensures (resp, Store(records, denials)) == UntrustedSpec(sha, hook, job, w, Store(old(records), old(denials)))
    {
      var a := stack.Fetch(job.retrieval, w.first);
      if a != R.Hit || stack.ctx.tarball.None? {
        var e := if a.Failed? then a.error else R.NoResolver;
        Go(rid, FetchFailed(rid, StatusOf(Some(e))), Finished(StatusOf(Some(e))));
        return Response(StatusOf(Some(e)), None);
      }
      var body := stack.ctx.tarball.value;
      Go(rid, Fetched(rid, body), Validating(body, sha(body), 0));
      var failed := RunValidation(rid, job, w, body);
      if failed < |job.chain| {
        return Response(403, None);
      }
      resp := StoreRecord(rid, job, w, body);
    }

    /** The anchor is written before PostFetch runs. */
    method StoreRecord(ghost rid: nat, job: Job, w: World, body: Bytes) returns (resp: Response)
      requires Valid() && rid in requests && requests[rid] == Request(job.key, job.chain, Storing(body, sha(body)))
      modifies this`records, this`configured, this`requests, this`log
      ensures Valid() && rid in requests && requests[rid] == Request(job.key, job.chain, Finished(resp.status))
      ensures records == if w.putOk then old(records)[job.key := sha(body)] else old(records)
      ensures resp == if w.putOk then PostFetched(w, body) else Response(500, None)
    {
      if !w.putOk {
        Go(rid, Put(rid, false), Finished(500));
        return Response(500, None);
      }
      ghost var before := St();
      records := records[job.key := sha(body)];
      Take(before, Put(rid, true), Apply(sha, before, Put(rid, true)).value);
      resp := Finish(rid, w, body);
    }

    /** ValidationPipeline.Run: in order, stopping at the first failure, which the hook may record. */
    method RunValidation(ghost rid: nat, job: Job, w: World, body: Bytes) returns (failed: nat)
      requires Valid() && rid in requests
               && requests[rid] == Request(job.key, job.chain, Validating(body, sha(body), 0))
      modifies this`denials, this`configured, this`requests, this`log
      ensures Valid() && rid in requests && failed == FirstFailure(sha, job, w, old(denials), body, 0)
      ensures failed == |job.chain| ==>
                requests[rid] == Request(job.key, job.chain, Storing(body, sha(body))) && denials == old(denials)
      ensures failed < |job.chain| ==>
                requests[rid] == Request(job.key, job.chain, Finished(403))
                && denials == Recorded(sha, hook, job, w, old(denials), body, failed)
    {
      var digest := sha(body);
      failed := 0;
      while failed < |job.chain|
        invariant failed <= |job.chain| && Valid() && denials == old(denials)
        invariant rid in requests && requests[rid] == Request(job.key, job.chain, Validating(body, digest, failed))
        invariant FirstFailure(sha, job, w, denials, body, 0) == FirstFailure(sha, job, w, denials, body, failed)
      {
        var v := VerdictOf(job.chain[failed], denials, job.key, digest, body, w.oracle(failed), w.outage);
        Validated(rid, job, w, body, failed, v);
        if !v.Pass? {
          OnFailure(rid, job, w, body, failed, v);
          return;
        }
        failed := failed + 1;
      }
      Go(rid, Validate(rid, Pass, w.outage), Storing(body, digest));
    }

    /** The protocol's step for one validator. */
    ghost method Validated(rid: nat, job: Job, w: World, body: Bytes, i: nat, v: Verdict)
      requires Valid() && i < |job.chain| && v == VerdictAt(sha, job, w, denials, body, i)
      requires rid in requests && requests[rid] == Request(job.key, job.chain, Validating(body, sha(body), i))
      modifies this`configured, this`requests, this`log
      ensures Valid() && rid in requests
      ensures requests[rid] == Request(job.key, job.chain, if v.Pass? then Validating(body, sha(body), i + 1)
                                                           else Recording(body, sha(body), i, v))
    {
      var step := Validate(rid, w.oracle(i), w.outage);
      Take(St(), step, Apply(sha, St(), step).value);
    }

    /** The Recorder hook; it never changes the decision. */
    method OnFailure(ghost rid: nat, job: Job, w: World, body: Bytes, failed: nat, v: Verdict)
      requires Valid() && failed < |job.chain| && v == VerdictAt(sha, job, w, denials, body, failed)
      requires rid in requests && requests[rid] == Request(job.key, job.chain, Recording(body, sha(body), failed, v))
      modifies this`denials, this`configured, this`requests, this`log
      ensures Valid() && rid in requests && requests[rid] == Request(job.key, job.chain, Finished(403))
      ensures denials == Recorded(sha, hook, job, w, old(denials), body, failed)
    {
      ghost var before := St();
      if hook.Some? {
        var listed := Allowlisted(if hook.value == [] then DEFAULT_RECORDED else hook.value, job.chain[failed].Name());
        if body != [] && listed && v.Reject? && w.recordOk {
          denials := denials + {DenialOf(job.key, sha(body))};
        }
      }
      Take(before, Record(rid, w.recordOk), Apply(sha, before, Record(rid, w.recordOk)).value);
    }

    static method Allowlisted(recorded: seq<string>, mw: string) returns (b: bool)
      ensures b <==> mw in recorded
    {
      for i := 0 to |recorded|
        invariant mw !in recorded[..i]
      {
        if recorded[i] == mw {
          return true;
        }
      }
      return false;
    }
  }
}
