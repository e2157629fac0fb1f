/**
 * internal/registry/npm/routes.go and internal/registry/pypi/routes.go: the
 * trust flow as a protocol. Any number of requests are in flight; a step is one
 * access to shared state by one request (resolve, store lookup, retrieval run,
 * hash comparison, one validator, the failure hook, store write, PostFetch), or
 * a step of the environment. A retrieval run may return any bytes at all: a
 * tampered cache, a drifted upstream and a concurrent write-through are all
 * covered. `sha` is the digest function.
 */
module TrustProtocol {
  import opened Basics
  import opened DenyList

  datatype Phase =
    | Arrived
    | Ready                                         // chain resolved, PreFetch done
    | TrustedFetch(anchor: string)
    | TrustedVerify(anchor: string, body: Bytes)
    | TrustedRefetch(anchor: string)                // cache evicted, ctx.Tarball = nil
    | TrustedReverify(anchor: string, body: Bytes)
    | TrustedGate(anchor: string, body: Bytes)      // before the deny-list re-check
    | UntrustedFetch
    | Validating(body: Bytes, digest: string, next: nat)
    | Recording(body: Bytes, digest: string, failed: nat, verdict: Verdict)
    | Storing(body: Bytes, digest: string)
    | Mutating(body: Bytes, digest: string)         // before PostFetch
    | Finished(status: nat)

  datatype Request = Request(key: ArtifactKey, chain: Chain, phase: Phase)

  datatype Event =
    | Resolved(rid: nat, project: string, chain: Chain)
    | Passed(rid: nat, key: ArtifactKey, position: nat, validator: Validator, digest: string)
    | Stored(rid: nat, key: ArtifactKey, digest: string)
    | Served(rid: nat, key: ArtifactKey, body: Bytes)  // the bytes given to PostFetch of a 200

  // `configured` is every chain the resolver ever had for a project; a resolver
  // race may answer with any of them, or with the global chain. `hook` is the
  // recorder's allowlist, when recording is enabled.
  datatype State = State(global: Chain, hook: Option<seq<string>>, configured: set<(string, Chain)>,
                         records: map<ArtifactKey, string>, denials: set<DenialKey>,
                         requests: map<nat, Request>, log: seq<Event>)

  datatype Step =
    | Configure(project: string, chain: Chain)
    | Deny(denial: DenialKey)
    | Arrive(rid: nat, key: ArtifactKey)
    | Resolve(rid: nat, chain: Chain)
    | Abort(rid: nat)                      // resolve, PreFetch or storage.Get failed
    | Lookup(rid: nat)
    | Fetched(rid: nat, body: Bytes)
    | FetchFailed(rid: nat, status: nat)
    | Verify(rid: nat)
    | Gate(rid: nat, outage: bool)
    | Validate(rid: nat, oracle: Verdict, outage: bool)
    | Record(rid: nat, ok: bool)
    | Put(rid: nat, ok: bool)
    | PostFetch(rid: nat, ok: bool)

  function Start(global: Chain, hook: Option<seq<string>>): State {
    State(global, hook, {}, map[], {}, map[], [])
  }

  /** Request `rid` moves to `phase`. */
  function Move(s: State, rid: nat, phase: Phase): State
    requires rid in s.requests
  {
    s.(requests := s.requests[rid := s.requests[rid].(phase := phase)])
  }

  function Emit(s: State, e: Event): State {
    s.(log := s.log + [e])
  }

  /** Steps of one request: None when request `rid` is not at the point of `step`. */
  function Advance(sha: Bytes -> string, s: State, rid: nat, step: Step): Option<State>
    requires rid in s.requests
  {
    var r := s.requests[rid];
    var p := r.phase;
    match step
    case Resolve(_, chain) =>
      if p.Arrived? && (chain == s.global || (r.key.project, chain) in s.configured) then
        Some(Emit(s.(requests := s.requests[rid := Request(r.key, chain, Ready)]), Resolved(rid, r.key.project, chain)))
      else None
    case Abort(_) => if p.Arrived? || p.Ready? then Some(Move(s, rid, Finished(500))) else None
    case Lookup(_) =>
      if p.Ready? then
        Some(Move(s, rid, if r.key in s.records then TrustedFetch(s.records[r.key]) else UntrustedFetch))
      else None
    case Fetched(_, body) =>
      if p.TrustedFetch? then Some(Move(s, rid, TrustedVerify(p.anchor, body)))
      else if p.TrustedRefetch? then Some(Move(s, rid, TrustedReverify(p.anchor, body)))
      else if p.UntrustedFetch? then Some(Move(s, rid, Validating(body, sha(body), 0)))
      else None
    case FetchFailed(_, status) =>
      if p.TrustedFetch? || p.TrustedRefetch? || p.UntrustedFetch? then FailFetch(s, rid, status) else None
    case Verify(_) =>
      if p.TrustedVerify? then
        Some(Move(s, rid, if sha(p.body) == p.anchor then TrustedGate(p.anchor, p.body) else TrustedRefetch(p.anchor)))
      else if p.TrustedReverify? then
        Some(Move(s, rid, if sha(p.body) == p.anchor then TrustedGate(p.anchor, p.body) else Finished(502)))
      else None
    case Gate(_, outage) =>
      if p.TrustedGate? then
        Some(Move(s, rid, if GateDenies(r.chain, r.key, s.denials, p.anchor, p.body, outage) then Finished(403)
                          else Mutating(p.body, p.anchor)))
      else None
    case Validate(_, oracle, outage) => if p.Validating? then Some(ValidateNext(s, rid, oracle, outage)) else None
    case Record(_, ok) => if p.Recording? then Some(RecordFailure(s, rid, ok)) else None
    case Put(_, ok) =>
      if !p.Storing? then None
      else if !ok then Some(Move(s, rid, Finished(500)))
      else
        Some(Emit(Move(s, rid, Mutating(p.body, p.digest)).(records := s.records[r.key := p.digest]),
                  Stored(rid, r.key, p.digest)))
    case PostFetch(_, ok) =>
      if !p.Mutating? then None
      else if ok then Some(Emit(Move(s, rid, Finished(200)), Served(rid, r.key, p.body)))
      else Some(Move(s, rid, Finished(500)))
    case _ => None
  }

  /** ValidationPipeline.Run, one validator: all passed, this one passes, or this one fails. */
  function ValidateNext(s: State, rid: nat, oracle: Verdict, outage: bool): State
    requires rid in s.requests && s.requests[rid].phase.Validating?
  {
    var r := s.requests[rid];
    var Validating(body, digest, next) := r.phase;
    if next >= |r.chain| then Move(s, rid, Storing(body, digest))
    else
      var v := VerdictOf(r.chain[next], s.denials, r.key, digest, body, oracle, outage);
      if v.Pass? then
        Emit(Move(s, rid, Validating(body, digest, next + 1)), Passed(rid, r.key, next, r.chain[next], digest))
      else Move(s, rid, Recording(body, digest, next, v))
  }

  /** The OnFailure hook, then the 403. */
  function RecordFailure(s: State, rid: nat, ok: bool): State
    requires rid in s.requests && s.requests[rid].phase.Recording?
  {
    var r := s.requests[rid];
    var Recording(body, digest, failed, verdict) := r.phase;
    var t := Move(s, rid, Finished(403));
    if ok && s.hook.Some? && failed < |r.chain| && Records(s.hook.value, r.chain[failed].Name(), verdict, body) then
      t.(denials := s.denials + {DenialOf(r.key, digest)})
    else t
  }

  /** fetchErr: 404, 403 (policy) or 502. */
  function FailFetch(s: State, rid: nat, status: nat): Option<State>
    requires rid in s.requests
  {
    if status == 404 || status == 403 || status == 502 then Some(Move(s, rid, Finished(status))) else None
  }

  /** The re-check of serveTrusted: the first deny-list-check of the chain, on the anchor. */
  predicate GateDenies(chain: Chain, k: ArtifactKey, denials: set<DenialKey>, anchor: string, body: Bytes,
                       outage: bool)
  {
    var i := Find(chain, CHECK);
    i.Some? && !VerdictOf(chain[i.value], denials, k, anchor, body, Pass, outage).Pass?
  }

  function RidOf(step: Step): Option<nat> {
    match step
    case Configure(_, _) => None
    case Deny(_) => None
    case Arrive(_, _) => None
    case _ => Some(step.rid)
  }

  function Apply(sha: Bytes -> string, s: State, step: Step): Option<State> {
    match step
    case Configure(p, chain) => Some(s.(configured := s.configured + {(p, chain)}))
    case Deny(d) => Some(s.(denials := s.denials + {d}))
    case Arrive(rid, key) =>
      if rid in s.requests then None else Some(s.(requests := s.requests[rid := Request(key, [], Arrived)]))
    case _ => if step.rid in s.requests then Advance(sha, s, step.rid, step) else None
  }

  function Run(sha: Bytes -> string, s: State, steps: seq<Step>): Option<State> {
    if steps == [] then Some(s)
    else
      match Run(sha, s, steps[..|steps| - 1])
      case None => None
      case Some(t) => Apply(sha, t, steps[|steps| - 1])
  }

  // ---------------------------------------------------------- what is vouched

  /** Request `rid` resolved `chain` for the key's project, and every validator of it passed this digest. */
  ghost predicate FullRun(log: seq<Event>, rid: nat, k: ArtifactKey, chain: Chain, digest: string) {
    && Resolved(rid, k.project, chain) in log
    && forall i :: 0 <= i < |chain| ==> Passed(rid, k, i, chain[i], digest) in log
  }

  ghost predicate Vouched(log: seq<Event>, k: ArtifactKey, digest: string) {
    exists rid, chain :: FullRun(log, rid, k, chain, digest)
  }

  lemma VouchedGrows(log: seq<Event>, more: seq<Event>, k: ArtifactKey, digest: string)
    requires Vouched(log, k, digest)
    ensures Vouched(log + more, k, digest)
  {
    var rid, chain :| FullRun(log, rid, k, chain, digest);
    assert FullRun(log + more, rid, k, chain, digest);
  }

  ghost predicate RequestOk(sha: Bytes -> string, log: seq<Event>, rid: nat, r: Request) {
    && (!r.phase.Arrived? && !r.phase.Finished? ==> Resolved(rid, r.key.project, r.chain) in log)
    && match r.phase
       case TrustedFetch(anchor) => Vouched(log, r.key, anchor)
       case TrustedVerify(anchor, _) => Vouched(log, r.key, anchor)
       case TrustedRefetch(anchor) => Vouched(log, r.key, anchor)
       case TrustedReverify(anchor, _) => Vouched(log, r.key, anchor)
       case TrustedGate(anchor, body) => Vouched(log, r.key, anchor) && sha(body) == anchor
       case Validating(body, digest, next) =>
         sha(body) == digest && next <= |r.chain|
         && forall i :: 0 <= i < next ==> Passed(rid, r.key, i, r.chain[i], digest) in log
       case Storing(body, digest) => sha(body) == digest && Vouched(log, r.key, digest)
       case Mutating(body, digest) => sha(body) == digest && Vouched(log, r.key, digest)
       case Finished(status) => status == 200 ==> exists body :: Served(rid, r.key, body) in log
       case _ => true
  }

  lemma RequestOkGrows(sha: Bytes -> string, log: seq<Event>, more: seq<Event>, rid: nat, r: Request)
    requires RequestOk(sha, log, rid, r)
    ensures RequestOk(sha, log + more, rid, r)
  {
    match r.phase
    case TrustedFetch(anchor) => VouchedGrows(log, more, r.key, anchor);
    case TrustedVerify(anchor, _) => VouchedGrows(log, more, r.key, anchor);
    case TrustedRefetch(anchor) => VouchedGrows(log, more, r.key, anchor);
    case TrustedReverify(anchor, _) => VouchedGrows(log, more, r.key, anchor);
    case TrustedGate(anchor, _) => VouchedGrows(log, more, r.key, anchor);
    case Storing(_, digest) => VouchedGrows(log, more, r.key, digest);
    case Mutating(_, digest) => VouchedGrows(log, more, r.key, digest);
    case Finished(status) =>
      if status == 200 {
        var body :| Served(rid, r.key, body) in log;
        assert Served(rid, r.key, body) in log + more;
      }
    case _ =>
  }

  /** What one event of the log promises about the whole log. */
  ghost predicate EventOk(sha: Bytes -> string, s: State, e: Event) {
    match e
    case Resolved(_, p, chain) => chain == s.global || (p, chain) in s.configured
    case Stored(_, k, digest) => Vouched(s.log, k, digest)
    case Served(_, k, body) => Vouched(s.log, k, sha(body))
    case Passed(_, _, _, _, _) => true
  }

  ghost predicate Inv(sha: Bytes -> string, s: State) {
    && (forall k :: k in s.records ==> Vouched(s.log, k, s.records[k]))
    && (forall rid :: rid in s.requests ==> RequestOk(sha, s.log, rid, s.requests[rid]))
    && (forall e :: e in s.log ==> EventOk(sha, s, e))
  }

  /** The request's own obligation after its step, one kind of step at a time. */
  lemma ResolveOk(sha: Bytes -> string, s: State, rid: nat, step: Step)
    requires rid in s.requests && step.Resolve? && Advance(sha, s, rid, step).Some?
    ensures var t := Advance(sha, s, rid, step).value;
            rid in t.requests && RequestOk(sha, t.log, rid, t.requests[rid])
  {
  }

  lemma ValidateOk(sha: Bytes -> string, s: State, rid: nat, step: Step)
    requires rid in s.requests && step.Validate? && Advance(sha, s, rid, step).Some?
    requires RequestOk(sha, s.log, rid, s.requests[rid])
    ensures var t := Advance(sha, s, rid, step).value;
            rid in t.requests && RequestOk(sha, t.log, rid, t.requests[rid])
  {
    var r := s.requests[rid];
    if r.phase.next >= |r.chain| {
      assert FullRun(s.log, rid, r.key, r.chain, r.phase.digest);
    }
  }

  lemma PutOk(sha: Bytes -> string, s: State, rid: nat, step: Step)
    requires rid in s.requests && step.Put? && Advance(sha, s, rid, step).Some?
    requires RequestOk(sha, s.log, rid, s.requests[rid])
    ensures var t := Advance(sha, s, rid, step).value;
            rid in t.requests && RequestOk(sha, t.log, rid, t.requests[rid])
  {
    var r := s.requests[rid];
    if step.ok {
      VouchedGrows(s.log, [Stored(rid, r.key, r.phase.digest)], r.key, r.phase.digest);
    }
  }

  lemma ServeOk(sha: Bytes -> string, s: State, rid: nat, step: Step)
    requires rid in s.requests && step.PostFetch? && Advance(sha, s, rid, step).Some?
    ensures var t := Advance(sha, s, rid, step).value;
            rid in t.requests && RequestOk(sha, t.log, rid, t.requests[rid])
  {
    var r, t := s.requests[rid], Advance(sha, s, rid, step).value;
    if step.ok {
      assert Served(rid, r.key, r.phase.body) in t.log;
    }
  }

  predicate Logs(step: Step) {
    step.Resolve? || step.Validate? || step.Put? || step.PostFetch?
  }

  lemma QuietOk(sha: Bytes -> string, s: State, rid: nat, step: Step)
    requires rid in s.requests && Advance(sha, s, rid, step).Some? && !Logs(step)
    requires RequestOk(sha, s.log, rid, s.requests[rid])
    requires s.requests[rid].key in s.records ==> Vouched(s.log, s.requests[rid].key, s.records[s.requests[rid].key])
    ensures var t := Advance(sha, s, rid, step).value;
            rid in t.requests && RequestOk(sha, t.log, rid, t.requests[rid])
  {
  }

  lemma AdvanceOk(sha: Bytes -> string, s: State, rid: nat, step: Step)
    requires Inv(sha, s) && rid in s.requests && Advance(sha, s, rid, step).Some?
    ensures var t := Advance(sha, s, rid, step).value;
            rid in t.requests && RequestOk(sha, t.log, rid, t.requests[rid])
  {
    match step
    case Resolve(_, _) => ResolveOk(sha, s, rid, step);
    case Validate(_, _, _) => ValidateOk(sha, s, rid, step);
    case Put(_, _) => PutOk(sha, s, rid, step);
    case PostFetch(_, _) => ServeOk(sha, s, rid, step);
    case _ => QuietOk(sha, s, rid, step);
  }

  /** What a request's step may do to everything else. */
  lemma AdvanceFrame(sha: Bytes -> string, s: State, rid: nat, step: Step)
    requires rid in s.requests && Advance(sha, s, rid, step).Some?
    ensures var t, r := Advance(sha, s, rid, step).value, s.requests[rid];
            && t.global == s.global && t.configured == s.configured
            && t.requests.Keys == s.requests.Keys && t.requests[rid].key == r.key
            && (forall q :: q in s.requests && q != rid ==> t.requests[q] == s.requests[q])
            && (t.log == s.log || exists e :: t.log == s.log + [e])
            && (t.records != s.records ==>
                  step.Put? && step.ok && r.phase.Storing? && t.records == s.records[r.key := r.phase.digest])
  {
    var t := Advance(sha, s, rid, step).value;
    if t.log != s.log {
      assert t.log == s.log + [t.log[|s.log|]];
    }
  }

  /** Only the Resolve step gives a request its chain; no step changes its key, and none leads back to arrival. */
  lemma SameChain(sha: Bytes -> string, s: State, rid: nat, step: Step)
    requires rid in s.requests && Advance(sha, s, rid, step).Some?
    ensures var r, t := s.requests[rid], Advance(sha, s, rid, step).value;
            && t.requests[rid].key == r.key && !t.requests[rid].phase.Arrived?
            && (!step.Resolve? ==> t.requests[rid].chain == r.chain)
  {
  }

  lemma NewEventOk(sha: Bytes -> string, s: State, rid: nat, step: Step)
    requires Inv(sha, s) && rid in s.requests && Advance(sha, s, rid, step).Some?
    ensures var t := Advance(sha, s, rid, step).value;
            |t.log| == |s.log| + 1 ==> EventOk(sha, t, t.log[|s.log|])
  {
    var r := s.requests[rid];
    var t := Advance(sha, s, rid, step).value;
    if step.Put? && step.ok && r.phase.Storing? {
      VouchedGrows(s.log, [Stored(rid, r.key, r.phase.digest)], r.key, r.phase.digest);
    }
    if step.PostFetch? && step.ok && r.phase.Mutating? {
      VouchedGrows(s.log, [Served(rid, r.key, r.phase.body)], r.key, r.phase.digest);
    }
  }

  lemma EventOkGrows(sha: Bytes -> string, s: State, t: State, more: seq<Event>, e: Event)
    requires EventOk(sha, s, e) && t.log == s.log + more
    requires t.global == s.global && s.configured <= t.configured
    ensures EventOk(sha, t, e)
  {
    match e
    case Stored(_, k, digest) => VouchedGrows(s.log, more, k, digest);
    case Served(_, k, body) => VouchedGrows(s.log, more, k, sha(body));
    case _ =>
  }

  lemma AdvanceRecords(sha: Bytes -> string, s: State, rid: nat, step: Step, more: seq<Event>)
    requires Inv(sha, s) && rid in s.requests && Advance(sha, s, rid, step).Some?
    requires Advance(sha, s, rid, step).value.log == s.log + more
    ensures var t := Advance(sha, s, rid, step).value;
            forall k :: k in t.records ==> Vouched(t.log, k, t.records[k])
  {
    var t := Advance(sha, s, rid, step).value;
    AdvanceFrame(sha, s, rid, step);
    forall k | k in t.records
      ensures Vouched(t.log, k, t.records[k])
    {
      if t.records == s.records || k != s.requests[rid].key {
        VouchedGrows(s.log, more, k, s.records[k]);
      } else {
        VouchedGrows(s.log, more, k, s.requests[rid].phase.digest);
      }
    }
  }

  lemma AdvanceInv(sha: Bytes -> string, s: State, rid: nat, step: Step)
    requires Inv(sha, s) && rid in s.requests && Advance(sha, s, rid, step).Some?
    ensures Inv(sha, Advance(sha, s, rid, step).value)
  {
    var t := Advance(sha, s, rid, step).value;
    AdvanceFrame(sha, s, rid, step);
    var more := t.log[|s.log|..];
    assert t.log == s.log + more;
    forall q | q in t.requests
      ensures RequestOk(sha, t.log, q, t.requests[q])
    {
      if q == rid {
        AdvanceOk(sha, s, rid, step);
      } else {
        RequestOkGrows(sha, s.log, more, q, s.requests[q]);
      }
    }
    AdvanceRecords(sha, s, rid, step, more);
    forall e | e in t.log
      ensures EventOk(sha, t, e)
    {
      if e in s.log {
        EventOkGrows(sha, s, t, more, e);
      } else {
        NewEventOk(sha, s, rid, step);
      }
    }
  }

  lemma StepInv(sha: Bytes -> string, s: State, step: Step)
    requires Inv(sha, s) && Apply(sha, s, step).Some?
    ensures Inv(sha, Apply(sha, s, step).value)
  {
    if RidOf(step).Some? {
      AdvanceInv(sha, s, step.rid, step);
    } else {
      var t := Apply(sha, s, step).value;
      forall e | e in t.log
        ensures EventOk(sha, t, e)
      {
        assert t.log == s.log + [];
        EventOkGrows(sha, s, t, [], e);
      }
    }
  }

  lemma {:induction false} RunInv(sha: Bytes -> string, s: State, steps: seq<Step>)
    requires Inv(sha, s) && Run(sha, s, steps).Some?
    ensures Inv(sha, Run(sha, s, steps).value)
    decreases |steps|
  {
    if steps != [] {
      RunInv(sha, s, steps[..|steps| - 1]);
      StepInv(sha, Run(sha, s, steps[..|steps| - 1]).value, steps[|steps| - 1]);
    }
  }

  /** Every Resolved event is about the chain its request still has. */
  ghost predicate OneChain(s: State) {
    forall rid, p, chain :: Resolved(rid, p, chain) in s.log ==>
      && rid in s.requests && !s.requests[rid].phase.Arrived?
      && s.requests[rid].key.project == p && s.requests[rid].chain == chain
  }

  lemma OneChainAdvance(sha: Bytes -> string, s: State, rid: nat, step: Step)
    requires OneChain(s) && rid in s.requests && Advance(sha, s, rid, step).Some? && RidOf(step) == Some(rid)
    ensures OneChain(Advance(sha, s, rid, step).value)
  {
    var t := Advance(sha, s, rid, step).value;
    AdvanceFrame(sha, s, rid, step);
    SameChain(sha, s, rid, step);
    NewResolved(sha, s, rid, step);
  }

  /** A new Resolved event is the one of the Resolve step, which a request takes only on arrival. */
  lemma NewResolved(sha: Bytes -> string, s: State, rid: nat, step: Step)
    requires rid in s.requests && Advance(sha, s, rid, step).Some? && RidOf(step) == Some(rid)
    ensures var t := Advance(sha, s, rid, step).value;
            && (step.Resolve? ==> s.requests[rid].phase.Arrived?)
            && forall q, p, chain :: Resolved(q, p, chain) in t.log && Resolved(q, p, chain) !in s.log ==>
                 step.Resolve? && q == rid && p == t.requests[rid].key.project && chain == t.requests[rid].chain
  {
  }

  lemma {:induction false} RunOneChain(sha: Bytes -> string, s: State, steps: seq<Step>)
    requires OneChain(s) && Run(sha, s, steps).Some?
    ensures OneChain(Run(sha, s, steps).value)
    decreases |steps|
  {
    if steps != [] {
      var front, last := steps[..|steps| - 1], steps[|steps| - 1];
      RunOneChain(sha, s, front);
      var t := Run(sha, s, front).value;
      if RidOf(last).Some? {
        OneChainAdvance(sha, t, last.rid, last);
      }
    }
  }

  /**
   * Whole-run trust safety. From an empty store, under any interleaving, cache
   * tampering and upstream drift: every anchor is the digest of bytes that passed
   * every validator of a chain resolved for that same project, and every 200 gave
   * PostFetch bytes with such a digest for its own key.
   */
  lemma TrustSafety(sha: Bytes -> string, global: Chain, hook: Option<seq<string>>, steps: seq<Step>)
    requires Run(sha, Start(global, hook), steps).Some?
    ensures var s := Run(sha, Start(global, hook), steps).value;
            && (forall k :: k in s.records ==> Vouched(s.log, k, s.records[k]))
            && (forall rid, k, body :: Served(rid, k, body) in s.log ==> Vouched(s.log, k, sha(body)))
            && (forall rid :: rid in s.requests && s.requests[rid].phase == Finished(200) ==>
                  exists body :: Served(rid, s.requests[rid].key, body) in s.log)
            && (forall rid, p, chain :: Resolved(rid, p, chain) in s.log ==>
                  chain == s.global || (p, chain) in s.configured)
            // one request, one chain: the validators a vouching run passed are those of the only chain it resolved
            && (forall rid, p, chain, p', chain' ::
                  Resolved(rid, p, chain) in s.log && Resolved(rid, p', chain') in s.log ==> p == p' && chain == chain')
  {
    RunInv(sha, Start(global, hook), steps);
    RunOneChain(sha, Start(global, hook), steps);
    var s := Run(sha, Start(global, hook), steps).value;
    forall rid, k, body | Served(rid, k, body) in s.log
      ensures Vouched(s.log, k, sha(body))
    {
      assert EventOk(sha, s, Served(rid, k, body));
    }
    forall rid, p, chain | Resolved(rid, p, chain) in s.log
      ensures chain == s.global || (p, chain) in s.configured
    {
      assert EventOk(sha, s, Resolved(rid, p, chain));
    }
  }
}
