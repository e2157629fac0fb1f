/**
 * Further results about runs of the trust flow: when anchors are write-once,
 * why they are not in general, and what a recorded denial stops.
 */
module TrustResults {
  import opened Basics
  import opened DenyList
  import opened TrustProtocol

  // ---------------------------------------------------------------- write-once

  /** Between the lookup that found no anchor and the store write. */
  predicate Untrusted(p: Phase) {
    p.UntrustedFetch? || p.Validating? || p.Storing?
  }

  predicate UntrustedFor(s: State, rid: nat, k: ArtifactKey) {
    rid in s.requests && s.requests[rid].key == k && Untrusted(s.requests[rid].phase)
  }

  /** Two requests for the artifact are between their lookup and their store write at once. */
  ghost predicate Overlap(s: State, k: ArtifactKey) {
    exists a, b :: a != b && UntrustedFor(s, a, k) && UntrustedFor(s, b, k)
  }

  ghost predicate OverlapAfter(sha: Bytes -> string, s: State, steps: seq<Step>, k: ArtifactKey) {
    Run(sha, s, steps).Some? && Overlap(Run(sha, s, steps).value, k)
  }

  /** They overlap at some point of the run. Trusted requests, and those for other artifacts, do not matter. */
  ghost predicate OverlapDuring(sha: Bytes -> string, s: State, steps: seq<Step>, k: ArtifactKey) {
    exists n :: 0 <= n <= |steps| && OverlapAfter(sha, s, steps[..n], k)
  }

  /** A request on the untrusted path for k means that k has no anchor. */
  ghost predicate AbsentWhileUntrusted(s: State, k: ArtifactKey) {
    k in s.records ==> forall rid :: !UntrustedFor(s, rid, k)
  }

  lemma ExclusiveStep(sha: Bytes -> string, s: State, step: Step, k: ArtifactKey)
    requires !Overlap(s, k) && AbsentWhileUntrusted(s, k) && Apply(sha, s, step).Some?
    ensures var t := Apply(sha, s, step).value;
            AbsentWhileUntrusted(t, k) && (k in s.records ==> k in t.records && t.records[k] == s.records[k])
  {
    if RidOf(step).Some? {
      ExclusiveAdvance(sha, s, step.rid, step, k);
    } else {
      assert forall q :: UntrustedFor(Apply(sha, s, step).value, q, k) ==> UntrustedFor(s, q, k);
    }
  }

  lemma ExclusiveAdvance(sha: Bytes -> string, s: State, rid: nat, step: Step, k: ArtifactKey)
    requires rid in s.requests && Advance(sha, s, rid, step).Some? && RidOf(step) == Some(rid)
    requires !Overlap(s, k) && AbsentWhileUntrusted(s, k)
    ensures var t := Advance(sha, s, rid, step).value;
            AbsentWhileUntrusted(t, k) && (k in s.records ==> k in t.records && t.records[k] == s.records[k])
  {
    var t := Advance(sha, s, rid, step).value;
    AdvanceFrame(sha, s, rid, step);
    SameChain(sha, s, rid, step);
    EntersUntrusted(sha, s, rid, step);
    assert UntrustedFor(s, rid, k) <==> s.requests[rid].key == k && Untrusted(s.requests[rid].phase);
    if k in t.records {
      forall q
        ensures !UntrustedFor(t, q, k)
      {
        assert q != rid && UntrustedFor(t, q, k) ==> UntrustedFor(s, q, k);
      }
    }
  }

  /** The untrusted path is entered by a lookup that finds no anchor, and left by the store write. */
  lemma EntersUntrusted(sha: Bytes -> string, s: State, rid: nat, step: Step)
    requires rid in s.requests && Advance(sha, s, rid, step).Some? && RidOf(step) == Some(rid)
    ensures var r, t := s.requests[rid], Advance(sha, s, rid, step).value;
            && (Untrusted(t.requests[rid].phase) ==>
                  t.records == s.records && (Untrusted(r.phase) || (step.Lookup? && r.key !in s.records)))
            && (t.records != s.records ==> Untrusted(r.phase) && !Untrusted(t.requests[rid].phase))
  {
  }

  /**
   * Anchors are write-once as long as no two requests for the artifact overlap
   * on the untrusted path: an anchor present at any point of the run keeps its
   * value to the end.
   */
  lemma {:induction false} WriteOnce(sha: Bytes -> string, s: State, steps: seq<Step>, k: ArtifactKey)
    requires AbsentWhileUntrusted(s, k) && Run(sha, s, steps).Some? && !OverlapDuring(sha, s, steps, k)
    ensures var t := Run(sha, s, steps).value;
            AbsentWhileUntrusted(t, k) && (k in s.records ==> k in t.records && t.records[k] == s.records[k])
    decreases |steps|
  {
    if steps != [] {
      var front := steps[..|steps| - 1];
      forall n | 0 <= n <= |front|
        ensures !OverlapAfter(sha, s, front[..n], k)
      {
        assert front[..n] == steps[..n];
      }
      WriteOnce(sha, s, front, k);
      assert !OverlapAfter(sha, s, steps[..|front|], k);
      ExclusiveStep(sha, Run(sha, s, front).value, steps[|steps| - 1], k);
    }
  }

  /**
   * So, from an empty store, an anchor that changes between two points of a run has
   * overlapping requests at some point before the second.
   */
  lemma ChangeNeedsOverlap(sha: Bytes -> string, s0: State, before: seq<Step>, s: State, after: seq<Step>, t: State,
                           k: ArtifactKey)
    requires s0.requests == map[] && Run(sha, s0, before) == Some(s) && Run(sha, s, after) == Some(t)
    requires k in s.records && !(k in t.records && t.records[k] == s.records[k])
    ensures OverlapDuring(sha, s0, before, k) || OverlapDuring(sha, s, after, k)
  {
    if !OverlapDuring(sha, s0, before, k) {
      WriteOnce(sha, s0, before, k);
      if !OverlapDuring(sha, s, after, k) {
        WriteOnce(sha, s, after, k);
      }
    }
  }

  lemma RunOne(sha: Bytes -> string, s: State, steps: seq<Step>, step: Step)
    requires Run(sha, s, steps).Some?
    ensures Run(sha, s, steps + [step]) == Apply(sha, Run(sha, s, steps).value, step)
  {
    assert (steps + [step])[..|steps|] == steps;
  }

  ghost predicate Leads(sha: Bytes -> string, s: State, t: State) {
    exists steps :: Run(sha, s, steps) == Some(t)
  }

  lemma LeadsStep(sha: Bytes -> string, s: State, t: State, step: Step, u: State)
    requires Leads(sha, s, t) && Apply(sha, t, step) == Some(u)
    ensures Leads(sha, s, u)
  {
    var steps :| Run(sha, s, steps) == Some(t);
    RunOne(sha, s, steps, step);
    assert Run(sha, s, steps + [step]) == Some(u);
  }

  lemma LeadsRefl(sha: Bytes -> string, s: State)
    ensures Leads(sha, s, s)
  {
    assert Run(sha, s, []) == Some(s);
  }

  /** A request on the untrusted path can still bring `body`: it will fetch it, or it holds it. */
  predicate CanBring(p: Phase, body: Bytes) {
    p.UntrustedFetch? || (p.Validating? && p.body == body) || (p.Storing? && p.body == body)
  }

  /** No denial stands in its way: after the last validator none is looked up. */
  predicate Undenied(s: State, p: Phase, k: ArtifactKey, digest: string) {
    p.Storing? || DenialOf(k, digest) !in s.denials
  }

  /**
   * The converse: overlap is enough, wherever on the untrusted path the two
   * requests are. From any state of a run in which both are there for k, and for
   * any bodies they can still bring and no denial stops, some continuation,
   * without an outage, stores the digest of the first as the anchor and then
   * replaces it with the digest of the second. Whatever the chains are, the
   * scanners may pass both.
   */
  lemma OverlapOverwrites(sha: Bytes -> string, s: State, a: nat, b: nat, k: ArtifactKey, b1: Bytes, b2: Bytes)
    requires Inv(sha, s) && a != b && UntrustedFor(s, a, k) && UntrustedFor(s, b, k)
    requires CanBring(s.requests[a].phase, b1) && Undenied(s, s.requests[a].phase, k, sha(b1))
    requires CanBring(s.requests[b].phase, b2) && Undenied(s, s.requests[b].phase, k, sha(b2))
    ensures exists t, u :: Leads(sha, s, t) && Leads(sha, t, u)
                           && k in t.records && t.records[k] == sha(b1)
                           && k in u.records && u.records[k] == sha(b2)
  {
    assert RequestOk(sha, s.log, a, s.requests[a]) && RequestOk(sha, s.log, b, s.requests[b]);
    LeadsRefl(sha, s);
    var t := BringAndStore(sha, s, s, a, b1);
    LeadsRefl(sha, t);
    var u := BringAndStore(sha, t, t, b, b2);
  }

  /** And from an empty store such a state is reached: two overlapping first requests, whatever the global chain. */
  lemma OverlappingRequestsBothStore(sha: Bytes -> string, global: Chain, k: ArtifactKey, b1: Bytes, b2: Bytes)
    ensures exists s, t :: Leads(sha, Start(global, None), s) && Leads(sha, s, t)
                           && k in s.records && s.records[k] == sha(b1)
                           && k in t.records && t.records[k] == sha(b2)
  {
    var s0 := Start(global, None);
    var s1 := Apply(sha, s0, Arrive(0, k)).value;
    var s2 := Apply(sha, s1, Arrive(1, k)).value;
    LeadsRefl(sha, s0);
    LeadsStep(sha, s0, s0, Arrive(0, k), s1);
    LeadsStep(sha, s0, s1, Arrive(1, k), s2);
    var s3 := LookupAbsent(sha, s0, s2, 0);
    var s4 := LookupAbsent(sha, s0, s3, 1);
    var s := BringAndStore(sha, s0, s4, 0, b1);
    LeadsRefl(sha, s);
    var t := BringAndStore(sha, s, s, 1, b2);
  }

  /** A request resolves the global chain and finds no anchor. */
  lemma LookupAbsent(sha: Bytes -> string, s0: State, s: State, rid: nat) returns (t: State)
    requires Leads(sha, s0, s) && rid in s.requests && s.requests[rid].phase.Arrived?
    requires s.requests[rid].key !in s.records
    ensures Leads(sha, s0, t) && t.records == s.records && t.global == s.global && t.denials == s.denials
    ensures t.requests == s.requests[rid := Request(s.requests[rid].key, s.global, UntrustedFetch)]
  {
    var s1 := Apply(sha, s, Resolve(rid, s.global)).value;
    LeadsStep(sha, s0, s, Resolve(rid, s.global), s1);
    t := Apply(sha, s1, Lookup(rid)).value;
    LeadsStep(sha, s0, s1, Lookup(rid), t);
  }

  /** `t` differs from `s` in request `rid` and the log only. */
  ghost predicate OnlyRequest(s: State, t: State, rid: nat) {
    && t.records == s.records && t.denials == s.denials && t.requests.Keys == s.requests.Keys
    && forall q :: q in s.requests && q != rid ==> t.requests[q] == s.requests[q]
  }

  /** The rest of a validation run whose scanners pass and whose digest no denial covers. */
  lemma {:induction false} PassRest(sha: Bytes -> string, s0: State, s: State, rid: nat) returns (t: State)
    requires Leads(sha, s0, s) && rid in s.requests && s.requests[rid].phase.Validating?
    requires s.requests[rid].phase.next <= |s.requests[rid].chain|
    requires DenialOf(s.requests[rid].key, s.requests[rid].phase.digest) !in s.denials
    ensures Leads(sha, s0, t) && OnlyRequest(s, t, rid)
    ensures var r := s.requests[rid]; t.requests[rid] == r.(phase := Storing(r.phase.body, r.phase.digest))
    decreases |s.requests[rid].chain| - s.requests[rid].phase.next
  {
    var u := PassOne(sha, s0, s, rid);
    if s.requests[rid].phase.next < |s.requests[rid].chain| {
      t := PassRest(sha, s0, u, rid);
    } else {
      t := u;
    }
  }

  lemma PassOne(sha: Bytes -> string, s0: State, s: State, rid: nat) returns (t: State)
    requires Leads(sha, s0, s) && rid in s.requests && s.requests[rid].phase.Validating?
    requires s.requests[rid].phase.next <= |s.requests[rid].chain|
    requires DenialOf(s.requests[rid].key, s.requests[rid].phase.digest) !in s.denials
    ensures Leads(sha, s0, t) && OnlyRequest(s, t, rid)
    ensures var r, p := s.requests[rid], s.requests[rid].phase;
            t.requests[rid] == r.(phase := if p.next < |r.chain| then Validating(p.body, p.digest, p.next + 1)
                                           else Storing(p.body, p.digest))
  {
    t := ValidateNext(s, rid, Pass, false);
    LeadsStep(sha, s0, s, Validate(rid, Pass, false), t);
  }

  /** What a request holds of `body` on its way, digest and position included. */
  ghost predicate OnItsWay(sha: Bytes -> string, s: State, rid: nat, body: Bytes) {
    && rid in s.requests
    && var r := s.requests[rid];
    && CanBring(r.phase, body) && Undenied(s, r.phase, r.key, sha(body))
    && (!r.phase.UntrustedFetch? ==> r.phase.digest == sha(body))
    && (r.phase.Validating? ==> r.phase.next <= |r.chain|)
  }

  /** An untrusted request runs from where it is to its store write. */
  lemma BringAndStore(sha: Bytes -> string, s0: State, s: State, rid: nat, body: Bytes) returns (t: State)
    requires Leads(sha, s0, s) && OnItsWay(sha, s, rid, body)
    ensures Leads(sha, s0, t) && t.records == s.records[s.requests[rid].key := sha(body)] && t.denials == s.denials
    ensures t.requests.Keys == s.requests.Keys
    ensures forall q :: q in s.requests && q != rid ==> t.requests[q] == s.requests[q]
  {
    if s.requests[rid].phase.UntrustedFetch? {
      var s1 := Move(s, rid, Validating(body, sha(body), 0));
      LeadsStep(sha, s0, s, Fetched(rid, body), s1);
      t := ValidateAndStore(sha, s0, s1, rid);
    } else if s.requests[rid].phase.Validating? {
      t := ValidateAndStore(sha, s0, s, rid);
    } else {
      t := WriteRecord(sha, s0, s, rid);
    }
  }

  lemma ValidateAndStore(sha: Bytes -> string, s0: State, s: State, rid: nat) returns (t: State)
    requires Leads(sha, s0, s) && rid in s.requests && s.requests[rid].phase.Validating?
    requires s.requests[rid].phase.next <= |s.requests[rid].chain|
    requires DenialOf(s.requests[rid].key, s.requests[rid].phase.digest) !in s.denials
    ensures Leads(sha, s0, t) && t.records == s.records[s.requests[rid].key := s.requests[rid].phase.digest]
    ensures t.denials == s.denials && t.requests.Keys == s.requests.Keys
    ensures forall q :: q in s.requests && q != rid ==> t.requests[q] == s.requests[q]
  {
    var s1 := PassRest(sha, s0, s, rid);
    t := WriteRecord(sha, s0, s1, rid);
  }

  lemma WriteRecord(sha: Bytes -> string, s0: State, s: State, rid: nat) returns (t: State)
    requires Leads(sha, s0, s) && rid in s.requests && s.requests[rid].phase.Storing?
    ensures Leads(sha, s0, t) && t.records == s.records[s.requests[rid].key := s.requests[rid].phase.digest]
    ensures t.denials == s.denials && t.requests.Keys == s.requests.Keys
    ensures forall q :: q in s.requests && q != rid ==> t.requests[q] == s.requests[q]
  {
    t := Apply(sha, s, Put(rid, true)).value;
    LeadsStep(sha, s0, s, Put(rid, true), t);
  }

  // ---------------------------------------------------------------- stickiness

  /** No deny-store outage in the run. */
  ghost predicate NoOutage(steps: seq<Step>) {
    forall i :: 0 <= i < |steps| ==> !Outage(steps[i])
  }

  /** Request `rid` arrived after `s0`, in the scope of `denial`, and its chain has an enabled head. */
  ghost predicate Late(s0: State, rid: nat, r: Request, denial: DenialKey) {
    && rid !in s0.requests && EnabledHead(r.chain)
    && DenialOf(r.key, denial.sha256) == denial
  }

  /** Where a late request may be with the denied digest: nowhere past the head of its chain. */
  ghost predicate Stopped(s0: State, rid: nat, r: Request, denial: DenialKey) {
    Late(s0, rid, r, denial) ==>
      match r.phase
      case Validating(body, digest, next) => digest == denial.sha256 ==> next == 0
      case Storing(body, digest) => digest != denial.sha256
      case Mutating(body, digest) => digest != denial.sha256
      case Recording(body, digest, failed, verdict) => digest == denial.sha256 ==> failed == 0
      case _ => true
  }

  /** An event that does not carry the denied digest. */
  ghost predicate Harmless(sha: Bytes -> string, e: Event, denial: DenialKey) {
    match e
    case Resolved(_, _, _) => true
    case Passed(_, _, _, _, digest) => digest != denial.sha256
    case Stored(_, _, digest) => digest != denial.sha256
    case Served(_, _, body) => sha(body) != denial.sha256
  }

  /** No event of request `rid` carries the denied digest. */
  ghost predicate NoDeniedEvent(sha: Bytes -> string, log: seq<Event>, rid: nat, denial: DenialKey) {
    forall e :: e in log && e.rid == rid ==> Harmless(sha, e, denial)
  }

  ghost predicate Sticky(sha: Bytes -> string, s0: State, s: State, denial: DenialKey) {
    && denial in s.denials
    && (forall rid :: rid in s0.requests ==> rid in s.requests)
    && (forall rid :: rid in s.requests ==> Stopped(s0, rid, s.requests[rid], denial))
    && (forall rid :: rid in s.requests && Late(s0, rid, s.requests[rid], denial) ==>
        NoDeniedEvent(sha, s.log, rid, denial))
    // only requests that exist have events, and an event past Resolve needs a chain
    && (forall e :: e in s.log ==> e.rid in s.requests)
    && (forall rid :: rid in s.requests && s.requests[rid].phase.Arrived? ==>
          s.requests[rid].chain == [] && forall e :: e in s.log ==> e.rid != rid)
  }

  /** A late request's step stays at the head, and its new event is harmless. */
  lemma StickyAdvance(sha: Bytes -> string, s0: State, s: State, rid: nat, step: Step, denial: DenialKey)
    requires rid in s.requests && Advance(sha, s, rid, step).Some? && !step.Resolve?
    requires RequestOk(sha, s.log, rid, s.requests[rid])
    requires denial in s.denials && sha([]) != denial.sha256
    requires Late(s0, rid, s.requests[rid], denial) && Stopped(s0, rid, s.requests[rid], denial)
    requires step.Gate? ==> !step.outage
    requires step.Validate? ==> !step.outage
    ensures var t := Advance(sha, s, rid, step).value;
            && Stopped(s0, rid, t.requests[rid], denial)
            && (t.log == s.log || exists e :: t.log == s.log + [e] && Harmless(sha, e, denial))
  {
    var r := s.requests[rid];
    var t := Advance(sha, s, rid, step).value;
    FindsHead(r.chain);
    if t.log != s.log {
      assert t.log == s.log + [t.log[|s.log|]];
    }
  }

  lemma StickyLate(sha: Bytes -> string, s0: State, s: State, rid: nat, step: Step, denial: DenialKey)
    requires Sticky(sha, s0, s, denial) && sha([]) != denial.sha256
    requires rid in s.requests && Advance(sha, s, rid, step).Some? && RidOf(step) == Some(rid)
    requires RequestOk(sha, s.log, rid, s.requests[rid])
    requires step.Gate? ==> !step.outage
    requires step.Validate? ==> !step.outage
    ensures var t := Advance(sha, s, rid, step).value;
            && Stopped(s0, rid, t.requests[rid], denial)
            && (Late(s0, rid, t.requests[rid], denial) ==> NoDeniedEvent(sha, t.log, rid, denial))
  {
    var r, t := s.requests[rid], Advance(sha, s, rid, step).value;
    if step.Resolve? {
      assert r.phase.Arrived?;
    } else {
      SameChain(sha, s, rid, step);
      if Late(s0, rid, r, denial) {
        StickyAdvance(sha, s0, s, rid, step, denial);
      }
    }
  }

  /** A step on which the deny store is unreachable. */
  predicate Outage(step: Step) {
    (step.Gate? || step.Validate?) && step.outage
  }

  lemma StickyStep(sha: Bytes -> string, s0: State, s: State, step: Step, denial: DenialKey)
    requires Inv(sha, s) && Sticky(sha, s0, s, denial) && sha([]) != denial.sha256
    requires Apply(sha, s, step).Some? && !Outage(step)
    ensures Sticky(sha, s0, Apply(sha, s, step).value, denial)
  {
    if RidOf(step).Some? {
      StickyRequest(sha, s0, s, step.rid, step, denial);
    }
  }

  lemma StickyRequest(sha: Bytes -> string, s0: State, s: State, rid: nat, step: Step, denial: DenialKey)
    requires Inv(sha, s) && Sticky(sha, s0, s, denial) && sha([]) != denial.sha256
    requires rid in s.requests && Advance(sha, s, rid, step).Some? && RidOf(step) == Some(rid) && !Outage(step)
    ensures Sticky(sha, s0, Advance(sha, s, rid, step).value, denial)
  {
    AdvanceFrame(sha, s, rid, step);
    StickyLog(sha, s, rid, step);
    StickyLate(sha, s0, s, rid, step, denial);
    StickyOthers(sha, s0, s, Advance(sha, s, rid, step).value, rid, denial);
  }

  /** What the step of request `rid` leaves alone. */
  lemma StickyOthers(sha: Bytes -> string, s0: State, s: State, t: State, rid: nat, denial: DenialKey)
    requires Sticky(sha, s0, s, denial) && s.requests.Keys == t.requests.Keys
    requires forall q :: q in s.requests && q != rid ==> t.requests[q] == s.requests[q]
    requires forall e :: e in t.log ==> e in s.log || e.rid == rid
    ensures forall q :: q in t.requests && q != rid && Late(s0, q, t.requests[q], denial) ==>
              NoDeniedEvent(sha, t.log, q, denial)
    ensures forall q :: q in t.requests && q != rid ==> Stopped(s0, q, t.requests[q], denial)
    ensures forall q :: q in t.requests && q != rid && t.requests[q].phase.Arrived? ==>
              forall e :: e in t.log ==> e.rid != q
  {
  }

  /** The event of a step belongs to the request that takes it. */
  lemma StickyLog(sha: Bytes -> string, s: State, rid: nat, step: Step)
    requires rid in s.requests && Advance(sha, s, rid, step).Some? && RidOf(step) == Some(rid)
    ensures var t := Advance(sha, s, rid, step).value;
            && (forall e :: e in t.log ==> e in s.log || e.rid == rid)
            && s.denials <= t.denials && !t.requests[rid].phase.Arrived?
  {
  }

  lemma {:induction false} StickyRun(sha: Bytes -> string, s: State, steps: seq<Step>, denial: DenialKey)
    requires Inv(sha, s) && Sticky(sha, s, s, denial) && sha([]) != denial.sha256
    requires Run(sha, s, steps).Some? && NoOutage(steps)
    ensures Sticky(sha, s, Run(sha, s, steps).value, denial)
    decreases |steps|
  {
    if steps != [] {
      var front, last := steps[..|steps| - 1], steps[|steps| - 1];
      assert forall i :: 0 <= i < |front| ==> front[i] == steps[i];
      StickyRun(sha, s, front, denial);
      RunInv(sha, s, front);
      StickyStep(sha, s, Run(sha, s, front).value, last, denial);
    }
  }

  lemma {:induction false} LogOwned(sha: Bytes -> string, s: State, steps: seq<Step>)
    requires Run(sha, s, steps).Some?
    requires s.requests == map[] && s.log == []
    ensures var t := Run(sha, s, steps).value;
            && (forall e :: e in t.log ==> e.rid in t.requests)
            && (forall rid :: rid in t.requests && t.requests[rid].phase.Arrived? ==>
                  t.requests[rid].chain == [] && forall e :: e in t.log ==> e.rid != rid)
    decreases |steps|
  {
    if steps != [] {
      var front, last := steps[..|steps| - 1], steps[|steps| - 1];
      LogOwned(sha, s, front);
      var t := Run(sha, s, front).value;
      if RidOf(last).Some? {
        AdvanceFrame(sha, t, last.rid, last);
        StickyLog(sha, t, last.rid, last);
      }
    }
  }

  /**
   * Deny stickiness. Once a denial stands, a request arriving later in its scope
   * whose chain has an enabled check at its head never gets the denied digest
   * past position 0: no validator passes it, no anchor is written for it, and no
   * 200 carries it - in every continuation without a deny-store outage. (The
   * empty artifact is exempt: the check and the recorder both skip it.)
   */
  lemma DenyStickiness(sha: Bytes -> string, global: Chain, hook: Option<seq<string>>, before: seq<Step>,
                       after: seq<Step>, denial: DenialKey, rid: nat)
    requires Run(sha, Start(global, hook), before).Some?
    requires var s := Run(sha, Start(global, hook), before).value;
             && denial in s.denials && sha([]) != denial.sha256
             && Run(sha, s, after).Some? && NoOutage(after)
             && rid in Run(sha, s, after).value.requests
             && Late(s, rid, Run(sha, s, after).value.requests[rid], denial)
    ensures var s := Run(sha, Start(global, hook), before).value;
            NoDeniedEvent(sha, Run(sha, s, after).value.log, rid, denial)
  {
    var s := Run(sha, Start(global, hook), before).value;
    RunInv(sha, Start(global, hook), before);
    LogOwned(sha, Start(global, hook), before);
    StickyRun(sha, s, after, denial);
  }

  /** What such a request gets instead, on either path: a 403 at position 0. */
  lemma DeniedAtHead(sha: Bytes -> string, s: State, rid: nat, oracle: Verdict)
    requires Inv(sha, s) && rid in s.requests && EnabledHead(s.requests[rid].chain)
    ensures var r := s.requests[rid];
            r.phase.TrustedGate? && r.phase.anchor != sha([]) && DenialOf(r.key, r.phase.anchor) in s.denials ==>
              Apply(sha, s, Gate(rid, false)) == Some(Move(s, rid, Finished(403)))
    ensures var r := s.requests[rid];
            r.phase.Validating? && r.phase.next == 0 && r.phase.digest != sha([])
            && DenialOf(r.key, r.phase.digest) in s.denials ==>
              Apply(sha, s, Validate(rid, oracle, false))
              == Some(Move(s, rid, Recording(r.phase.body, r.phase.digest, 0, Reject)))
  {
    var r := s.requests[rid];
    assert RequestOk(sha, s.log, rid, r);
    FindsHead(r.chain);
  }

  /**
   * The re-check of the trusted path, exactly: 403 if and only if the first
   * deny-list-check of the chain is enabled and the reachable deny list holds the
   * anchor in this scope; otherwise the request goes on to PostFetch. A disabled
   * check, a deny-store outage and an empty artifact never stop it.
   */
  lemma GateExactly(sha: Bytes -> string, s: State, rid: nat, outage: bool)
    requires rid in s.requests && s.requests[rid].phase.TrustedGate?
    ensures var r, t := s.requests[rid], Apply(sha, s, Gate(rid, outage));
            && t.Some?
            && t.value == s.(requests := t.value.requests) && t.value.requests == s.requests[rid := r.(phase :=
                 if EnabledFirst(r.chain) && Listed(s.denials, r.key, r.phase.anchor, r.phase.body, outage)
                 then Finished(403) else Mutating(r.phase.body, r.phase.anchor))]
  {
    var r := s.requests[rid];
    GateDeniesIff(r.chain, r.key, s.denials, r.phase.anchor, r.phase.body, outage);
  }

  lemma GateDeniesIff(chain: Chain, k: ArtifactKey, denials: set<DenialKey>, anchor: string, body: Bytes, outage: bool)
    ensures GateDenies(chain, k, denials, anchor, body, outage) <==>
            EnabledFirst(chain) && Listed(denials, k, anchor, body, outage)
  {
    var i := Find(chain, CHECK);
    assert forall v: Validator :: v.Name() == CHECK <==> NamedCheck(v);
    if i.Some? {
      VerdictExactly(chain[i.value], denials, k, anchor, body, Pass, outage);
      assert chain[i.value] == DenyListCheck(true) ==> EnabledFirst(chain);
      if j :| 0 <= j < |chain| && chain[j] == DenyListCheck(true) && forall m :: 0 <= m < j ==> !NamedCheck(chain[m]) {
        assert NamedCheck(chain[j]) && NamedCheck(chain[i.value]);
      }
    }
  }

  /**
   * One validator, exactly: the enabled check stops a listed artifact, a scanner
   * what it does not pass, and nothing else.
   */
  lemma ValidateExactly(sha: Bytes -> string, s: State, rid: nat, oracle: Verdict, outage: bool)
    requires rid in s.requests && s.requests[rid].phase.Validating?
    ensures var r, t := s.requests[rid], Apply(sha, s, Validate(rid, oracle, outage));
            var Validating(body, digest, next) := r.phase;
            && t.Some? && t.value.requests.Keys == s.requests.Keys
            && t.value.requests[rid].phase ==
               if next >= |r.chain| then Storing(body, digest)
               else if r.chain[next].Scanner? && oracle != Pass then Recording(body, digest, next, oracle)
               else if r.chain[next] == DenyListCheck(true) && Listed(s.denials, r.key, digest, body, outage)
               then Recording(body, digest, next, Reject)
               else Validating(body, digest, next + 1)
  {
    var r := s.requests[rid];
    if r.phase.next < |r.chain| {
      VerdictExactly(r.chain[r.phase.next], s.denials, r.key, r.phase.digest, r.phase.body, oracle, outage);
    }
  }

  /**
   * The hook, exactly: a denial of this artifact in this scope is added if and
   * only if recording is enabled, the write works, the artifact is not empty, and
   * the failure is a rejection by a middleware the allowlist names. An outage of
   * a scanner never makes one. The answer is 403 whatever the hook does.
   */
  lemma RecordingDenies(sha: Bytes -> string, s: State, rid: nat, ok: bool)
    requires rid in s.requests && s.requests[rid].phase.Recording?
    requires s.requests[rid].phase.failed < |s.requests[rid].chain|
    ensures var r, t := s.requests[rid], Apply(sha, s, Record(rid, ok));
            var p := r.phase;
            && t.Some? && t.value.requests == s.requests[rid := r.(phase := Finished(403))]
            && t.value.records == s.records && t.value.log == s.log
            && t.value.denials ==
               if ok && s.hook.Some? && p.body != [] && Recordable(s.hook.value, r.chain[p.failed], p.verdict)
               then s.denials + {DenialKey(r.key.registry, r.key.name, r.key.version, p.digest, r.key.project)}
               else s.denials
    ensures s.requests[rid].phase.verdict == Unavailable ==>
              Apply(sha, s, Record(rid, ok)).value.denials == s.denials
  {
    var r := s.requests[rid];
    if s.hook.Some? {
      RecordsExactly(s.hook.value, r.chain[r.phase.failed], r.phase.verdict, r.phase.body);
    }
  }
}
