/**
 * Strict project scope (internal/denylist/check.go:38-78) over whole runs: what
 * happens in one scope - its requests, its denials, its anchors - is invisible
 * to every request outside it.
 */
module TrustScope {
  import opened Basics
  import opened DenyList
  import opened TrustProtocol

  /** A registry, package, version and project: what a denial is confined to. */
  datatype Scope = Scope(registry: string, name: string, version: string, project: string)

  function ScopeOf(k: ArtifactKey): Scope {
    Scope(k.registry, k.name, k.version, k.project)
  }

  function ScopeOfDenial(d: DenialKey): Scope {
    Scope(d.registry, d.name, d.version, d.project)
  }

  /** The anchor of an artifact, if it has one. */
  function AnchorOf(s: State, k: ArtifactKey): Option<string> {
    if k in s.records then Some(s.records[k]) else None
  }

  /** Outside the scope the two states are the same: configuration, requests, anchors and denials. */
  ghost predicate Agree(s: State, t: State, sc: Scope) {
    && t.global == s.global && t.hook == s.hook && t.configured == s.configured
    && (forall k :: ScopeOf(k) != sc ==> AnchorOf(t, k) == AnchorOf(s, k))
    && (forall d :: ScopeOfDenial(d) != sc ==> (d in t.denials <==> d in s.denials))
    && (forall rid :: rid in t.requests ==> rid in s.requests && t.requests[rid].key == s.requests[rid].key)
    && (forall rid :: rid in s.requests && ScopeOf(s.requests[rid].key) != sc ==>
          rid in t.requests && t.requests[rid] == s.requests[rid])
  }

  /** The step has nothing to do with the scope; `end` knows the key of every request. */
  predicate Keeps(end: State, step: Step, sc: Scope) {
    match step
    case Configure(_, _) => true
    case Deny(d) => ScopeOfDenial(d) != sc
    case Arrive(_, key) => ScopeOf(key) != sc
    case _ => step.rid in end.requests && ScopeOf(end.requests[step.rid].key) != sc
  }

  /** The run with everything of the scope erased. */
  function Kept(end: State, steps: seq<Step>, sc: Scope): seq<Step> {
    if steps == [] then []
    else
      Kept(end, steps[..|steps| - 1], sc)
      + if Keeps(end, steps[|steps| - 1], sc) then [steps[|steps| - 1]] else []
  }

  /** The later state still has the earlier one's requests, under their keys. */
  ghost predicate Extends(s: State, end: State) {
    forall rid :: rid in s.requests ==> rid in end.requests && end.requests[rid].key == s.requests[rid].key
  }

  // ---------------------------------------------------------------------- one step

  /** The two states differ in request `rid`, in its anchor and in denials of its scope, at most. */
  ghost predicate Local(s: State, t: State, rid: nat)
    requires rid in s.requests
  {
    && t.global == s.global && t.hook == s.hook && t.configured == s.configured
    && t.requests.Keys == s.requests.Keys && t.requests[rid].key == s.requests[rid].key
    && (forall q :: q in s.requests && q != rid ==> t.requests[q] == s.requests[q])
    && (forall k :: k != s.requests[rid].key ==> AnchorOf(t, k) == AnchorOf(s, k))
    && (forall d :: ScopeOfDenial(d) != ScopeOf(s.requests[rid].key) ==> (d in t.denials <==> d in s.denials))
  }

  lemma AdvanceDenials(sha: Bytes -> string, s: State, rid: nat, step: Step)
    requires rid in s.requests && Advance(sha, s, rid, step).Some?
    ensures var r, t := s.requests[rid], Advance(sha, s, rid, step).value;
            && t.hook == s.hook
            && forall d :: ScopeOfDenial(d) != ScopeOf(r.key) ==> (d in t.denials <==> d in s.denials)
  {
  }

  lemma AdvanceLocal(sha: Bytes -> string, s: State, rid: nat, step: Step)
    requires rid in s.requests && Advance(sha, s, rid, step).Some?
    ensures Local(s, Advance(sha, s, rid, step).value, rid)
  {
    AdvanceFrame(sha, s, rid, step);
    SameChain(sha, s, rid, step);
    AdvanceDenials(sha, s, rid, step);
  }

  /** A step of a request of the scope changes nothing outside it. */
  lemma AgreeInside(s: State, t: State, s': State, rid: nat, sc: Scope)
    requires Agree(s, t, sc) && rid in s.requests && Local(s, s', rid) && ScopeOf(s.requests[rid].key) == sc
    ensures Agree(s', t, sc)
  {
  }

  /** What the step of a request reads: two states that agree on it give it the same step. */
  ghost predicate SameView(s: State, t: State, rid: nat)
    requires rid in s.requests
  {
    && rid in t.requests && t.requests[rid] == s.requests[rid]
    && t.global == s.global && t.hook == s.hook && t.configured == s.configured
    && AnchorOf(t, s.requests[rid].key) == AnchorOf(s, s.requests[rid].key)
    && forall digest :: DenialOf(s.requests[rid].key, digest) in t.denials <==>
      DenialOf(s.requests[rid].key, digest) in s.denials
  }

  /** `t'` follows from `t` as `s'` does from `s`, for the request. */
  ghost predicate SameEffect(s: State, t: State, rid: nat, key: ArtifactKey) {
    && rid in s.requests && rid in t.requests && t.requests[rid] == s.requests[rid]
    && t.global == s.global && t.hook == s.hook && t.configured == s.configured
    && AnchorOf(t, key) == AnchorOf(s, key)
    && forall digest :: DenialOf(key, digest) in t.denials <==> DenialOf(key, digest) in s.denials
  }

  /** The steps that read or write denials, the ones that write the store or the log, and the rest. */
  lemma ViewedValidation(sha: Bytes -> string, s: State, t: State, rid: nat, step: Step)
    requires rid in s.requests && SameView(s, t, rid) && Advance(sha, s, rid, step).Some?
    requires step.Validate?
    ensures Advance(sha, t, rid, step).Some?
    ensures SameEffect(Advance(sha, s, rid, step).value, Advance(sha, t, rid, step).value, rid, s.requests[rid].key)
  {
  }

  lemma ViewedDenials(sha: Bytes -> string, s: State, t: State, rid: nat, step: Step)
    requires rid in s.requests && SameView(s, t, rid) && Advance(sha, s, rid, step).Some?
    requires step.Record? || step.Gate?
    ensures Advance(sha, t, rid, step).Some?
    ensures SameEffect(Advance(sha, s, rid, step).value, Advance(sha, t, rid, step).value, rid, s.requests[rid].key)
  {
  }

  lemma ViewedWrites(sha: Bytes -> string, s: State, t: State, rid: nat, step: Step)
    requires rid in s.requests && SameView(s, t, rid) && Advance(sha, s, rid, step).Some?
    requires step.Resolve? || step.Put? || step.PostFetch?
    ensures Advance(sha, t, rid, step).Some?
    ensures SameEffect(Advance(sha, s, rid, step).value, Advance(sha, t, rid, step).value, rid, s.requests[rid].key)
  {
  }

  lemma ViewedLookup(sha: Bytes -> string, s: State, t: State, rid: nat, step: Step)
    requires rid in s.requests && SameView(s, t, rid) && Advance(sha, s, rid, step).Some?
    requires step.Lookup? || step.Verify?
    ensures Advance(sha, t, rid, step).Some?
    ensures SameEffect(Advance(sha, s, rid, step).value, Advance(sha, t, rid, step).value, rid, s.requests[rid].key)
  {
  }

  lemma ViewedFetch(sha: Bytes -> string, s: State, t: State, rid: nat, step: Step)
    requires rid in s.requests && SameView(s, t, rid) && Advance(sha, s, rid, step).Some?
    requires step.Abort? || step.Fetched? || step.FetchFailed?
    ensures Advance(sha, t, rid, step).Some?
    ensures SameEffect(Advance(sha, s, rid, step).value, Advance(sha, t, rid, step).value, rid, s.requests[rid].key)
  {
  }

  lemma Viewed(sha: Bytes -> string, s: State, t: State, rid: nat, step: Step)
    requires rid in s.requests && SameView(s, t, rid) && Advance(sha, s, rid, step).Some? && RidOf(step) == Some(rid)
    ensures Advance(sha, t, rid, step).Some?
    ensures SameEffect(Advance(sha, s, rid, step).value, Advance(sha, t, rid, step).value, rid, s.requests[rid].key)
  {
    if step.Validate? {
      ViewedValidation(sha, s, t, rid, step);
    } else if step.Record? || step.Gate? {
      ViewedDenials(sha, s, t, rid, step);
    } else if step.Lookup? || step.Verify? {
      ViewedLookup(sha, s, t, rid, step);
    } else if step.Resolve? || step.Put? || step.PostFetch? {
      ViewedWrites(sha, s, t, rid, step);
    } else {
      ViewedFetch(sha, s, t, rid, step);
    }
  }

  /** What neither step touched stays in agreement. */
  lemma AgreeAfter(s: State, t: State, s': State, t': State, rid: nat, sc: Scope)
    requires Agree(s, t, sc) && rid in s.requests && rid in t.requests && ScopeOf(s.requests[rid].key) != sc
    requires Local(s, s', rid) && Local(t, t', rid) && SameEffect(s', t', rid, s.requests[rid].key)
    ensures Agree(s', t', sc)
  {
    var key := s.requests[rid].key;
    forall d | ScopeOfDenial(d) != sc
      ensures d in t'.denials <==> d in s'.denials
    {
      if ScopeOfDenial(d) == ScopeOf(key) {
        assert d == DenialOf(key, d.sha256);
      }
    }
  }

  /** Agreement outside the scope is all that a request outside it sees. */
  lemma AgreeIsView(s: State, t: State, rid: nat, sc: Scope)
    requires Agree(s, t, sc) && rid in s.requests && ScopeOf(s.requests[rid].key) != sc
    ensures SameView(s, t, rid)
  {
    var key := s.requests[rid].key;
    forall digest
      ensures DenialOf(key, digest) in t.denials <==> DenialOf(key, digest) in s.denials
    {
      assert ScopeOfDenial(DenialOf(key, digest)) == ScopeOf(key);
    }
  }

  /** One step of a request: taken by both, or erased. */
  lemma ErasedRequest(sha: Bytes -> string, s: State, t: State, rid: nat, step: Step, sc: Scope)
    requires Agree(s, t, sc) && rid in s.requests && Advance(sha, s, rid, step).Some? && RidOf(step) == Some(rid)
    ensures ScopeOf(s.requests[rid].key) == sc ==> Agree(Advance(sha, s, rid, step).value, t, sc)
    ensures ScopeOf(s.requests[rid].key) != sc ==>
              rid in t.requests && Advance(sha, t, rid, step).Some?
              && Agree(Advance(sha, s, rid, step).value, Advance(sha, t, rid, step).value, sc)
  {
    AdvanceLocal(sha, s, rid, step);
    if ScopeOf(s.requests[rid].key) == sc {
      AgreeInside(s, t, Advance(sha, s, rid, step).value, rid, sc);
    } else {
      AgreeIsView(s, t, rid, sc);
      Viewed(sha, s, t, rid, step);
      AdvanceLocal(sha, t, rid, step);
      AgreeAfter(s, t, Advance(sha, s, rid, step).value, Advance(sha, t, rid, step).value, rid, sc);
    }
  }

  /** One step of the environment, likewise. */
  lemma ErasedOther(sha: Bytes -> string, s: State, t: State, step: Step, end: State, sc: Scope)
    requires Agree(s, t, sc) && Apply(sha, s, step).Some? && RidOf(step).None?
    ensures Keeps(end, step, sc) ==>
              Apply(sha, t, step).Some? && Agree(Apply(sha, s, step).value, Apply(sha, t, step).value, sc)
    ensures !Keeps(end, step, sc) ==> Agree(Apply(sha, s, step).value, t, sc)
  {
  }

  lemma ErasedStep(sha: Bytes -> string, s: State, t: State, step: Step, end: State, sc: Scope)
    requires Agree(s, t, sc) && Apply(sha, s, step).Some? && Extends(s, end)
    ensures Keeps(end, step, sc) ==>
              Apply(sha, t, step).Some? && Agree(Apply(sha, s, step).value, Apply(sha, t, step).value, sc)
    ensures !Keeps(end, step, sc) ==> Agree(Apply(sha, s, step).value, t, sc)
  {
    if RidOf(step).Some? {
      ErasedRequest(sha, s, t, step.rid, step, sc);
      KeepsRequest(s, step, end, sc);
    } else {
      ErasedOther(sha, s, t, step, end, sc);
    }
  }

  lemma KeepsRequest(s: State, step: Step, end: State, sc: Scope)
    requires Extends(s, end) && RidOf(step).Some? && step.rid in s.requests
    ensures Keeps(end, step, sc) <==> ScopeOf(s.requests[step.rid].key) != sc
  {
  }

  // -------------------------------------------------------------------- whole runs

  /**
   * Non-interference: erase from a run everything of one scope - its requests
   * and its denials - and start it in any state that agrees outside the scope.
   * The rest still runs, and outside the scope it ends in the same state: the
   * same phases, the same responses, the same anchors, the same denials.
   */
  lemma {:induction false} ScopeIsolated(sha: Bytes -> string, s: State, steps: seq<Step>, t: State, end: State,
                                         sc: Scope)
    requires Run(sha, s, steps).Some? && Agree(s, t, sc) && Extends(Run(sha, s, steps).value, end)
    ensures Run(sha, t, Kept(end, steps, sc)).Some?
    ensures Agree(Run(sha, s, steps).value, Run(sha, t, Kept(end, steps, sc)).value, sc)
    decreases |steps|
  {
    if steps != [] {
      var front, last := steps[..|steps| - 1], steps[|steps| - 1];
      var m := Run(sha, s, front).value;
      ExtendsBack(sha, m, last, end);
      ScopeIsolated(sha, s, front, t, end, sc);
      var u, kept := Run(sha, t, Kept(end, front, sc)).value, Kept(end, front, sc);
      ErasedStep(sha, m, u, last, end, sc);
      if Keeps(end, last, sc) {
        assert (kept + [last])[..|kept|] == kept;
      } else {
        assert Kept(end, steps, sc) == kept;
      }
    }
  }

  lemma ExtendsBack(sha: Bytes -> string, s: State, step: Step, end: State)
    requires Apply(sha, s, step).Some? && Extends(Apply(sha, s, step).value, end)
    ensures Extends(s, end)
  {
    if RidOf(step).Some? {
      AdvanceFrame(sha, s, step.rid, step);
      SameChain(sha, s, step.rid, step);
    }
  }

  /**
   * So a denial is invisible outside its scope: for any run of a state in which
   * it stands there is one without it, in which every request outside the scope
   * is in the same phase, with the same response.
   */
  lemma DenialInvisible(sha: Bytes -> string, s: State, denial: DenialKey, steps: seq<Step>)
    requires Run(sha, s.(denials := s.denials + {denial}), steps).Some?
    ensures var t := Run(sha, s.(denials := s.denials + {denial}), steps).value;
            var without := Kept(t, steps, ScopeOfDenial(denial));
            && Run(sha, s, without).Some?
            && (forall rid :: rid in t.requests && ScopeOf(t.requests[rid].key) != ScopeOfDenial(denial) ==>
                  rid in Run(sha, s, without).value.requests
                    && Run(sha, s, without).value.requests[rid] == t.requests[rid])
            && (forall k :: ScopeOf(k) != ScopeOfDenial(denial) ==>
                AnchorOf(Run(sha, s, without).value, k) == AnchorOf(t, k))
  {
    var s1 := s.(denials := s.denials + {denial});
    ScopeIsolated(sha, s1, steps, s, Run(sha, s1, steps).value, ScopeOfDenial(denial));
  }
}
