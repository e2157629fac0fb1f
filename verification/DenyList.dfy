/**
 * internal/denylist: the deny list, the check at the head of every validation
 * chain, and the OnFailure hook that turns failures into denials.
 */
module DenyList {
  import opened Basics

  // denylist.Name
  const CHECK := "deny-list-check"

  // denylist.DefaultRecordedMiddlewares
  const DEFAULT_RECORDED: seq<string> := ["guarddog-scan", "malware-scan", "cve-check"]

  /** Identifies one artifact within one project scope ("" is the projectless scope). */
  datatype ArtifactKey = ArtifactKey(project: string, registry: string, name: string, version: string, artifact: string)

  /** Primary key of denied_packages. */
  datatype DenialKey = DenialKey(registry: string, name: string, version: string, sha256: string, project: string)

  function DenialOf(k: ArtifactKey, digest: string): DenialKey {
    DenialKey(k.registry, k.name, k.version, digest, k.project)
  }

  /** A validation middleware: the deny-list check, or a scanner known by its type name. */
  datatype Validator = DenyListCheck(enabled: bool) | Scanner(typeName: string)
  {
    function Name(): string {
      match this
      case DenyListCheck(_) => CHECK
      case Scanner(n) => n
    }
  }

  type Chain = seq<Validator>

  // Unavailable: guarddog.ErrScannerUnavailable or cve.ErrSourceUnavailable, a fail_closed outage.
  datatype Verdict = Pass | Reject | Unavailable

  /** ValidationPipeline.Find: the position of the first middleware with the name. */
  function Find(chain: Chain, name: string): (i: Option<nat>)
    ensures i.Some? ==> i.value < |chain| && chain[i.value].Name() == name
    ensures i.Some? ==> forall j :: 0 <= j < i.value ==> chain[j].Name() != name
    ensures i.None? ==> forall j :: 0 <= j < |chain| ==> chain[j].Name() != name
  {
    if chain == [] then None
    else if chain[0].Name() == name then Some(0)
    else
      match Find(chain[1..], name)
      case None => None
      case Some(i) => Some(i + 1)
  }

  /**
   * checkMiddleware.Validate: denies exactly a recorded artifact of exactly this
   * scope; disabled, on an empty artifact, or on a store outage it fails open.
   */
  predicate Denies(enabled: bool, denials: set<DenialKey>, k: ArtifactKey, digest: string, body: Bytes, outage: bool) {
    enabled && body != [] && !outage && DenialOf(k, digest) in denials
  }

  /** Which failures the Recorder hook persists: allowlisted verdicts on a real artifact, never an outage. */
  predicate Records(allowlist: seq<string>, middleware: string, verdict: Verdict, body: Bytes) {
    && body != []
    && middleware in (if allowlist == [] then DEFAULT_RECORDED else allowlist)
    && verdict.Reject?
  }

  /** The verdict of the validator `v` on the artifact; `oracle` is what a scanner answers. */
  function VerdictOf(v: Validator, denials: set<DenialKey>, k: ArtifactKey, digest: string, body: Bytes,
                     oracle: Verdict, outage: bool): Verdict
  {
    match v
    case DenyListCheck(enabled) => if Denies(enabled, denials, k, digest, body, outage) then Reject else Pass
    case Scanner(_) => oracle
  }

  // ------------------------------------------------- the same things from outside

  /** A middleware that answers to the name of the deny-list check. */
  predicate NamedCheck(v: Validator) {
    v.DenyListCheck? || v == Scanner("deny-list-check")
  }

  /** The first middleware of that name is the check itself, enabled. */
  ghost predicate EnabledFirst(chain: Chain) {
    exists i :: 0 <= i < |chain| && chain[i] == DenyListCheck(true) && forall j :: 0 <= j < i ==> !NamedCheck(chain[j])
  }

  /** The reachable deny list holds this artifact, which is not empty, in exactly this scope. */
  predicate Listed(denials: set<DenialKey>, k: ArtifactKey, digest: string, body: Bytes, outage: bool) {
    !outage && body != [] && DenialKey(k.registry, k.name, k.version, digest, k.project) in denials
  }

  /**
   * The validator's failure is a verdict on the artifact of a kind the allowlist
   * names; empty, it names three scanners.
   */
  predicate Recordable(allowlist: seq<string>, v: Validator, verdict: Verdict) {
    && verdict == Reject
    && var name := if v.DenyListCheck? then "deny-list-check" else v.typeName;
       if allowlist == [] then name == "guarddog-scan" || name == "malware-scan" || name == "cve-check"
       else name in allowlist
  }

  /** Validate denies exactly an enabled check's listed artifact, and otherwise leaves the scanner its say. */
  lemma VerdictExactly(v: Validator, denials: set<DenialKey>, k: ArtifactKey, digest: string, body: Bytes,
                       oracle: Verdict, outage: bool)
    ensures VerdictOf(v, denials, k, digest, body, oracle, outage) ==
            if v.Scanner? then oracle
            else if v == DenyListCheck(true) && Listed(denials, k, digest, body, outage) then Reject else Pass
  {
  }

  /** The recorder's guards, all of them. */
  lemma RecordsExactly(allowlist: seq<string>, v: Validator, verdict: Verdict, body: Bytes)
    ensures Records(allowlist, v.Name(), verdict, body) <==> body != [] && Recordable(allowlist, v, verdict)
  {
    assert forall n :: n in DEFAULT_RECORDED <==> n == "guarddog-scan" || n == "malware-scan" || n == "cve-check";
  }

  predicate EnabledHead(chain: Chain) {
    chain != [] && chain[0] == DenyListCheck(true)
  }

  /** With an enabled check at the head, the trusted path's Find lands on it. */
  lemma FindsHead(chain: Chain)
    requires EnabledHead(chain)
    ensures Find(chain, CHECK) == Some(0)
  {
  }
}
