# DependaProxy, modelled and proved

DependaProxy is a validating package proxy. It fetches a package version once,
runs it through a chain of validators, records the sha256 of the bytes that
passed, and from then on serves only bytes with that digest. This project models
its logic in Dafny and proves what that logic keeps.

`dafny verify dfyconfig.toml` checks everything.

| files | what they model |
|---|---|
| TrustProtocol, TrustResults, TrustScope | the trust flow as a state machine over interleaved requests, tampered caches and a drifting upstream: safety of whole runs, write-once anchors, deny stickiness and non-interference between scopes |
| NpmAdapter, DenyList | the npm handlers in their own form, one request at a time, as runs of that machine; the deny list, its check and its recorder |
| NpmAnswers | what a client gets, case by case, in terms of the chain, the deny list, the scanners and the retrieved bytes alone |
| Retrieval, CacheSlots, SelfHealing | the pipeline builders, the decorator chain of caches, CVE checks and the upstream, what a run leaves in each cache, and what verify-or-evict heals |
| SingleFlight | the per-key mutex of a cache layer, as a state machine and as the lock table and layer that run it |
| CveSeverity, Cvss, CvssVectors, CveCache, CveRecheck, CveRaces | severity bands and CVSS rounding, counts against lists, the bounded TTL cache, the re-check of every serve, and how stale its answers can be |
| TrackerProtocol, TrackerObject, DependencyStore | the asynchronous dependency tracker as a state machine and as an object, and the chunked, merged upsert below it |
| ProjectResolver, ResolverRaces | the memoized project resolver under the admin API, sequentially and under races |
| ProjectPath, TarballPath, CacheKey, PypiNames, Strings | project-scoped paths, tarball paths, cache keys, wheel and sdist names, PEP 503 names |
| Urls, NpmUrls, PypiUrls | the URLs of a rewritten packument and of a rewritten index, as a client follows them and the server reads them |

How the models are built:

- sha256, scanner verdicts, PostFetch, JSON-to-YAML conversion and number parsing
  are arbitrary functions. Clocks, outages, failing writes and upstream answers
  are arguments or steps. Bytes are `seq<bv8>`; times are integers; CVSS scores
  are exact reals.
- Concurrent code is a state machine whose steps are single accesses to shared
  state, so a run is any interleaving. The tracker, the npm adapter and the cache
  layer are also classes with the source's fields; their `Valid()` says that the
  object's state is reached by a run of the machine, so every result about runs is
  one about the code.
- A store is a map with a failure outcome; one write of it is atomic.

Where the code and what is written around it differ, the model follows the code:

- The comment on the persisted severity counts (cvecheckcache/store.go:8-11) says
  a changed min_severity is honoured without a new query. That holds for a
  stricter threshold; after loosening, a row can serve what a live query would
  deny. `CveSeverity.ThresholdHonouredIff` gives the exact condition.
- Evict reaches one cache only. A bad entry in a second cache below the first is
  never healed: every later request is a 502 (`SelfHealing.DeepMismatchIsPermanent`).
- An anchor can be overwritten, exactly through two requests for one artifact that
  overlap on the untrusted path (`TrustResults.ChangeNeedsOverlap`,
  `TrustResults.OverlapOverwrites`).
- The key of the CVE answers joins ecosystem, name and version with a bar, so a
  package with a bar in one of them can be decided by the advisories of another
  (`CveRaces.ExactPackageIff`).
- A project write that lands between the read and the insert of a Resolve leaves
  the old pipelines cached (`ResolverRaces.StaleReinsert`).
- The rewritten index escapes the filename but not the version taken from it, so a
  filename such as a-1/2.zip gets a URL that does not lead back to it
  (`PypiUrls.UnroutableFilename`).
- The rewritten packument escapes neither package nor version, and the server looks
  for a project first: a package p/x, or a version with a question mark, gets a
  URL that does not lead back to it (`NpmUrls.RewrittenLeadsBackIff`). No
  rewritten URL carries the project it was asked under, as the repository's own
  README.md:429-433 says.
- The prepended deny-list check is recognised by name, so an override that brings
  its own disabled check keeps it disabled (`ProjectResolver.EnabledHeadIff`).
- The deny-list check and the recorder skip an empty artifact, so the deny results
  are about digests other than that of the empty byte string.
- A version that the packument does not list is a 502, not a 404.
- BuildRetrieval builds from the tail, so its error names the last bad entry.

## Model

| member | source | states |
|---|---|---|
| TrustProtocol.TrustSafety | internal/registry/npm/routes.go:88-243 | In every interleaving of requests, configuration changes, denials, cache tampering and upstream drift: every stored anchor is a digest that passed every validator, by name and position, of the chain its request resolved for that same project; every 200 gave PostFetch bytes with such a digest for its own key; and a request resolves one chain only |
| TrustProtocol.StepInv | internal/registry/npm/routes.go:88-243 | Every single step of every request or of the environment keeps that invariant |
| TrustProtocol.AdvanceFrame | internal/registry/npm/routes.go:88-243 | A step of one request leaves the others, the global chain and the configuration alone, and changes the trust store only as a successful store write of its own key |
| TrustResults.WriteOnce | internal/registry/npm/routes.go:153-194 | An anchor present at any point of a run keeps its value to the end unless two requests for that artifact overlap on the untrusted path; requests on the trusted path may overlap as they like |
| TrustResults.ChangeNeedsOverlap | internal/registry/npm/routes.go:153-194 | From an empty store an anchor that changes between two points of a run has two requests that overlap on the untrusted path |
| TrustResults.OverlapOverwrites | internal/registry/npm/routes.go:153-194 | And overlap is enough: from any state of a run with two requests anywhere between their lookup and their store write for the artifact, and any bodies they can still bring and no denial stops, some continuation stores the digest of the first and then replaces it with that of the second |
| TrustResults.ExclusiveStep | internal/registry/npm/routes.go:153-194 | The step behind it: without overlap nobody is on the untrusted path for a key that has an anchor, and no step changes the anchor |
| TrustResults.OverlappingRequestsBothStore | internal/registry/npm/routes.go:153-194 | Such a state is reached from an empty store, whatever the global chain |
| TrustResults.DenyStickiness | internal/denylist/check.go:45-78 | Once a denial stands, in every continuation without a deny-store outage a request that arrives later in its scope with an enabled check at its head gets the denied digest past no validator, into no anchor and into no 200 |
| TrustResults.DeniedAtHead | internal/registry/npm/routes.go:133-141 | What it gets instead: 403 from the re-check on the trusted path, a failure at position 0 on the untrusted path |
| TrustResults.RecordingDenies | internal/denylist/record.go:33-82 | The hook adds the denial of this artifact in this scope exactly when recording is enabled, its write works, the artifact is not empty, and the failure is a rejection by a middleware the allowlist names (empty, the three default scanners); an outage never adds one, and the answer is 403 with the trust store untouched |
| TrustResults.GateExactly | internal/registry/npm/routes.go:133-143 | From any point before the re-check: 403 exactly when the first deny-list-check of the chain is enabled and the reachable deny list holds the anchor of a non-empty artifact in this scope; otherwise the request goes on to PostFetch |
| TrustResults.ValidateExactly | internal/pipeline/pipeline.go:139-150 | One validator, exactly: an enabled check stops a listed artifact, a scanner what it does not pass, and nothing else |
| TrustScope.ScopeIsolated | internal/denylist/check.go:60-78 | Non-interference: erase from any run all requests and denials of one registry, name, version and project; the rest still runs and outside that scope ends with the same phases, responses, anchors and denials |
| TrustScope.DenialInvisible | internal/denylist/check.go:60-78 | So for any run under a denial there is one without it in which every request outside its scope has the same phase and response |
| DenyList.Find | internal/pipeline/pipeline.go:129-136 | The first middleware of the chain with the name, or none |
| DenyList.FindsHead | internal/registry/npm/routes.go:133-141 | With an enabled check at the head, the trusted path re-checks that very middleware |
| NpmAdapter.StatusOf | internal/registry/npm/routes.go:255-266 | 404 exactly for "package not found", 403 exactly for a policy rejection, 502 for everything else |
| NpmAdapter.FirstFailure | internal/pipeline/pipeline.go:139-150 | The position of the first validator that does not pass; everything before it passed |
| NpmAdapter.ServedMatchesAnchor | internal/registry/npm/routes.go:88-243 | A 200 is the output of PostFetch on bytes whose digest is the anchor the key has afterwards |
| NpmAdapter.AnchorsWriteOnce | internal/registry/npm/routes.go:153-194 | No request changes an existing anchor or another key; a new one appears exactly when the whole chain passed and the write succeeded, before PostFetch, so a PostFetch failure answers 500 and leaves the record |
| NpmAdapter.StoresOnlyGrow | internal/registry/npm/routes.go:88-194 | Over any history of requests anchors keep their values and denials stay |
| NpmAdapter.SameDigestForever | internal/registry/npm/routes.go:88-194 | Any two requests for one key in any history that both answer 200, whatever their worlds and what came between, were given bytes with one digest |
| NpmAdapter.RejectedOnceRejectedAlways | internal/denylist/record.go:33-82 | After a recorded rejection, at any later point of any history, a request of the scope under an enabled check: without an anchor it is a 403 at position 0 for that digest, with no store write and no new denial, whatever its scanners would say; with that digest as its anchor it is no 200 |
| NpmAnswers.TrustedAnswer | internal/registry/npm/routes.go:117-151 | The answer for a key with an anchor, exactly: bytes with its digest, at once or after one eviction, are a 403 if and only if the first deny-list-check of the chain is enabled and the reachable deny list holds the anchor in this scope, and are otherwise served, 500 if PostFetch fails; other bytes are a 502, a failed run its own status; nothing is stored |
| NpmAnswers.AcceptedAnswer | internal/registry/npm/routes.go:153-194 | For a key without an anchor, when no validator stops the artifact: its digest becomes the anchor and the output of PostFetch is served, or 500 and no anchor if the write fails |
| NpmAnswers.StoppedAnswer | internal/denylist/record.go:33-82 | When validator i is the first to stop it: 403 and no anchor; the deny list gains this artifact exactly for a recordable rejection with recording on, its write working and the artifact not empty, and never for an unavailable scanner |
| NpmAnswers.StoppedOrNot | internal/registry/npm/routes.go:153-194 | Every artifact is in one of those two cases |
| NpmAnswers.CheckedAnswer | internal/registry/npm/routes.go:255-266 | When a CVE check above the first resolver does not serve, both paths answer as the innermost of them says: 403 for a denial, 502 under fail_closed; nothing is stored |
| NpmAnswers.UpstreamAnswer | internal/registry/npm/routes.go:255-266 | When nothing above the upstream resolves, its failure is the answer on both paths: 404 for a packument or tarball that is not found, 502 for an unlisted version or any other failure; nothing is stored |
| NpmAdapter.Adapter.constructor | internal/registry/npm/routes.go:22-31 | A new adapter has empty stores and a life that is a run of the protocol |
| NpmAdapter.Adapter.HandleTarball | internal/registry/npm/routes.go:88-115 | The code in its own form extends a run of the protocol and computes exactly the response and the stores of the specification the lemmas above are about |
| NpmAdapter.Adapter.ServeTrusted | internal/registry/npm/routes.go:117-151 | The trusted path: verified bytes, the deny re-check on the anchor, PostFetch |
| NpmAdapter.Adapter.ServeUntrusted | internal/registry/npm/routes.go:153-194 | The untrusted path: validation, the hook, the record, PostFetch |
| NpmAdapter.Adapter.StoreRecord | internal/registry/npm/routes.go:181-193 | The record is written before PostFetch runs; a failed write is a 500 with no record |
| NpmAdapter.Adapter.RunValidation | internal/pipeline/pipeline.go:139-150 | Stops at the first failure, runs the hook once, and leaves the protocol before its store write exactly when all passed |
| NpmAdapter.Adapter.OnFailure | internal/denylist/record.go:33-82 | The deny list afterwards has the new denial exactly when the recorder persists the failure; the decision is never changed |
| NpmAdapter.Adapter.Allowlisted | internal/denylist/record.go:86-93 | The search loop answers membership |
| Retrieval.BuildList | internal/pipeline/pipeline.go:199-213 | Builds exactly the fully buildable configurations, in config order; the error names the first bad entry |
| Retrieval.BuildRetrieval | internal/pipeline/pipeline.go:225-240 | Builds exactly the fully buildable configurations into a chain in config order; the error names the last bad entry |
| Retrieval.Stack.UpstreamRegistryFetch | internal/registry/npm/upstream.go:25-52 | Fills the index and the tarball only where missing, with the failure of whichever step failed |
| Retrieval.UpstreamAnswers | internal/registry/npm/upstream.go:25-52 | The terminal layer, exactly: the packument of the context or else of the upstream must list the version, and the run brings what the upstream answers at the URL listed there; it fails with the error of the packument, as unavailable for an unlisted version, or with the error of the tarball |
| Retrieval.Stack.Fetch | internal/middleware/retrieval/localcache/localcache.go:129-157 | Every layer updates the context and the cache slots in place, as the recursive specification says |
| Retrieval.Stack.Evict | internal/middleware/retrieval/localcache/localcache.go:161-167 | Deletes the entry of the first cache below the head, seen through CVE checks only, and nothing else |
| Retrieval.Stack.VerifiedBytes | internal/registry/npm/routes.go:214-243 | Bytes with the expected digest or a failure; one eviction and one refetch in between |
| Retrieval.NeverMiss | internal/pipeline/pipeline.go:157-169 | A built chain hits or fails, it never answers "no, and no error" |
| Retrieval.HitsAtFirstResolver | internal/middleware/retrieval/localcache/localcache.go:129-157 | A run hits with bytes b exactly when some layer is the first in config order to resolve, it resolves to b, and every CVE check above it serves |
| Retrieval.BlockedRun | internal/middleware/retrieval/cverecheck/cverecheck.go:63-98 | When CVE checks above the first resolver do not serve, the run fails as the innermost of them says: rejected by a denial, unavailable under fail_closed |
| Retrieval.UpstreamFails | internal/registry/npm/upstream.go:25-52 | When nothing above the upstream resolves, its failure is that of the run, whatever the CVE checks |
| CacheSlots.ResolvedEntry | internal/middleware/retrieval/localcache/localcache.go:129-157 | What a resolved run leaves in every cache, exactly: above the resolver the bytes, if the cache can be written and every CVE check between serves, otherwise nothing new, an unreadable entry being dropped if it can be; at and below it, what was there. So a denied artifact is never cached above the check that denied it |
| CacheSlots.FailedEntry | internal/middleware/retrieval/localcache/localcache.go:129-157 | A run that nothing resolves writes no entry: it only drops the unreadable ones above the failing upstream |
| Retrieval.WritesThrough | internal/middleware/retrieval/localcache/localcache.go:134-156 | After a run every working cache above the resolving layer, with the CVE checks between serving, holds the resolved bytes, even when a check further out then denies |
| Retrieval.TouchesOwnSlots | internal/middleware/retrieval/localcache/localcache.go:129-157 | A run changes no cache entry of another key |
| SelfHealing.HealsExactlyWhen | internal/registry/npm/routes.go:214-243 | When the first bytes found are bad, the request succeeds if and only if the CVE checks above them serve, they came from the cache that Evict reaches, and the rest of the chain has good bytes; a deeper one is the 502 mismatch, and a check that denies above them is the answer |
| SelfHealing.DeepMismatchIsPermanent | internal/middleware/retrieval/localcache/localcache.go:161-167 | A bad entry below that cache, with the checks above it serving, is a 502 for every later request too, although the upstream has the good bytes: each refetch writes the bad bytes back |
| SelfHealing.PoisonedStays | internal/registry/npm/routes.go:214-243 | The step of that induction: the answer is 502 and the bad bytes are found again |
| SelfHealing.CacheMatchesAfterSuccess | internal/registry/npm/routes.go:214-243 | After any successful request the evictable cache holds bytes with the digest of the anchor |
| SelfHealing.CacheTransparent | internal/middleware/retrieval/localcache/localcache.go:129-157 | With one cache layer, whatever it holds and whatever the CVE checks decide: a trusted request succeeds if and only if the uncached flow has bytes with the digest of the anchor, or the entry has it and the checks above the cache serve |
| SelfHealing.EmptyCachesAreUncached | internal/middleware/retrieval/localcache/localcache.go:129-157 | On empty caches the chain answers as it would without its cache layers |
| SingleFlight.KeyLocks.Lock | internal/middleware/retrieval/localcache/localcache.go:214-223 | The lock table becomes that of the protocol after its own step, and the mutex returned is the one it names: always the same for a key, a new one for a new key, never one for two keys |
| SingleFlight.Layer.constructor | internal/middleware/retrieval/localcache/localcache.go:119-121 | An empty layer, whose life is the empty run of the protocol |
| SingleFlight.Layer.Fetch | internal/middleware/retrieval/localcache/localcache.go:129-157 | A Fetch in its own form takes the lock of that table and extends the run of the protocol by exactly the steps of one call: it hits on a readable entry or when the next layer does, keeps a readable entry, puts a hit in if it can be written, and otherwise drops an unreadable one if it can be deleted; no other entry changes |
| SingleFlight.Layer.Evict | internal/middleware/retrieval/localcache/localcache.go:161-167 | An Evict extends it by its one step, without a lock |
| SingleFlight.CourseRuns | internal/middleware/retrieval/localcache/localcache.go:129-157 | The steps of one Fetch lead the protocol from idle to idle |
| SingleFlight.FetchedOnce | internal/middleware/retrieval/localcache/localcache.go:134-156 | However many Fetches of a key overlap, the next layer is asked successfully at most once, plus once per eviction, unreadable entry or failed write of that key |
| SingleFlight.MutualExclusion | internal/middleware/retrieval/localcache/localcache.go:134-136 | In every interleaving at most one call per key is inside |
| SingleFlight.NeverStuck | internal/middleware/retrieval/localcache/localcache.go:129-157 | While any call is unfinished some call can take a step |
| SingleFlight.AccountsStep | internal/middleware/retrieval/localcache/localcache.go:129-167 | Every step keeps the account: each successful fetch but one is paid for by a trouble |
| CveSeverity.FilterBySeverity | internal/middleware/cveosv/cveosv.go:532-547 | The loop keeps exactly the vulnerabilities of the rank of the threshold or more, in order |
| CveSeverity.CountBySeverity | internal/middleware/cveosv/cveosv.go:451-468 | The loop counts every band, and the bands add up to the list |
| CveSeverity.FilterTwice | internal/middleware/cveosv/cveosv.go:532-547 | Filtering twice is filtering once, by the stronger threshold |
| CveSeverity.FilterConcat | internal/middleware/cveosv/cveosv.go:532-547 | The filter goes vulnerability by vulnerability, in order |
| CveSeverity.FilterOne | internal/middleware/cveosv/cveosv.go:532-547 | Of one vulnerability it keeps that, if it reaches the threshold, or nothing |
| CveSeverity.CountsRefineLists | internal/middleware/cveosv/cveosv.go:478-497 | Counting what one threshold kept and then filtering the counts by another is counting what the stronger of the two keeps |
| CveSeverity.CountsDecideAsList | internal/middleware/retrieval/cverecheck/cverecheck.go:146-177 | Persisted counts deny, warn or serve exactly as the list under the stronger threshold does |
| CveSeverity.DecideExactly | internal/middleware/retrieval/cverecheck/cverecheck.go:146-177 | What is decided under two thresholds: serve when no vulnerability reaches both; otherwise serve with a warning in warn mode and deny in every other |
| CveSeverity.ThresholdHonouredIff | internal/middleware/retrieval/cvecheckcache/store.go:8-11 | When a changed threshold is honoured without a new query: exactly when it was not loosened past every stored vulnerability |
| CveSeverity.LooseningNotHonoured | internal/middleware/retrieval/cvecheckcache/store.go:8-11 | A vulnerability between a looser and a stricter threshold is served from the row and denied by a live query |
| Cvss.RoundupLeast | internal/middleware/cveosv/cveosv.go:709-715 | Over all reals: the least multiple of 0.1 at or above the input rounded to five decimals |
| Cvss.RoundupMonotone | internal/middleware/cveosv/cveosv.go:709-715 | Roundup is monotone |
| Cvss.RoundupIdempotent | internal/middleware/cveosv/cveosv.go:709-715 | Roundup is idempotent |
| Cvss.ClampAfterRoundup | internal/middleware/cveosv/cveosv.go:684-691 | Clamping after rounding is capping at 10 before it |
| Cvss.ScoreInRange | internal/middleware/cveosv/cveosv.go:596-692 | Every score is between 0 and 10 |
| Cvss.ScoreMonotone | internal/middleware/cveosv/cveosv.go:674-691 | In either scope, raising a confidentiality, integrity or availability weight along its table never lowers the score |
| Cvss.ChangedFormulaFalls | internal/middleware/cveosv/cveosv.go:675-680 | Beyond the sub-scores the tables reach the changed-scope formula does fall, so the tables matter |
| Cvss.ChangedRises | internal/middleware/cveosv/cveosv.go:675-680 | On the reachable sub-scores below the top the changed-scope impact rises |
| Cvss.ComputeSeverity | internal/middleware/cveosv/cveosv.go:552-575 | The band of the highest score if any entry scores, the band of the database field otherwise |
| Cvss.BestIsHighest | internal/middleware/cveosv/cveosv.go:553-561 | The fold over the entries finds the highest score, and none exactly when no entry scores |
| Cvss.SeverityPermutes | internal/middleware/cveosv/cveosv.go:552-575 | The order of the entries does not matter |
| Cvss.SeverityRises | internal/middleware/cveosv/cveosv.go:578-589 | The band is critical from 9, high from 7, medium from 4 and low below, of the highest score; so a higher best score never has a lower band |
| Cvss.DatabaseBandRanks | internal/middleware/cveosv/cveosv.go:563-575 | Without a score the band of the database field counts, moderate as medium, and anything else is unknown |
| CvssVectors.LetterRaises | internal/middleware/cveosv/cveosv.go:596-692 | Raising any one metric letter of a vector never lowers its score, in either scope and for v3 and v4 vectors, and it scores with the one letter exactly when with the other |
| CvssVectors.ScoresIff | internal/middleware/cveosv/cveosv.go:615-671 | A vector without an explicit score scores exactly when it has every metric with one of its letters |
| CvssVectors.ExplicitWins | internal/middleware/cveosv/cveosv.go:608-614 | An explicit score wins over the metrics, brought into the range |
| CvssVectors.KnownScores | internal/middleware/cveosv/cveosv.go:596-692 | Ten published scores, with every letter of every metric |
| CveCache.KeyInjective | internal/middleware/cveosv/cveosv.go:192-194 | A package without a bar in any field shares its key with no other, whatever that one holds |
| CveCache.CoveredEcosystems | internal/middleware/cveosv/cveosv.go:180-189 | Exactly npm, pypi and goproxy are covered, each by its own ecosystem, whose name holds no bar |
| CveCache.KeyUniqueIffClean | internal/middleware/cveosv/cveosv.go:192-194 | A package owns its key exactly when no field holds a bar; among packages of a covered ecosystem exactly when name and version hold none |
| CveCache.TtlCache.constructor | internal/middleware/cveosv/cveosv.go:214-219 | An empty cache |
| CveCache.TtlCache.Get | internal/middleware/cveosv/cveosv.go:222-234 | A hit is an unexpired entry; an expired one is deleted |
| CveCache.TtlCache.Put | internal/middleware/cveosv/cveosv.go:239-249 | Never grows past its bound: purges when full, and drops the value when it is still full |
| CveCache.TtlCache.PurgeExpired | internal/middleware/cveosv/cveosv.go:252-259 | The loop keeps exactly the unexpired entries |
| CveCache.PutReadsBackIff | internal/middleware/cveosv/cveosv.go:239-249 | A Put takes effect if and only if there was room, at once or after the purge |
| CveCache.FullDropsUpdate | internal/middleware/cveosv/cveosv.go:242-247 | Full of live entries, an update of a key it holds is dropped and the old value stays |
| CveCache.PutKeepsOthers | internal/middleware/cveosv/cveosv.go:239-249 | A Put never touches another live entry; an expired one goes exactly when the cache is full |
| CveRecheck.Client.Cached | internal/middleware/retrieval/cverecheck/cverecheck.go:77-85 | A warm hit rests on an answer OSV gave for this key, at most TTL old |
| CveRecheck.Client.Query | internal/middleware/cveosv/cveosv.go:307-318 | Returns a cached or live answer for its own key, filtered, and says what the cache then holds; returns failures and never caches them |
| CveRecheck.Client.Remember | internal/middleware/cveosv/cveosv.go:314-318 | What enters the cache is the filtered fresh answer, and what leaves it is only what Put purges |
| CveRecheck.Middleware.Recheck | internal/middleware/retrieval/cverecheck/cverecheck.go:77-98 | A decision not taken by on_error rests on an answer within one of the two windows, and is the decision on it; a warm entry reaches neither OSV nor the rows |
| CveRecheck.Middleware.FetchWithCache | internal/middleware/retrieval/cverecheck/cverecheck.go:103-130 | A fresh row decides without asking OSV; otherwise the fresh answer decides and its counts are persisted if the write succeeds; either way the decision is right for what it rests on |
| CveRecheck.Middleware.FetchLive | internal/middleware/retrieval/cverecheck/cverecheck.go:89-97 | The same for the path without them |
| CveRecheck.Middleware.Fetch | internal/middleware/retrieval/cverecheck/cverecheck.go:63-98 | Uncovered registries are served unchecked. A warm list denies exactly when it is not empty and the mode is not warn; else a fresh row exactly when its answer had a vulnerability reaching both thresholds and the mode is not warn; else a reply of OSV exactly when it has one reaching the threshold and the mode is not warn; no reply fails exactly under fail_closed and serves otherwise |
| CveRecheck.Staleness | internal/middleware/retrieval/cverecheck/cverecheck.go:63-130 | One request at a time, what a decision rests on is at most max(TTL, cacheDuration) old and given under the same key, and about this very package when none of its fields holds a bar, whatever was cached |
| CveRaces.StalenessBound | internal/middleware/retrieval/cverecheck/cverecheck.go:63-130 | In every interleaving and for every package, with rows of other processes among the own, a decision rests on an answer given under its key, at most TTL + cacheDuration old plus latencies, and is: serve when no vulnerability of it reaches both the threshold it was stored under and the current one, otherwise warn or deny by the mode |
| CveRaces.ThresholdHonoured | internal/middleware/retrieval/cvecheckcache/store.go:8-11 | In every interleaving the current threshold is honoured exactly when the answer was not stored under a stricter one that hides what the current one would show |
| CveRaces.OwnThreshold | internal/middleware/retrieval/cverecheck/cverecheck.go:63-130 | Without rows of another process it always is |
| CveRaces.ExactPackageIff | internal/middleware/retrieval/cverecheck/cverecheck.go:63-130 | Every decision about a package, in every interleaving, rests on an answer about that package if and only if no field of it holds a bar |
| CveRaces.BoundIsTight | internal/middleware/retrieval/cverecheck/cverecheck.go:103-130 | An interleaving in which it is TTL + cacheDuration - 1 old, without any latency |
| CveRaces.StepInv | internal/middleware/retrieval/cverecheck/cverecheck.go:63-130 | Every step keeps what the bound rests on |
| TrackerProtocol.NewConfig | internal/project/tracker.go:48-60 | The given batch size, or 100 for none; a buffer of two batches or of 1024 records, whichever is more |
| TrackerProtocol.Conservation | internal/project/tracker.go:77-223 | In every interleaving each record past the closed check is in exactly one of pending send, channel, current batch, persisted or lost, except rows of earlier chunks of a failed flush, which are persisted and lost; with batches of at most 500 there are none |
| TrackerProtocol.DropAccounting | internal/project/tracker.go:158-166 | With no recordDrops half done, Dropped() is the number of lost records, is reported in full, and each report interval with drops has exactly one first-drop warning |
| TrackerProtocol.OrderAndSize | internal/project/tracker.go:90-152 | The batches handed over, then the current batch, then the channel, are the enqueue order; every batch has 1 to BatchSize records |
| TrackerProtocol.ShutdownDrains | internal/project/tracker.go:209-223 | When the first Shutdown returns nil every record ever enqueued has been handed to the store, and that stays so |
| TrackerProtocol.SecondShutdownDoesNotWait | internal/project/tracker.go:210-212 | A second Shutdown may return while an enqueued record has not been handed over |
| TrackerProtocol.ShutdownCanFinish | internal/project/tracker.go:77-152 | From any reachable state with the channel closed the flusher alone can run to its exit, whatever the store answers call by call: it hands over all that was enqueued, and each batch is persisted or lost as the answer to it says |
| TrackerProtocol.StepKeepsInv | internal/project/tracker.go:77-223 | Every atomic step of every goroutine keeps the whole invariant |
| TrackerProtocol.RunKeepsInv | internal/project/tracker.go:77-223 | So does every interleaving |
| TrackerObject.Tracker.constructor | internal/project/tracker.go:48-65 | A new tracker is in the initial state of the protocol |
| TrackerObject.Tracker.RecordDrops | internal/project/tracker.go:158-166 | Both counters rise by n, and the warning fires exactly on the first drop of the interval |
| TrackerObject.Tracker.Track | internal/project/tracker.go:178-192 | Queues the record, or drops and counts it when the buffer is full, or does nothing after Shutdown; the run of the protocol is extended |
| TrackerObject.Tracker.FlushBatch | internal/project/tracker.go:91-103 | A non-empty batch is handed to the store once; a failure counts all of it as dropped, even the rows of chunks that landed; the table takes exactly the landed rows, in order |
| TrackerObject.Tracker.Receive | internal/project/tracker.go:143-149 | One record moves into the batch, a full batch is flushed |
| TrackerObject.Tracker.ReceiveAll | internal/project/tracker.go:107-119 | Receiving until the channel is empty keeps the run, the enqueue order and the table in step |
| TrackerObject.Tracker.Drain | internal/project/tracker.go:107-125 | An explicit Flush empties the channel and the batch completely |
| TrackerObject.Tracker.DrainRest | internal/project/tracker.go:110-123 | Where drain ends: on the closed channel, or after flushing the remainder |
| TrackerObject.Tracker.Tick | internal/project/tracker.go:128-130 | The interval flushes what is there |
| TrackerObject.Tracker.Report | internal/project/tracker.go:131-136 | The summary reports all drops so far, and starts a new interval |
| TrackerObject.Tracker.Shutdown | internal/project/tracker.go:209-213 | Only the first call closes the channel |
| TrackerObject.Tracker.FlushToExit | internal/project/tracker.go:139-150 | On the closed channel the flusher hands over everything ever enqueued, and exits |
| TrackerObject.Tracker.LastFlush | internal/project/tracker.go:140-143 | The last flush of it |
| DependencyStore.DependencyStorage.constructor | internal/project/depstore.go:52-57 | An empty table |
| DependencyStore.InsertRowsRaise | internal/project/depstore.go:100-124 | One INSERT ... ON CONFLICT with a tuple per identity at most: each tuple raises its own row by its own count, in whatever order, and no other row changes |
| DependencyStore.DependencyStorage.UpsertChunk | internal/project/depstore.go:81-124 | Succeeds exactly when the database is up and no field holds NUL, and then equals upserting each record alone |
| DependencyStore.DependencyStorage.Aggregate | internal/project/depstore.go:83-99 | The merge leaves no identity twice and stands for the records it merged |
| DependencyStore.DependencyStorage.Statement | internal/project/depstore.go:100-117 | The placeholders are exactly 1 to 7n, and the tuples denote the merged rows |
| DependencyStore.DependencyStorage.UpsertBatch | internal/project/depstore.go:65-79 | Success is upserting each record alone in order; failure leaves exactly the chunks before the first failing one |
| DependencyStore.UpsertEachConserves | internal/project/depstore.go:81-124 | Upserting each record alone raises the count of an identity by exactly what its records bring, at least 1 each |
| DependencyStore.UnsetCountsAreOne | internal/project/depstore.go:90-99 | A batch of records that leave their count unset, as those of the registries do, raises each identity by exactly the number of its records |
| DependencyStore.SetCountsAdd | internal/project/depstore.go:90-99 | A set count is added as it is |
| DependencyStore.UpsertEachAppend | internal/project/depstore.go:65-79 | Upserting two lists one after the other is upserting their concatenation |
| DependencyStore.KeyInjective | internal/project/depstore.go:88-89 | The NUL-joined key of a NUL-free identity belongs to no other identity |
| DependencyStore.KeyUniqueIffClean | internal/project/depstore.go:88-89 | Exactly the NUL-free identities own their key |
| DependencyStore.StatementDenotes | internal/project/depstore.go:100-117 | Tuple i denotes merged row i |
| ProjectResolver.HooksHold | internal/project/resolver.go:58-65 | The hooks reach every chain, take nothing out of it, and applying them again changes nothing |
| ProjectResolver.EnabledHeadIff | internal/project/resolver.go:59-61 | A chain has an enabled check at its head unless it brings its own, disabled, middleware of that name |
| ProjectResolver.ScopeEnabledIff | internal/project/resolver.go:112-154 | A built scope has an enabled deny-list check at its head unless its own override begins with a disabled one: the scopes the deny results hold for |
| ProjectResolver.BuiltIsHooked | internal/project/resolver.go:149-154 | No override drops the deny-list check or the recorder |
| ProjectResolver.InheritsPerChain | internal/project/resolver.go:112-148 | Each list is overridden or inherited by itself; the evictor follows the retrieval list |
| ProjectResolver.StoredScope | internal/project/resolver.go:112-155 | What Resolve answers for a stored row, by index: it fails exactly when some entry of some list cannot be built; an overriding list is exactly what the factories make of its entries, in order, the validation list behind at most the one prepended check and with the recorder set; the evictor is the retrieval head exactly when that is not the upstream |
| ProjectResolver.UnstoredScope | internal/project/resolver.go:77-92 | Without a row, or without a section for this registry, the global scope |
| ProjectResolver.Resolver.constructor | internal/project/resolver.go:45-53 | The hooked global scope, cached under the empty key |
| ProjectResolver.Resolver.ApplyHooksTo | internal/project/resolver.go:58-65 | The loop-free rewrite computes the specified hooks |
| ProjectResolver.Resolver.Resolve | internal/project/resolver.go:77-97 | Whether or not it was cached, the answer is what the store alone would give; only a successful build of an existing project is cached |
| ProjectResolver.Resolver.Invalidate | internal/project/resolver.go:101-106 | A cache that disagrees with the store on the key at most, as after a write of it, agrees everywhere again; no other entry is dropped, and never the global one |
| ProjectResolver.Resolver.Build | internal/project/resolver.go:112-155 | Builds a row step by step into what the specification says |
| ProjectResolver.Admin.constructor | internal/admin/admin.go:52-58 | An admin over a coherent resolver |
| ProjectResolver.Admin.Create | internal/admin/admin.go:143-173 | 400, 409, 500 or 201 exactly as specified; row, cache and audit entry change together or not at all, except for a row committed under an error report |
| ProjectResolver.Admin.Put | internal/admin/admin.go:234-275 | Likewise for create-or-replace, 201 for a new key and 200 for an old one |
| ProjectResolver.Admin.Delete | internal/admin/admin.go:278-298 | Likewise, 404 for a missing key and 204 for a deleted one |
| ProjectResolver.Admin.PutRow | internal/admin/admin.go:161-168 | The common end of both: write, invalidate, audit |
| ProjectResolver.Admin.BuildConfig | internal/admin/admin.go:314-334 | Accepts exactly known registries with convertible middlewares, and converts them all |
| ProjectResolver.Admin.ToConfigMiddlewares | internal/admin/admin.go:336-352 | Accepts exactly lists whose entries have a type and convertible params |
| ProjectResolver.ConvertedByIndex | internal/admin/admin.go:314-352 | The stored section has the entries of the request one for one and in order, with their params converted |
| ResolverRaces.AnswersOwnedAndHooked | internal/project/resolver.go:77-97 | In every interleaving an answer is the global scope or a build of a row once committed under its own key, and it is hooked |
| ResolverRaces.CacheBounded | internal/project/resolver.go:68-76 | Whatever unknown keys are requested, only the empty key and keys that once had a row are cached |
| ResolverRaces.Coherence | internal/project/resolver.go:77-106 | With no write of the key awaiting its Invalidate, the cached answer agrees with the store exactly when the Resolve that inserted it was not overtaken by writes, between its read and its insert, that left a row building differently |
| ResolverRaces.SequentialCoherence | internal/project/resolver.go:77-106 | A history in which no Resolve overlaps a write is coherent |
| ResolverRaces.InsertAnswersCached | internal/project/resolver.go:95-96 | Of several Resolves that race to insert, all answer the one entry that stays cached |
| ResolverRaces.StaleReinsert | internal/project/resolver.go:84-96 | An interleaving of Resolve and Invalidate that leaves the old pipelines cached |
| ResolverRaces.StepInv | internal/project/resolver.go:77-106 | Every step keeps the invariant behind these |
| CacheKey.KeyConfined | internal/middleware/retrieval/localcache/localcache.go:176-198 | An accepted key is a clean relative path of plain segments and stays below any cache root |
| CacheKey.RejectedIff | internal/middleware/retrieval/localcache/localcache.go:176-200 | Exactly identities with an empty, ".", ".." or slashed part are rejected |
| CacheKey.KeyInjective | internal/middleware/retrieval/localcache/localcache.go:176-198 | Among identities that all have, or all lack, an artifact id, the key is the identity |
| CacheKey.MixedCollision | internal/middleware/retrieval/localcache/localcache.go:191-198 | When a key with and one without an artifact id collide, exactly |
| ProjectPath.ParsesBack | internal/pipeline/project.go:39-51 | A printed scope parses back, for every valid key and every rest that starts with a slash |
| ProjectPath.FoundIsPrinted | internal/pipeline/project.go:39-51 | A found scope is the one printed in the path; without one the path is untouched |
| ProjectPath.ScopedIff | internal/pipeline/project.go:39-51 | A path is scoped exactly when it begins with p and a valid key as whole segments |
| TarballPath.RewrittenParsesBackIff | internal/registry/npm/routes.go:328-354 | When the form pkg/-/version parses back to the same pair, exactly |
| TarballPath.PublicParsesBackIff | internal/registry/npm/routes.go:339-350 | When the public form pkg/-/name-version.tgz parses back, exactly: for every one-segment version |
| TarballPath.ScopedFormsAgree | internal/registry/npm/routes.go:43-48 | Under a project prefix both forms name the same project, package and version |
| TarballPath.TarballsAreProjectless | internal/pipeline/project.go:39-51 | A rewritten tarball path is free of a project scope exactly when its package does not begin with p and a valid key as segments; otherwise that key is taken for the project. A package called p is free of it |
| TarballPath.RewriteTarballs | internal/registry/npm/routes.go:303-325 | The loop points every version object at the proxy and changes nothing else |
| NpmUrls.RewrittenLeadsBackIff | internal/registry/npm/routes.go:43-58 | Following a rewritten URL through the query cut, the router, the decoding, the project parse and the tarball parse leads back to its package and version, without a project, exactly when the segments of the package and the version are plain, the pair parses back, and the package does not read as a project scope |
| NpmUrls.ScopeNamedPackage | internal/registry/npm/routes.go:44-48 | For a package p/key it leads nowhere, for every valid key and every version |
| NpmUrls.QueriedVersion | internal/registry/npm/routes.go:322-322 | For a version with a question mark it leads to another version, what stands before the mark |
| NpmUrls.MisledExamples | internal/registry/npm/routes.go:322-322 | For instance p/x at 1.0, and a at 1?x |
| PypiNames.ParseSdist | internal/pypifilename/pypifilename.go:54-68 | The loop strips the first matching archive suffix and splits at the last hyphen |
| PypiNames.WheelParsesBack | internal/pypifilename/pypifilename.go:37-52 | A wheel name printed from hyphen-free parts parses back |
| PypiNames.WheelPrintsBack | internal/pypifilename/pypifilename.go:37-52 | Every wheel name of five or six parts is a printed one |
| PypiNames.SdistParsesBackIff | internal/pypifilename/pypifilename.go:54-68 | A source archive name parses back exactly when its version has no hyphen |
| PypiNames.Normalization | internal/registry/pypi/client.go:25-27 | The result is normal, exactly normal names are left alone, and normalizing is idempotent |
| PypiNames.NormalizesAlike | internal/registry/pypi/client.go:25-27 | Two names normalize alike exactly when they agree letter by letter up to ASCII case, any run of separators counting as one separator |
| PypiNames.VersionBound | internal/registry/pypi/routes.go:106-123 | A file is served under the version its own name encodes and no other, under one key per normalized project |
| PypiNames.AliasIsReachable | internal/registry/pypi/routes.go:185-215 | Whatever the upstream alias serves, the file route serves under the very same key |
| PypiNames.AliasServesIff | internal/registry/pypi/routes.go:185-215 | It serves exactly a file of an allowed host that the file route serves under the name and version the filename encodes |
| PypiNames.MetadataIsNotServed | internal/registry/pypi/routes.go:103-142 | No metadata file is served by either route |
| PypiNames.RewriteIndex | internal/registry/pypi/routes.go:422-453 | The loop points every file entry at the proxy and drops the metadata advertisements |
| PypiNames.RewrittenKeeps | internal/registry/pypi/routes.go:444-451 | An entry gets its URL, loses both metadata advertisements, and keeps everything else |
| PypiUrls.RewrittenPassesIff | internal/registry/pypi/routes.go:438-445 | Following the URL of a rewritten entry reaches the file route with that very file, and passes its gates, exactly when the filename encodes a version and is not a metadata file, and version and project name are plain path segments |
| PypiUrls.LeadsBackIff | internal/registry/pypi/routes.go:444-444 | A rewritten path leads back to its name, version and filename exactly when the first two, which are not escaped, are plain segments and the filename is no dot segment |
| PypiUrls.UnroutableFilename | internal/registry/pypi/routes.go:444-444 | For every version that is no plain segment a filename encodes it, passes the gates, and gets a URL that does not lead back to it |
| PypiUrls.UnroutableExamples | internal/registry/pypi/routes.go:444-444 | For instance a-1/2.zip and a-..zip |
| Urls.EscapeRoundTrip | internal/registry/pypi/routes.go:444-444 | Decoding undoes the escaping of the filename, and an escaped segment holds no slash, query or fragment mark |

## Left out

- HTTP plumbing, headers, authentication, server wiring and the web UI: a response is a status and a body.
- The insides of Postgres, S3 and the disk: maps with a failure outcome; a disk write is an atomic replace.
- The goproxy adapter, a third copy of the trust flow, and the OCI and maven adapters: they would add only easy members.
- The pypi serve functions as a class of their own: they are the npm flow with the filename as the artifact part of the key, so TrustProtocol covers them; their routing gates are modelled in PypiNames.
- The scanners (guarddog, sigstore, malware, CVE validation), archive handling and strip-install-scripts: oracles and an arbitrary PostFetch.
- YAML and JSON parameters, error texts, log lines and metrics: opaque, or absent.
- Configuration loading, the host allowlist, provenance walking and the minimum-age check. A cache hit leaves the index unset, so age checks then fail closed; nothing is claimed about that.
- PypiUrls.RewrittenPassesIff: a path the router would first redirect to its cleaned form counts as not matching, and a char above 255 is left unescaped; spaces and control characters, which some clients refuse in a URL, are ordinary. Other routes take their segments decoded.
- NpmUrls.RewrittenLeadsBackIff: the same holds for it, and the base is the one the request was rewritten with.
- SingleFlight.FetchedOnce: a hit of the next layer without a tarball, which is passed on and not cached, is not modelled; a built chain has none, since its upstream fills the tarball.
- TrackerProtocol.Conservation: a chunk that the database commits and reports as failed is not modelled; its records would be persisted and counted as lost.
- CveRaces.StalenessBound: other processes keep the TTL and the latencies of this one; only their thresholds differ.
- SingleFlight.Layer.Fetch: one call at a time; overlapping calls are the runs of the protocol. The bytes themselves are in Retrieval.
- Integer widths: drop counters, download counts and batch sizes are unbounded; no overflow of 64-bit counters is modelled.
- The list, get and dependencies calls of the admin API: plain reads.
- The fan-out of one Invalidate to several registries: one resolver is modelled, and each registry's is the same.
- Retrieval.Stack.Fetch: the decision of a CVE check inside the chain is an input of the run; what decides it is CveRecheck.
- NpmAdapter.Adapter.HandleTarball: one request at a time; overlapping requests are the runs of TrustProtocol, where a retrieval may return any bytes.
- NpmAdapter.Adapter.HandleTarball: download tracking after a 200 is not part of the response; the tracker is modelled on its own.
- TrackerObject.Tracker.Report: reads the total and swaps the interval counter at once; the source reads the total just before the swap, so a concurrent drop may appear in the interval before it appears in the total it prints.
- TrackerObject.Tracker.Track: the object form runs a call to its end; the interleavings, with the recovered send on the closed channel, are the runs of TrackerProtocol.
- TrackerProtocol.Conservation: the tracker goroutines that call Track are counted by what they hold, not named.
- Cvss.ScoreInRange: starts from the metric map; splitting the vector text and parsing an explicit base score are not modelled, and neither are NaN and infinities.
- Cvss.RoundupLeast: over exact reals, where floating-point rounding of the product is absent.
- CveRecheck.Client.Query: an answer is a list of vulnerabilities with their bands; Cvss.ComputeSeverity says how a raw entry gets its band.
- PypiNames.Normalization: lower-casing is ASCII.
- CacheKey.KeyConfined: slash-separated paths; the volume names and backslashes of other systems are not modelled.
