/**
 * The re-check of internal/middleware/retrieval/cverecheck/cverecheck.go:63-130
 * under concurrency: any number of requests interleave at their accesses to the
 * TTL cache, the persisted rows and OSV, while time passes. A request holding
 * an answer keeps it for at most `latency`; waiting without one is unbounded.
 * Other processes, earlier or at the same time, write rows of their own, under
 * thresholds of their own.
 */
module CveRaces {
  import opened Basics
  import opened CveSeverity
  import opened CveCache
  import opened CveRecheck

  // `window` is cacheDuration; 0 disables the persisted rows.
  datatype Config = Config(ttl: nat, window: nat, latency: nat, mode: string, min: string)

  // An answer, with the threshold it was filtered by, in a request's hands since some time.
  datatype Held = Held(source: Source, since: int)

  datatype Phase =
    | Arrived
    | NeedRow
    | NeedQuery            // before Client.Query's own cache lookup
    | Asking               // a live query in flight
    | Answered(held: Held) // before cache.Put
    | Fetched(held: Held)  // before store.Put, if any
    | Deciding(held: Held, decision: Decision)

  datatype Request = Request(pkg: Package, phase: Phase)

  datatype TtlItem = TtlItem(advisory: Advisory, vulns: seq<Vuln>, expiry: int)

  datatype RowItem = RowItem(source: Source, counts: Counts, retrievedAt: int)

  datatype Stores = Stores(items: map<string, TtlItem>, rows: map<Package, RowItem>)

  datatype Ruling = Ruling(pkg: Package, decision: Decision, source: Source, at: int)

  datatype State = State(now: int, stores: Stores, requests: map<nat, Request>, log: seq<Ruling>)

  datatype Step =
    | Tick(now: int)
    | Arrive(rid: nat, pkg: Package)
    | Warm(rid: nat)                             // the warm lookup of Fetch
    | ReadRow(rid: nat, ok: bool)
    | Lookup(rid: nat)                           // the lookup of Query
    | Reply(rid: nat, vulns: Option<seq<Vuln>>)  // None: the outage goes to on_error
    | Remember(rid: nat, kept: bool)             // cache.Put, dropped when full
    | Persist(rid: nat, ok: bool)                // store.Put, if configured
    | Decide(rid: nat)
    | Forget(key: string)                        // a purge
    | Foreign(pkg: Package, source: Source)      // another process persists its counts

  const Start := State(0, Stores(map[], map[]), map[], [])

  /** An answer is taken into the TTL cache within the latency, so a hit is at most this old. */
  function HitAge(c: Config): int {
    c.ttl + c.latency
  }

  /** A row is written within the latency of a hit. */
  function RowAge(c: Config): int {
    HitAge(c) + c.latency
  }

  function HeldBy(p: Phase): Option<Held> {
    match p
    case Answered(h) => Some(h)
    case Fetched(h) => Some(h)
    case Deciding(h, _) => Some(h)
    case _ => None
  }

  /** Time may reach `now`: nobody would hold an answer for more than the latency. */
  predicate MayTick(c: Config, s: State, now: int) {
    s.now <= now && forall rid :: rid in s.requests && HeldBy(s.requests[rid].phase).Some? ==>
                      now - HeldBy(s.requests[rid].phase).value.since <= c.latency
  }

  function Move(s: State, rid: nat, phase: Phase): State
    requires rid in s.requests
  {
    s.(requests := s.requests[rid := s.requests[rid].(phase := phase)])
  }

  /** An answer filtered by this process. */
  function Own(c: Config, a: Advisory): Source {
    Source(a, c.min)
  }

  /** The decision on an answer's list under the stronger of its threshold and the current one. */
  predicate Right(c: Config, decision: Decision, source: Source) {
    decision == CveSeverity.Decide(c.mode, AtLeast(source.advisory.vulns, Stronger(source.min, c.min)))
  }

  /** The unexpired entry for a package. */
  function Hit(s: State, pkg: Package): Option<TtlItem> {
    var key := Key(pkg);
    if key in s.stores.items && s.now <= s.stores.items[key].expiry then Some(s.stores.items[key]) else None
  }

  function AfterMiss(s: State, pkg: Package): State {
    s.(stores := s.stores.(items := s.stores.items - {Key(pkg)}))
  }

  function Advance(c: Config, s: State, rid: nat, step: Step): Option<State>
    requires rid in s.requests
  {
    var r := s.requests[rid];
    match step
    case Warm(_) =>
      if !r.phase.Arrived? then None
      else
        (match Hit(s, r.pkg)
         case Some(e) =>
           Some(Move(s, rid, Deciding(Held(Own(c, e.advisory), s.now), CveSeverity.Decide(c.mode, e.vulns))))
         case None => Some(Move(AfterMiss(s, r.pkg), rid, if c.window > 0 then NeedRow else NeedQuery)))
    case ReadRow(_, ok) =>
      if !r.phase.NeedRow? then None
      else if ok && r.pkg in s.stores.rows && s.now - s.stores.rows[r.pkg].retrievedAt < c.window then
        var e := s.stores.rows[r.pkg];
        Some(Move(s, rid, Deciding(Held(e.source, s.now), DecideFromCounts(c.mode, e.counts, c.min))))
      else Some(Move(s, rid, NeedQuery))
    case Lookup(_) =>
      if !r.phase.NeedQuery? then None
      else
        (match Hit(s, r.pkg)
         case Some(e) => Some(Move(s, rid, Fetched(Held(Own(c, e.advisory), s.now))))
         case None => Some(Move(AfterMiss(s, r.pkg), rid, Asking)))
    case Reply(_, vulns) =>
      if !r.phase.Asking? then None
      else if vulns.None? then Some(s.(requests := s.requests - {rid}))
      else Some(Move(s, rid, Answered(Held(Own(c, Advisory(r.pkg, vulns.value, s.now)), s.now))))
    case Remember(_, kept) =>
      if !r.phase.Answered? then None
      else
        var a := r.phase.held.source.advisory;
        var t := Move(s, rid, Fetched(r.phase.held));
        Some(if kept then
               var item := TtlItem(a, Filtered(a, c.min), s.now + c.ttl);
               t.(stores := s.stores.(items := s.stores.items[Key(r.pkg) := item]))
             else t)
    case Persist(_, ok) =>
      if !r.phase.Fetched? then None
      else
        var a := r.phase.held.source.advisory;
        var t := Move(s, rid, Deciding(r.phase.held, CveSeverity.Decide(c.mode, Filtered(a, c.min))));
        Some(if ok && c.window > 0 then
               var row := RowItem(Own(c, a), CountsOf(Filtered(a, c.min)), s.now);
               t.(stores := s.stores.(rows := s.stores.rows[r.pkg := row]))
             else t)
    case Decide(_) =>
      if !r.phase.Deciding? then None
      else
        Some(s.(requests := s.requests - {rid},
                log := s.log + [Ruling(r.pkg, r.phase.decision, r.phase.held.source, s.now)]))
    case _ => None
  }

  function Apply(c: Config, s: State, step: Step): Option<State> {
    match step
    case Tick(now) => if MayTick(c, s, now) then Some(s.(now := now)) else None
    case Arrive(rid, pkg) =>
      if rid in s.requests then None
      else Some(s.(requests := s.requests[rid := Request(pkg, Arrived)]))
    case Forget(key) => Some(s.(stores := s.stores.(items := s.stores.items - {key})))
    case Foreign(pkg, source) =>
      if Key(source.advisory.pkg) != Key(pkg) || s.now - source.advisory.at > RowAge(c) then None
      else
        var row := RowItem(source, CountsOf(Filtered(source.advisory, source.min)), s.now);
        Some(s.(stores := s.stores.(rows := s.stores.rows[pkg := row])))
    case _ => if step.rid in s.requests then Advance(c, s, step.rid, step) else None
  }

  function Run(c: Config, s: State, steps: seq<Step>): Option<State> {
    if steps == [] then Some(s)
    else
      match Run(c, s, steps[..|steps| - 1])
      case None => None
      case Some(t) => Apply(c, t, steps[|steps| - 1])
  }

  // ------------------------------------------------------------------ invariants

  /** The age of an answer that a request may start to hold. */
  predicate MayHold(c: Config, age: int) {
    age <= HitAge(c) || (c.window > 0 && age < c.window + RowAge(c))
  }

  ghost predicate ItemOk(c: Config, key: string, e: TtlItem) {
    && Key(e.advisory.pkg) == key
    && e.vulns == Filtered(e.advisory, c.min) && e.expiry - c.ttl <= e.advisory.at + c.latency
  }

  ghost predicate RowOk(c: Config, pkg: Package, e: RowItem) {
    && Key(e.source.advisory.pkg) == Key(pkg) && e.counts == CountsOf(Filtered(e.source.advisory, e.source.min))
    && e.retrievedAt - e.source.advisory.at <= RowAge(c)
  }

  ghost predicate RequestOk(c: Config, now: int, r: Request) {
    match r.phase
    case NeedRow => c.window > 0
    case Answered(h) =>
      && Key(h.source.advisory.pkg) == Key(r.pkg) && h.source.min == c.min
      && h.since == h.source.advisory.at && now - h.since <= c.latency
    case Fetched(h) =>
      && Key(h.source.advisory.pkg) == Key(r.pkg) && h.source.min == c.min
      && h.since - h.source.advisory.at <= HitAge(c) && now - h.since <= c.latency
    case Deciding(h, d) =>
      && Key(h.source.advisory.pkg) == Key(r.pkg) && Right(c, d, h.source)
      && MayHold(c, h.since - h.source.advisory.at) && now - h.since <= c.latency
    case _ => true
  }

  /** A logged decision: for an answer under the package's key, correct for it, and this old at most. */
  ghost predicate RulingOk(c: Config, d: Ruling) {
    && Key(d.source.advisory.pkg) == Key(d.pkg) && Right(c, d.decision, d.source)
    && MayHold(c, d.at - d.source.advisory.at - c.latency)
  }

  ghost predicate StoresOk(c: Config, t: Stores) {
    && (forall k :: k in t.items ==> ItemOk(c, k, t.items[k]))
    && (forall p :: p in t.rows ==> RowOk(c, p, t.rows[p]))
  }

  ghost predicate Inv(c: Config, s: State) {
    && StoresOk(c, s.stores)
    && (forall rid :: rid in s.requests ==> RequestOk(c, s.now, s.requests[rid]))
    && (forall d :: d in s.log ==> RulingOk(c, d))
  }

  lemma HitIsOwn(c: Config, s: State, pkg: Package)
    requires StoresOk(c, s.stores) && Hit(s, pkg).Some?
    ensures var e := Hit(s, pkg).value;
            && Key(e.advisory.pkg) == Key(pkg) && e.vulns == Filtered(e.advisory, c.min)
            && s.now - e.advisory.at <= HitAge(c)
  {
    assert ItemOk(c, Key(pkg), s.stores.items[Key(pkg)]);
  }

  lemma AdvanceOk(c: Config, s: State, rid: nat, step: Step)
    requires Inv(c, s) && rid in s.requests && Advance(c, s, rid, step).Some?
    ensures var t := Advance(c, s, rid, step).value;
            && t.now == s.now
            && (rid in t.requests ==> RequestOk(c, s.now, t.requests[rid]))
            && (forall q :: q in t.requests && q != rid ==> q in s.requests && t.requests[q] == s.requests[q])
  {
    var r := s.requests[rid];
    assert RequestOk(c, s.now, r);
    if (step.Warm? || step.Lookup?) && Hit(s, r.pkg).Some? {
      HitIsOwn(c, s, r.pkg);
    }
    if step.ReadRow? && r.pkg in s.stores.rows {
      assert RowOk(c, r.pkg, s.stores.rows[r.pkg]);
      var source := s.stores.rows[r.pkg].source;
      CountsDecideAsList(c.mode, source.advisory.vulns, source.min, c.min);
    }
  }

  lemma AdvanceStores(c: Config, s: State, rid: nat, step: Step)
    requires Inv(c, s) && rid in s.requests && Advance(c, s, rid, step).Some?
    ensures var t := Advance(c, s, rid, step).value;
            StoresOk(c, t.stores) && forall d :: d in t.log ==> RulingOk(c, d)
  {
    assert RequestOk(c, s.now, s.requests[rid]);
  }

  lemma StepInv(c: Config, s: State, step: Step)
    requires Inv(c, s) && Apply(c, s, step).Some?
    ensures Inv(c, Apply(c, s, step).value)
  {
    match step
    case Tick(now) =>
      forall rid | rid in s.requests
        ensures RequestOk(c, now, s.requests[rid])
      {
        assert RequestOk(c, s.now, s.requests[rid]);
      }
    case Arrive(_, _) =>
    case Forget(_) =>
    case Foreign(_, _) =>
    case _ =>
      AdvanceOk(c, s, step.rid, step);
      AdvanceStores(c, s, step.rid, step);
  }

  lemma {:induction false} RunInv(c: Config, s: State, steps: seq<Step>)
    requires Inv(c, s) && Run(c, s, steps).Some?
    ensures Inv(c, Run(c, s, steps).value)
    decreases |steps|
  {
    if steps != [] {
      RunInv(c, s, steps[..|steps| - 1]);
      StepInv(c, Run(c, s, steps[..|steps| - 1]).value, steps[|steps| - 1]);
    }
  }

  // ---------------------------------------------------------------- main results

  /**
   * The staleness bound under interleaving, for every package: a decision not
   * taken by on_error rests on an answer OSV gave under the package's key, at
   * most TTL + cacheDuration ago, give or take the latencies, and is the right
   * one for it under the stronger of the current threshold and the one it was
   * stored under.
   */
  lemma StalenessBound(c: Config, steps: seq<Step>, d: Ruling)
    requires Run(c, Start, steps).Some? && d in Run(c, Start, steps).value.log
    ensures Key(d.source.advisory.pkg) == Key(d.pkg) && Right(c, d.decision, d.source)
    ensures d.decision == if !Serious(d.source.advisory.vulns, d.source.min, c.min) then Serve
                          else if c.mode == "warn" then ServeWarned else Deny
    ensures d.at - d.source.advisory.at <= c.ttl + c.window + 3 * c.latency
    ensures c.window == 0 ==> d.at - d.source.advisory.at <= c.ttl + 2 * c.latency
  {
    RunInv(c, Start, steps);
    assert RulingOk(c, d);
    DecideExactly(c.mode, d.source.advisory.vulns, d.source.min, c.min);
  }

  /**
   * So the current threshold is honoured exactly when the answer was not stored
   * under a stricter one that hides what the current one would show.
   */
  lemma ThresholdHonoured(c: Config, steps: seq<Step>, d: Ruling)
    requires Run(c, Start, steps).Some? && d in Run(c, Start, steps).value.log
    ensures d.decision == CveSeverity.Decide(c.mode, Filtered(d.source.advisory, c.min)) <==>
            || SeverityRank(d.source.min) <= SeverityRank(c.min)
            || (exists v :: v in d.source.advisory.vulns && SeverityRank(v.severity) >= SeverityRank(d.source.min))
            || forall v :: v in d.source.advisory.vulns ==> SeverityRank(v.severity) < SeverityRank(c.min)
  {
    StalenessBound(c, steps, d);
    CountsDecideAsList(c.mode, d.source.advisory.vulns, d.source.min, c.min);
    ThresholdHonouredIff(c.mode, d.source.advisory.vulns, d.source.min, c.min);
  }

  /** Every row, every answer in hand and every decision is under this process's own threshold. */
  ghost predicate OwnOnly(c: Config, s: State) {
    && (forall p :: p in s.stores.rows ==> s.stores.rows[p].source.min == c.min)
    && (forall rid :: rid in s.requests && HeldBy(s.requests[rid].phase).Some? ==>
          HeldBy(s.requests[rid].phase).value.source.min == c.min)
    && (forall d :: d in s.log ==> d.source.min == c.min)
  }

  lemma OwnStep(c: Config, s: State, step: Step)
    requires OwnOnly(c, s) && !step.Foreign? && Apply(c, s, step).Some?
    ensures OwnOnly(c, Apply(c, s, step).value)
  {
  }

  lemma {:induction false} OwnRun(c: Config, steps: seq<Step>)
    requires Run(c, Start, steps).Some? && forall i :: 0 <= i < |steps| ==> !steps[i].Foreign?
    ensures OwnOnly(c, Run(c, Start, steps).value)
    decreases |steps|
  {
    if steps != [] {
      OwnRun(c, steps[..|steps| - 1]);
      OwnStep(c, Run(c, Start, steps[..|steps| - 1]).value, steps[|steps| - 1]);
    }
  }

  /**
   * Without rows of another process it always is: the decision is the one on the
   * answer under the current threshold.
   */
  lemma OwnThreshold(c: Config, steps: seq<Step>, d: Ruling)
    requires Run(c, Start, steps).Some? && d in Run(c, Start, steps).value.log
    requires forall i :: 0 <= i < |steps| ==> !steps[i].Foreign?
    ensures d.decision == CveSeverity.Decide(c.mode, Filtered(d.source.advisory, c.min))
  {
    OwnRun(c, steps);
    StalenessBound(c, steps, d);
  }

  /**
   * Whose answer it is, exactly: every decision about a package, in every
   * interleaving, rests on an answer about that very package if and only if no
   * field of it holds a bar. Otherwise some interleaving serves it by the
   * advisories of another package.
   */
  lemma ExactPackageIff(c: Config, p: Package)
    ensures AllBarFree(p) <==> forall s, d :: Reachable(c, s) && d in s.log && d.pkg == p ==> d.source.advisory.pkg == p
  {
    if AllBarFree(p) {
      forall s, d | Reachable(c, s) && d in s.log && d.pkg == p
        ensures d.source.advisory.pkg == p
      {
        var steps :| Run(c, Start, steps) == Some(s);
        StalenessBound(c, steps, d);
        KeyInjective(p, d.source.advisory.pkg);
      }
    } else {
      var q := Collision(p);
      var s, d := ServedAnothers(c, p, q, []);
    }
  }

  /** Some interleaving takes the start to `s`. */
  ghost predicate Reachable(c: Config, s: State) {
    exists steps :: Run(c, Start, steps) == Some(s)
  }

  lemma Next(c: Config, s: State, step: Step) returns (t: State)
    requires Reachable(c, s) && Apply(c, s, step).Some?
    ensures Reachable(c, t) && Apply(c, s, step) == Some(t)
  {
    var steps :| Run(c, Start, steps) == Some(s);
    t := Apply(c, s, step).value;
    assert (steps + [step])[..|steps|] == steps;
    assert Run(c, Start, steps + [step]) == Some(t);
  }

  /** A request arrives, finds both caches empty, and is about to query. */
  lemma ArriveCold(c: Config, s: State, rid: nat, pkg: Package) returns (t: State)
    requires Reachable(c, s) && rid !in s.requests && Hit(s, pkg).None?
    requires pkg in s.stores.rows ==> s.now - s.stores.rows[pkg].retrievedAt >= c.window
    ensures Reachable(c, t) && t.now == s.now && t.stores.rows == s.stores.rows && t.log == s.log
    ensures Key(pkg) !in t.stores.items && t.requests == s.requests[rid := Request(pkg, NeedQuery)]
  {
    t := Next(c, s, Arrive(rid, pkg));
    t := Next(c, t, Warm(rid));
    if c.window > 0 {
      t := Next(c, t, ReadRow(rid, true));
    }
  }

  /** Such a request asks OSV. */
  lemma Ask(c: Config, s: State, rid: nat, pkg: Package, vulns: seq<Vuln>) returns (t: State)
    requires Reachable(c, s) && rid in s.requests && s.requests[rid] == Request(pkg, NeedQuery)
    requires Key(pkg) !in s.stores.items
    ensures Reachable(c, t) && t.now == s.now && t.stores.rows == s.stores.rows
    ensures t.requests == s.requests[rid := Request(pkg, Answered(Held(Own(c, Advisory(pkg, vulns, s.now)), s.now)))]
  {
    t := Next(c, s, Lookup(rid));
    t := Next(c, t, Reply(rid, Some(vulns)));
  }

  /** It leaves the answer in the TTL cache and decides; its row write fails. */
  lemma RememberOnly(c: Config, s: State, rid: nat, pkg: Package, a: Advisory) returns (t: State)
    requires Reachable(c, s) && rid in s.requests && s.requests[rid] == Request(pkg, Answered(Held(Own(c, a), s.now)))
    ensures Reachable(c, t) && t.now == s.now && t.stores.rows == s.stores.rows && t.requests == s.requests - {rid}
    ensures Key(pkg) in t.stores.items && t.stores.items[Key(pkg)] == TtlItem(a, Filtered(a, c.min), s.now + c.ttl)
  {
    t := Next(c, s, Remember(rid, true));
    t := Next(c, t, Persist(rid, false));
    t := Next(c, t, Decide(rid));
  }

  /** A request that was about to query finds an entry instead, and persists it as if it were new. */
  lemma PersistOldHit(c: Config, s: State, rid: nat, pkg: Package, a: Advisory) returns (t: State)
    requires Reachable(c, s) && c.window > 0 && s.requests.Keys == {rid} && s.requests[rid] == Request(pkg, NeedQuery)
    requires Hit(s, pkg).Some? && Hit(s, pkg).value.advisory == a
    ensures Reachable(c, t) && t.now == s.now && t.stores.items == s.stores.items && t.requests == map[]
    ensures pkg in t.stores.rows && t.stores.rows[pkg].source == Own(c, a) && t.stores.rows[pkg].retrievedAt == s.now
  {
    t := Next(c, s, Lookup(rid));
    t := Next(c, t, Persist(rid, true));
    t := Next(c, t, Decide(rid));
  }

  /**
   * The bound is tight, even with no latency at all: a request that missed both
   * caches just before another one filled them persists the other's answer when
   * it is TTL old, with a fresh date; the row then serves for its whole window.
   */
  lemma BoundIsTight(c: Config, pkg: Package, vulns: seq<Vuln>)
    requires c.window >= 2
    ensures exists s, d :: Reachable(c, s) && d in s.log && d.pkg == pkg
                           && d.source.advisory == Advisory(pkg, vulns, 0)
                           && d.at - d.source.advisory.at == c.ttl + c.window - 1
  {
    assert Run(c, Start, []) == Some(Start);
    var s1 := ArriveCold(c, Start, 0, pkg);
    var s2 := ArriveCold(c, s1, 1, pkg);
    var s3 := Ask(c, s2, 1, pkg, vulns);
    var s3' := RememberOnly(c, s3, 1, pkg, Advisory(pkg, vulns, 0));
    var s4 := Next(c, s3', Tick(c.ttl));
    var s5 := PersistOldHit(c, s4, 0, pkg, Advisory(pkg, vulns, 0));
    var s6 := Next(c, s5, Tick(c.ttl + c.window - 1));
    var s := ServeRow(c, s6, 2, pkg);
    var d := s.log[|s.log| - 1];
    assert d in s.log;
  }

  /** A request served from a fresh row, its TTL entry having expired. */
  lemma ServeRow(c: Config, s: State, rid: nat, pkg: Package) returns (t: State)
    requires Reachable(c, s) && rid !in s.requests && Hit(s, pkg).None?
    requires pkg in s.stores.rows && s.now - s.stores.rows[pkg].retrievedAt < c.window && c.window > 0
    ensures Reachable(c, t) && t.log != [] && var d := t.log[|t.log| - 1];
                               d.pkg == pkg && d.source.advisory == s.stores.rows[pkg].source.advisory && d.at == s.now
  {
    t := Next(c, s, Arrive(rid, pkg));
    t := Next(c, t, Warm(rid));
    t := Next(c, t, ReadRow(rid, true));
    t := Next(c, t, Decide(rid));
  }

  /** A warm entry of another package with the same key decides for this one. */
  lemma ServedAnothers(c: Config, p: Package, q: Package, vulns: seq<Vuln>) returns (s: State, d: Ruling)
    requires Key(p) == Key(q)
    ensures Reachable(c, s) && d in s.log && d.pkg == p && d.source.advisory == Advisory(q, vulns, 0)
  {
    assert Run(c, Start, []) == Some(Start);
    var s1 := ArriveCold(c, Start, 0, q);
    var s2 := Ask(c, s1, 0, q, vulns);
    var s3 := RememberOnly(c, s2, 0, q, Advisory(q, vulns, 0));
    s := ServeWarm(c, s3, 0, p);
    d := s.log[|s.log| - 1];
  }

  lemma ServeWarm(c: Config, s: State, rid: nat, pkg: Package) returns (t: State)
    requires Reachable(c, s) && rid !in s.requests && Hit(s, pkg).Some?
    ensures Reachable(c, t) && t.log != [] && var d := t.log[|t.log| - 1];
                               d.pkg == pkg && d.source.advisory == Hit(s, pkg).value.advisory && d.at == s.now
  {
    t := Next(c, s, Arrive(rid, pkg));
    t := Next(c, t, Warm(rid));
    t := Next(c, t, Decide(rid));
  }
}
