/**
 * internal/project/resolver.go:77-111 under concurrency: any number of Resolve
 * calls and admin writers interleave at their accesses to the store and to the
 * cache map. A writer first changes the row and later invalidates; one that saw
 * a committed write reported as failed never invalidates.
 */
module ResolverRaces {
  import opened Basics
  import opened DenyList
  import opened ProjectPath
  import opened ProjectResolver

  /** The global pipelines, and what build makes of a row. */
  datatype Scope = Scope(global: Resolved, build: ProjectConfig -> Option<Resolved>)

  function ScopeOf(site: Site): Scope {
    Scope(site.global, (cfg: ProjectConfig) => Built(site, cfg))
  }

  // `read` is the number of commits of the key when its row was read.
  datatype Progress =
    | Missed(key: string)                                 // cache.Load missed, before store.Get
    | Found(key: string, cfg: ProjectConfig, read: nat)   // before build and cache.LoadOrStore

  // Every committed write of a key in order, None for a delete; and how many
  // writes of it have not been followed by their Invalidate.
  datatype Table = Table(commits: map<string, seq<Option<ProjectConfig>>>, pending: map<string, nat>)

  // A cached value, with the number of commits of its key at the read it was
  // built from and at its insertion.
  datatype Entry = Entry(rp: Resolved, read: nat, at: nat)

  // `answers` is every successful Resolve, in order.
  datatype State = State(table: Table, cache: map<string, Entry>, resolving: map<nat, Progress>,
                         answers: seq<(string, Resolved)>)

  datatype Step =
    | Hit(key: string)
    | Miss(tid: nat, key: string)
    | Read(tid: nat, up: bool)
    | Insert(tid: nat)
    | Commit(key: string, cfg: Option<ProjectConfig>)  // store.Put, or store.Delete for None
    | Invalidate(key: string)

  function Start(site: Scope): State {
    State(Table(map[], map[]), map["" := Entry(site.global, 0, 0)], map[], [])
  }

  function PendingOf(t: Table, key: string): nat {
    if key in t.pending then t.pending[key] else 0
  }

  function CommitsOf(t: Table, key: string): seq<Option<ProjectConfig>> {
    if key in t.commits then t.commits[key] else []
  }

  /** The row of a key after its first n commits. */
  function RowAfter(t: Table, key: string, n: nat): Option<ProjectConfig>
    requires n <= |CommitsOf(t, key)|
  {
    if n == 0 then None else CommitsOf(t, key)[n - 1]
  }

  function RowOf(t: Table, key: string): Option<ProjectConfig> {
    RowAfter(t, key, |CommitsOf(t, key)|)
  }

  /** What a row builds into: None for no row and for a failed build. */
  function BuildOf(site: Scope, row: Option<ProjectConfig>): Option<Resolved> {
    if row.None? then None else site.build(row.value)
  }

  function Answer(s: State, key: string, rp: Resolved): State {
    s.(answers := s.answers + [(key, rp)])
  }

  function CommitRow(t: Table, key: string, cfg: Option<ProjectConfig>): Table {
    Table(t.commits[key := CommitsOf(t, key) + [cfg]], t.pending[key := PendingOf(t, key) + 1])
  }

  function Apply(site: Scope, s: State, step: Step): Option<State> {
    match step
    case Hit(key) => if key in s.cache then Some(Answer(s, key, s.cache[key].rp)) else None
    case Miss(tid, key) =>
      if key in s.cache || tid in s.resolving then None
      else Some(s.(resolving := s.resolving[tid := Missed(key)]))
    case Read(tid, up) =>
      if tid !in s.resolving || !s.resolving[tid].Missed? then None
      else
        var key := s.resolving[tid].key;
        var row := RowOf(s.table, key);
        if !up then Some(s.(resolving := s.resolving - {tid}))
        else if row.None? then Some(Answer(s.(resolving := s.resolving - {tid}), key, site.global))
        else Some(s.(resolving := s.resolving[tid := Found(key, row.value, |CommitsOf(s.table, key)|)]))
    case Insert(tid) =>
      if tid !in s.resolving || !s.resolving[tid].Found? then None
      else
        var Found(key, cfg, read) := s.resolving[tid];
        var t := s.(resolving := s.resolving - {tid});
        var rp := site.build(cfg);
        if rp.None? then Some(t)
        else if key in s.cache then Some(Answer(t, key, s.cache[key].rp))
        else Some(Answer(t.(cache := s.cache[key := Entry(rp.value, read, |CommitsOf(s.table, key)|)]), key, rp.value))
    case Commit(key, cfg) =>
      if ValidProjectKey(key) then Some(s.(table := CommitRow(s.table, key, cfg))) else None
    case Invalidate(key) =>
      if PendingOf(s.table, key) == 0 then None
      else
        Some(s.(table := s.table.(pending := s.table.pending[key := PendingOf(s.table, key) - 1]),
                cache := s.cache - {key}))
  }

  function Run(site: Scope, s: State, steps: seq<Step>): Option<State> {
    if steps == [] then Some(s)
    else
      match Run(site, s, steps[..|steps| - 1])
      case None => None
      case Some(t) => Apply(site, t, steps[|steps| - 1])
  }

  // ------------------------------------------------------------------ invariants

  /** `rp` was built from a row once committed under this very key. */
  ghost predicate BuiltFor(site: Scope, t: Table, key: string, rp: Resolved) {
    exists n: nat :: BuiltAt(site, t, key, n, rp)
  }

  predicate BuiltAt(site: Scope, t: Table, key: string, n: nat, rp: Resolved) {
    1 <= n <= |CommitsOf(t, key)| && BuildOf(site, RowAfter(t, key, n)) == Some(rp)
  }

  ghost predicate Owned(site: Scope, t: Table, key: string, rp: Resolved) {
    rp == site.global || BuiltFor(site, t, key, rp)
  }

  /** Only valid keys are ever written. */
  ghost predicate TableOk(t: Table) {
    && (forall key :: key in t.commits ==> ValidProjectKey(key))
    && (forall key :: key in t.pending ==> ValidProjectKey(key))
  }

  /** A reading in progress is a row that was committed. */
  ghost predicate ReadingOk(t: Table, p: Progress) {
    p.Found? ==> 1 <= p.read <= |CommitsOf(t, p.key)| && RowAfter(t, p.key, p.read) == Some(p.cfg)
  }

  /**
   * A cached entry was built from the row at its read; and once every write of
   * the key has been followed by its Invalidate, there has been none since the
   * entry was inserted.
   */
  ghost predicate EntryOk(site: Scope, t: Table, key: string, e: Entry) {
    && BuiltAt(site, t, key, e.read, e.rp) && e.read <= e.at <= |CommitsOf(t, key)|
    && (PendingOf(t, key) == 0 ==> e.at == |CommitsOf(t, key)|)
  }

  ghost predicate Inv(site: Scope, s: State) {
    && TableOk(s.table)
    && (forall tid :: tid in s.resolving ==> ReadingOk(s.table, s.resolving[tid]))
    && "" in s.cache && s.cache[""].rp == site.global
    && (forall key :: key in s.cache && key != "" ==> EntryOk(site, s.table, key, s.cache[key]))
    && (forall a :: a in s.answers ==> Owned(site, s.table, a.0, a.1))
  }

  /** Commits only add to the history. */
  lemma OwnedGrows(site: Scope, t: Table, key: string, cfg: Option<ProjectConfig>, k: string, rp: Resolved)
    requires Owned(site, t, k, rp)
    ensures Owned(site, CommitRow(t, key, cfg), k, rp)
  {
    if rp != site.global {
      var n: nat :| BuiltAt(site, t, k, n, rp);
      assert BuiltAt(site, CommitRow(t, key, cfg), k, n, rp);
    }
  }

  lemma CommitInv(site: Scope, s: State, key: string, cfg: Option<ProjectConfig>)
    requires Inv(site, s) && ValidProjectKey(key)
    ensures Inv(site, s.(table := CommitRow(s.table, key, cfg)))
  {
    var t := s.(table := CommitRow(s.table, key, cfg));
    forall tid | tid in s.resolving
      ensures ReadingOk(t.table, s.resolving[tid])
    {
      assert ReadingOk(s.table, s.resolving[tid]);
    }
    forall k | k in s.cache && k != ""
      ensures EntryOk(site, t.table, k, s.cache[k])
    {
      assert EntryOk(site, s.table, k, s.cache[k]);
    }
    forall a | a in s.answers
      ensures Owned(site, t.table, a.0, a.1)
    {
      OwnedGrows(site, s.table, key, cfg, a.0, a.1);
    }
  }

  /** A step that leaves the history alone. */
  lemma ResolveInv(site: Scope, s: State, step: Step)
    requires Inv(site, s) && Apply(site, s, step).Some? && !step.Commit? && !step.Invalidate?
    ensures Inv(site, Apply(site, s, step).value)
  {
    match step
    case Hit(key) =>
      if key != "" {
        assert BuiltAt(site, s.table, key, s.cache[key].read, s.cache[key].rp);
      }
    case Insert(tid) =>
      var Found(key, cfg, read) := s.resolving[tid];
      assert ReadingOk(s.table, s.resolving[tid]);
      assert key in s.table.commits;
      assert site.build(cfg).Some? ==> BuiltAt(site, s.table, key, read, site.build(cfg).value);
      if key in s.cache {
        assert EntryOk(site, s.table, key, s.cache[key]);
        assert BuiltAt(site, s.table, key, s.cache[key].read, s.cache[key].rp);
      }
    case _ =>
  }

  lemma InvalidateInv(site: Scope, s: State, key: string)
    requires Inv(site, s) && Apply(site, s, Invalidate(key)).Some?
    ensures Inv(site, Apply(site, s, Invalidate(key)).value)
  {
    var t := Apply(site, s, Invalidate(key)).value;
    assert forall k :: CommitsOf(t.table, k) == CommitsOf(s.table, k);
    forall k | k in t.cache && k != ""
      ensures EntryOk(site, t.table, k, t.cache[k])
    {
      assert EntryOk(site, s.table, k, s.cache[k]);
    }
    forall tid | tid in t.resolving
      ensures ReadingOk(t.table, t.resolving[tid])
    {
      assert ReadingOk(s.table, s.resolving[tid]);
    }
    forall a | a in t.answers
      ensures Owned(site, t.table, a.0, a.1)
    {
      assert Owned(site, s.table, a.0, a.1);
      if a.1 != site.global {
        var n: nat :| BuiltAt(site, s.table, a.0, n, a.1);
        assert BuiltAt(site, t.table, a.0, n, a.1);
      }
    }
  }

  lemma StepInv(site: Scope, s: State, step: Step)
    requires Inv(site, s) && Apply(site, s, step).Some?
    ensures Inv(site, Apply(site, s, step).value)
  {
    match step
    case Commit(key, cfg) => CommitInv(site, s, key, cfg);
    case Invalidate(key) => InvalidateInv(site, s, key);
    case _ => ResolveInv(site, s, step);
  }

  lemma {:induction false} RunInv(site: Scope, steps: seq<Step>)
    requires Run(site, Start(site), steps).Some?
    ensures Inv(site, Run(site, Start(site), steps).value)
    decreases |steps|
  {
    if steps != [] {
      RunInv(site, steps[..|steps| - 1]);
      StepInv(site, Run(site, Start(site), steps[..|steps| - 1]).value, steps[|steps| - 1]);
    }
  }

  // ---------------------------------------------------------------- main results

  /**
   * In every interleaving a Resolve answers with the global scope or with a
   * build of a row once committed under its own key: never another project's
   * pipelines, and always with the hooks in place.
   */
  lemma AnswersOwnedAndHooked(site: Site, steps: seq<Step>, key: string, rp: Resolved)
    requires Hooked(site.hooks, site.global.validation)
    requires var end := Run(ScopeOf(site), Start(ScopeOf(site)), steps);
             end.Some? && (key, rp) in end.value.answers
    ensures rp == site.global
            || exists cfg :: Some(cfg) in CommitsOf(Run(ScopeOf(site), Start(ScopeOf(site)), steps).value.table, key)
                             && Built(site, cfg) == Some(rp)
    ensures Hooked(site.hooks, rp.validation)
  {
    RunInv(ScopeOf(site), steps);
    var t := Run(ScopeOf(site), Start(ScopeOf(site)), steps).value.table;
    assert Owned(ScopeOf(site), t, (key, rp).0, (key, rp).1);
    if rp != site.global {
      var n: nat :| BuiltAt(ScopeOf(site), t, key, n, rp);
      var cfg := RowAfter(t, key, n).value;
      assert Some(cfg) in CommitsOf(t, key) && Built(site, cfg) == Some(rp);
      BuiltIsHooked(site, cfg);
    }
  }

  /** However many unknown keys are requested, only "" and keys that once had a row are ever cached. */
  lemma CacheBounded(site: Scope, steps: seq<Step>, key: string)
    requires Run(site, Start(site), steps).Some? && key in Run(site, Start(site), steps).value.cache
    ensures key == "" || (ValidProjectKey(key)
                          && exists cfg :: Some(cfg) in CommitsOf(Run(site, Start(site), steps).value.table, key))
  {
    RunInv(site, steps);
    var s := Run(site, Start(site), steps).value;
    if key != "" {
      assert EntryOk(site, s.table, key, s.cache[key]);
      var row := RowAfter(s.table, key, s.cache[key].read);
      assert key in s.table.commits && row in CommitsOf(s.table, key);
      assert Some(row.value) in CommitsOf(s.table, key);
    }
  }

  /** The cached entry for `key`, if any, is what the store would answer. */
  predicate Coherent(site: Scope, s: State, key: string) {
    key in s.cache && key != "" ==> BuildOf(site, RowOf(s.table, key)) == Some(s.cache[key].rp)
  }

  /**
   * The race that spoils an entry: the Resolve that inserted the current entry
   * had read the row when its first `read` writes were committed, further writes
   * were committed between that read and the insertion, and the row they left
   * builds differently from the one read.
   */
  predicate Overtaken(site: Scope, s: State, key: string) {
    && key in s.cache && key != "" && s.cache[key].read < s.cache[key].at <= |CommitsOf(s.table, key)|
    && BuildOf(site, RowAfter(s.table, key, s.cache[key].at))
       != BuildOf(site, RowAfter(s.table, key, s.cache[key].read))
  }

  /**
   * Coherence, exactly: with no write of the key awaiting its Invalidate, the
   * cache agrees with the store if and only if the Resolve that inserted the
   * entry was not overtaken by a write that matters.
   */
  lemma Coherence(site: Scope, steps: seq<Step>, key: string)
    requires Run(site, Start(site), steps).Some?
    requires PendingOf(Run(site, Start(site), steps).value.table, key) == 0
    ensures var s := Run(site, Start(site), steps).value;
            Coherent(site, s, key) <==> !Overtaken(site, s, key)
  {
    RunInv(site, steps);
    var s := Run(site, Start(site), steps).value;
    if key in s.cache && key != "" {
      assert EntryOk(site, s.table, key, s.cache[key]);
    }
  }

  /** LoadOrStore: of several Resolves that race to insert, all answer the one entry that stays cached. */
  lemma InsertAnswersCached(site: Scope, s: State, tid: nat)
    requires tid in s.resolving && s.resolving[tid].Found?
    ensures var key, t := s.resolving[tid].key, Apply(site, s, Insert(tid));
            && t.Some? && (key in s.cache && site.build(s.resolving[tid].cfg).Some? ==> t.value.cache == s.cache)
            && (t.value.answers != s.answers ==>
                  key in t.value.cache && t.value.answers == s.answers + [(key, t.value.cache[key].rp)])
  {
  }

  /** A Resolve holds a reading of `key` that it has not yet inserted. */
  predicate Holds(s: State, key: string) {
    exists tid :: tid in s.resolving && s.resolving[tid].Found? && s.resolving[tid].key == key
  }

  ghost predicate NotHeld(site: Scope, steps: seq<Step>, key: string) {
    var s := Run(site, Start(site), steps);
    s.Some? && !Holds(s.value, key)
  }

  /** No write overlaps a Resolve: whenever a row changes, nobody holds a reading of it. */
  ghost predicate NoOverlap(site: Scope, steps: seq<Step>) {
    && Run(site, Start(site), steps).Some?
    && forall n :: 0 <= n < |steps| && steps[n].Commit? ==> NotHeld(site, steps[..n], steps[n].key)
  }

  /** Readings in progress are of the present row, and entries were inserted against the row they were read from. */
  ghost predicate UpToDate(s: State) {
    && (forall tid :: tid in s.resolving && s.resolving[tid].Found? ==>
          s.resolving[tid].read == |CommitsOf(s.table, s.resolving[tid].key)|)
    && forall key :: key in s.cache ==> s.cache[key].read == s.cache[key].at
  }

  lemma UpToDateStep(site: Scope, s: State, step: Step)
    requires UpToDate(s) && Apply(site, s, step).Some? && (step.Commit? ==> !Holds(s, step.key))
    ensures UpToDate(Apply(site, s, step).value)
  {
  }

  lemma {:induction false} NoOverlapUpToDate(site: Scope, steps: seq<Step>)
    requires NoOverlap(site, steps)
    ensures UpToDate(Run(site, Start(site), steps).value)
    decreases |steps|
  {
    if steps != [] {
      var front, last := steps[..|steps| - 1], steps[|steps| - 1];
      forall n | 0 <= n < |front| && front[n].Commit?
        ensures NotHeld(site, front[..n], front[n].key)
      {
        assert front[..n] == steps[..n] && steps[n].Commit?;
      }
      NoOverlapUpToDate(site, front);
      assert last.Commit? ==> NotHeld(site, front, last.key);
      UpToDateStep(site, Run(site, Start(site), front).value, last);
    }
  }

  /**
   * So a history in which no Resolve overlaps a write is coherent: once its
   * Invalidate has run, every write is seen.
   */
  lemma SequentialCoherence(site: Scope, steps: seq<Step>, key: string)
    requires NoOverlap(site, steps) && PendingOf(Run(site, Start(site), steps).value.table, key) == 0
    ensures Coherent(site, Run(site, Start(site), steps).value, key)
  {
    NoOverlapUpToDate(site, steps);
    Coherence(site, steps, key);
  }

  /**
   * And with overlap it fails: a Resolve that read the old row inserts it after
   * the writer's Invalidate, and the old pipelines stay cached.
   */
  lemma StaleReinsert(site: Scope, key: string, before: ProjectConfig, after: ProjectConfig, rp: Resolved)
    requires ValidProjectKey(key)
    requires site.build(before) == Some(rp) && site.build(after) != Some(rp)
    ensures exists steps :: Run(site, Start(site), steps).Some?
              && var s := Run(site, Start(site), steps).value;
                 RowOf(s.table, key) == Some(after) && PendingOf(s.table, key) == 0 && s.resolving == map[]
                 && key in s.cache && s.cache[key].rp == rp && Overtaken(site, s, key)
  {
    var r4 := OldReadingHeld(site, key, before);
    var r5, s5 := Extend(site, r4, Commit(key, Some(after)));
    var r6, s6 := Extend(site, r5, Invalidate(key));
    assert s6.resolving == map[0 := Found(key, before, 1)] && key !in s6.cache;
    var r7, s7 := Extend(site, r6, Insert(0));
    assert Run(site, Start(site), r7) == Some(s7);
  }

  /** A Resolve has read the row and not yet built from it. */
  lemma OldReadingHeld(site: Scope, key: string, cfg: ProjectConfig) returns (steps: seq<Step>)
    requires ValidProjectKey(key)
    ensures Run(site, Start(site), steps).Some?
    ensures var s := Run(site, Start(site), steps).value;
            && CommitsOf(s.table, key) == [Some(cfg)] && PendingOf(s.table, key) == 0
            && key !in s.cache && s.resolving == map[0 := Found(key, cfg, 1)]
  {
    var r1, s1 := Extend(site, [], Commit(key, Some(cfg)));
    var r2, s2 := Extend(site, r1, Invalidate(key));
    var r3, s3 := Extend(site, r2, Miss(0, key));
    var r4, s4 := Extend(site, r3, Read(0, true));
    steps := r4;
  }

  lemma Extend(site: Scope, steps: seq<Step>, step: Step) returns (more: seq<Step>, t: State)
    requires Run(site, Start(site), steps).Some?
    requires Apply(site, Run(site, Start(site), steps).value, step).Some?
    ensures more == steps + [step] && Run(site, Start(site), more) == Some(t)
    ensures Some(t) == Apply(site, Run(site, Start(site), steps).value, step)
  {
    more := steps + [step];
    assert more[..|steps|] == steps;
    t := Apply(site, Run(site, Start(site), steps).value, step).value;
  }
}
