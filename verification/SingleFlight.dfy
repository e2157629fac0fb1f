/**
 * internal/middleware/retrieval/localcache/localcache.go:92-177 and 209-223:
 * the per-key mutex of one cache layer. Any number of Fetch and Evict calls
 * interleaved at their accesses to the lock table, the mutexes, the backend and
 * the next layer; then the lock table and the layer as classes whose every call
 * extends a run of that protocol.
 */
module SingleFlight {
  import opened Basics

  // ---------------------------------------------------------------- the protocol

  datatype Phase =
    | Arrived
    | Waiting(mutex: nat)   // has the key's mutex, before Lock
    | Locked(mutex: nat)    // before backend.Get
    | Fetching(mutex: nat)  // inside next.Fetch
    | Fetched(mutex: nat)   // before backend.Put
    | Leaving(mutex: nat)   // before Unlock

  datatype Call = Call(key: string, phase: Phase)

  // `fetches` counts the successful next.Fetch calls per key, `troubles` the
  // calls to Evict, the unreadable entries and the failed writes.
  datatype Counts = Counts(fetches: map<string, nat>, troubles: map<string, nat>)

  // Mutexes are numbered in the order of their creation.
  datatype State = State(locks: map<string, nat>, holders: map<nat, nat>, cached: set<string>,
                         calls: map<nat, Call>, counts: Counts)

  datatype Step =
    | Arrive(id: nat, key: string)
    | GetLock(id: nat)
    | Acquire(id: nat)
    | Look(id: nat, readable: bool, deleted: bool)
    | FetchNext(id: nat, ok: bool)
    | Write(id: nat, ok: bool)
    | Unlock(id: nat)
    | Evict(key: string, ok: bool)  // takes no lock

  const Start := State(map[], map[], {}, map[], Counts(map[], map[]))

  function At(m: map<string, nat>, key: string): nat {
    if key in m then m[key] else 0
  }

  function Move(s: State, id: nat, phase: Phase): State
    requires id in s.calls
  {
    s.(calls := s.calls[id := s.calls[id].(phase := phase)])
  }

  function Troubled(s: State, key: string): State {
    s.(counts := s.counts.(troubles := s.counts.troubles[key := At(s.counts.troubles, key) + 1]))
  }

  /** keyLocks.lock: the key's mutex, created on first use. */
  function WithLock(locks: map<string, nat>, key: string): map<string, nat> {
    if key in locks then locks else locks[key := |locks|]
  }

  function Advance(s: State, id: nat, step: Step): Option<State>
    requires id in s.calls
  {
    var Call(key, p) := s.calls[id];
    match step
    case GetLock(_) =>
      if !p.Arrived? then None
      else
        var locks := WithLock(s.locks, key);
        Some(Move(s, id, Waiting(locks[key])).(locks := locks))
    case Acquire(_) =>
      if !p.Waiting? || p.mutex in s.holders then None
      else Some(Move(s, id, Locked(p.mutex)).(holders := s.holders[p.mutex := id]))
    case Look(_, readable, deleted) =>
      if !p.Locked? then None
      else if key in s.cached && readable then Some(Move(s, id, Leaving(p.mutex)))
      else if readable then Some(Move(s, id, Fetching(p.mutex)))
      else
        Some(Troubled(Move(s, id, Fetching(p.mutex)).(cached := if deleted then s.cached - {key} else s.cached), key))
    case FetchNext(_, ok) =>
      if !p.Fetching? then None
      else if !ok then Some(Move(s, id, Leaving(p.mutex)))
      else
        Some(Move(s, id, Fetched(p.mutex)).(
          counts := s.counts.(fetches := s.counts.fetches[key := At(s.counts.fetches, key) + 1])))
    case Write(_, ok) =>
      if !p.Fetched? then None
      else if ok then Some(Move(s, id, Leaving(p.mutex)).(cached := s.cached + {key}))
      else Some(Troubled(Move(s, id, Leaving(p.mutex)), key))
    case Unlock(_) =>
      if !p.Leaving? then None else Some(s.(calls := s.calls - {id}, holders := s.holders - {p.mutex}))
    case _ => None
  }

  function Apply(s: State, step: Step): Option<State> {
    match step
    case Arrive(id, key) => if id in s.calls then None else Some(s.(calls := s.calls[id := Call(key, Arrived)]))
    case Evict(key, ok) => Some(Troubled(s.(cached := if ok then s.cached - {key} else s.cached), key))
    case _ => if step.id in s.calls then Advance(s, step.id, step) else None
  }

  function Run(s: State, steps: seq<Step>): Option<State> {
    if steps == [] then Some(s)
    else
      match Run(s, steps[..|steps| - 1])
      case None => None
      case Some(t) => Apply(t, steps[|steps| - 1])
  }

  // ------------------------------------------------------------------ invariants

  /** Holds the key's mutex. */
  predicate Critical(p: Phase) {
    p.Locked? || p.Fetching? || p.Fetched? || p.Leaving?
  }

  /** One mutex per key. */
  ghost predicate TableOk(locks: map<string, nat>) {
    && (forall k :: k in locks ==> locks[k] < |locks|)
    && forall j, k :: j in locks && k in locks && locks[j] == locks[k] ==> j == k
  }

  /** A call uses its key's mutex. */
  ghost predicate OwnLocks(calls: map<nat, Call>, locks: map<string, nat>) {
    forall id :: id in calls && !calls[id].phase.Arrived? ==>
      calls[id].key in locks && calls[id].phase.mutex == locks[calls[id].key]
  }

  /** The holder of a mutex is the one call inside. */
  ghost predicate HoldersOk(calls: map<nat, Call>, holders: map<nat, nat>) {
    && (forall id :: id in calls && Critical(calls[id].phase) ==>
          calls[id].phase.mutex in holders && holders[calls[id].phase.mutex] == id)
    && (forall m :: m in holders ==>
          holders[m] in calls && Critical(calls[holders[m]].phase) && calls[holders[m]].phase.mutex == m)
  }

  ghost predicate LockingOk(s: State) {
    TableOk(s.locks) && OwnLocks(s.calls, s.locks) && HoldersOk(s.calls, s.holders)
  }

  /** A call for `key` is between its successful fetch and its write. */
  ghost predicate InHand(s: State, key: string) {
    exists id :: id in s.calls && s.calls[id].key == key && s.calls[id].phase.Fetched?
  }

  ghost predicate BeingFetched(s: State, key: string) {
    exists id :: id in s.calls && s.calls[id].key == key && s.calls[id].phase.Fetching?
  }

  /** Every successful fetch but one is paid for by a trouble; the one is the value cached or in hand. */
  ghost predicate PaidFor(s: State, key: string) {
    && At(s.counts.fetches, key) <= At(s.counts.troubles, key) + 1
    && (BeingFetched(s, key) || (key !in s.cached && !InHand(s, key)) ==>
          At(s.counts.fetches, key) <= At(s.counts.troubles, key))
  }

  ghost predicate Inv(s: State) {
    LockingOk(s) && forall key :: PaidFor(s, key)
  }

  /** Mutual exclusion: at most one call per key is inside. */
  lemma OneInside(s: State, a: nat, b: nat)
    requires LockingOk(s) && a in s.calls && b in s.calls && s.calls[a].key == s.calls[b].key
    requires Critical(s.calls[a].phase) && Critical(s.calls[b].phase)
    ensures a == b
  {
  }

  lemma NewLock(locks: map<string, nat>, key: string)
    requires TableOk(locks) && key !in locks
    ensures TableOk(locks[key := |locks|])
  {
    assert locks[key := |locks|].Keys == locks.Keys + {key};
    assert |locks[key := |locks|]| == |locks.Keys + {key}| == |locks| + 1;
  }

  lemma TableStep(s: State, step: Step)
    requires TableOk(s.locks) && Apply(s, step).Some?
    ensures TableOk(Apply(s, step).value.locks)
    ensures forall k :: k in s.locks ==> k in Apply(s, step).value.locks && Apply(s, step).value.locks[k] == s.locks[k]
  {
    if step.GetLock? && s.calls[step.id].key !in s.locks {
      NewLock(s.locks, s.calls[step.id].key);
    }
  }

  lemma OwnLocksStep(s: State, step: Step)
    requires OwnLocks(s.calls, s.locks) && Apply(s, step).Some?
    ensures OwnLocks(Apply(s, step).value.calls, Apply(s, step).value.locks)
  {
  }

  lemma HoldersAcquire(s: State, id: nat)
    requires HoldersOk(s.calls, s.holders) && Apply(s, Acquire(id)).Some?
    ensures HoldersOk(Apply(s, Acquire(id)).value.calls, Apply(s, Acquire(id)).value.holders)
  {
  }

  lemma HoldersUnlock(s: State, id: nat)
    requires HoldersOk(s.calls, s.holders) && Apply(s, Unlock(id)).Some?
    ensures HoldersOk(Apply(s, Unlock(id)).value.calls, Apply(s, Unlock(id)).value.holders)
  {
  }

  /** The same calls are inside, with the same mutexes. */
  ghost predicate SameInside(s: State, t: State) {
    && t.holders == s.holders
    && (forall q :: q in s.calls ==> q in t.calls)
    && (forall q :: q in t.calls && Critical(t.calls[q].phase) ==>
          q in s.calls && Critical(s.calls[q].phase) && s.calls[q].phase.mutex == t.calls[q].phase.mutex)
    && (forall q :: q in s.calls && Critical(s.calls[q].phase) ==> Critical(t.calls[q].phase))
  }

  lemma QuietCall(s: State, id: nat, step: Step)
    requires id in s.calls && Advance(s, id, step).Some? && !step.Acquire? && !step.Unlock?
    ensures var t := Advance(s, id, step).value;
            && t.holders == s.holders && id in t.calls
            && (Critical(t.calls[id].phase) <==> Critical(s.calls[id].phase))
            && (Critical(s.calls[id].phase) ==> s.calls[id].phase.mutex == t.calls[id].phase.mutex)
  {
  }

  lemma QuietInside(s: State, step: Step)
    requires Apply(s, step).Some? && !step.Acquire? && !step.Unlock?
    ensures SameInside(s, Apply(s, step).value)
  {
    if !step.Arrive? && !step.Evict? {
      AdvanceFrame(s, step.id, step);
      QuietCall(s, step.id, step);
      SameOutside(s, Advance(s, step.id, step).value, step.id);
    }
  }

  lemma SameOutside(s: State, t: State, id: nat)
    requires id in s.calls && OnlyCall(s, t, id) && t.holders == s.holders && id in t.calls
    requires Critical(t.calls[id].phase) <==> Critical(s.calls[id].phase)
    requires Critical(s.calls[id].phase) ==> s.calls[id].phase.mutex == t.calls[id].phase.mutex
    ensures SameInside(s, t)
  {
  }

  lemma HoldersQuiet(s: State, t: State)
    requires HoldersOk(s.calls, s.holders) && SameInside(s, t)
    ensures HoldersOk(t.calls, t.holders)
  {
  }

  lemma HoldersStep(s: State, step: Step)
    requires HoldersOk(s.calls, s.holders) && Apply(s, step).Some?
    ensures HoldersOk(Apply(s, step).value.calls, Apply(s, step).value.holders)
  {
    match step
    case Acquire(id) => HoldersAcquire(s, id);
    case Unlock(id) => HoldersUnlock(s, id);
    case _ =>
      QuietInside(s, step);
      HoldersQuiet(s, Apply(s, step).value);
  }

  /** `t` differs from `s` in call `id`, and in the accounts and the entry of its key, at most. */
  ghost predicate OnlyCall(s: State, t: State, id: nat)
    requires id in s.calls
  {
    && (forall q :: q != id ==> (q in t.calls <==> q in s.calls))
    && (forall q :: q != id && q in s.calls ==> t.calls[q] == s.calls[q])
    && (id in t.calls ==> t.calls[id].key == s.calls[id].key)
    && (forall k :: k != s.calls[id].key ==>
          && (k in t.cached <==> k in s.cached)
          && At(t.counts.fetches, k) == At(s.counts.fetches, k) && At(t.counts.troubles, k) == At(s.counts.troubles, k))
  }

  lemma AdvanceFrame(s: State, id: nat, step: Step)
    requires id in s.calls && Advance(s, id, step).Some?
    ensures OnlyCall(s, Advance(s, id, step).value, id)
  {
  }

  lemma OtherKeys(s: State, t: State, id: nat, key: string)
    requires id in s.calls && OnlyCall(s, t, id) && s.calls[id].key != key && PaidFor(s, key)
    ensures PaidFor(t, key)
  {
    if InHand(s, key) {
      var q :| q in s.calls && s.calls[q].key == key && s.calls[q].phase.Fetched?;
      assert q in t.calls && t.calls[q] == s.calls[q];
    }
    if BeingFetched(t, key) {
      var q :| q in t.calls && t.calls[q].key == key && t.calls[q].phase.Fetching?;
      assert q in s.calls && t.calls[q] == s.calls[q];
    }
  }

  /** With no other call for its key inside, a call alone decides what is fetched and in hand. */
  ghost predicate Alone(s: State, id: nat)
    requires id in s.calls
  {
    forall q :: q in s.calls && q != id && s.calls[q].key == s.calls[id].key ==> !Critical(s.calls[q].phase)
  }

  lemma AloneMeans(s: State, t: State, id: nat)
    requires id in s.calls && Alone(s, id) && OnlyCall(s, t, id)
    ensures var key := s.calls[id].key;
            && (BeingFetched(s, key) <==> s.calls[id].phase.Fetching?)
            && (InHand(s, key) <==> s.calls[id].phase.Fetched?)
            && (BeingFetched(t, key) <==> id in t.calls && t.calls[id].phase.Fetching?)
            && (InHand(t, key) <==> id in t.calls && t.calls[id].phase.Fetched?)
  {
    var key := s.calls[id].key;
    if BeingFetched(t, key) {
      var q :| q in t.calls && t.calls[q].key == key && t.calls[q].phase.Fetching?;
      assert q == id;
    }
    if InHand(t, key) {
      var q :| q in t.calls && t.calls[q].key == key && t.calls[q].phase.Fetched?;
      assert q == id;
    }
  }

  lemma InsideStep(s: State, id: nat, step: Step)
    requires id in s.calls && Alone(s, id) && Critical(s.calls[id].phase)
    requires Advance(s, id, step).Some? && PaidFor(s, s.calls[id].key)
    ensures PaidFor(Advance(s, id, step).value, s.calls[id].key)
  {
    AdvanceFrame(s, id, step);
    AloneMeans(s, Advance(s, id, step).value, id);
  }

  /** Outside, a call fetches nothing: the accounts stand. */
  lemma OutsideStep(s: State, id: nat, step: Step)
    requires id in s.calls && !Critical(s.calls[id].phase)
    requires Advance(s, id, step).Some? && PaidFor(s, s.calls[id].key)
    ensures PaidFor(Advance(s, id, step).value, s.calls[id].key)
  {
    var t, key := Advance(s, id, step).value, s.calls[id].key;
    assert t.counts == s.counts && t.cached == s.cached;
    AdvanceFrame(s, id, step);
    assert id in t.calls && !t.calls[id].phase.Fetching? && !t.calls[id].phase.Fetched?;
    if InHand(s, key) {
      var q :| q in s.calls && s.calls[q].key == key && s.calls[q].phase.Fetched?;
      assert q in t.calls && t.calls[q] == s.calls[q];
    }
    if BeingFetched(t, key) {
      var q :| q in t.calls && t.calls[q].key == key && t.calls[q].phase.Fetching?;
      assert q in s.calls && t.calls[q] == s.calls[q];
    }
  }

  lemma OwnKey(s: State, id: nat, step: Step)
    requires LockingOk(s) && id in s.calls && Advance(s, id, step).Some? && PaidFor(s, s.calls[id].key)
    ensures PaidFor(Advance(s, id, step).value, s.calls[id].key)
  {
    if Critical(s.calls[id].phase) {
      forall q | q in s.calls && q != id && s.calls[q].key == s.calls[id].key
        ensures !Critical(s.calls[q].phase)
      {
        if Critical(s.calls[q].phase) {
          OneInside(s, id, q);
        }
      }
      InsideStep(s, id, step);
    } else {
      OutsideStep(s, id, step);
    }
  }

  lemma AccountsStep(s: State, step: Step, key: string)
    requires Inv(s) && Apply(s, step).Some?
    ensures PaidFor(Apply(s, step).value, key)
  {
    var t := Apply(s, step).value;
    match step
    case Arrive(id, _) =>
      assert PaidFor(s, key);
      assert forall q :: q in s.calls ==> q in t.calls && t.calls[q] == s.calls[q];
      assert BeingFetched(s, key) <==> BeingFetched(t, key);
      assert InHand(s, key) <==> InHand(t, key);
    case Evict(_, _) =>
      assert PaidFor(s, key);
      assert BeingFetched(s, key) <==> BeingFetched(t, key);
      assert InHand(s, key) <==> InHand(t, key);
    case _ =>
      if s.calls[step.id].key == key {
        OwnKey(s, step.id, step);
      } else {
        AdvanceFrame(s, step.id, step);
        OtherKeys(s, t, step.id, key);
      }
  }

  lemma {:induction false} RunInv(s: State, steps: seq<Step>)
    requires Inv(s) && Run(s, steps).Some?
    ensures Inv(Run(s, steps).value)
    decreases |steps|
  {
    if steps != [] {
      RunInv(s, steps[..|steps| - 1]);
      var t, step := Run(s, steps[..|steps| - 1]).value, steps[|steps| - 1];
      TableStep(t, step);
      OwnLocksStep(t, step);
      HoldersStep(t, step);
      forall key
        ensures PaidFor(Apply(t, step).value, key)
      {
        AccountsStep(t, step, key);
      }
    }
  }

  lemma StartInv()
    ensures Inv(Start)
  {
  }

  // ---------------------------------------------------------------- main results

  /**
   * Single flight: however many Fetches of a key overlap, the next layer is
   * asked successfully at most once, plus once per eviction, unreadable entry or
   * failed write of that key.
   */
  lemma FetchedOnce(steps: seq<Step>, key: string)
    requires Run(Start, steps).Some?
    ensures var k := Run(Start, steps).value.counts;
            At(k.fetches, key) <= At(k.troubles, key) + 1
  {
    StartInv();
    RunInv(Start, steps);
    assert PaidFor(Run(Start, steps).value, key);
  }

  /** At most one call per key is inside, in every interleaving. */
  lemma MutualExclusion(steps: seq<Step>, a: nat, b: nat)
    requires Run(Start, steps).Some?
    requires var s := Run(Start, steps).value;
             a in s.calls && b in s.calls && s.calls[a].key == s.calls[b].key
             && Critical(s.calls[a].phase) && Critical(s.calls[b].phase)
    ensures a == b
  {
    StartInv();
    RunInv(Start, steps);
    OneInside(Run(Start, steps).value, a, b);
  }

  /** No deadlock: while any call is unfinished, some call can take a step, whatever the backend does. */
  lemma NeverStuck(steps: seq<Step>)
    requires Run(Start, steps).Some? && Run(Start, steps).value.calls != map[]
    ensures exists step: Step :: !step.Arrive? && !step.Evict? && Apply(Run(Start, steps).value, step).Some?
  {
    StartInv();
    RunInv(Start, steps);
    CanMove(Run(Start, steps).value);
  }

  lemma CanMove(s: State)
    requires LockingOk(s) && s.calls != map[]
    ensures exists step: Step :: !step.Arrive? && !step.Evict? && Apply(s, step).Some?
  {
    var id :| id in s.calls;
    var mover := if s.calls[id].phase.Waiting? && s.calls[id].phase.mutex in s.holders
                 then s.holders[s.calls[id].phase.mutex] else id;
    var step := NextOf(mover, s.calls[mover].phase);
    assert Apply(s, step).Some?;
  }

  function NextOf(id: nat, p: Phase): Step {
    match p
    case Arrived => GetLock(id)
    case Waiting(_) => Acquire(id)
    case Locked(_) => Look(id, true, false)
    case Fetching(_) => FetchNext(id, false)
    case Fetched(_) => Write(id, true)
    case Leaving(_) => Unlock(id)
  }

  // ------------------------------------------------------------------- the classes

  class Mutex {
    ghost const number: nat
    var held: bool

    constructor (ghost number: nat)
      ensures !held && this.number == number
    {
      this.number := number;
      held := false;
    }

    method Lock()
      requires !held
      modifies this
      ensures held
    {
      held := true;
    }

    method Unlock()
      requires held
      modifies this
      ensures !held
    {
      held := false;
    }
  }

  class KeyLocks {
    var locks: map<string, Mutex>

    /** The lock table of the protocol. */
    ghost function Table(): map<string, nat>
      reads this
    {
      map k | k in locks :: locks[k].number
    }

    /** Different keys never share a mutex. */
    ghost predicate Valid()
      reads this
    {
      TableOk(Table())
    }

    constructor ()
      ensures Valid() && locks == map[]
    {
      locks := map[];
    }

    /**
     * Always the same mutex for a key, and a new one for a new key: the protocol's
     * own table, and the mutex it names.
     */
    method Lock(key: string) returns (l: Mutex)
      requires Valid()
      modifies this
      ensures Valid() && Table() == WithLock(old(Table()), key) && l.number == Table()[key]
      ensures locks == old(locks)[key := l] && (key in old(locks) ==> l == old(locks)[key])
      ensures key !in old(locks) ==> fresh(l) && !l.held
    {
      if key in locks {
        l := locks[key];
        assert locks[key := l] == locks;
        return;
      }
      assert Table().Keys == locks.Keys && |Table()| == |Table().Keys| && |locks| == |locks.Keys|;
      NewLock(Table(), key);
      l := new Mutex(|locks|);
      locks := locks[key := l];
      assert Table() == WithLock(old(Table()), key);
    }
  }

  // What the backend and the next layer answer to one Fetch.
  datatype World = World(readable: bool, deleted: bool, hit: bool, written: bool)

  /** Whether a Fetch asks the next layer. */
  predicate Asks(entries: set<string>, key: string, w: World) {
    !(key in entries && w.readable)
  }

  /** What the backend holds once a Fetch has returned. */
  function Left(entries: set<string>, key: string, w: World): set<string> {
    if !Asks(entries, key, w) then entries
    else if w.hit && w.written then entries + {key}
    else if !w.readable && w.deleted then entries - {key}
    else entries
  }

  /** The protocol steps of a Fetch that runs alone: up to holding the mutex, under it, and out. */
  function Enter(key: string): seq<Step> {
    [Arrive(0, key), GetLock(0), Acquire(0)]
  }

  function Body(entries: set<string>, key: string, w: World): seq<Step> {
    [Look(0, w.readable, w.deleted)] + if Asks(entries, key, w) then Asking(w) else []
  }

  function Asking(w: World): seq<Step> {
    [FetchNext(0, w.hit)] + if w.hit then [Write(0, w.written)] else []
  }

  function Course(entries: set<string>, key: string, w: World): seq<Step> {
    Enter(key) + Body(entries, key, w) + [Unlock(0)]
  }

  /** Inside the mutex, in phase `p`. */
  function Within(s: State, key: string, p: Phase): State
    requires Critical(p)
  {
    s.(holders := map[p.mutex := 0], calls := map[0 := Call(key, p)])
  }

  lemma {:induction false} RunConcat(s: State, a: seq<Step>, b: seq<Step>)
    requires Run(s, a).Some?
    ensures Run(s, a + b) == Run(Run(s, a).value, b)
    decreases |b|
  {
    if b == [] {
      assert a + b == a;
    } else {
      RunConcat(s, a, b[..|b| - 1]);
      assert (a + b)[..|a + b| - 1] == a + b[..|b| - 1];
    }
  }

  lemma RunOne(s: State, step: Step)
    ensures Run(s, [step]) == Apply(s, step)
  {
    assert [step][..0] == [];
  }

  /** One more step. */
  lemma RunMore(s: State, steps: seq<Step>, t: State, step: Step)
    requires Run(s, steps) == Some(t)
    ensures Run(s, steps + [step]) == Apply(t, step)
  {
    RunConcat(s, steps, [step]);
    RunOne(t, step);
  }

  function One(key: string, p: Phase): map<nat, Call> {
    map[0 := Call(key, p)]
  }

  /** Moving the only call. */
  lemma MoveOne(s: State, key: string, p: Phase, q: Phase)
    requires s.calls == One(key, p)
    ensures Move(s, 0, q) == s.(calls := One(key, q))
  {
    assert One(key, p)[0 := Call(key, q)] == One(key, q);
  }

  lemma EnterRuns(s: State, key: string)
    requires s.calls == map[] && s.holders == map[]
    ensures var locks := WithLock(s.locks, key);
            Run(s, Enter(key)) == Some(Within(s.(locks := locks), key, Locked(locks[key])))
  {
    var locks := WithLock(s.locks, key);
    var arrived := s.(calls := One(key, Arrived));
    var waiting := s.(locks := locks, calls := One(key, Waiting(locks[key])));
    RunOne(s, Arrive(0, key));
    assert s.calls[0 := Call(key, Arrived)] == One(key, Arrived);
    MoveOne(arrived, key, Arrived, Waiting(locks[key]));
    RunMore(s, [Arrive(0, key)], arrived, GetLock(0));
    assert [Arrive(0, key)] + [GetLock(0)] == [Arrive(0, key), GetLock(0)];
    MoveOne(waiting, key, Waiting(locks[key]), Locked(locks[key]));
    assert s.holders[locks[key] := 0] == map[locks[key] := 0];
    RunMore(s, [Arrive(0, key), GetLock(0)], waiting, Acquire(0));
    assert [Arrive(0, key), GetLock(0)] + [Acquire(0)] == Enter(key);
  }

  /** Under the mutex, after Look. */
  function Looked(s: State, key: string, m: nat, w: World): State {
    var t := Within(s, key, if Asks(s.cached, key, w) then Fetching(m) else Leaving(m));
    if w.readable then t else Troubled(t.(cached := if w.deleted then s.cached - {key} else s.cached), key)
  }

  lemma Looks(s: State, key: string, m: nat, w: World)
    requires s == Within(s, key, Locked(m))
    ensures Apply(s, Look(0, w.readable, w.deleted)) == Some(Looked(s, key, m, w))
  {
    MoveOne(s, key, Locked(m), Fetching(m));
    MoveOne(s, key, Locked(m), Leaving(m));
  }

  /** After the next layer answered, and after the write. */
  function Asked(s: State, key: string, m: nat, hit: bool): State {
    if hit then
      var fetches := s.counts.fetches[key := At(s.counts.fetches, key) + 1];
      Within(s, key, Fetched(m)).(counts := s.counts.(fetches := fetches))
    else Within(s, key, Leaving(m))
  }

  lemma AsksNext(s: State, key: string, m: nat, hit: bool)
    requires s == Within(s, key, Fetching(m))
    ensures Apply(s, FetchNext(0, hit)) == Some(Asked(s, key, m, hit))
  {
    MoveOne(s, key, Fetching(m), Fetched(m));
    MoveOne(s, key, Fetching(m), Leaving(m));
  }

  function Wrote(s: State, key: string, m: nat, written: bool): State {
    var t := Within(s, key, Leaving(m));
    if written then t.(cached := s.cached + {key}) else Troubled(t, key)
  }

  lemma Writes(s: State, key: string, m: nat, written: bool)
    requires s == Within(s, key, Fetched(m))
    ensures Apply(s, Write(0, written)) == Some(Wrote(s, key, m, written))
  {
    MoveOne(s, key, Fetched(m), Leaving(m));
  }

  /** The state a Fetch under the mutex leaves. */
  function Served(s: State, key: string, m: nat, w: World): State {
    var looked := Looked(s, key, m, w);
    if !Asks(s.cached, key, w) then looked
    else
      var asked := Asked(looked, key, m, w.hit);
      if w.hit then Wrote(asked, key, m, w.written) else asked
  }

  lemma AskingRuns(s: State, key: string, m: nat, w: World)
    requires s == Within(s, key, Fetching(m))
    ensures var asked := Asked(s, key, m, w.hit);
            Run(s, Asking(w)) == Some(if w.hit then Wrote(asked, key, m, w.written) else asked)
  {
    var asked := Asked(s, key, m, w.hit);
    AsksNext(s, key, m, w.hit);
    RunOne(s, FetchNext(0, w.hit));
    if w.hit {
      Writes(asked, key, m, w.written);
      RunMore(s, [FetchNext(0, true)], asked, Write(0, w.written));
    } else {
      assert Asking(w) == [FetchNext(0, false)];
    }
  }

  lemma BodyRuns(s: State, key: string, m: nat, w: World)
    requires s == Within(s, key, Locked(m))
    ensures Run(s, Body(s.cached, key, w)) == Some(Served(s, key, m, w))
  {
    var look, looked := Look(0, w.readable, w.deleted), Looked(s, key, m, w);
    RunOne(s, look);
    Looks(s, key, m, w);
    if Asks(s.cached, key, w) {
      AskingRuns(looked, key, m, w);
      RunConcat(s, [look], Asking(w));
    } else {
      assert Body(s.cached, key, w) == [look];
    }
  }

  /** What it leaves in the backend. */
  lemma ServedLeaves(s: State, key: string, m: nat, w: World)
    requires s == Within(s, key, Locked(m))
    ensures var t := Served(s, key, m, w);
            t.cached == Left(s.cached, key, w) && t == Within(t, key, Leaving(m)) && t.locks == s.locks
  {
    assert s.cached - {key} + {key} == s.cached + {key};
  }

  /** A Fetch alone, from an idle state to an idle state. */
  lemma CourseRuns(s: State, key: string, w: World)
    requires s.calls == map[] && s.holders == map[]
    ensures var t := Run(s, Course(s.cached, key, w));
            && t.Some? && t.value.locks == WithLock(s.locks, key) && t.value.cached == Left(s.cached, key, w)
            && t.value.calls == map[] && t.value.holders == map[]
  {
    var m, body := WithLock(s.locks, key)[key], Body(s.cached, key, w);
    EnterRuns(s, key);
    var inside := Run(s, Enter(key)).value;
    BodyRuns(inside, key, m, w);
    ServedLeaves(inside, key, m, w);
    RunConcat(s, Enter(key), body);
    RunMore(s, Enter(key) + body, Served(inside, key, m, w), Unlock(0));
    UnlocksLast(Served(inside, key, m, w), key, m);
  }

  lemma UnlocksLast(s: State, key: string, m: nat)
    requires s == Within(s, key, Leaving(m))
    ensures Apply(s, Unlock(0)) == Some(s.(calls := map[], holders := map[]))
  {
    assert One(key, Leaving(m)) - {0} == map[];
    assert map[m := 0 as nat] - {m} == map[];
  }

  /** Idle, with these locks and entries. */
  ghost predicate Idle(steps: seq<Step>, locks: map<string, nat>, entries: set<string>) {
    match Run(Start, steps)
    case None => false
    case Some(s) => s.locks == locks && s.cached == entries && s.calls == map[] && s.holders == map[]
  }

  /** A Fetch extends an idle run to an idle run. */
  lemma IdleFetch(steps: seq<Step>, locks: map<string, nat>, entries: set<string>, key: string, w: World)
    requires Idle(steps, locks, entries)
    ensures Idle(steps + Course(entries, key, w), WithLock(locks, key), Left(entries, key, w))
  {
    CourseRuns(Run(Start, steps).value, key, w);
    RunConcat(Start, steps, Course(entries, key, w));
  }

  lemma IdleEvict(steps: seq<Step>, locks: map<string, nat>, entries: set<string>, key: string, ok: bool)
    requires Idle(steps, locks, entries)
    ensures Idle(steps + [Evict(key, ok)], locks, if ok then entries - {key} else entries)
  {
    RunMore(Start, steps, Run(Start, steps).value, Evict(key, ok));
  }

  ghost predicate AllFree(locks: map<string, Mutex>)
    reads locks.Values
  {
    forall k :: k in locks ==> !locks[k].held
  }

  class Layer {
    const keys: KeyLocks
    var entries: set<string>   // the keys the backend holds
    ghost var steps: seq<Step>

    /** Between calls: a run of the protocol has led to this lock table and these entries, and every mutex is free. */
    ghost predicate Valid()
      reads this, keys, keys.locks.Values
    {
      keys.Valid() && Idle(steps, keys.Table(), entries) && AllFree(keys.locks)
    }

    constructor ()
      ensures Valid() && fresh(keys) && steps == [] && entries == {}
    {
      keys := new KeyLocks();
      entries := {};
      steps := [];
      new;
      assert keys.Table() == map[];
    }

    /** Under the key's mutex: a readable entry is served, anything else asks the next layer once. */
    method Serve(key: string, w: World) returns (hit: bool)
      requires key in keys.locks && keys.locks[key].held
      modifies `entries
      ensures hit <==> (Asks(old(entries), key, w) ==> w.hit)
      ensures entries == Left(old(entries), key, w)
    {
      if key in entries && w.readable {
        return true;
      }
      if !w.readable && w.deleted {
        entries := entries - {key};
      }
      if w.hit && w.written {
        entries := entries + {key};
      }
      return w.hit;
    }

    method Fetch(key: string, w: World) returns (hit: bool)
      requires Valid()
      modifies this, keys, keys.locks.Values
      ensures Valid() && steps == old(steps) + Course(old(entries), key, w)
      ensures hit <==> (key in old(entries) && w.readable) || w.hit
      ensures entries - {key} == old(entries) - {key}
      ensures key in old(entries) && w.readable ==> key in entries
      ensures !(key in old(entries) && w.readable) ==>
                (key in entries <==> (w.hit && w.written) || (key in old(entries) && !w.deleted))
    {
      IdleFetch(steps, keys.Table(), entries, key, w);
      steps := steps + Course(entries, key, w);
      hit := Guarded(key, w);
    }

    /** lock(key), Lock, the body, Unlock. */
    method Guarded(key: string, w: World) returns (hit: bool)
      requires keys.Valid() && AllFree(keys.locks)
      modifies `entries, keys, keys.locks.Values
      ensures keys.Valid() && AllFree(keys.locks) && keys.Table() == WithLock(old(keys.Table()), key)
      ensures hit <==> (Asks(old(entries), key, w) ==> w.hit)
      ensures entries == Left(old(entries), key, w)
    {
      var lk := keys.Lock(key);
      ghost var locks, table := keys.locks, keys.Table();
      assert AllFree(locks);
      lk.Lock();
      hit := Serve(key, w);
      lk.Unlock();
      assert keys.locks == locks && keys.Table() == table;
      assert forall k :: k in locks ==> locks[k] == lk || !locks[k].held;
    }

    method Evict(key: string, ok: bool)
      requires Valid()
      modifies this
      ensures Valid() && steps == old(steps) + [Step.Evict(key, ok)]
      ensures entries == if ok then old(entries) - {key} else old(entries)
    {
      IdleEvict(steps, keys.Table(), entries, key, ok);
      steps := steps + [Step.Evict(key, ok)];
      if ok {
        entries := entries - {key};
      }
    }
  }
}
