/**
 * internal/project/tracker.go: the asynchronous dependency tracker.
 *
 * Track, Flush and Shutdown run in request goroutines while one flusher
 * goroutine owns the batch. The model is a state machine whose steps are the
 * atomic operations of those goroutines (channel operations, atomic adds, the
 * compare-and-swap, one store call), so a run is any interleaving. Request
 * goroutines are interchangeable, so the ones inside Track are counted by what
 * they are about to do rather than named.
 */
module TrackerProtocol {
  import opened Basics
  import opened DependencyStore

  type Rec = DependencyRecord

  datatype Config = Config(batchSize: nat, capacity: nat)

  ghost predicate WellFormed(c: Config) {
    1 <= c.batchSize <= c.capacity
  }

  /** NewTracker's defaulting: a batch of at least 1, a buffer of at least two batches and 1024. */
  function NewConfig(batchSize: int): (c: Config)
    ensures WellFormed(c) && c.capacity >= 1024 && c.capacity >= 2 * c.batchSize
    ensures c.batchSize == if batchSize >= 1 then batchSize else 100
    ensures c.capacity == 1024 || c.capacity == 2 * c.batchSize
  {
    var batch := if batchSize <= 0 then 100 else batchSize;
    Config(batch, Max(2 * batch, 1024))
  }

  // Where the flusher goes when the closure `flush` returns.
  datatype Next = ToSelect | ToDrain | ToExit

  datatype Flusher =
    | Selecting
    | Draining
    | Storing(next: Next)            // inside store.UpsertBatch
    | Counting(n: nat, next: Next)   // recordDrops(n): before dropped.Add
    | Noting(n: nat, next: Next)     // recordDrops(n): before droppedSinceReport.Add
    | Exited                         // close(done) executed

  datatype Interval = Interval(drops: nat, warnings: nat)

  // buf, the flusher's batch, and two history sequences: every record ever put
  // into buf, and every batch ever handed to the store.
  datatype Queue = Queue(channel: seq<Rec>, batch: seq<Rec>, enqueued: seq<Rec>, handed: seq<seq<Rec>>)

  // History: what became of the records that passed the closed check. `sending`
  // are the Track calls before their send; `doubled` are rows of the earlier
  // chunks of a failed flush, which are persisted and still counted as lost.
  datatype Fates = Fates(accepted: multiset<Rec>, sending: multiset<Rec>, persisted: multiset<Rec>,
                         lost: multiset<Rec>, doubled: multiset<Rec>)

  // The atomic counters, the Track calls before each half of recordDrops(1), and
  // the log: warnings in this report interval, and the closed intervals.
  datatype Counters = Counters(dropped: nat, sinceReport: nat, counting: nat, noting: nat,
                               warnings: nat, intervals: seq<Interval>)

  datatype State = State(closed: bool, bufClosed: bool, flushRequested: bool, flusher: Flusher,
                         queue: Queue, fates: Fates, counters: Counters)

  const Initial := State(false, false, false, Selecting, Queue([], [], [], []),
                         Fates(multiset{}, multiset{}, multiset{}, multiset{}, multiset{}),
                         Counters(0, 0, 0, 0, 0, []))

  datatype Step =
    | CheckClosed(rec: Rec)  // Track: closed.Load()
    | Send(rec: Rec)         // Track: the select around the send
    | CountDrop              // Track: recordDrops(1), first atomic add
    | NoteDrop               // Track: recordDrops(1), second atomic add
    | RequestFlush           // Flush
    | FlushTick
    | ReportTick             // droppedSinceReport.Swap(0)
    | BeginDrain
    | Receive
    | DrainEmpty             // drain: the default arm
    | SeeClosed              // receive on the closed, empty channel
    | StoreOk
    | StoreFail(landed: nat) // UpsertBatch failed after `landed` rows of whole chunks
    | CountBatch
    | NoteBatch
    | ShutdownSwap           // Shutdown: closed.CompareAndSwap
    | ShutdownClose          // Shutdown: close(buf)

  function Goto(next: Next): Flusher {
    match next
    case ToSelect => Selecting
    case ToDrain => Draining
    case ToExit => Exited
  }

  /** The closure `flush`: nothing to do on an empty batch, one store call otherwise. */
  function StartFlush(batch: seq<Rec>, next: Next): Flusher {
    if batch == [] then Goto(next) else Storing(next)
  }

  function HandOver(q: Queue): Queue {
    q.(batch := [], handed := q.handed + [q.batch])
  }

  /** The second half of recordDrops: the warning fires on the 0 -> positive transition. */
  function Note(k: Counters, n: nat): Counters {
    var after := k.sinceReport + n;
    k.(sinceReport := after, warnings := if after == n then k.warnings + 1 else k.warnings)
  }

  /** One atomic step; None when the step is not possible in `s`. */
  function Apply(c: Config, s: State, step: Step): Option<State> {
    match step
    case CheckClosed(r) =>
      if s.closed then Some(s)
      else Some(s.(fates := s.fates.(accepted := s.fates.accepted + multiset{r},
                                     sending := s.fates.sending + multiset{r})))
    case Send(r) =>
      if r !in s.fates.sending then None
      else
        var f := s.fates.(sending := s.fates.sending - multiset{r});
        if !s.bufClosed && |s.queue.channel| < c.capacity then
          Some(s.(fates := f, queue := s.queue.(channel := s.queue.channel + [r], enqueued := s.queue.enqueued + [r])))
        else  // buffer full, or the recovered panic of a send on the closed channel
          Some(s.(fates := f.(lost := f.lost + multiset{r}),
                  counters := s.counters.(counting := s.counters.counting + 1)))
    case CountDrop =>
      var k := s.counters;
      if k.counting == 0 then None
      else Some(s.(counters := k.(counting := k.counting - 1, dropped := k.dropped + 1, noting := k.noting + 1)))
    case NoteDrop =>
      var k := s.counters;
      if k.noting == 0 then None else Some(s.(counters := Note(k.(noting := k.noting - 1), 1)))
    case RequestFlush => Some(s.(flushRequested := true))
    case FlushTick =>
      if s.flusher.Selecting? then Some(s.(flusher := StartFlush(s.queue.batch, ToSelect))) else None
    case ReportTick =>
      var k := s.counters;
      if s.flusher.Selecting? then
        Some(s.(counters := k.(sinceReport := 0, warnings := 0,
                               intervals := k.intervals + [Interval(k.sinceReport, k.warnings)])))
      else None
    case BeginDrain =>
      if s.flusher.Selecting? && s.flushRequested then Some(s.(flusher := Draining, flushRequested := false)) else None
    case Receive =>
      var q := s.queue;
      if (s.flusher.Selecting? || s.flusher.Draining?) && q.channel != [] then
        var batch := q.batch + [q.channel[0]];
        Some(s.(queue := q.(channel := q.channel[1..], batch := batch),
                flusher := if |batch| < c.batchSize then s.flusher
                           else StartFlush(batch, if s.flusher.Selecting? then ToSelect else ToDrain)))
      else None
    case DrainEmpty =>
      if s.flusher.Draining? && s.queue.channel == [] && !s.bufClosed then
        Some(s.(flusher := StartFlush(s.queue.batch, ToSelect)))
      else None
    case SeeClosed =>
      if s.queue.channel == [] && s.bufClosed then
        if s.flusher.Draining? then Some(s.(flusher := Selecting))
        else if s.flusher.Selecting? then Some(s.(flusher := StartFlush(s.queue.batch, ToExit)))
        else None
      else None
    case StoreOk =>
      if s.flusher.Storing? then
        Some(s.(flusher := Goto(s.flusher.next), queue := HandOver(s.queue),
                fates := s.fates.(persisted := s.fates.persisted + multiset(s.queue.batch))))
      else None
    case StoreFail(landed) =>
      var batch, f := s.queue.batch, s.fates;
      if s.flusher.Storing? && landed < |batch| && landed % MAX_BATCH_ROWS == 0 then
        Some(s.(flusher := Counting(|batch|, s.flusher.next), queue := HandOver(s.queue),
                fates := f.(lost := f.lost + multiset(batch),
                            persisted := f.persisted + multiset(batch[..landed]),
                            doubled := f.doubled + multiset(batch[..landed]))))
      else None
    case CountBatch =>
      if s.flusher.Counting? then
        Some(s.(counters := s.counters.(dropped := s.counters.dropped + s.flusher.n),
                flusher := Noting(s.flusher.n, s.flusher.next)))
      else None
    case NoteBatch =>
      if s.flusher.Noting? then
        Some(s.(counters := Note(s.counters, s.flusher.n), flusher := Goto(s.flusher.next)))
      else None
    case ShutdownSwap => Some(s.(closed := true))
    case ShutdownClose =>
      if s.closed && !s.bufClosed then Some(s.(bufClosed := true)) else None
  }

  /** State i + 1 of `run` follows from state i by one atomic step. */
  ghost predicate Follows(c: Config, run: seq<State>, i: nat)
    requires i + 1 < |run|
  {
    exists step :: Apply(c, run[i], step) == Some(run[i + 1])
  }

  /** An interleaving: a sequence of states, each one step after the other. */
  ghost predicate IsRun(c: Config, run: seq<State>) {
    run != [] && forall i: nat :: i + 1 < |run| ==> Follows(c, run, i)
  }

  /** Some run takes `s` to `t`. */
  ghost predicate Leads(c: Config, s: State, t: State) {
    exists run :: IsRun(c, run) && run[0] == s && run[|run| - 1] == t
  }

  ghost predicate Reachable(c: Config, s: State) {
    Leads(c, Initial, s)
  }

  lemma LeadsRefl(c: Config, s: State)
    ensures Leads(c, s, s)
  {
    assert IsRun(c, [s]);
  }

  lemma LeadsStep(c: Config, s: State, t: State, step: Step, u: State)
    requires Leads(c, s, t) && Apply(c, t, step) == Some(u)
    ensures Leads(c, s, u)
  {
    var run :| IsRun(c, run) && run[0] == s && run[|run| - 1] == t;
    forall i: nat | i + 1 < |run + [u]|
      ensures Follows(c, run + [u], i)
    {
      var more := run + [u];
      if i + 1 < |run| {
        assert Follows(c, run, i);
        var earlier :| Apply(c, run[i], earlier) == Some(run[i + 1]);
        assert Apply(c, more[i], earlier) == Some(more[i + 1]);
      } else {
        assert Apply(c, more[i], step) == Some(more[i + 1]);
      }
    }
    assert IsRun(c, run + [u]);
  }

  /** A run without its last step is a run. */
  lemma RunFront(c: Config, run: seq<State>)
    requires IsRun(c, run) && |run| > 1
    ensures IsRun(c, run[..|run| - 1]) && Follows(c, run, |run| - 2)
  {
    var front := run[..|run| - 1];
    forall i: nat | i + 1 < |front|
      ensures Follows(c, front, i)
    {
      assert Follows(c, run, i);
    }
  }

  lemma {:induction false} LeadsTrans(c: Config, s: State, t: State, u: State)
    requires Leads(c, s, t) && Leads(c, t, u)
    ensures Leads(c, s, u)
  {
    var run :| IsRun(c, run) && run[0] == t && run[|run| - 1] == u;
    LeadsAlong(c, s, run);
  }

  lemma {:induction false} LeadsAlong(c: Config, s: State, run: seq<State>)
    requires IsRun(c, run) && Leads(c, s, run[0])
    ensures Leads(c, s, run[|run| - 1])
    decreases |run|
  {
    if |run| > 1 {
      RunFront(c, run);
      LeadsAlong(c, s, run[..|run| - 1]);
      var step :| Apply(c, run[|run| - 2], step) == Some(run[|run| - 1]);
      LeadsStep(c, s, run[|run| - 2], step, run[|run| - 1]);
    }
  }

  // --------------------------------------------------------------- invariants

  /**
   * Conservation: every record past the closed check is in exactly one of
   * pending send, channel, current batch, persisted or lost - except that rows
   * of earlier chunks of a failed flush are persisted and lost at once.
   */
  ghost predicate Conserved(f: Fates, q: Queue) {
    f.accepted + f.doubled == f.sending + f.persisted + f.lost + multiset(q.channel) + multiset(q.batch)
  }

  /** Order: batches handed over, then the current batch, then the channel, are the enqueue order. */
  ghost predicate Ordered(q: Queue) {
    Flatten(q.handed) + q.batch + q.channel == q.enqueued
  }

  function FlusherCounting(f: Flusher): nat {
    if f.Counting? then f.n else 0
  }

  function FlusherNoting(f: Flusher): nat {
    if f.Noting? then f.n else 0
  }

  function TotalDrops(intervals: seq<Interval>): nat {
    if intervals == [] then 0
    else TotalDrops(intervals[..|intervals| - 1]) + intervals[|intervals| - 1].drops
  }

  /** `dropped` lags the lost records by recordDrops calls before their first half only. */
  ghost predicate LostCounted(s: State) {
    |s.fates.lost| == s.counters.dropped + s.counters.counting + FlusherCounting(s.flusher)
  }

  /** `droppedSinceReport` lags `dropped` by recordDrops calls between their halves only. */
  ghost predicate DropsReported(f: Flusher, k: Counters) {
    k.dropped == TotalDrops(k.intervals) + k.sinceReport + k.noting + FlusherNoting(f)
  }

  /** Exactly one first-drop warning per report interval with drops, none otherwise. */
  ghost predicate WarnedOnce(s: State) {
    && s.counters.warnings == (if s.counters.sinceReport > 0 then 1 else 0)
    && forall i :: 0 <= i < |s.counters.intervals| ==>
      s.counters.intervals[i].warnings == if s.counters.intervals[i].drops > 0 then 1 else 0
  }

  ghost predicate Bounded(c: Config, s: State) {
    && |s.queue.channel| <= c.capacity
    && (forall i :: 0 <= i < |s.queue.handed| ==> 1 <= |s.queue.handed[i]| <= c.batchSize)
    && (s.flusher.Selecting? || s.flusher.Draining? ==> |s.queue.batch| < c.batchSize)
    && (s.flusher.Storing? ==> 1 <= |s.queue.batch| <= c.batchSize)
    && (s.flusher.Counting? || s.flusher.Noting? ==> s.queue.batch == [] && s.flusher.n >= 1)
  }

  /** The flusher leaves only through the closed, empty channel. */
  ghost predicate Drained(s: State) {
    && (s.bufClosed ==> s.closed)
    && ((s.flusher.Storing? || s.flusher.Counting? || s.flusher.Noting?) && s.flusher.next.ToExit? ==>
          s.bufClosed && s.queue.channel == [])
    && (s.flusher.Exited? ==> s.bufClosed && s.queue.channel == [] && s.queue.batch == [])
  }

  /** With batches of at most 500 a failed flush is one chunk, and nothing is doubled. */
  ghost predicate Exact(c: Config, s: State) {
    c.batchSize <= MAX_BATCH_ROWS ==> s.fates.doubled == multiset{}
  }

  /** Doubled rows are both persisted and lost. */
  ghost predicate DoubledIsBoth(f: Fates) {
    f.doubled <= f.persisted && f.doubled <= f.lost
  }

  ghost predicate Inv(c: Config, s: State) {
    Conserved(s.fates, s.queue) && Ordered(s.queue) && LostCounted(s) && DropsReported(s.flusher, s.counters)
    && WarnedOnce(s) && DoubledIsBoth(s.fates) && Bounded(c, s) && Drained(s) && Exact(c, s)
  }

  lemma ConservedReceive(f: Fates, q: Queue)
    requires Conserved(f, q) && q.channel != []
    ensures Conserved(f, q.(channel := q.channel[1..], batch := q.batch + [q.channel[0]]))
  {
    assert q.channel == [q.channel[0]] + q.channel[1..];
  }

  lemma ConservedStoreOk(f: Fates, q: Queue)
    requires Conserved(f, q)
    ensures Conserved(f.(persisted := f.persisted + multiset(q.batch)), HandOver(q))
  {
    assert multiset(HandOver(q).batch) == multiset{};
  }

  lemma ConservedStoreFail(f: Fates, q: Queue, m: multiset<Rec>)
    requires Conserved(f, q)
    ensures Conserved(f.(lost := f.lost + multiset(q.batch), persisted := f.persisted + m, doubled := f.doubled + m),
                      HandOver(q))
  {
    assert multiset(HandOver(q).batch) == multiset{};
    var before := f.sending + f.persisted + f.lost + multiset(q.channel) + multiset(q.batch);
    assert (f.accepted + f.doubled) + m == before + m;
    assert f.accepted + (f.doubled + m) == (f.accepted + f.doubled) + m;
  }

  lemma ConservedSend(f: Fates, q: Queue, r: Rec)
    requires Conserved(f, q) && r in f.sending
    ensures var g := f.(sending := f.sending - multiset{r});
            Conserved(g, q.(channel := q.channel + [r], enqueued := q.enqueued + [r]))
            && Conserved(g.(lost := g.lost + multiset{r}), q)
  {
    assert f.sending == (f.sending - multiset{r}) + multiset{r};
  }

  lemma ConservedStep(c: Config, s: State, step: Step)
    requires Conserved(s.fates, s.queue) && Apply(c, s, step).Some?
    ensures Conserved(Apply(c, s, step).value.fates, Apply(c, s, step).value.queue)
  {
    match step
    case Receive => ConservedReceive(s.fates, s.queue);
    case StoreFail(landed) => ConservedStoreFail(s.fates, s.queue, multiset(s.queue.batch[..landed]));
    case StoreOk => ConservedStoreOk(s.fates, s.queue);
    case Send(r) => ConservedSend(s.fates, s.queue, r);
    case CheckClosed(r) =>
      var f, q, m := s.fates, s.queue, multiset{r};
      assert (f.accepted + f.doubled) + m == (f.accepted + m) + f.doubled;
    case _ =>
  }

  lemma OrderedReceive(q: Queue)
    requires Ordered(q) && q.channel != []
    ensures Ordered(q.(channel := q.channel[1..], batch := q.batch + [q.channel[0]]))
  {
    var done := Flatten(q.handed);
    assert (done + (q.batch + [q.channel[0]])) + q.channel[1..] == (done + q.batch) + q.channel;
  }

  lemma OrderedHandOver(q: Queue)
    requires Ordered(q)
    ensures Ordered(HandOver(q))
  {
    FlattenAppend(q.handed, q.batch);
    assert Flatten(HandOver(q).handed) + [] == Flatten(q.handed) + q.batch;
  }

  lemma OrderedSend(q: Queue, r: Rec)
    requires Ordered(q)
    ensures Ordered(q.(channel := q.channel + [r], enqueued := q.enqueued + [r]))
  {
    var front := Flatten(q.handed) + q.batch;
    assert front + (q.channel + [r]) == (front + q.channel) + [r];
  }

  lemma OrderedStep(c: Config, s: State, step: Step)
    requires Ordered(s.queue) && Apply(c, s, step).Some?
    ensures Ordered(Apply(c, s, step).value.queue)
  {
    match step
    case Receive => OrderedReceive(s.queue);
    case StoreOk => OrderedHandOver(s.queue);
    case StoreFail(_) => OrderedHandOver(s.queue);
    case Send(r) => OrderedSend(s.queue, r);
    case _ =>
  }

  lemma LostStep(c: Config, s: State, step: Step)
    requires LostCounted(s) && Bounded(c, s) && Apply(c, s, step).Some?
    ensures LostCounted(Apply(c, s, step).value)
  {
    if step.Send? {
      LostSend(c, s, step.rec);
    } else if step.StoreFail? {
      LostBatch(c, s, step.landed);
    }
  }

  lemma LostSend(c: Config, s: State, r: Rec)
    requires LostCounted(s) && Apply(c, s, Send(r)).Some?
    ensures LostCounted(Apply(c, s, Send(r)).value)
  {
  }

  lemma LostBatch(c: Config, s: State, landed: nat)
    requires LostCounted(s) && Apply(c, s, StoreFail(landed)).Some?
    ensures LostCounted(Apply(c, s, StoreFail(landed)).value)
  {
  }

  lemma ReportedStep(c: Config, s: State, step: Step)
    requires DropsReported(s.flusher, s.counters) && Bounded(c, s) && Apply(c, s, step).Some?
    ensures DropsReported(Apply(c, s, step).value.flusher, Apply(c, s, step).value.counters)
  {
    if step.ReportTick? {
      var i := Interval(s.counters.sinceReport, s.counters.warnings);
      assert (s.counters.intervals + [i])[..|s.counters.intervals|] == s.counters.intervals;
    }
  }

  lemma WarnedStep(c: Config, s: State, step: Step)
    requires WarnedOnce(s) && Bounded(c, s) && Apply(c, s, step).Some?
    ensures WarnedOnce(Apply(c, s, step).value)
  {
  }

  lemma BoundedStep(c: Config, s: State, step: Step)
    requires WellFormed(c) && Bounded(c, s) && Apply(c, s, step).Some?
    ensures Bounded(c, Apply(c, s, step).value)
  {
  }

  lemma DrainedStep(c: Config, s: State, step: Step)
    requires Drained(s) && Bounded(c, s) && Apply(c, s, step).Some?
    ensures Drained(Apply(c, s, step).value)
  {
  }

  lemma ExactStep(c: Config, s: State, step: Step)
    requires Exact(c, s) && Bounded(c, s) && Apply(c, s, step).Some?
    ensures Exact(c, Apply(c, s, step).value)
  {
    if step.StoreFail? && c.batchSize <= MAX_BATCH_ROWS {
      assert step.landed < MAX_BATCH_ROWS && step.landed == 0;
      assert s.queue.batch[..0] == [];
    }
  }

  lemma DoubledStoreFail(f: Fates, batch: seq<Rec>, landed: nat)
    requires DoubledIsBoth(f) && landed <= |batch|
    ensures var m := multiset(batch[..landed]);
            DoubledIsBoth(f.(lost := f.lost + multiset(batch), persisted := f.persisted + m, doubled := f.doubled + m))
  {
    assert batch == batch[..landed] + batch[landed..];
  }

  lemma DoubledStep(c: Config, s: State, step: Step)
    requires DoubledIsBoth(s.fates) && Apply(c, s, step).Some?
    ensures DoubledIsBoth(Apply(c, s, step).value.fates)
  {
    if step.StoreFail? {
      DoubledStoreFail(s.fates, s.queue.batch, step.landed);
    }
  }

  /** Every step of every goroutine keeps the invariant. */
  lemma StepKeepsInv(c: Config, s: State, step: Step)
    requires WellFormed(c) && Inv(c, s) && Apply(c, s, step).Some?
    ensures Inv(c, Apply(c, s, step).value)
  {
    ConservedStep(c, s, step);
    OrderedStep(c, s, step);
    LostStep(c, s, step);
    ReportedStep(c, s, step);
    WarnedStep(c, s, step);
    BoundedStep(c, s, step);
    DrainedStep(c, s, step);
    ExactStep(c, s, step);
    DoubledStep(c, s, step);
  }

  /** Every state of every interleaving satisfies the invariant. */
  lemma {:induction false} RunKeepsInv(c: Config, run: seq<State>)
    requires WellFormed(c) && IsRun(c, run) && Inv(c, run[0])
    ensures Inv(c, run[|run| - 1])
    decreases |run|
  {
    if |run| > 1 {
      RunFront(c, run);
      RunKeepsInv(c, run[..|run| - 1]);
      var step :| Apply(c, run[|run| - 2], step) == Some(run[|run| - 1]);
      StepKeepsInv(c, run[|run| - 2], step);
    }
  }

  lemma InitialInv(c: Config)
    requires WellFormed(c)
    ensures Inv(c, Initial)
  {
    var s := Initial;
    assert Conserved(s.fates, s.queue) && LostCounted(s) by {
      assert multiset(s.queue.channel) == multiset(s.queue.batch) == multiset{};
    }
    assert Bounded(c, s) && Drained(s) && Exact(c, s) && WarnedOnce(s);
  }

  lemma LeadsKeepsInv(c: Config, s: State, t: State)
    requires WellFormed(c) && Inv(c, s) && Leads(c, s, t)
    ensures Inv(c, t)
  {
    var run :| IsRun(c, run) && run[0] == s && run[|run| - 1] == t;
    RunKeepsInv(c, run);
  }

  lemma ReachableInv(c: Config, s: State)
    requires WellFormed(c) && Reachable(c, s)
    ensures Inv(c, s)
  {
    InitialInv(c);
    LeadsKeepsInv(c, Initial, s);
  }

  // ------------------------------------------------------------- main results

  /** Conservation of records, in every interleaving. */
  lemma Conservation(c: Config, s: State)
    requires WellFormed(c) && Reachable(c, s)
    ensures s.fates.accepted + s.fates.doubled ==
            s.fates.sending + s.fates.persisted + s.fates.lost + multiset(s.queue.channel) + multiset(s.queue.batch)
    ensures c.batchSize <= MAX_BATCH_ROWS ==> s.fates.doubled == multiset{}
    ensures s.fates.doubled <= s.fates.persisted && s.fates.doubled <= s.fates.lost
  {
    ReachableInv(c, s);
  }

  /** When no recordDrops is half done, Dropped() is the number of lost records and is reported in full. */
  lemma DropAccounting(c: Config, s: State)
    requires WellFormed(c) && Reachable(c, s)
    requires s.counters.counting == s.counters.noting == 0 && !s.flusher.Counting? && !s.flusher.Noting?
    ensures s.counters.dropped == |s.fates.lost| == TotalDrops(s.counters.intervals) + s.counters.sinceReport
    ensures s.counters.warnings == (if s.counters.sinceReport > 0 then 1 else 0)
    ensures forall i :: 0 <= i < |s.counters.intervals| ==>
              s.counters.intervals[i].warnings == if s.counters.intervals[i].drops > 0 then 1 else 0
  {
    ReachableInv(c, s);
  }

  /** Batches leave in enqueue order, each of 1 to BatchSize records. */
  lemma OrderAndSize(c: Config, s: State)
    requires WellFormed(c) && Reachable(c, s)
    ensures Flatten(s.queue.handed) + s.queue.batch + s.queue.channel == s.queue.enqueued
    ensures forall i :: 0 <= i < |s.queue.handed| ==> 1 <= |s.queue.handed[i]| <= c.batchSize
    ensures |s.queue.channel| <= c.capacity && |s.queue.batch| <= c.batchSize
  {
    ReachableInv(c, s);
  }

  /**
   * The first Shutdown returns nil only after close(done): by then every record
   * ever enqueued has been handed to the store, and stays so whatever runs on.
   */
  lemma ShutdownDrains(c: Config, s: State, t: State)
    requires WellFormed(c) && Reachable(c, s) && s.flusher.Exited? && Leads(c, s, t)
    ensures Flatten(s.queue.handed) == s.queue.enqueued
    ensures t.queue.handed == s.queue.handed && t.queue.enqueued == s.queue.enqueued
  {
    ReachableInv(c, s);
    assert Flatten(s.queue.handed) + s.queue.batch + s.queue.channel == Flatten(s.queue.handed);
    var run :| IsRun(c, run) && run[0] == s && run[|run| - 1] == t;
    ExitedStays(c, run);
  }

  lemma {:induction false} ExitedStays(c: Config, run: seq<State>)
    requires IsRun(c, run) && run[0].flusher.Exited? && run[0].bufClosed
    ensures var t := run[|run| - 1];
            t.flusher.Exited? && t.bufClosed && t.queue.handed == run[0].queue.handed
              && t.queue.enqueued == run[0].queue.enqueued
    decreases |run|
  {
    if |run| > 1 {
      RunFront(c, run);
      ExitedStays(c, run[..|run| - 1]);
    }
  }

  /**
   * A second Shutdown returns nil at once: the state in which it does may still
   * hold an undelivered record. Only the call that wins the swap waits.
   */
  lemma SecondShutdownDoesNotWait(c: Config, r: Rec)
    requires WellFormed(c)
    ensures exists s :: Reachable(c, s) && Apply(c, s, ShutdownSwap) == Some(s)
                        && s.queue.handed == [] && s.queue.enqueued == [r]
  {
    var s1 := Apply(c, Initial, CheckClosed(r)).value;
    var s2 := Apply(c, s1, Send(r)).value;
    LeadsRefl(c, Initial);
    LeadsStep(c, Initial, Initial, CheckClosed(r), s1);
    LeadsStep(c, Initial, s1, Send(r), s2);
    LeadsStep(c, Initial, s2, ShutdownSwap, s2.(closed := true));
  }

  /** How much flusher work is left once the channel is closed. */
  function Work(s: State): nat {
    6 * |s.queue.channel| + (if s.queue.batch == [] then 0 else 5) +
      match s.flusher
      case Exited => 0
      case Storing(_) => 1
      case Selecting => 2
      case Draining => 3
      case Noting(_, _) => 4
      case Counting(_, _) => 5
  }

  /**
   * What the store answers to its calls: None for success, Some(landed) for a
   * failure after that many rows. Only whole chunks before the last can land; any
   * other number stands for a failure of the first chunk.
   */
  type Answers = nat -> Option<nat>

  function Landed(batch: seq<Rec>, answer: Option<nat>): (n: nat)
    ensures n <= |batch|
  {
    if answer.None? then |batch|
    else if answer.value < |batch| && answer.value % MAX_BATCH_ROWS == 0 then answer.value
    else 0
  }

  /** The rows that batches i, i + 1, … of `handed` leave in the store under these answers. */
  function Persists(handed: seq<seq<Rec>>, i: nat, answers: Answers): multiset<Rec>
    decreases |handed| - i
  {
    if i >= |handed| then multiset{}
    else multiset(handed[i][..Landed(handed[i], answers(i))]) + Persists(handed, i + 1, answers)
  }

  /** The records of those batches whose store call failed. */
  function Loses(handed: seq<seq<Rec>>, i: nat, answers: Answers): multiset<Rec>
    decreases |handed| - i
  {
    if i >= |handed| then multiset{}
    else (if answers(i).Some? then multiset(handed[i]) else multiset{}) + Loses(handed, i + 1, answers)
  }

  /** From s to t the flusher handed over batches, and each met its fate by the store's answer to it. */
  ghost predicate Answered(s: State, t: State, answers: Answers) {
    && s.queue.enqueued == t.queue.enqueued && s.queue.handed <= t.queue.handed
    && t.fates.persisted == s.fates.persisted + Persists(t.queue.handed, |s.queue.handed|, answers)
    && t.fates.lost == s.fates.lost + Loses(t.queue.handed, |s.queue.handed|, answers)
  }

  /** The flusher's next move on a closed channel. */
  function FlusherStep(s: State, answers: Answers): Step {
    match s.flusher
    case Storing(_) =>
      var answer := answers(|s.queue.handed|);
      if answer.None? then StoreOk else StoreFail(Landed(s.queue.batch, answer))
    case Counting(_, _) => CountBatch
    case Noting(_, _) => NoteBatch
    case _ => if s.queue.channel == [] then SeeClosed else Receive
  }

  lemma FlusherAdvances(c: Config, s: State, answers: Answers)
    requires WellFormed(c) && Bounded(c, s) && s.bufClosed && !s.flusher.Exited?
    ensures var t := Apply(c, s, FlusherStep(s, answers));
            t.Some? && t.value.bufClosed && Work(t.value) < Work(s)
  {
  }

  /** One move of the flusher: a store call hands over the batch, anything else leaves the fates alone. */
  ghost predicate Moved(s: State, next: State, answers: Answers) {
    var i, batch := |s.queue.handed|, s.queue.batch;
    && next.queue.enqueued == s.queue.enqueued
    && next.queue.handed == (if s.flusher.Storing? then s.queue.handed + [batch] else s.queue.handed)
    && next.fates.persisted == s.fates.persisted +
         (if s.flusher.Storing? then multiset(batch[..Landed(batch, answers(i))]) else multiset{})
    && next.fates.lost == s.fates.lost +
         (if s.flusher.Storing? && answers(i).Some? then multiset(batch) else multiset{})
  }

  lemma FlusherMoves(c: Config, s: State, answers: Answers)
    requires WellFormed(c) && Bounded(c, s) && s.bufClosed && !s.flusher.Exited?
    requires Apply(c, s, FlusherStep(s, answers)).Some?
    ensures Moved(s, Apply(c, s, FlusherStep(s, answers)).value, answers)
  {
    assert s.queue.batch[..|s.queue.batch|] == s.queue.batch;
  }

  /** A move is answered when what follows it is. */
  lemma AnsweredStep(s: State, next: State, t: State, answers: Answers)
    requires Moved(s, next, answers) && Answered(next, t, answers)
    ensures Answered(s, t, answers)
  {
    if s.flusher.Storing? {
      var i := |s.queue.handed|;
      assert t.queue.handed[i] == next.queue.handed[i] == s.queue.batch;
    }
  }

  lemma {:induction false} FlusherFinishes(c: Config, s: State, answers: Answers)
    requires WellFormed(c) && Bounded(c, s) && s.bufClosed
    ensures exists t :: Leads(c, s, t) && t.flusher.Exited? && Answered(s, t, answers)
    decreases Work(s)
  {
    LeadsRefl(c, s);
    if s.flusher.Exited? {
      assert Answered(s, s, answers);
    } else {
      var step := FlusherStep(s, answers);
      FlusherAdvances(c, s, answers);
      BoundedStep(c, s, step);
      var next := Apply(c, s, step).value;
      LeadsStep(c, s, s, step, next);
      FlusherFinishes(c, next, answers);
      var t :| Leads(c, next, t) && t.flusher.Exited? && Answered(next, t, answers);
      LeadsTrans(c, s, next, t);
      FlusherMoves(c, s, answers);
      AnsweredStep(s, next, t, answers);
    }
  }

  /**
   * Shutdown is never stuck: from any reachable state with the channel closed,
   * the flusher alone can run to its exit, whatever the store answers call by
   * call. It hands over all that was enqueued, and each batch it hands over ends
   * as the answer to it says.
   */
  lemma ShutdownCanFinish(c: Config, s: State, answers: Answers)
    requires WellFormed(c) && Reachable(c, s) && s.bufClosed
    ensures exists t :: Leads(c, s, t) && t.flusher.Exited? && Answered(s, t, answers)
                        && Flatten(t.queue.handed) == s.queue.enqueued
  {
    ReachableInv(c, s);
    FlusherFinishes(c, s, answers);
    var t :| Leads(c, s, t) && t.flusher.Exited? && Answered(s, t, answers);
    LeadsTrans(c, Initial, s, t);
    LeadsRefl(c, t);
    ShutdownDrains(c, t, t);
  }
}
