/**
 * internal/project/tracker.go in its own form: the Tracker object, its methods,
 * and the arms of the flusher's select as methods. Valid() says that the
 * object's state is reached by a run of TrackerProtocol, and every method extends
 * that run; so every result about runs is a result about this code.
 */
module TrackerObject {
  import opened Basics
  import opened DependencyStore
  import opened TrackerProtocol

  /** The state after a complete, uninterrupted Track of a record that finds room. */
  ghost function Queued(s: State, r: Rec): State {
    s.(fates := s.fates.(accepted := s.fates.accepted + multiset{r}),
       queue := s.queue.(channel := s.queue.channel + [r], enqueued := s.queue.enqueued + [r]))
  }

  /** The state after a complete, uninterrupted Track of a record that finds the buffer full. */
  ghost function Dropped(s: State, r: Rec): State {
    s.(fates := LostFates(s.fates, r),
       counters := Note(s.counters.(dropped := s.counters.dropped + 1), 1))
  }

  /** The state after a successful flush. */
  ghost function SavedFlush(s: State, next: Next): State {
    s.(flusher := Goto(next), queue := HandOver(s.queue),
       fates := s.fates.(persisted := s.fates.persisted + multiset(s.queue.batch)))
  }

  /** The state after a complete, uninterrupted failed flush. */
  ghost function FailedFlush(s: State, landed: nat, next: Next): State
    requires landed <= |s.queue.batch|
  {
    var b, f := s.queue.batch, s.fates;
    s.(flusher := Goto(next), queue := HandOver(s.queue),
       fates := f.(lost := f.lost + multiset(b), persisted := f.persisted + multiset(b[..landed]),
                   doubled := f.doubled + multiset(b[..landed])),
       counters := Note(s.counters.(dropped := s.counters.dropped + |b|), |b|))
  }

  ghost function Sending(s: State, r: Rec): State {
    s.(fates := s.fates.(accepted := s.fates.accepted + multiset{r}, sending := s.fates.sending + multiset{r}))
  }

  lemma SendingApplies(c: Config, start: State, s: State, r: Rec)
    requires Leads(c, start, s) && !s.closed
    ensures Leads(c, start, Sending(s, r))
  {
    LeadsStep(c, start, s, CheckClosed(r), Sending(s, r));
  }

  lemma QueuedApplies(c: Config, start: State, s: State, r: Rec)
    requires Leads(c, start, s) && !s.closed && !s.bufClosed && |s.queue.channel| < c.capacity
    ensures Leads(c, start, Queued(s, r))
  {
    SendingApplies(c, start, s, r);
    assert Sending(s, r).fates.sending - multiset{r} == s.fates.sending;
    LeadsStep(c, start, Sending(s, r), Send(r), Queued(s, r));
  }

  /** The fates of a record that is accepted and lost. */
  ghost function LostFates(f: Fates, r: Rec): Fates {
    f.(accepted := f.accepted + multiset{r}, lost := f.lost + multiset{r})
  }

  lemma SendFull(c: Config, s: State, r: Rec)
    requires |s.queue.channel| >= c.capacity && s.counters.counting == 0
    ensures Apply(c, Sending(s, r), Send(r)) ==
            Some(s.(fates := LostFates(s.fates, r), counters := s.counters.(counting := 1)))
  {
    assert Sending(s, r).fates.sending - multiset{r} == s.fates.sending;
  }

  lemma DroppedApplies(c: Config, start: State, s: State, r: Rec)
    requires Leads(c, start, s) && !s.closed && |s.queue.channel| >= c.capacity && s.counters.counting == 0
    ensures Leads(c, start, Dropped(s, r))
  {
    SendingApplies(c, start, s, r);
    SendFull(c, s, r);
    var t := s.(fates := LostFates(s.fates, r));
    LeadsStep(c, start, Sending(s, r), Send(r), t.(counters := t.counters.(counting := 1)));
    DropApplies(c, start, t);
  }

  /** recordDrops(1) by a Track call. */
  lemma DropApplies(c: Config, start: State, s: State)
    requires s.counters.counting == 0 && Leads(c, start, s.(counters := s.counters.(counting := 1)))
    ensures Leads(c, start, s.(counters := Note(s.counters.(dropped := s.counters.dropped + 1), 1)))
  {
    var k := s.counters;
    var t := s.(counters := k.(counting := 1));
    var u := s.(counters := k.(dropped := k.dropped + 1, noting := k.noting + 1));
    LeadsStep(c, start, t, CountDrop, u);
    LeadsStep(c, start, u, NoteDrop, s.(counters := Note(k.(dropped := k.dropped + 1), 1)));
  }

  lemma FailedFlushApplies(c: Config, start: State, s: State, landed: nat)
    requires Leads(c, start, s) && s.flusher.Storing?
    requires landed < |s.queue.batch| && landed % MAX_BATCH_ROWS == 0
    ensures Leads(c, start, FailedFlush(s, landed, s.flusher.next))
  {
    var u, n := FailedFlush(s, landed, s.flusher.next), |s.queue.batch|;
    var s1 := u.(flusher := Counting(n, s.flusher.next), counters := s.counters);
    LeadsStep(c, start, s, StoreFail(landed), s1);
    DropBatchApplies(c, start, s1, u);
  }

  lemma SavedFlushApplies(c: Config, s: State, t: State)
    requires Leads(c, s, t) && t.flusher.Storing?
    ensures Leads(c, s, SavedFlush(t, t.flusher.next))
  {
    LeadsStep(c, s, t, StoreOk, SavedFlush(t, t.flusher.next));
  }

  /** recordDrops(n) by the flusher. */
  lemma DropBatchApplies(c: Config, s: State, t: State, u: State)
    requires Leads(c, s, t) && t.flusher.Counting?
    requires u == t.(flusher := Goto(t.flusher.next),
                     counters := Note(t.counters.(dropped := t.counters.dropped + t.flusher.n), t.flusher.n))
    ensures Leads(c, s, u)
  {
    var n, next, k := t.flusher.n, t.flusher.next, t.counters;
    var t1 := t.(flusher := Noting(n, next), counters := k.(dropped := k.dropped + n));
    LeadsStep(c, s, t, CountBatch, t1);
    LeadsStep(c, s, t1, NoteBatch, u);
  }

  /** The summary tick, between two calls: the counters are exact and the interval is closed. */
  lemma Reported(c: Config, s: State) returns (t: State)
    requires WellFormed(c) && Reachable(c, s) && s.flusher.Selecting?
    requires s.counters.counting == s.counters.noting == 0
    ensures var k := s.counters;
            t == s.(counters := k.(sinceReport := 0, warnings := 0,
                                   intervals := k.intervals + [Interval(k.sinceReport, k.warnings)]))
    ensures Reachable(c, t) && t.counters.dropped == TotalDrops(t.counters.intervals)
  {
    t := Apply(c, s, ReportTick).value;
    LeadsStep(c, Initial, s, ReportTick, t);
    DropAccounting(c, t);
  }

  /** The receive of the next record, up to the store call of a full batch. */
  lemma Received(c: Config, s: State) returns (t: State)
    requires WellFormed(c) && Leads(c, Initial, s) && (s.flusher.Selecting? || s.flusher.Draining?)
             && s.queue.channel != []
    ensures var q, more := s.queue, s.queue.batch + [s.queue.channel[0]];
            t == s.(queue := q.(channel := q.channel[1..], batch := more),
                    flusher := if |more| < c.batchSize then s.flusher
                               else StartFlush(more, if s.flusher.Selecting? then ToSelect else ToDrain))
    ensures Leads(c, Initial, t)
  {
    t := Apply(c, s, Receive).value;
    LeadsStep(c, Initial, s, Receive, t);
  }

  /** With channel and batch empty, everything enqueued has been handed over. */
  lemma AllHanded(c: Config, s: State)
    requires WellFormed(c) && Reachable(c, s) && s.queue.channel == s.queue.batch == []
    ensures Flatten(s.queue.handed) == s.queue.enqueued
  {
    OrderAndSize(c, s);
    assert Flatten(s.queue.handed) + s.queue.batch + s.queue.channel == Flatten(s.queue.handed);
  }

  class Tracker {
    const cfg: Config
    const store: DependencyStorage
    var channel: seq<Rec>
    var flushRequested: bool
    var closed: bool
    var bufClosed: bool
    var dropped: nat
    var sinceReport: nat
    var batch: seq<Rec>

    ghost var flusher: Flusher
    ghost var enqueued: seq<Rec>
    ghost var handed: seq<seq<Rec>>
    ghost var fates: Fates
    ghost var warnings: nat
    ghost var intervals: seq<Interval>
    ghost var written: seq<Rec>  // the records the store took, in order

    ghost function St(): State
      reads this
    {
      State(closed, bufClosed, flushRequested, flusher, Queue(channel, batch, enqueued, handed), fates,
            Counters(dropped, sinceReport, 0, 0, warnings, intervals))
    }

    /** The object is between two calls, and its life so far is a run of the protocol. */
    ghost predicate Valid()
      reads this
    {
      && WellFormed(cfg)
      && Leads(cfg, Initial, St())
      && multiset(written) == fates.persisted
      && bufClosed == closed
    }

    /** What every method says about the table: it took exactly the newly written records, in order. */
    twostate predicate Wrote()
      reads this, store
    {
      && old(|written|) <= |written| && written[..old(|written|)] == old(written)
      && store.rows == UpsertEach(old(store.rows), written[old(|written|)..])
    }

    constructor (batchSize: int, store: DependencyStorage)
      ensures Valid() && St() == Initial && cfg == NewConfig(batchSize) && this.store == store
    {
      cfg := NewConfig(batchSize);
      this.store := store;
      channel, batch, flushRequested, closed, bufClosed := [], [], false, false, false;
      dropped, sinceReport := 0, 0;
      flusher, enqueued, handed, fates := Selecting, [], [], Initial.fates;
      warnings, intervals, written := 0, [], [];
      new;
      LeadsRefl(cfg, Initial);
    }

    /** The real fields are those of `after`, which the run reaches: the history follows. */
    ghost method Become(after: State, took: seq<Rec>)
      requires WellFormed(cfg) && Leads(cfg, Initial, after) && after.closed == after.bufClosed
      requires closed == after.closed && bufClosed == after.bufClosed && flushRequested == after.flushRequested
      requires channel == after.queue.channel && batch == after.queue.batch
      requires dropped == after.counters.dropped && sinceReport == after.counters.sinceReport
      requires after.counters.counting == after.counters.noting == 0
      requires multiset(written) + multiset(took) == after.fates.persisted
      modifies this`flusher, this`enqueued, this`handed, this`fates, this`warnings, this`intervals, this`written
      ensures Valid() && St() == after && written == old(written) + took
    {
      flusher, fates := after.flusher, after.fates;
      enqueued, handed := after.queue.enqueued, after.queue.handed;
      warnings, intervals := after.counters.warnings, after.counters.intervals;
      written := written + took;
      assert St() == after;
    }

    /**
     * recordDrops: raises both counters by n, and warns exactly when this is the
     * first drop of the report interval.
     */
    method RecordDrops(n: int) returns (warned: bool)
      modifies this`dropped, this`sinceReport
      ensures n <= 0 ==> dropped == old(dropped) && sinceReport == old(sinceReport) && !warned
      ensures n > 0 ==> dropped == old(dropped) + n && sinceReport == old(sinceReport) + n
      ensures warned <==> n > 0 && old(sinceReport) == 0
    {
      if n <= 0 {
        return false;
      }
      dropped := dropped + n;
      sinceReport := sinceReport + n;
      warned := sinceReport == n;
    }

    /** Track: never blocks; after Shutdown it does nothing, a full buffer drops and counts the record. */
    method Track(rec: Rec)
      requires Valid() && (flusher.Selecting? || flusher.Exited?)
      modifies this
      ensures Valid() && flusher == old(flusher) && written == old(written)
      ensures batch == old(batch) && closed == old(closed) && bufClosed == old(bufClosed) && handed == old(handed)
      ensures enqueued == if channel == old(channel) then old(enqueued) else old(enqueued) + [rec]
      ensures old(closed) ==> channel == old(channel) && dropped == old(dropped)
      ensures !old(closed) && |old(channel)| < cfg.capacity ==>
                channel == old(channel) + [rec] && dropped == old(dropped)
      ensures !old(closed) && |old(channel)| >= cfg.capacity ==> channel == old(channel) && dropped == old(dropped) + 1
    {
      ghost var s0 := St();
      if closed {
        LeadsStep(cfg, Initial, s0, CheckClosed(rec), s0);
        return;
      }
      if !bufClosed && |channel| < cfg.capacity {
        channel := channel + [rec];
        QueuedApplies(cfg, Initial, s0, rec);
        Become(Queued(s0, rec), []);
      } else {
        var warned := RecordDrops(1);
        DroppedApplies(cfg, Initial, s0, rec);
        assert Dropped(s0, rec).counters.warnings == s0.counters.warnings + if warned then 1 else 0;
        Become(Dropped(s0, rec), []);
      }
    }

    /**
     * The closure `flush`: hands a non-empty batch to the store; a failed flush
     * counts the whole batch as dropped.
     */
    method FlushBatch(up: nat -> bool, ghost next: Next)
      requires Valid() && flusher == StartFlush(batch, next)
      modifies this, store
      ensures Valid() && Wrote() && flusher == Goto(next) && batch == []
      ensures channel == old(channel) && closed == old(closed) && bufClosed == old(bufClosed)
      ensures flushRequested == old(flushRequested) && enqueued == old(enqueued)
      ensures |written| - old(|written|) <= |old(batch)|
      ensures dropped == old(dropped) + if |written| - old(|written|) < |old(batch)| then |old(batch)| else 0
      ensures handed == if old(batch) == [] then old(handed) else old(handed) + [old(batch)]
    {
      if batch == [] {
        return;
      }
      var ok, landed := store.UpsertBatch(batch, up);
      assert ok ==> batch[..landed] == batch;
      ghost var part := batch[..landed];
      if ok {
        BatchSaved(next);
      } else {
        BatchLost(landed, next);
      }
      assert written[old(|written|)..] == part;
    }

    /** After a successful store call. */
    method BatchSaved(ghost next: Next)
      requires Valid() && flusher == Storing(next)
      modifies this`batch, this`written, this`fates, this`handed, this`flusher, this`enqueued, this`warnings,
               this`intervals
      ensures Valid() && flusher == Goto(next) && batch == [] && written == old(written) + old(batch)
      ensures handed == old(handed) + [old(batch)] && enqueued == old(enqueued)
    {
      ghost var s0 := St();
      SavedFlushApplies(cfg, Initial, s0);
      batch := [];
      Become(SavedFlush(s0, next), s0.queue.batch);
    }

    /** After a failed store call: every record of the batch is counted as dropped. */
    method BatchLost(landed: nat, ghost next: Next)
      requires Valid() && flusher == Storing(next)
      requires landed < |batch| && landed % MAX_BATCH_ROWS == 0
      modifies this`batch, this`written, this`fates, this`handed, this`flusher
      modifies this`dropped, this`sinceReport, this`warnings, this`enqueued, this`intervals
      ensures Valid() && flusher == Goto(next) && batch == [] && written == old(written) + old(batch)[..landed]
      ensures dropped == old(dropped) + |old(batch)|
      ensures handed == old(handed) + [old(batch)] && enqueued == old(enqueued)
    {
      ghost var s0 := St();
      FailedFlushApplies(cfg, Initial, s0, landed);
      var warned := RecordDrops(|batch|);
      batch := [];
      assert FailedFlush(s0, landed, next).counters.warnings == s0.counters.warnings + if warned then 1 else 0;
      Become(FailedFlush(s0, landed, next), s0.queue.batch[..landed]);
    }

    /** The receive arm of the select (and of drain): one record moves into the batch, a full batch is flushed. */
    method Receive(up: nat -> bool)
      requires Valid() && (flusher.Selecting? || flusher.Draining?) && channel != []
      modifies this, store
      ensures Valid() && Wrote() && flusher == old(flusher)
      ensures channel == old(channel)[1..] && closed == old(closed) && bufClosed == old(bufClosed)
      ensures flushRequested == old(flushRequested) && enqueued == old(enqueued)
      ensures batch == (if |old(batch)| + 1 < cfg.batchSize then old(batch) + [old(channel)[0]] else [])
      ensures handed == if |old(batch)| + 1 < cfg.batchSize then old(handed)
              else old(handed) + [old(batch) + [old(channel)[0]]]
    {
      ghost var next := if flusher.Selecting? then ToSelect else ToDrain;
      ghost var s1 := Received(cfg, St());
      batch := batch + [channel[0]];
      channel := channel[1..];
      flusher := s1.flusher;
      if |batch| >= cfg.batchSize {
        FlushBatch(up, next);
      }
    }

    /** The rounds of drain, and of the select on a closed channel, while a record is there. */
    method ReceiveAll(up: (nat, nat) -> bool) returns (calls: nat)
      requires Valid() && (flusher.Selecting? || flusher.Draining?)
      modifies this, store
      ensures Valid() && Wrote() && flusher == old(flusher) && channel == []
      ensures enqueued == old(enqueued) && closed == old(closed) && bufClosed == old(bufClosed)
    {
      calls := 0;
      while channel != []
        invariant Valid() && Wrote() && flusher == old(flusher)
        invariant enqueued == old(enqueued) && closed == old(closed) && bufClosed == old(bufClosed)
        decreases |channel|
      {
        ghost var rows, from := store.rows, |written|;
        Receive((c: nat) => up(calls, c));
        ChainWrites(old(store.rows), rows, old(|written|), from);
        calls := calls + 1;
      }
    }

    /**
     * drain: an explicit Flush empties the channel and the batch completely
     * (unless the channel is closed, which the select arm then handles).
     */
    method Drain(up: (nat, nat) -> bool)
      requires Valid() && flusher.Draining?
      modifies this, store
      ensures Valid() && Wrote() && flusher.Selecting? && channel == []
      ensures !bufClosed ==> batch == [] && Flatten(handed) == enqueued
      ensures enqueued == old(enqueued) && closed == old(closed) && bufClosed == old(bufClosed)
    {
      var calls := ReceiveAll(up);
      ghost var rows, from := store.rows, |written|;
      DrainRest((c: nat) => up(calls, c));
      ChainWrites(old(store.rows), rows, old(|written|), from);
    }

    /** Where drain's loop ends: the closed channel returns at once, the default arm flushes. */
    method DrainRest(up: nat -> bool)
      requires Valid() && flusher.Draining? && channel == []
      modifies this, store
      ensures Valid() && Wrote() && flusher.Selecting? && channel == []
      ensures !bufClosed ==> batch == [] && Flatten(handed) == enqueued
      ensures enqueued == old(enqueued) && closed == old(closed) && bufClosed == old(bufClosed)
    {
      ghost var s0 := St();
      if bufClosed {
        LeadsStep(cfg, Initial, s0, SeeClosed, s0.(flusher := Selecting));
        flusher := Selecting;
      } else {
        LeadsStep(cfg, Initial, s0, DrainEmpty, s0.(flusher := StartFlush(batch, ToSelect)));
        flusher := StartFlush(batch, ToSelect);
        FlushBatch(up, ToSelect);
        AllHanded(cfg, St());
      }
    }

    lemma ChainWrites(rows0: Rows, rows1: Rows, n0: nat, n1: nat)
      requires n0 <= n1 <= |written|
      requires rows1 == UpsertEach(rows0, written[..n1][n0..])
      requires store.rows == UpsertEach(rows1, written[n1..])
      ensures store.rows == UpsertEach(rows0, written[n0..])
    {
      assert written[n0..] == written[..n1][n0..] + written[n1..];
      UpsertEachAppend(rows0, written[..n1][n0..], written[n1..]);
    }

    /** The interval ticker's arm. */
    method Tick(up: nat -> bool)
      requires Valid() && flusher.Selecting?
      modifies this, store
      ensures Valid() && Wrote() && flusher.Selecting? && batch == [] && channel == old(channel)
      ensures handed == (if old(batch) == [] then old(handed) else old(handed) + [old(batch)])
              && enqueued == old(enqueued)
    {
      ghost var s0 := St();
      LeadsStep(cfg, Initial, s0, FlushTick, Apply(cfg, s0, FlushTick).value);
      flusher := StartFlush(batch, ToSelect);
      FlushBatch(up, ToSelect);
    }

    /** The drop-summary ticker's arm: reports the drops since the last report, and starts a new interval. */
    method Report() returns (total: nat, since: nat)
      requires Valid() && flusher.Selecting?
      modifies this
      ensures Valid() && flusher.Selecting? && total == dropped == old(dropped) && since == old(sinceReport)
      ensures sinceReport == 0 && channel == old(channel) && batch == old(batch)
      ensures total == TotalDrops(intervals)
    {
      ghost var after := Reported(cfg, St());
      total, since := dropped, sinceReport;
      sinceReport := 0;
      Become(after, []);
    }

    /** Shutdown: the first call closes the channel, any later one changes nothing. */
    method Shutdown() returns (first: bool)
      requires Valid()
      modifies this`closed, this`bufClosed
      ensures Valid() && closed && first == !old(closed)
    {
      ghost var s0 := St();
      if closed {
        return false;
      }
      ghost var s1 := s0.(closed := true);
      LeadsStep(cfg, Initial, s0, ShutdownSwap, s1);
      LeadsStep(cfg, Initial, s1, ShutdownClose, s1.(bufClosed := true));
      closed, bufClosed, first := true, true, true;
    }

    /**
     * The flusher's rounds on the closed channel, up to close(done): the channel
     * is emptied, and every record ever enqueued has been handed to the store.
     */
    method FlushToExit(up: (nat, nat) -> bool)
      requires Valid() && flusher.Selecting? && closed
      modifies this, store
      ensures Valid() && Wrote() && flusher.Exited? && closed && enqueued == old(enqueued)
      ensures Flatten(handed) == enqueued
    {
      var calls := ReceiveAll(up);
      ghost var rows, from := store.rows, |written|;
      LastFlush((c: nat) => up(calls, c));
      ChainWrites(old(store.rows), rows, old(|written|), from);
    }

    /** The !ok arm of the select: the final flush, then the flusher returns. */
    method LastFlush(up: nat -> bool)
      requires Valid() && flusher.Selecting? && closed && channel == []
      modifies this, store
      ensures Valid() && Wrote() && flusher.Exited? && closed && enqueued == old(enqueued)
      ensures Flatten(handed) == enqueued
    {
      SeeClosedApplies(cfg, St());
      flusher := StartFlush(batch, ToExit);
      FlushBatch(up, ToExit);
      AllHanded(cfg, St());
    }
  }

  lemma SeeClosedApplies(c: Config, s: State)
    requires Reachable(c, s) && s.flusher.Selecting? && s.queue.channel == [] && s.bufClosed
    ensures Reachable(c, s.(flusher := StartFlush(s.queue.batch, ToExit)))
  {
    LeadsStep(c, Initial, s, SeeClosed, s.(flusher := StartFlush(s.queue.batch, ToExit)));
  }
}
