/**
 * internal/project/depstore.go: the batched, merged upsert of download records.
 *
 * Go strings are modelled as `string`; the NUL byte is the character '\0'. The
 * database is a map from identity to download count. Two facts about Postgres
 * are built into ExecContext: a text argument holding NUL is refused, and one
 * statement may not target the same row twice. Everything else that can go
 * wrong in the database is the flag `up`.
 */
module DependencyStore {
  import opened Basics

  const NUL: char := '\0'

  // maxBatchRows: the number of records per INSERT statement.
  const MAX_BATCH_ROWS := 500

  // The columns of the UNIQUE constraint project_dependencies_identity.
  datatype Identity = Identity(project: string, registry: string, pkg: string,
                               version: string, artifact: string, sha256: string)

  datatype DependencyRecord = DependencyRecord(id: Identity, downloadCount: int)

  type Rows = map<Identity, int>

  // ---------------------------------------------------------------- reference

  /** Each record counts once at least: an unset count is one download. */
  function Normalized(count: int): (n: int)
    ensures n >= 1
    ensures count >= 1 ==> n == count
  {
    if count <= 0 then 1 else count
  }

  function Bump(rows: Rows, id: Identity, n: int): Rows {
    rows[id := if id in rows then rows[id] + n else n]
  }

  /** The reference: every record upserted alone, one after the other. */
  function UpsertEach(rows: Rows, recs: seq<DependencyRecord>): Rows {
    if recs == [] then rows
    else
      var last := recs[|recs| - 1];
      Bump(UpsertEach(rows, recs[..|recs| - 1]), last.id, Normalized(last.downloadCount))
  }

  lemma {:induction false} UpsertEachAppend(rows: Rows, a: seq<DependencyRecord>, b: seq<DependencyRecord>)
    ensures UpsertEach(rows, a + b) == UpsertEach(UpsertEach(rows, a), b)
    decreases |b|
  {
    if b == [] {
      assert a + b == a;
    } else {
      assert (a + b)[..|a + b| - 1] == a + b[..|b| - 1];
      UpsertEachAppend(rows, a, b[..|b| - 1]);
    }
  }

  /** The total number of downloads credited to `id` by `recs`. */
  function Credited(recs: seq<DependencyRecord>, id: Identity): int {
    if recs == [] then 0
    else
      var last := recs[|recs| - 1];
      Credited(recs[..|recs| - 1], id) + if last.id == id then Normalized(last.downloadCount) else 0
  }

  /**
   * Conservation: after the upserts the table holds exactly the old rows and the
   * recorded identities, and each count grew by what the records credit to it.
   */
  lemma {:induction false} UpsertEachConserves(rows: Rows, recs: seq<DependencyRecord>, id: Identity)
    ensures id in UpsertEach(rows, recs) <==> id in rows || exists r :: r in recs && r.id == id
    ensures id in UpsertEach(rows, recs) ==>
              UpsertEach(rows, recs)[id] == (if id in rows then rows[id] else 0) + Credited(recs, id)
    ensures id !in UpsertEach(rows, recs) ==> Credited(recs, id) == 0
  {
    if recs == [] {
    } else {
      var front, last := recs[..|recs| - 1], recs[|recs| - 1];
      UpsertEachConserves(rows, front, id);
      assert recs == front + [last];
      if last.id == id {
        assert last in recs;
      }
    }
  }

  /** How many of the records are of `id`. */
  function Times(recs: seq<DependencyRecord>, id: Identity): nat {
    if recs == [] then 0
    else Times(recs[..|recs| - 1], id) + if recs[|recs| - 1].id == id then 1 else 0
  }

  /**
   * A batch of records that leave their count unset, as those of the registries
   * do, raises each identity by exactly the number of its records.
   */
  lemma {:induction false} UnsetCountsAreOne(rows: Rows, recs: seq<DependencyRecord>, id: Identity)
    requires forall i :: 0 <= i < |recs| ==> recs[i].downloadCount <= 0
    ensures id in UpsertEach(rows, recs) <==> id in rows || Times(recs, id) > 0
    ensures id in UpsertEach(rows, recs) ==>
              UpsertEach(rows, recs)[id] == (if id in rows then rows[id] else 0) + Times(recs, id)
  {
    if recs != [] {
      UnsetCountsAreOne(rows, recs[..|recs| - 1], id);
    }
  }

  /** A set count is taken as it is. */
  lemma SetCountsAdd(rows: Rows, recs: seq<DependencyRecord>, r: DependencyRecord)
    requires r.downloadCount >= 1
    ensures r.id in UpsertEach(rows, recs + [r])
    ensures UpsertEach(rows, recs + [r])[r.id] ==
            (if r.id in UpsertEach(rows, recs) then UpsertEach(rows, recs)[r.id] else 0) + r.downloadCount
  {
    assert (recs + [r])[..|recs|] == recs;
  }

  // ------------------------------------------------------------------ the key

  predicate NulFree(s: string) {
    NUL !in s
  }

  predicate CleanIdentity(id: Identity) {
    && NulFree(id.project) && NulFree(id.registry) && NulFree(id.pkg)
    && NulFree(id.version) && NulFree(id.artifact) && NulFree(id.sha256)
  }

  /** The NUL-joined string that upsertChunk aggregates by. */
  function KeyOf(id: Identity): string {
    id.project + [NUL] + (id.registry + [NUL] + (id.pkg + [NUL] +
    (id.version + [NUL] + (id.artifact + [NUL] + id.sha256))))
  }

  function CountNul(s: string): nat {
    if s == [] then 0 else (if s[0] == NUL then 1 else 0) + CountNul(s[1..])
  }

  lemma {:induction false} CountNulConcat(a: string, b: string)
    ensures CountNul(a + b) == CountNul(a) + CountNul(b)
  {
    if a == [] {
      assert a + b == b;
    } else {
      assert (a + b)[1..] == a[1..] + b;
      CountNulConcat(a[1..], b);
    }
  }

  lemma {:induction false} CountNulZero(s: string)
    ensures CountNul(s) == 0 <==> NulFree(s)
  {
    if s != [] {
      CountNulZero(s[1..]);
      assert s == [s[0]] + s[1..];
    }
  }

  lemma CountNulField(x: string, rest: string)
    ensures CountNul(x + [NUL] + rest) == CountNul(x) + 1 + CountNul(rest)
  {
    CountNulConcat(x + [NUL], rest);
    CountNulConcat(x, [NUL]);
  }

  lemma KeyNulCount(id: Identity)
    ensures CountNul(KeyOf(id)) == 5 <==> CleanIdentity(id)
  {
    CountNulField(id.artifact, id.sha256);
    CountNulField(id.version, id.artifact + [NUL] + id.sha256);
    CountNulField(id.pkg, id.version + [NUL] + (id.artifact + [NUL] + id.sha256));
    CountNulField(id.registry, id.pkg + [NUL] + (id.version + [NUL] + (id.artifact + [NUL] + id.sha256)));
    CountNulField(id.project,
      id.registry + [NUL] + (id.pkg + [NUL] + (id.version + [NUL] + (id.artifact + [NUL] + id.sha256))));
    CountNulZero(id.project);
    CountNulZero(id.registry);
    CountNulZero(id.pkg);
    CountNulZero(id.version);
    CountNulZero(id.artifact);
    CountNulZero(id.sha256);
  }

  lemma PeelField(x: string, r: string, y: string, s: string)
    requires NulFree(x) && NulFree(y)
    requires x + [NUL] + r == y + [NUL] + s
    ensures x == y && r == s
  {
    var k := x + [NUL] + r;
    assert k[|x|] == NUL && k[|y|] == NUL;
    assert forall i :: 0 <= i < |x| ==> k[i] == x[i];
    assert forall i :: 0 <= i < |y| ==> k[i] == y[i];
    assert |x| == |y|;
    assert x == k[..|x|] == y;
    assert r == k[|x| + 1..] == s;
  }

  /**
   * The joined key identifies a record as soon as ONE side is NUL-free: a key
   * never merges a clean record with any other identity, clean or not.
   */
  lemma KeyInjective(a: Identity, b: Identity)
    requires CleanIdentity(a) && KeyOf(a) == KeyOf(b)
    ensures a == b
  {
    KeyNulCount(a);
    KeyNulCount(b);
    PeelField(a.project, KeyOf(a)[|a.project| + 1..], b.project, KeyOf(b)[|b.project| + 1..]);
    PeelField(a.registry, a.pkg + [NUL] + (a.version + [NUL] + (a.artifact + [NUL] + a.sha256)),
              b.registry, b.pkg + [NUL] + (b.version + [NUL] + (b.artifact + [NUL] + b.sha256)));
    PeelField(a.pkg, a.version + [NUL] + (a.artifact + [NUL] + a.sha256),
              b.pkg, b.version + [NUL] + (b.artifact + [NUL] + b.sha256));
    PeelField(a.version, a.artifact + [NUL] + a.sha256, b.version, b.artifact + [NUL] + b.sha256);
    PeelField(a.artifact, a.sha256, b.artifact, b.sha256);
  }

  /**
   * Exactly the NUL-free identities own their key: an identity with a NUL in any
   * field shares its key with a different identity (the NUL slides over a field
   * boundary), so the merge alone would conflate two rows.
   */
  lemma KeyUniqueIffClean(a: Identity)
    ensures CleanIdentity(a) <==> forall b :: KeyOf(b) == KeyOf(a) ==> b == a
  {
    if CleanIdentity(a) {
      forall b | KeyOf(b) == KeyOf(a)
        ensures b == a
      {
        KeyInjective(a, b);
      }
    } else {
      var b := SlideNul(a);
      assert KeyOf(b) == KeyOf(a) && b != a;
    }
  }

  /** A NUL at position i of field x slides into the separator: the joined text is the same. */
  lemma SlideOver(x: string, i: nat, rest: string)
    requires i < |x| && x[i] == NUL
    ensures x + [NUL] + rest == x[..i] + [NUL] + (x[i + 1..] + [NUL] + rest)
  {
    assert x == x[..i] + [NUL] + x[i + 1..];
  }

  /** A different identity with the same key, for an identity holding a NUL. */
  lemma SlideNul(a: Identity) returns (b: Identity)
    requires !CleanIdentity(a)
    ensures b != a && KeyOf(b) == KeyOf(a)
  {
    var Identity(p, r, k, v, f, s) := a;
    if !NulFree(f) {
      var i := FirstNul(f);
      b := Identity(p, r, k, v, f[..i], f[i + 1..] + [NUL] + s);
      SlideOver(f, i, s);
    } else if !NulFree(v) {
      var i := FirstNul(v);
      b := Identity(p, r, k, v[..i], v[i + 1..], f + [NUL] + s);
      SlideOver(v, i, f + [NUL] + s);
    } else if !NulFree(k) {
      var i := FirstNul(k);
      b := Identity(p, r, k[..i], k[i + 1..], v, f + [NUL] + s);
      SlideOver(k, i, v + [NUL] + (f + [NUL] + s));
    } else if !NulFree(r) {
      var i := FirstNul(r);
      b := Identity(p, r[..i], r[i + 1..], k, v, f + [NUL] + s);
      SlideOver(r, i, k + [NUL] + (v + [NUL] + (f + [NUL] + s)));
    } else if !NulFree(p) {
      var i := FirstNul(p);
      b := Identity(p[..i], p[i + 1..], r, k, v, f + [NUL] + s);
      SlideOver(p, i, r + [NUL] + (k + [NUL] + (v + [NUL] + (f + [NUL] + s))));
    } else {
      var i := FirstNul(s);
      b := Identity(p, r, k, v, f + [NUL] + s[..i], s[i + 1..]);
      assert s == s[..i] + [NUL] + s[i + 1..];
      assert f + [NUL] + s == (f + [NUL] + s[..i]) + [NUL] + s[i + 1..];
      assert |b.sha256| < |s|;
    }
  }

  lemma FirstNul(s: string) returns (i: nat)
    requires !NulFree(s)
    ensures i < |s| && s[i] == NUL
  {
    i :| 0 <= i < |s| && s[i] == NUL;
  }

  // -------------------------------------------------------------- the storage

  datatype Arg = Text(text: string) | Count(count: int)

  predicate ArgClean(a: Arg) {
    a.Text? ==> NulFree(a.text)
  }

  /** The row that one `($a,$b,...)` tuple of the VALUES list denotes. */
  function RowAt(tuple: seq<nat>, args: seq<Arg>): Option<DependencyRecord> {
    if |tuple| == 7 && (forall j :: 0 <= j < 7 ==> 1 <= tuple[j] <= |args|)
       && (forall j :: 0 <= j < 6 ==> args[tuple[j] - 1].Text?) && args[tuple[6] - 1].Count?
    then
      Some(DependencyRecord(
             Identity(args[tuple[0] - 1].text, args[tuple[1] - 1].text, args[tuple[2] - 1].text,
                      args[tuple[3] - 1].text, args[tuple[4] - 1].text, args[tuple[5] - 1].text),
             args[tuple[6] - 1].count))
    else None
  }

  /** The rows of the whole VALUES list. */
  function RowsOf(tuples: seq<seq<nat>>, args: seq<Arg>): seq<DependencyRecord>
    requires forall i :: 0 <= i < |tuples| ==> RowAt(tuples[i], args).Some?
  {
    seq(|tuples|, i requires 0 <= i < |tuples| => RowAt(tuples[i], args).value)
  }

  predicate DistinctIds(rows: seq<DependencyRecord>) {
    forall i, j :: 0 <= i < j < |rows| ==> rows[i].id != rows[j].id
  }

  /** What the ON CONFLICT ... DO UPDATE statement does to the table, row by row. */
  function InsertRows(rows: Rows, values: seq<DependencyRecord>): Rows {
    if values == [] then rows
    else
      var last := values[|values| - 1];
      Bump(InsertRows(rows, values[..|values| - 1]), last.id, last.downloadCount)
  }

  /** With one tuple for a row at most, each tuple raises its own row by its own count, in whatever order they stand. */
  lemma {:induction false} InsertRowsRaise(rows: Rows, values: seq<DependencyRecord>, id: Identity)
    requires DistinctIds(values)
    ensures (forall i :: 0 <= i < |values| ==> values[i].id != id) ==>
              (id in InsertRows(rows, values) <==> id in rows)
              && (id in rows ==> InsertRows(rows, values)[id] == rows[id])
    ensures forall i :: 0 <= i < |values| && values[i].id == id ==>
              id in InsertRows(rows, values)
              && InsertRows(rows, values)[id] == (if id in rows then rows[id] else 0) + values[i].downloadCount
  {
    if values != [] {
      InsertRowsRaise(rows, values[..|values| - 1], id);
    }
  }

  predicate AllClean(recs: seq<DependencyRecord>) {
    forall i :: 0 <= i < |recs| ==> CleanIdentity(recs[i].id)
  }

  /** The placeholders of the i-th tuple: 7i+1 .. 7i+7. */
  function Placeholders(i: nat): seq<nat> {
    [i * 7 + 1, i * 7 + 2, i * 7 + 3, i * 7 + 4, i * 7 + 5, i * 7 + 6, i * 7 + 7]
  }

  function ArgsOf(r: DependencyRecord): seq<Arg> {
    [Text(r.id.project), Text(r.id.registry), Text(r.id.pkg), Text(r.id.version),
     Text(r.id.artifact), Text(r.id.sha256), Count(r.downloadCount)]
  }

  /** The flat argument list holds seven arguments per row, in row order. */
  ghost predicate ArgsLaid(rows: seq<DependencyRecord>, args: seq<Arg>) {
    |args| == 7 * |rows| && forall j :: 0 <= j < |rows| ==> args[7 * j..7 * j + 7] == ArgsOf(rows[j])
  }

  lemma LayArgs(rows: seq<DependencyRecord>, args: seq<Arg>, r: DependencyRecord)
    requires ArgsLaid(rows, args)
    ensures ArgsLaid(rows + [r], args + ArgsOf(r))
  {
    var more := args + ArgsOf(r);
    forall j | 0 <= j < |rows| + 1
      ensures more[7 * j..7 * j + 7] == ArgsOf((rows + [r])[j])
    {
      if j < |rows| {
        assert more[7 * j..7 * j + 7] == args[7 * j..7 * j + 7];
      }
    }
  }

  class DependencyStorage {
    var rows: Rows

    constructor ()
      ensures rows == map[]
    {
      rows := map[];
    }

    /**
     * One INSERT ... ON CONFLICT statement. It is refused when the database is
     * down, when a text argument holds NUL, or when two tuples denote rows with
     * the same identity.
     */
    method ExecContext(tuples: seq<seq<nat>>, args: seq<Arg>, up: bool) returns (ok: bool)
      requires forall i :: 0 <= i < |tuples| ==> RowAt(tuples[i], args).Some?
      modifies this
      ensures ok <==> up && (forall a :: a in args ==> ArgClean(a)) && DistinctIds(RowsOf(tuples, args))
      ensures rows == if ok then InsertRows(old(rows), RowsOf(tuples, args)) else old(rows)
    {
      var values := RowsOf(tuples, args);
      ok := up && (forall a :: a in args ==> ArgClean(a)) && DistinctIds(values);
      if ok {
        rows := InsertRows(rows, values);
      }
    }

    /**
     * upsertChunk: one statement for the chunk. It succeeds exactly when the
     * database is up and no field holds NUL, and then has the effect of
     * upserting each record alone; otherwise the table is unchanged.
     */
    method UpsertChunk(recs: seq<DependencyRecord>, up: bool) returns (ok: bool)
      modifies this
      ensures ok <==> up && AllClean(recs)
      ensures rows == if ok then UpsertEach(old(rows), recs) else old(rows)
    {
      KeyOfOwnsCleanKeys();
      var merged := Aggregate(KeyOf, recs, rows);
      var tuples, args := Statement(merged);
      assert RowsOf(tuples, args) == merged;
      ok := ExecContext(tuples, args, up);
    }

    /** The first loop of upsertChunk: fold duplicate identities into one row each. */
    static method Aggregate(key: Identity -> string, recs: seq<DependencyRecord>, ghost rows: Rows)
      returns (merged: seq<DependencyRecord>)
      requires OwnsCleanKeys(key)
      ensures DistinctIds(merged)
      ensures AllClean(merged) <==> AllClean(recs)
      ensures AllClean(recs) ==> InsertRows(rows, merged) == UpsertEach(rows, recs)
    {
      merged := [];
      var idx: map<string, nat> := map[];
      MergingStart(key, rows, recs);
      for i := 0 to |recs|
        invariant Merging(key, rows, recs[..i], merged, idx)
      {
        var r := recs[i];
        var count := r.downloadCount;
        if count <= 0 {
          count := 1;
        }
        merged, idx := MergeOne(key, merged, idx, r, count, rows, recs[..i]);
        assert recs[..i + 1] == recs[..i] + [r];
      }
      assert recs[..|recs|] == recs;
      MergedSound(key, rows, recs, merged, idx);
    }

    /** One round of it: the record joins the row of its identity, or starts one. */
    static method MergeOne(key: Identity -> string, merged: seq<DependencyRecord>, idx: map<string, nat>,
                           r: DependencyRecord, count: int, ghost rows: Rows, ghost done: seq<DependencyRecord>)
      returns (merged': seq<DependencyRecord>, idx': map<string, nat>)
      requires OwnsCleanKeys(key) && Merging(key, rows, done, merged, idx) && count == Normalized(r.downloadCount)
      ensures Merging(key, rows, done + [r], merged', idx')
    {
      var k := key(r.id);
      if k in idx {
        var j := idx[k];
        var sum := merged[j].downloadCount + count;
        MergeExisting(key, rows, done, merged, idx, r, sum);
        return merged[j := merged[j].(downloadCount := sum)], idx;
      }
      MergeNew(key, rows, done, merged, idx, r, count);
      return merged + [r.(downloadCount := count)], idx[k := |merged|];
    }

    /** The second loop of upsertChunk: the numbered tuples and the flat argument list. */
    static method Statement(merged: seq<DependencyRecord>) returns (tuples: seq<seq<nat>>, args: seq<Arg>)
      ensures |tuples| == |merged| && Flatten(tuples) == seq(7 * |merged|, k => k + 1)
      ensures forall i :: 0 <= i < |tuples| ==> RowAt(tuples[i], args) == Some(merged[i])
      ensures (forall a :: a in args ==> ArgClean(a)) <==> AllClean(merged)
    {
      tuples, args := [], [];
      for i := 0 to |merged|
        invariant |tuples| == i && Flatten(tuples) == seq(7 * i, k => k + 1)
        invariant forall j :: 0 <= j < i ==> tuples[j] == Placeholders(j)
        invariant ArgsLaid(merged[..i], args)
      {
        var base := i * 7;
        FlattenAppend(tuples, Placeholders(i));
        LayArgs(merged[..i], args, merged[i]);
        assert merged[..i + 1] == merged[..i] + [merged[i]];
        tuples := tuples + [[base + 1, base + 2, base + 3, base + 4, base + 5, base + 6, base + 7]];
        args := args + ArgsOf(merged[i]);
      }
      assert merged[..|merged|] == merged;
      StatementDenotes(merged, tuples, args);
      ArgsClean(merged, args);
    }

    /**
     * UpsertBatch: chunks of at most 500 records, stopping at the first chunk
     * that fails. Success means every record was upserted as if alone; failure
     * means exactly the chunks before the first failing one were.
     */
    method UpsertBatch(recs: seq<DependencyRecord>, up: nat -> bool) returns (ok: bool, landed: nat)
      modifies this
      ensures landed <= |recs| && rows == UpsertEach(old(rows), recs[..landed])
      ensures ok ==> landed == |recs|
      ensures !ok ==> landed < |recs| && landed % MAX_BATCH_ROWS == 0
      ensures !ok ==> !ChunkLands(recs, up, landed / MAX_BATCH_ROWS)
      ensures forall c: nat :: c * MAX_BATCH_ROWS < landed ==> ChunkLands(recs, up, c)
    {
      var start, chunk := 0, 0;
      while start < |recs|
        invariant start == chunk * MAX_BATCH_ROWS
        invariant rows == UpsertEach(old(rows), ChunksBefore(recs, chunk))
        invariant forall c: nat :: c < chunk ==> ChunkLands(recs, up, c)
      {
        var end := Min(start + MAX_BATCH_ROWS, |recs|);
        NextChunk(recs, chunk, start, end);
        ok := UpsertChunk(recs[start..end], up(chunk));
        if !ok {
          return false, start;
        }
        ChunkJoins(old(rows), recs, chunk);
        start, chunk := start + MAX_BATCH_ROWS, chunk + 1;
      }
      AllChunks(recs, chunk);
      return true, |recs|;
    }
  }

  /** The c-th chunk of a batch (empty past the end). */
  function ChunkOf(recs: seq<DependencyRecord>, c: nat): seq<DependencyRecord> {
    recs[Min(c * MAX_BATCH_ROWS, |recs|)..Min((c + 1) * MAX_BATCH_ROWS, |recs|)]
  }

  /** The records of the first c chunks. */
  function ChunksBefore(recs: seq<DependencyRecord>, c: nat): seq<DependencyRecord> {
    recs[..Min(c * MAX_BATCH_ROWS, |recs|)]
  }

  lemma NextChunk(recs: seq<DependencyRecord>, c: nat, start: nat, end: nat)
    requires start == c * MAX_BATCH_ROWS < |recs| && end == Min(start + MAX_BATCH_ROWS, |recs|)
    ensures recs[start..end] == ChunkOf(recs, c) && ChunksBefore(recs, c) == recs[..start]
    ensures ChunksBefore(recs, c + 1) == recs[..start] + recs[start..end]
    ensures start % MAX_BATCH_ROWS == 0 && start / MAX_BATCH_ROWS == c
  {
  }

  lemma AllChunks(recs: seq<DependencyRecord>, c: nat)
    requires c * MAX_BATCH_ROWS >= |recs|
    ensures ChunksBefore(recs, c) == recs[..|recs|]
    ensures forall d: nat :: d * MAX_BATCH_ROWS < |recs| ==> d < c
  {
  }

  lemma ChunkJoins(rows: Rows, recs: seq<DependencyRecord>, c: nat)
    requires c * MAX_BATCH_ROWS < |recs|
    ensures UpsertEach(rows, ChunksBefore(recs, c + 1))
         == UpsertEach(UpsertEach(rows, ChunksBefore(recs, c)), ChunkOf(recs, c))
  {
    NextChunk(recs, c, c * MAX_BATCH_ROWS, Min(c * MAX_BATCH_ROWS + MAX_BATCH_ROWS, |recs|));
    UpsertEachAppend(rows, ChunksBefore(recs, c), ChunkOf(recs, c));
  }

  ghost predicate ChunkLands(recs: seq<DependencyRecord>, up: nat -> bool, c: nat) {
    up(c) && AllClean(ChunkOf(recs, c))
  }

  // ------------------------------------------------------- proof of the merge

  /** All the merge needs of its key function: clean identities own their key. */
  ghost predicate OwnsCleanKeys(key: Identity -> string) {
    forall a, b :: CleanIdentity(a) && key(a) == key(b) ==> a == b
  }

  lemma KeyOfOwnsCleanKeys()
    ensures OwnsCleanKeys(KeyOf)
  {
    forall a, b | CleanIdentity(a) && KeyOf(a) == KeyOf(b)
      ensures a == b
    {
      KeyInjective(a, b);
    }
  }

  /** The loop invariant of the aggregation loop: `idx` indexes `merged` by key. */
  ghost predicate Indexed(key: Identity -> string, done: seq<DependencyRecord>, merged: seq<DependencyRecord>,
                          idx: map<string, nat>)
  {
    && (forall k :: k in idx ==> idx[k] < |merged| && key(merged[idx[k]].id) == k)
    && (forall j :: 0 <= j < |merged| ==> key(merged[j].id) in idx && idx[key(merged[j].id)] == j)
    && (forall j :: 0 <= j < |done| ==> key(done[j].id) in idx)
  }

  /** The other half of the invariant: the merged rows stand for the records done so far. */
  ghost predicate Folded(rows: Rows, done: seq<DependencyRecord>, merged: seq<DependencyRecord>) {
    AllClean(done) ==> AllClean(merged) && InsertRows(rows, merged) == UpsertEach(rows, done)
  }

  lemma CleanPrefix(done: seq<DependencyRecord>, r: DependencyRecord)
    ensures AllClean(done + [r]) <==> AllClean(done) && CleanIdentity(r.id)
  {
    assert (done + [r])[|done|] == r;
    assert forall j :: 0 <= j < |done| ==> (done + [r])[j] == done[j];
  }

  lemma IndexAsNew(key: Identity -> string, done: seq<DependencyRecord>, merged: seq<DependencyRecord>,
                   idx: map<string, nat>, r: DependencyRecord, n: int)
    requires Indexed(key, done, merged, idx) && key(r.id) !in idx
    ensures Indexed(key, done + [r], merged + [r.(downloadCount := n)], idx[key(r.id) := |merged|])
  {
  }

  lemma FoldAsNew(rows: Rows, done: seq<DependencyRecord>, merged: seq<DependencyRecord>, r: DependencyRecord,
                  n: int)
    requires Folded(rows, done, merged) && n == Normalized(r.downloadCount)
    ensures Folded(rows, done + [r], merged + [r.(downloadCount := n)])
  {
    var added := r.(downloadCount := n);
    CleanPrefix(done, r);
    CleanPrefix(merged, added);
    assert (merged + [added])[..|merged|] == merged && (done + [r])[..|done|] == done;
  }

  lemma BumpsCommute(t: Rows, a: Identity, n: int, b: Identity, m: int)
    requires a in t
    ensures Bump(Bump(t, a, n), b, m) == Bump(Bump(t, b, m), a, n)
  {
  }

  /** Raising one row's count by n commutes with the rest of the statement. */
  lemma {:induction false} RaiseRow(rows: Rows, values: seq<DependencyRecord>, j: nat, n: int)
    requires j < |values|
    ensures InsertRows(rows, values[j := values[j].(downloadCount := values[j].downloadCount + n)])
         == Bump(InsertRows(rows, values), values[j].id, n)
    decreases |values|
  {
    var raised := values[j := values[j].(downloadCount := values[j].downloadCount + n)];
    var front, last := values[..|values| - 1], values[|values| - 1];
    if j == |values| - 1 {
      assert raised[..|values| - 1] == front;
    } else {
      assert raised[..|values| - 1] == front[j := front[j].(downloadCount := front[j].downloadCount + n)];
      RaiseRow(rows, front, j, n);
      InsertRowsHas(rows, front, j);
      var t := InsertRows(rows, front);
      BumpsCommute(t, front[j].id, n, last.id, last.downloadCount);
    }
  }

  lemma {:induction false} InsertRowsHas(rows: Rows, values: seq<DependencyRecord>, j: nat)
    requires j < |values|
    ensures values[j].id in InsertRows(rows, values)
    decreases |values|
  {
    if j < |values| - 1 {
      InsertRowsHas(rows, values[..|values| - 1], j);
    }
  }

  lemma IndexExisting(key: Identity -> string, done: seq<DependencyRecord>, merged: seq<DependencyRecord>,
                      idx: map<string, nat>, r: DependencyRecord, j: nat, n: int)
    requires Indexed(key, done, merged, idx) && key(r.id) in idx && j < |merged|
    ensures Indexed(key, done + [r], merged[j := merged[j].(downloadCount := n)], idx)
  {
  }

  lemma FoldExisting(rows: Rows, done: seq<DependencyRecord>, merged: seq<DependencyRecord>, r: DependencyRecord,
                     j: nat, sum: int)
    requires j < |merged| && Folded(rows, done, merged)
    requires sum == merged[j].downloadCount + Normalized(r.downloadCount)
    requires CleanIdentity(r.id) ==> merged[j].id == r.id
    ensures Folded(rows, done + [r], merged[j := merged[j].(downloadCount := sum)])
  {
    CleanPrefix(done, r);
    if AllClean(done + [r]) {
      RaiseRow(rows, merged, j, Normalized(r.downloadCount));
      assert (done + [r])[..|done|] == done;
    }
  }

  ghost predicate Merging(key: Identity -> string, rows: Rows, done: seq<DependencyRecord>,
                          merged: seq<DependencyRecord>, idx: map<string, nat>)
  {
    Indexed(key, done, merged, idx) && Folded(rows, done, merged)
  }

  lemma MergeNew(key: Identity -> string, rows: Rows, done: seq<DependencyRecord>, merged: seq<DependencyRecord>,
                 idx: map<string, nat>, r: DependencyRecord, n: int)
    requires Merging(key, rows, done, merged, idx) && key(r.id) !in idx && n == Normalized(r.downloadCount)
    ensures Merging(key, rows, done + [r], merged + [r.(downloadCount := n)], idx[key(r.id) := |merged|])
  {
    IndexAsNew(key, done, merged, idx, r, n);
    FoldAsNew(rows, done, merged, r, n);
  }

  lemma MergeExisting(key: Identity -> string, rows: Rows, done: seq<DependencyRecord>, merged: seq<DependencyRecord>,
                      idx: map<string, nat>, r: DependencyRecord, sum: int)
    requires OwnsCleanKeys(key) && Merging(key, rows, done, merged, idx) && key(r.id) in idx
    requires sum == merged[idx[key(r.id)]].downloadCount + Normalized(r.downloadCount)
    ensures var j := idx[key(r.id)];
            Merging(key, rows, done + [r], merged[j := merged[j].(downloadCount := sum)], idx)
  {
    var j := idx[key(r.id)];
    assert CleanIdentity(r.id) ==> merged[j].id == r.id;
    IndexExisting(key, done, merged, idx, r, j, sum);
    FoldExisting(rows, done, merged, r, j, sum);
  }

  lemma MergingStart(key: Identity -> string, rows: Rows, recs: seq<DependencyRecord>)
    ensures Merging(key, rows, recs[..0], [], map[])
  {
  }

  /** What the finished merge means for the statement that is sent. */
  lemma MergedSound(key: Identity -> string, rows: Rows, recs: seq<DependencyRecord>, merged: seq<DependencyRecord>,
                    idx: map<string, nat>)
    requires OwnsCleanKeys(key) && Merging(key, rows, recs, merged, idx)
    ensures DistinctIds(merged)
    ensures AllClean(merged) <==> AllClean(recs)
    ensures AllClean(recs) ==> InsertRows(rows, merged) == UpsertEach(rows, recs)
  {
    forall i, j | 0 <= i < j < |merged|
      ensures merged[i].id != merged[j].id
    {
      assert idx[key(merged[i].id)] == i && idx[key(merged[j].id)] == j;
    }
    if AllClean(merged) {
      forall i | 0 <= i < |recs|
        ensures CleanIdentity(recs[i].id)
      {
        var j := idx[key(recs[i].id)];
        assert key(merged[j].id) == key(recs[i].id);
      }
    }
  }

  /** The numbered placeholders denote the merged rows. */
  lemma StatementDenotes(merged: seq<DependencyRecord>, tuples: seq<seq<nat>>, args: seq<Arg>)
    requires |tuples| == |merged| && ArgsLaid(merged, args)
    requires forall j :: 0 <= j < |merged| ==> tuples[j] == Placeholders(j)
    ensures forall i :: 0 <= i < |tuples| ==> RowAt(tuples[i], args) == Some(merged[i])
  {
    forall i | 0 <= i < |tuples|
      ensures RowAt(tuples[i], args) == Some(merged[i])
    {
      DenotesAt(merged, tuples[i], args, i);
    }
  }

  lemma DenotesAt(merged: seq<DependencyRecord>, tuple: seq<nat>, args: seq<Arg>, i: nat)
    requires i < |merged| && ArgsLaid(merged, args) && tuple == Placeholders(i)
    ensures RowAt(tuple, args) == Some(merged[i])
  {
    ArgsAt(merged, args, i);
    assert |tuple| == 7 && tuple[0] == 7 * i + 1 && tuple[6] == 7 * i + 7;
  }

  /** Nothing but the merged rows' fields is an argument. */
  lemma ArgsClean(merged: seq<DependencyRecord>, args: seq<Arg>)
    requires ArgsLaid(merged, args)
    ensures (forall a :: a in args ==> ArgClean(a)) <==> AllClean(merged)
  {
    if AllClean(merged) {
      forall a | a in args
        ensures ArgClean(a)
      {
        var k :| 0 <= k < |args| && args[k] == a;
        ArgsAt(merged, args, k / 7);
        RowClean(merged[k / 7]);
        assert args[7 * (k / 7) + k % 7] == args[k];
      }
    }
    if forall a :: a in args ==> ArgClean(a) {
      forall i | 0 <= i < |merged|
        ensures CleanIdentity(merged[i].id)
      {
        ArgsAt(merged, args, i);
        RowClean(merged[i]);
      }
    }
  }

  lemma RowClean(r: DependencyRecord)
    ensures (forall j :: 0 <= j < 7 ==> ArgClean(ArgsOf(r)[j])) <==> CleanIdentity(r.id)
  {
    var row := ArgsOf(r);
    assert row[0].Text? && row[1].Text? && row[2].Text? && row[3].Text? && row[4].Text? && row[5].Text?;
  }

  lemma ArgsAt(merged: seq<DependencyRecord>, args: seq<Arg>, i: nat)
    requires i < |merged| && ArgsLaid(merged, args)
    ensures forall j :: 0 <= j < 7 ==> args[7 * i + j] == ArgsOf(merged[i])[j]
  {
    forall j | 0 <= j < 7
      ensures args[7 * i + j] == ArgsOf(merged[i])[j]
    {
      assert args[7 * i..7 * i + 7][j] == args[7 * i + j];
    }
  }
}
