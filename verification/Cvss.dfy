/**
 * internal/middleware/cveosv/cveosv.go:549-726: severity bands from CVSS
 * vectors, over exact reals. Roundup is section 7.1 and Appendix A of the CVSS
 * v3.1 specification.
 */
module Cvss {
  import opened Basics
  import opened CveSeverity

  // -------------------------------------------------------------------- rounding

  /** math.Round: to the nearest integer, halves away from zero. */
  function Round(x: real): int {
    if x >= 0.0 then (x + 0.5).Floor else -((-x + 0.5).Floor)
  }

  function Roundup(x: real): real {
    var n := Round(x * 100000.0);
    if n % 10000 == 0 then n as real / 100000.0
    else ((n as real / 10000.0).Floor + 1) as real / 10.0
  }

  function ClampScore(score: real): real {
    if score < 0.0 then 0.0 else if score > 10.0 then 10.0 else score
  }

  /** x rounded to five decimals. */
  function FiveDecimals(x: real): real {
    Round(x * 100000.0) as real / 100000.0
  }

  /** A multiple of one tenth. */
  predicate IsTenths(r: real) {
    (r * 10.0).Floor as real == r * 10.0
  }

  /** The number of tenths of Roundup: the least k with k * 10000 >= n. */
  function Tenths(n: int): (k: int)
    ensures (k - 1) * 10000 < n <= k * 10000
  {
    if n % 10000 == 0 then n / 10000 else n / 10000 + 1
  }

  lemma RoundupTenths(x: real)
    ensures Roundup(x) == Tenths(Round(x * 100000.0)) as real / 10.0
  {
    var n := Round(x * 100000.0);
    if n % 10000 == 0 {
      assert n == 10000 * (n / 10000);
    } else {
      FloorOfQuotient(n);
    }
  }

  lemma FloorOfQuotient(n: int)
    ensures (n as real / 10000.0).Floor == n / 10000
  {
    var q, r := n / 10000, n % 10000;
    assert n == 10000 * q + r;
    assert n as real / 10000.0 == q as real + r as real / 10000.0;
  }

  lemma RoundNear(x: real)
    ensures -0.5 <= Round(x) as real - x <= 0.5
  {
  }

  lemma RoundMonotone(x: real, y: real)
    requires x <= y
    ensures Round(x) <= Round(y)
  {
  }

  /**
   * Roundup, over all reals: the least multiple of 0.1 at or above the input
   * rounded to five decimals, which is within half a hundred-thousandth of it.
   */
  lemma RoundupLeast(x: real)
    ensures IsTenths(Roundup(x)) && FiveDecimals(x) <= Roundup(x)
    ensures forall t :: IsTenths(t) && FiveDecimals(x) <= t ==> Roundup(x) <= t
    ensures -0.000005 <= FiveDecimals(x) - x <= 0.000005
  {
    var n := Round(x * 100000.0);
    RoundupTenths(x);
    RoundNear(x * 100000.0);
    TenthsFloor(Tenths(n));
    forall t | IsTenths(t) && FiveDecimals(x) <= t
      ensures Roundup(x) <= t
    {
      LeastTenths(n, t);
    }
  }

  lemma TenthsFloor(k: int)
    ensures IsTenths(k as real / 10.0)
  {
    assert k as real / 10.0 * 10.0 == k as real;
  }

  lemma LeastTenths(n: int, t: real)
    requires IsTenths(t) && n as real / 100000.0 <= t
    ensures Tenths(n) as real / 10.0 <= t
  {
    var m := (t * 10.0).Floor;
    assert n as real <= 10000.0 * (t * 10.0) == (10000 * m) as real;
    assert Tenths(n) <= m;
  }

  lemma RoundupMonotone(x: real, y: real)
    requires x <= y
    ensures Roundup(x) <= Roundup(y)
  {
    RoundMonotone(x * 100000.0, y * 100000.0);
    RoundupTenths(x);
    RoundupTenths(y);
  }

  lemma RoundupOfTenths(k: int)
    ensures Roundup(k as real / 10.0) == k as real / 10.0
  {
    var x := k as real / 10.0;
    assert x * 100000.0 == (10000 * k) as real;
    RoundOfInt(10000 * k);
    RoundupTenths(x);
    assert Tenths(10000 * k) == k;
  }

  lemma RoundOfInt(n: int)
    ensures Round(n as real) == n
  {
  }

  lemma RoundupIdempotent(x: real)
    ensures Roundup(Roundup(x)) == Roundup(x)
  {
    RoundupTenths(x);
    RoundupOfTenths(Tenths(Round(x * 100000.0)));
  }

  /** Clamping after rounding is capping before it: the cap of 10 needs no extra rounding step. */
  lemma ClampAfterRoundup(x: real)
    requires x >= 0.0
    ensures ClampScore(Roundup(x)) == Roundup(if x < 10.0 then x else 10.0)
  {
    RoundupOfTenths(0);
    RoundupOfTenths(100);
    RoundupMonotone(0.0, x);
    if x < 10.0 {
      RoundupMonotone(x, 10.0);
    } else {
      RoundupMonotone(10.0, x);
    }
  }

  // ------------------------------------------------------------------ base scores

  type Metrics = map<string, string>

  const AV_TABLE: map<string, real> := map["N" := 0.85, "A" := 0.62, "L" := 0.55, "P" := 0.2]
  const AC_TABLE: map<string, real> := map["L" := 0.77, "H" := 0.44]
  const UI_TABLE: map<string, real> := map["N" := 0.85, "R" := 0.62]
  const PR_TABLE: map<string, real> := map["N" := 0.85, "L" := 0.62, "H" := 0.27]
  const PR_CHANGED_TABLE: map<string, real> := map["N" := 0.85, "L" := 0.68, "H" := 0.5]
  const CIA_TABLE: map<string, real> := map["H" := 0.56, "L" := 0.22, "N" := 0.0]

  function MetricValue(m: Metrics, key: string, table: map<string, real>): Option<real> {
    if key in m && m[key] in table then Some(table[m[key]]) else None
  }

  function Pow(x: real, n: nat): real {
    if n == 0 then 1.0 else x * Pow(x, n - 1)
  }

  function Impact(changed: bool, iss: real): real {
    if changed then 7.52 * (iss - 0.029) - 3.25 * Pow(iss - 0.02, 15) else 6.42 * iss
  }

  function SubScore(conf: real, integ: real, avail: real): real {
    1.0 - (1.0 - conf) * (1.0 - integ) * (1.0 - avail)
  }

  function Exploitability(av: real, ac: real, pr: real, ui: real): real {
    8.22 * av * ac * pr * ui
  }

  function Combine(changed: bool, impact: real, exploitability: real): real {
    if impact <= 0.0 then 0.0
    else ClampScore(Roundup(if changed then 1.08 * (impact + exploitability) else impact + exploitability))
  }

  /** The v3.1 equation on metric weights. */
  function BaseScore(changed: bool, conf: real, integ: real, avail: real, av: real, ac: real, pr: real,
                     ui: real): real
  {
    Combine(changed, Impact(changed, SubScore(conf, integ, avail)), Exploitability(av, ac, pr, ui))
  }

  /**
   * parseCVSSBaseScore on the vector's metrics (upper case, split at ':');
   * `explicit` is what an explicit BS component parses to.
   */
  function ScoreOf(m: Metrics, explicit: string -> Option<real>): Option<real> {
    if m == map[] then None
    else if "BS" in m then
      match explicit(m["BS"])
      case None => None
      case Some(score) => Some(ClampScore(score))
    else
      match WeightsOf(m)
      case None => None
      case Some(w) => Some(BaseScore(Changed(m), w.conf, w.integ, w.avail, w.av, w.ac, w.pr, w.ui))
  }

  /** The weights of a vector's eight metrics. */
  datatype Weights = Weights(av: real, ac: real, pr: real, ui: real, conf: real, integ: real, avail: real)

  /** Scope changed; a v4 vector has no scope. */
  predicate Changed(m: Metrics) {
    "S" in m && m["S"] == "C"
  }

  /** Every metric looked up in its table, the v4 ones on C, I and A; None when one is missing or unknown. */
  function WeightsOf(m: Metrics): Option<Weights> {
    var (c, i, a) := if "VC" in m then ("VC", "VI", "VA") else ("C", "I", "A");
    Gather(MetricValue(m, "AV", AV_TABLE), MetricValue(m, "AC", AC_TABLE),
           MetricValue(m, "PR", if Changed(m) then PR_CHANGED_TABLE else PR_TABLE), MetricValue(m, "UI", UI_TABLE),
           MetricValue(m, c, CIA_TABLE), MetricValue(m, i, CIA_TABLE), MetricValue(m, a, CIA_TABLE))
  }

  function Gather(av: Option<real>, ac: Option<real>, pr: Option<real>, ui: Option<real>,
                  conf: Option<real>, integ: Option<real>, avail: Option<real>): Option<Weights>
  {
    if av.None? || ac.None? || ui.None? || pr.None? || conf.None? || integ.None? || avail.None? then None
    else Some(Weights(av.value, ac.value, pr.value, ui.value, conf.value, integ.value, avail.value))
  }

  /** Every score is in the CVSS range. */
  lemma ScoreInRange(m: Metrics, explicit: string -> Option<real>)
    ensures ScoreOf(m, explicit).Some? ==> 0.0 <= ScoreOf(m, explicit).value <= 10.0
  {
  }

  // ----------------------------------------------------- more impact, higher score

  lemma Scale(c: real, a: real, b: real)
    requires c >= 0.0 && a <= b
    ensures c * a <= c * b
  {
  }

  lemma {:induction false} PowBounds(x: real, y: real, n: nat)
    requires 0.0 <= x <= y
    ensures 0.0 <= Pow(x, n) <= Pow(y, n)
  {
    if n > 0 {
      PowBounds(x, y, n - 1);
      Scale(x, 0.0, Pow(x, n - 1));
      Scale(Pow(x, n - 1), x, y);
      Scale(y, Pow(x, n - 1), Pow(y, n - 1));
    }
  }

  /** Between x and y a power rises by no more than its slope at y. */
  lemma {:induction false} PowSlope(x: real, y: real, n: nat)
    requires 0.0 <= x <= y
    ensures Pow(y, n + 1) - Pow(x, n + 1) <= (n + 1) as real * Pow(y, n) * (y - x)
  {
    if n > 0 {
      PowSlope(x, y, n - 1);
      PowBounds(x, y, n);
      SlopeStep(x, y, Pow(x, n), Pow(y, n), Pow(y, n - 1), n as real);
    }
  }

  lemma SlopeStep(x: real, y: real, p: real, q: real, r: real, k: real)
    requires 0.0 <= x <= y && p <= q && q == y * r && q - p <= k * r * (y - x)
    ensures y * q - x * p <= (k + 1.0) * q * (y - x)
  {
    Scale(y, q - p, k * r * (y - x));
    Scale(y - x, p, q);
    assert y * (k * r * (y - x)) == k * (y * r) * (y - x);
    assert y * q - x * p == y * (q - p) + (y - x) * p;
    assert (k + 1.0) * q * (y - x) == k * q * (y - x) + (y - x) * q;
  }

  // The impact sub-scores of the most and the second most severe vulnerability.
  const TOP := 0.914816
  const SECOND := 0.848992

  lemma PowNumbers()
    ensures Pow(SECOND - 0.02, 14) <= 0.08
    ensures Pow(TOP - 0.02, 15) - Pow(SECOND - 0.02, 15) <= 0.15
    ensures Pow(-0.02, 15) >= -0.01
  {
    PowChain(SECOND - 0.02);
    PowChain(TOP - 0.02);
    PowChain(-0.02);
  }

  /** The chain of products behind a fifteenth power, so that it can be computed for a number. */
  lemma PowChain(a: real)
    ensures Pow(a, 1) == a && Pow(a, 2) == a * Pow(a, 1) && Pow(a, 3) == a * Pow(a, 2) && Pow(a, 4) == a * Pow(a, 3)
    ensures Pow(a, 5) == a * Pow(a, 4) && Pow(a, 6) == a * Pow(a, 5) && Pow(a, 7) == a * Pow(a, 6)
    ensures Pow(a, 8) == a * Pow(a, 7) && Pow(a, 9) == a * Pow(a, 8) && Pow(a, 10) == a * Pow(a, 9)
    ensures Pow(a, 11) == a * Pow(a, 10) && Pow(a, 12) == a * Pow(a, 11) && Pow(a, 13) == a * Pow(a, 12)
    ensures Pow(a, 14) == a * Pow(a, 13) && Pow(a, 15) == a * Pow(a, 14)
  {
  }

  /** Below the top the changed-scope impact rises with the sub-score: the power is still flat there. */
  lemma ChangedRises(x: real, y: real)
    requires 0.02 <= x <= y <= SECOND
    ensures Impact(true, x) <= Impact(true, y)
  {
    var u, v := x - 0.02, y - 0.02;
    PowNumbers();
    PowSlope(u, v, 14);
    PowBounds(v, SECOND - 0.02, 14);
    Scale(15.0 * (v - u), Pow(v, 14), 0.08);
    assert 15.0 * Pow(v, 14) * (v - u) == 15.0 * (v - u) * Pow(v, 14);
  }

  /** A weight of the C, I and A tables. */
  predicate Weight(w: real) {
    w == 0.0 || w == 0.22 || w == 0.56
  }

  lemma SubScoreRises(c1: real, i1: real, a1: real, c2: real, i2: real, a2: real)
    requires 0.0 <= c1 <= c2 <= 1.0 && 0.0 <= i1 <= i2 <= 1.0 && 0.0 <= a1 <= a2 <= 1.0
    ensures SubScore(c1, i1, a1) <= SubScore(c2, i2, a2)
  {
    ProductMonotone(1.0 - c2, 1.0 - i2, 1.0 - c1, 1.0 - i1);
    ProductMonotone((1.0 - c2) * (1.0 - i2), 1.0 - a2, (1.0 - c1) * (1.0 - i1), 1.0 - a1);
  }

  /** The sub-scores that table weights reach: none, or at least one low, up to the second, or the top. */
  lemma SubScoresReached(conf: real, integ: real, avail: real)
    requires Weight(conf) && Weight(integ) && Weight(avail)
    ensures var s := SubScore(conf, integ, avail); s == 0.0 || 0.22 <= s <= SECOND || s == TOP
  {
    if conf == integ == avail == 0.56 {
    } else if conf == integ == avail == 0.0 {
    } else {
      var q := (1.0 - conf) * (1.0 - integ);
      assert q == 1.0 || q == 0.78 || q == 0.44 || q == 0.6084 || q == 0.3432 || q == 0.1936;
    }
  }

  /** The impact term never falls when a sub-score rises, unless it is not positive anyway. */
  lemma ImpactRises(changed: bool, s1: real, s2: real)
    requires s1 <= s2
    requires s1 == 0.0 || 0.22 <= s1 <= SECOND || s1 == TOP
    requires s2 == 0.0 || 0.22 <= s2 <= SECOND || s2 == TOP
    ensures Impact(changed, s1) <= 0.0 || Impact(changed, s1) <= Impact(changed, s2)
  {
    PowNumbers();
    if changed && s1 > 0.0 && s1 < TOP {
      if s2 == TOP {
        ChangedRises(s1, SECOND);
      } else {
        ChangedRises(s1, s2);
      }
    }
  }

  /**
   * More impact never scores lower, in either scope: raising a confidentiality,
   * integrity or availability weight along its table, everything else equal,
   * does not lower the base score. The changed-scope formula is not monotone in
   * its sub-score, but it is on the sub-scores that the tables reach.
   */
  lemma ScoreMonotone(changed: bool, c1: real, i1: real, a1: real, c2: real, i2: real, a2: real,
                      av: real, ac: real, pr: real, ui: real)
    requires Weight(c1) && Weight(i1) && Weight(a1) && Weight(c2) && Weight(i2) && Weight(a2)
    requires c1 <= c2 && i1 <= i2 && a1 <= a2
    ensures BaseScore(changed, c1, i1, a1, av, ac, pr, ui) <= BaseScore(changed, c2, i2, a2, av, ac, pr, ui)
  {
    var s1, s2 := SubScore(c1, i1, a1), SubScore(c2, i2, a2);
    SubScoreRises(c1, i1, a1, c2, i2, a2);
    SubScoresReached(c1, i1, a1);
    SubScoresReached(c2, i2, a2);
    ImpactRises(changed, s1, s2);
    CombineRises(changed, Impact(changed, s1), Impact(changed, s2), Exploitability(av, ac, pr, ui));
  }

  lemma CombineRises(changed: bool, m1: real, m2: real, e: real)
    requires m1 <= 0.0 || m1 <= m2
    ensures Combine(changed, m1, e) <= Combine(changed, m2, e)
  {
    if 0.0 < m1 {
      RoundupMonotone(if changed then 1.08 * (m1 + e) else m1 + e, if changed then 1.08 * (m2 + e) else m2 + e);
    }
  }

  /** Above the reachable sub-scores the changed-scope formula does fall. */
  lemma ChangedFormulaFalls()
    ensures Impact(true, 1.0) < Impact(true, TOP)
  {
    PowChain(1.0 - 0.02);
    PowChain(TOP - 0.02);
  }

  lemma ProductMonotone(a: real, b: real, x: real, y: real)
    requires 0.0 <= a <= x && 0.0 <= b <= y
    ensures 0.0 <= a * b <= x * y
  {
    assert a * b <= x * b <= x * y;
  }

  // ------------------------------------------------------------------------ bands

  function BandFromScore(score: real): string {
    if score >= 9.0 then CRITICAL else if score >= 7.0 then HIGH else if score >= 4.0 then MEDIUM else LOW
  }

  /** One entry of the OSV "severity" array; no metrics for a malformed vector. */
  datatype Entry = Entry(kind: string, metrics: Option<Metrics>)

  // The database severity is already trimmed and lower-cased.
  datatype RawVuln = RawVuln(id: string, entries: seq<Entry>, databaseSeverity: string)

  /** The score an entry contributes. */
  function EntryScore(e: Entry, explicit: string -> Option<real>): Option<real> {
    if (e.kind == "CVSS_V3" || e.kind == "CVSS_V4") && e.metrics.Some? then ScoreOf(e.metrics.value, explicit) else None
  }

  /** The band of the database_specific field. */
  function DatabaseBand(s: string): string {
    if s == "moderate" then MEDIUM else if s in {CRITICAL, HIGH, MEDIUM, LOW} then s else UNKNOWN
  }

  /** A v3 or v4 entry whose vector has this score. */
  ghost predicate Scores(e: Entry, explicit: string -> Option<real>, score: real) {
    && (e.kind == "CVSS_V3" || e.kind == "CVSS_V4")
    && e.metrics.Some? && ScoreOf(e.metrics.value, explicit) == Some(score)
  }

  /** `score` is the highest of the entries. */
  ghost predicate Highest(entries: seq<Entry>, explicit: string -> Option<real>, score: real) {
    && (exists e :: e in entries && Scores(e, explicit, score))
    && (forall e, s :: e in entries && Scores(e, explicit, s) ==> s <= score)
  }

  ghost predicate Scoreless(entries: seq<Entry>, explicit: string -> Option<real>) {
    forall e, s :: e in entries ==> !Scores(e, explicit, s)
  }

  // The same of what EntryScore computes.
  ghost predicate Top(entries: seq<Entry>, explicit: string -> Option<real>, score: real) {
    && (exists e :: e in entries && EntryScore(e, explicit) == Some(score))
    && (forall e :: e in entries && EntryScore(e, explicit).Some? ==> EntryScore(e, explicit).value <= score)
  }

  ghost predicate NoScore(entries: seq<Entry>, explicit: string -> Option<real>) {
    forall e :: e in entries ==> EntryScore(e, explicit).None?
  }

  lemma EntriesScore(entries: seq<Entry>, explicit: string -> Option<real>)
    ensures Scoreless(entries, explicit) <==> NoScore(entries, explicit)
    ensures forall score :: Highest(entries, explicit, score) <==> Top(entries, explicit, score)
  {
    assert forall e, s :: EntryScore(e, explicit) == Some(s) <==> Scores(e, explicit, s);
    assert forall e :: EntryScore(e, explicit).Some? ==> Scores(e, explicit, EntryScore(e, explicit).value);
  }

  /** computeSeverity: the band of the highest score if any entry scores, else the database's band. */
  method ComputeSeverity(raw: RawVuln, explicit: string -> Option<real>) returns (band: string)
    ensures Scoreless(raw.entries, explicit) ==> band == DatabaseBand(raw.databaseSeverity)
    ensures forall score :: Highest(raw.entries, explicit, score) ==> band == BandFromScore(score)
    ensures band == SeverityOf(raw, explicit)
  {
    var best := -1.0;
    for i := 0 to |raw.entries|
      invariant NoScore(raw.entries[..i], explicit) ==> best == -1.0
      invariant !NoScore(raw.entries[..i], explicit) ==> best >= 0.0 && Top(raw.entries[..i], explicit, best)
    {
      assert raw.entries[..i + 1] == raw.entries[..i] + [raw.entries[i]];
      var e := raw.entries[i];
      var score := EntryScore(e, explicit);
      if score.Some? {
        ScoreInRange(e.metrics.value, explicit);
        if score.value > best {
          best := score.value;
        }
        assert Top(raw.entries[..i + 1], explicit, best);
      } else if !NoScore(raw.entries[..i], explicit) {
        assert Top(raw.entries[..i + 1], explicit, best);
      }
    }
    assert raw.entries[..|raw.entries|] == raw.entries;
    EntriesScore(raw.entries, explicit);
    SeverityIs(raw, explicit);
    if best >= 0.0 {
      return BandFromScore(best);
    }
    return DatabaseBand(raw.databaseSeverity);
  }

  /** The best score of the entries, as a fold. */
  function Best(entries: seq<Entry>, explicit: string -> Option<real>): Option<real> {
    if entries == [] then None
    else
      var before, last := Best(entries[..|entries| - 1], explicit), EntryScore(entries[|entries| - 1], explicit);
      if last.Some? && (before.None? || last.value > before.value) then last else before
  }

  function SeverityOf(raw: RawVuln, explicit: string -> Option<real>): string {
    match Best(raw.entries, explicit)
    case Some(score) => BandFromScore(score)
    case None => DatabaseBand(raw.databaseSeverity)
  }

  lemma BestIsHighest(entries: seq<Entry>, explicit: string -> Option<real>)
    ensures Best(entries, explicit).None? <==> Scoreless(entries, explicit)
    ensures Best(entries, explicit).Some? ==> Highest(entries, explicit, Best(entries, explicit).value)
  {
    BestIsTop(entries, explicit);
    EntriesScore(entries, explicit);
  }

  lemma {:induction false} BestIsTop(entries: seq<Entry>, explicit: string -> Option<real>)
    ensures Best(entries, explicit).None? <==> NoScore(entries, explicit)
    ensures Best(entries, explicit).Some? ==> Top(entries, explicit, Best(entries, explicit).value)
  {
    if entries != [] {
      var front, last := entries[..|entries| - 1], entries[|entries| - 1];
      BestIsTop(front, explicit);
      assert entries == front + [last];
      if Best(front, explicit).Some? {
        var e :| e in front && EntryScore(e, explicit) == Best(front, explicit);
        assert e in entries;
      }
    }
  }

  lemma SeverityIs(raw: RawVuln, explicit: string -> Option<real>)
    ensures Scoreless(raw.entries, explicit) ==> SeverityOf(raw, explicit) == DatabaseBand(raw.databaseSeverity)
    ensures forall score :: Highest(raw.entries, explicit, score) ==> SeverityOf(raw, explicit) == BandFromScore(score)
  {
    BestIsHighest(raw.entries, explicit);
  }

  /** The order of the severity entries does not matter. */
  lemma SeverityPermutes(a: RawVuln, b: RawVuln, explicit: string -> Option<real>)
    requires multiset(a.entries) == multiset(b.entries) && a.databaseSeverity == b.databaseSeverity
    ensures SeverityOf(a, explicit) == SeverityOf(b, explicit)
  {
    assert forall e :: e in a.entries <==> e in multiset(a.entries);
    assert forall e :: e in b.entries <==> e in multiset(b.entries);
    BestIsHighest(a.entries, explicit);
    BestIsHighest(b.entries, explicit);
    if Best(a.entries, explicit).Some? {
      assert Highest(b.entries, explicit, Best(a.entries, explicit).value);
      SeverityIs(b, explicit);
    }
  }

  /**
   * The bands are the qualitative severity ratings of CVSS v3.1, so
   * a higher best score never has a lower band.
   */
  lemma SeverityRises(a: RawVuln, b: RawVuln, explicit: string -> Option<real>, x: real, y: real)
    requires Highest(a.entries, explicit, x) && Highest(b.entries, explicit, y)
    ensures SeverityOf(a, explicit) == "critical" <==> x >= 9.0
    ensures SeverityOf(a, explicit) == "high" <==> 7.0 <= x < 9.0
    ensures SeverityOf(a, explicit) == "medium" <==> 4.0 <= x < 7.0
    ensures SeverityOf(a, explicit) == "low" <==> x < 4.0
    ensures x <= y ==> SeverityRank(SeverityOf(a, explicit)) <= SeverityRank(SeverityOf(b, explicit))
  {
    SeverityIs(a, explicit);
    SeverityIs(b, explicit);
    RankCases(SeverityOf(a, explicit));
    RankCases(SeverityOf(b, explicit));
    assert |"critical"| == 8 && |"high"| == 4 && |"medium"| == 6 && |"low"| == 3;
  }

  /** Without a score the field's own rank counts, "moderate" as medium; anything else ranks as unknown. */
  lemma DatabaseBandRanks(raw: RawVuln, explicit: string -> Option<real>)
    requires Scoreless(raw.entries, explicit)
    ensures SeverityOf(raw, explicit) ==
            if raw.databaseSeverity == "moderate" then "medium"
            else if SeverityRank(raw.databaseSeverity) > 0 then raw.databaseSeverity else "unknown"
  {
    SeverityIs(raw, explicit);
    RankCases(raw.databaseSeverity);
  }
}
