/**
 * internal/middleware/cveosv/cveosv.go:54-67 and 437-547: severity bands, the
 * min_severity filter on vulnerability lists, and its counterpart on the
 * per-band counts that are persisted instead of the lists.
 */
module CveSeverity {
  import opened Basics

  const CRITICAL := "critical"
  const HIGH := "high"
  const MEDIUM := "medium"
  const LOW := "low"
  const UNKNOWN := "unknown"

  datatype Vuln = Vuln(id: string, severity: string)

  function SeverityRank(s: string): (r: nat)
    ensures r <= 4
  {
    if s == CRITICAL then 4 else if s == HIGH then 3 else if s == MEDIUM then 2 else if s == LOW then 1 else 0
  }

  lemma RankCases(s: string)
    ensures SeverityRank(s) == 4 <==> s == CRITICAL
    ensures SeverityRank(s) == 3 <==> s == HIGH
    ensures SeverityRank(s) == 2 <==> s == MEDIUM
    ensures SeverityRank(s) == 1 <==> s == LOW
  {
    assert |CRITICAL| == 8 && |HIGH| == 4 && |MEDIUM| == 6 && |LOW| == 3;
  }

  /** The vulns of rank r or more, in order. */
  function AtLeast(vulns: seq<Vuln>, r: nat): seq<Vuln> {
    if vulns == [] then []
    else
      var front, last := AtLeast(vulns[..|vulns| - 1], r), vulns[|vulns| - 1];
      if SeverityRank(last.severity) >= r then front + [last] else front
  }

  lemma {:induction false} AtLeastMembers(vulns: seq<Vuln>, r: nat)
    ensures forall v :: v in AtLeast(vulns, r) <==> v in vulns && SeverityRank(v.severity) >= r
  {
    if vulns != [] {
      var front, last := vulns[..|vulns| - 1], vulns[|vulns| - 1];
      AtLeastMembers(front, r);
      assert forall v :: v in vulns <==> v in front || v == last;
    }
  }

  /** filterBySeverity: an empty, "none" or unrecognised threshold keeps everything. */
  method FilterBySeverity(vulns: seq<Vuln>, minSeverity: string) returns (kept: seq<Vuln>)
    ensures kept == AtLeast(vulns, SeverityRank(minSeverity))
  {
    AllAtLeastZero(vulns);
    if minSeverity == "" {
      return vulns;
    }
    var threshold := SeverityRank(minSeverity);
    if threshold <= 0 {
      return vulns;
    }
    kept := [];
    for i := 0 to |vulns|
      invariant kept == AtLeast(vulns[..i], threshold)
    {
      assert vulns[..i + 1][..i] == vulns[..i];
      if SeverityRank(vulns[i].severity) >= threshold {
        kept := kept + [vulns[i]];
      }
    }
    assert vulns[..|vulns|] == vulns;
  }

  lemma {:induction false} AllAtLeastZero(vulns: seq<Vuln>)
    ensures AtLeast(vulns, 0) == vulns
  {
    if vulns != [] {
      AllAtLeastZero(vulns[..|vulns| - 1]);
    }
  }

  /** Filtering twice is filtering once, by the stronger threshold. */
  lemma {:induction false} FilterTwice(vulns: seq<Vuln>, r: nat, q: nat)
    ensures AtLeast(AtLeast(vulns, r), q) == AtLeast(vulns, if r < q then q else r)
  {
    if vulns != [] {
      var front, last := vulns[..|vulns| - 1], vulns[|vulns| - 1];
      FilterTwice(front, r, q);
      if SeverityRank(last.severity) >= r {
        assert AtLeast(vulns, r)[..|AtLeast(vulns, r)| - 1] == AtLeast(front, r);
      }
    }
  }

  /** The filter goes vulnerability by vulnerability, in order. */
  lemma {:induction false} FilterConcat(a: seq<Vuln>, b: seq<Vuln>, r: nat)
    ensures AtLeast(a + b, r) == AtLeast(a, r) + AtLeast(b, r)
    decreases |b|
  {
    if b == [] {
      assert a + b == a;
    } else {
      assert (a + b)[..|a + b| - 1] == a + b[..|b| - 1];
      FilterConcat(a, b[..|b| - 1], r);
    }
  }

  lemma FilterOne(v: Vuln, r: nat)
    ensures AtLeast([v], r) == if SeverityRank(v.severity) >= r then [v] else []
  {
    assert [v][..0] == [];
  }

  // --------------------------------------------------------------------- counts

  datatype Counts = Counts(critical: nat, high: nat, medium: nat, low: nat, unknown: nat)
  {
    function Total(): nat {
      critical + high + medium + low + unknown
    }

    function FilterByMinSeverity(minSeverity: string): Counts {
      var threshold := SeverityRank(minSeverity);
      if threshold <= 0 then this
      else
        Counts(if SeverityRank(CRITICAL) >= threshold then critical else 0,
               if SeverityRank(HIGH) >= threshold then high else 0,
               if SeverityRank(MEDIUM) >= threshold then medium else 0,
               if SeverityRank(LOW) >= threshold then low else 0,
               0)
    }

    /** The bands of rank r and more. */
    function Keep(r: nat): Counts {
      Counts(if 4 >= r then critical else 0, if 3 >= r then high else 0, if 2 >= r then medium else 0,
             if 1 >= r then low else 0, if r == 0 then unknown else 0)
    }
  }

  lemma FilterKeeps(c: Counts, minSeverity: string)
    ensures c.FilterByMinSeverity(minSeverity) == c.Keep(SeverityRank(minSeverity))
  {
    RankCases(CRITICAL);
    RankCases(HIGH);
    RankCases(MEDIUM);
    RankCases(LOW);
  }

  /** How many of `vulns` have rank r. */
  function Ranked(vulns: seq<Vuln>, r: nat): nat {
    if vulns == [] then 0
    else Ranked(vulns[..|vulns| - 1], r) + if SeverityRank(vulns[|vulns| - 1].severity) == r then 1 else 0
  }

  function CountsOf(vulns: seq<Vuln>): Counts {
    Counts(Ranked(vulns, 4), Ranked(vulns, 3), Ranked(vulns, 2), Ranked(vulns, 1), Ranked(vulns, 0))
  }

  method CountBySeverity(vulns: seq<Vuln>) returns (c: Counts)
    ensures c == CountsOf(vulns) && c.Total() == |vulns|
  {
    c := Counts(0, 0, 0, 0, 0);
    for i := 0 to |vulns|
      invariant c == CountsOf(vulns[..i])
    {
      assert vulns[..i + 1] == vulns[..i] + [vulns[i]];
      CountNext(vulns[..i], vulns[i]);
      var s := vulns[i].severity;
      if s == CRITICAL {
        c := c.(critical := c.critical + 1);
      } else if s == HIGH {
        c := c.(high := c.high + 1);
      } else if s == MEDIUM {
        c := c.(medium := c.medium + 1);
      } else if s == LOW {
        c := c.(low := c.low + 1);
      } else {
        c := c.(unknown := c.unknown + 1);
      }
    }
    assert vulns[..|vulns|] == vulns;
    TotalIsLength(vulns);
  }

  /** One more vuln raises the count of its own band only. */
  lemma CountNext(vulns: seq<Vuln>, v: Vuln)
    ensures var c, s := CountsOf(vulns), v.severity;
            CountsOf(vulns + [v]) ==
            if s == CRITICAL then c.(critical := c.critical + 1)
            else if s == HIGH then c.(high := c.high + 1)
            else if s == MEDIUM then c.(medium := c.medium + 1)
            else if s == LOW then c.(low := c.low + 1)
            else c.(unknown := c.unknown + 1)
  {
    assert (vulns + [v])[..|vulns|] == vulns;
    var r := SeverityRank(v.severity);
    assert forall q: nat :: Ranked(vulns + [v], q) == Ranked(vulns, q) + if r == q then 1 else 0;
    RankCases(v.severity);
  }

  lemma {:induction false} RankedAtLeast(vulns: seq<Vuln>, r: nat, q: nat)
    ensures Ranked(AtLeast(vulns, r), q) == if q >= r then Ranked(vulns, q) else 0
  {
    if vulns != [] {
      var front, last := vulns[..|vulns| - 1], vulns[|vulns| - 1];
      RankedAtLeast(front, r, q);
      if SeverityRank(last.severity) >= r {
        assert AtLeast(vulns, r)[..|AtLeast(vulns, r)| - 1] == AtLeast(front, r);
      }
    }
  }

  lemma {:induction false} TotalIsLength(vulns: seq<Vuln>)
    ensures CountsOf(vulns).Total() == |vulns|
  {
    if vulns != [] {
      TotalIsLength(vulns[..|vulns| - 1]);
    }
  }

  lemma KeptCounts(vulns: seq<Vuln>, r: nat, q: nat)
    requires r <= 4 && q <= 4
    ensures CountsOf(AtLeast(vulns, r)).Keep(q) == CountsOf(AtLeast(vulns, if r < q then q else r))
  {
    var s := if r < q then q else r;
    RankedAtLeast(vulns, r, 0);
    RankedAtLeast(vulns, r, 1);
    RankedAtLeast(vulns, r, 2);
    RankedAtLeast(vulns, r, 3);
    RankedAtLeast(vulns, r, 4);
    RankedAtLeast(vulns, s, 0);
    RankedAtLeast(vulns, s, 1);
    RankedAtLeast(vulns, s, 2);
    RankedAtLeast(vulns, s, 3);
    RankedAtLeast(vulns, s, 4);
  }

  /** The rank of the stronger of two thresholds. */
  function Stronger(m1: string, m2: string): nat {
    if SeverityRank(m1) < SeverityRank(m2) then SeverityRank(m2) else SeverityRank(m1)
  }

  /**
   * The counts refine the lists: counting what one threshold kept and then
   * applying another to the counts is counting what the stronger of the two keeps.
   */
  lemma CountsRefineLists(vulns: seq<Vuln>, m1: string, m2: string)
    ensures CountsOf(AtLeast(vulns, SeverityRank(m1))).FilterByMinSeverity(m2)
            == CountsOf(AtLeast(vulns, Stronger(m1, m2)))
  {
    FilterKeeps(CountsOf(AtLeast(vulns, SeverityRank(m1))), m2);
    KeptCounts(vulns, SeverityRank(m1), SeverityRank(m2));
  }

  // ------------------------------------------------------------------ decisions

  datatype Decision = Serve | ServeWarned | Deny

  const WARN := "warn"

  /** What the middleware does with the vulns it would act on. */
  function Decide(mode: string, vulns: seq<Vuln>): Decision {
    if vulns == [] then Serve else if mode == WARN then ServeWarned else Deny
  }

  /** applyFromCounts: the same decision from persisted counts. */
  function DecideFromCounts(mode: string, c: Counts, minSeverity: string): Decision {
    if c.FilterByMinSeverity(minSeverity).Total() == 0 then Serve else if mode == WARN then ServeWarned else Deny
  }

  /** Some vulnerability is severe enough for both thresholds. */
  ghost predicate Serious(vulns: seq<Vuln>, m1: string, m2: string) {
    exists v :: && v in vulns
                && SeverityRank(v.severity) >= SeverityRank(m1)
                && SeverityRank(v.severity) >= SeverityRank(m2)
  }

  /**
   * The decision, from outside: nothing severe enough is served; anything severe
   * enough is served with a warning in warn mode and denied in every other.
   */
  lemma DecideExactly(mode: string, vulns: seq<Vuln>, m1: string, m2: string)
    ensures Decide(mode, AtLeast(vulns, Stronger(m1, m2))) ==
            if !Serious(vulns, m1, m2) then Serve else if mode == "warn" then ServeWarned else Deny
  {
    EmptyAtLeast(vulns, Stronger(m1, m2));
  }

  /** Counts stored under threshold m1 and read under m2 decide as the list under the stronger one. */
  lemma CountsDecideAsList(mode: string, vulns: seq<Vuln>, m1: string, m2: string)
    ensures DecideFromCounts(mode, CountsOf(AtLeast(vulns, SeverityRank(m1))), m2)
         == Decide(mode, AtLeast(vulns, Stronger(m1, m2)))
  {
    CountsRefineLists(vulns, m1, m2);
    TotalIsLength(AtLeast(vulns, Stronger(m1, m2)));
  }

  /** Two decisions differ exactly when one list is empty and the other is not. */
  lemma DecisionsAgree(mode: string, a: seq<Vuln>, b: seq<Vuln>)
    ensures Decide(mode, a) == Decide(mode, b) <==> (a == [] <==> b == [])
  {
  }

  /**
   * A changed threshold is honoured without a new query exactly when it was not
   * loosened past every stored vulnerability: under a looser threshold, a row
   * that the stricter one emptied still serves what a live query would act on.
   */
  lemma ThresholdHonouredIff(mode: string, vulns: seq<Vuln>, m1: string, m2: string)
    ensures DecideFromCounts(mode, CountsOf(AtLeast(vulns, SeverityRank(m1))), m2)
              == Decide(mode, AtLeast(vulns, SeverityRank(m2)))
            <==> (SeverityRank(m1) <= SeverityRank(m2)
                  || (exists v :: v in vulns && SeverityRank(v.severity) >= SeverityRank(m1))
                  || forall v :: v in vulns ==> SeverityRank(v.severity) < SeverityRank(m2))
  {
    CountsDecideAsList(mode, vulns, m1, m2);
    DecisionsAgree(mode, AtLeast(vulns, Stronger(m1, m2)), AtLeast(vulns, SeverityRank(m2)));
    EmptyAtLeast(vulns, Stronger(m1, m2));
    EmptyAtLeast(vulns, SeverityRank(m2));
  }

  lemma EmptyAtLeast(vulns: seq<Vuln>, r: nat)
    ensures AtLeast(vulns, r) == [] <==> forall v :: v in vulns ==> SeverityRank(v.severity) < r
  {
    AtLeastMembers(vulns, r);
    assert AtLeast(vulns, r) != [] ==> AtLeast(vulns, r)[0] in AtLeast(vulns, r);
  }

  /** A vulnerability between a looser and a stricter threshold is such a case. */
  lemma LooseningNotHonoured(mode: string, v: Vuln, strict: string, loose: string)
    requires SeverityRank(loose) <= SeverityRank(v.severity) < SeverityRank(strict)
    ensures DecideFromCounts(mode, CountsOf(AtLeast([v], SeverityRank(strict))), loose) == Serve
    ensures Decide(mode, AtLeast([v], SeverityRank(loose))) != Serve
  {
    CountsDecideAsList(mode, [v], strict, loose);
    EmptyAtLeast([v], Stronger(strict, loose));
    EmptyAtLeast([v], SeverityRank(loose));
    assert v in [v];
  }
}
