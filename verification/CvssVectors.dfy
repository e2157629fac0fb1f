/**
 * internal/middleware/cveosv/cveosv.go:596-707 seen from the vectors: what
 * raising one letter does to a score, and the scores of known vectors.
 */
module CvssVectors {
  import opened Basics
  import opened Cvss

  datatype Metric = AV | AC | PR | UI | C | I | A | VC | VI | VA

  function Name(k: Metric): string {
    match k
    case AV => "AV" case AC => "AC" case PR => "PR" case UI => "UI"
    case C => "C" case I => "I" case A => "A" case VC => "VC" case VI => "VI" case VA => "VA"
  }

  /** The letters of a metric, from the mildest to the gravest. */
  function Letters(k: Metric): seq<string> {
    match k
    case AV => ["P", "L", "A", "N"]
    case AC => ["H", "L"]
    case PR => ["H", "L", "N"]
    case UI => ["R", "N"]
    case _ => ["N", "L", "H"]
  }

  /** The table that a metric is looked up in. */
  function TableOf(k: Metric, changed: bool): map<string, real> {
    match k
    case AV => AV_TABLE
    case AC => AC_TABLE
    case PR => if changed then PR_CHANGED_TABLE else PR_TABLE
    case UI => UI_TABLE
    case _ => CIA_TABLE
  }

  /** Weights are not negative and rise with the letters. */
  ghost predicate RisesIn(letters: seq<string>, t: map<string, real>, i: nat, j: nat) {
    i <= j < |letters| ==> letters[i] in t && letters[j] in t && 0.0 <= t[letters[i]] <= t[letters[j]]
  }

  lemma TableRises(k: Metric, changed: bool, i: nat, j: nat)
    ensures RisesIn(Letters(k), TableOf(k, changed), i, j)
  {
    match k
    case AV =>
    case AC =>
    case PR =>
    case UI =>
    case _ =>
  }

  lemma NotNegative(k: Metric, changed: bool)
    ensures forall v :: v in TableOf(k, changed) ==> TableOf(k, changed)[v] >= 0.0
  {
  }

  lemma NamesDiffer(j: Metric, k: Metric)
    requires Name(j) == Name(k)
    ensures j == k
  {
    assert |Name(j)| == 1 <==> j.C? || j.I? || j.A?;
  }

  /** Both or neither there, and the second at least as high. */
  ghost predicate Under(a: Option<real>, b: Option<real>) {
    (a.Some? <==> b.Some?) && (a.Some? ==> 0.0 <= a.value <= b.value)
  }

  function ValueOf(m: Metrics, k: Metric, changed: bool): Option<real> {
    MetricValue(m, Name(k), TableOf(k, changed))
  }

  lemma ValueRises(m: Metrics, key: Metric, i: nat, j: nat, k: Metric, changed: bool)
    requires i <= j < |Letters(key)|
    ensures Under(ValueOf(m[Name(key) := Letters(key)[i]], k, changed),
                  ValueOf(m[Name(key) := Letters(key)[j]], k, changed))
  {
    TableRises(key, changed, i, j);
    NotNegative(k, changed);
    if Name(k) == Name(key) {
      NamesDiffer(k, key);
    }
  }

  /** The metrics an impact is read from. */
  function ImpactOf(v4: bool): (Metric, Metric, Metric) {
    if v4 then (VC, VI, VA) else (C, I, A)
  }

  lemma WeightsAre(m: Metrics, changed: bool)
    requires changed == Changed(m)
    ensures var (c, i, a) := ImpactOf("VC" in m);
            WeightsOf(m) == Gather(ValueOf(m, AV, changed), ValueOf(m, AC, changed), ValueOf(m, PR, changed),
                                   ValueOf(m, UI, changed), ValueOf(m, c, changed), ValueOf(m, i, changed),
                                   ValueOf(m, a, changed))
  {
  }

  /** The second vector scores where the first does, and nowhere lower. */
  ghost predicate Graver(m1: Metrics, m2: Metrics) {
    && Changed(m1) == Changed(m2) && ("VC" in m1 <==> "VC" in m2)
    && forall k :: Under(ValueOf(m1, k, Changed(m1)), ValueOf(m2, k, Changed(m1)))
  }

  lemma LetterGraver(m: Metrics, key: Metric, i: nat, j: nat)
    requires i <= j < |Letters(key)|
    ensures Graver(m[Name(key) := Letters(key)[i]], m[Name(key) := Letters(key)[j]])
  {
    var m1, m2 := m[Name(key) := Letters(key)[i]], m[Name(key) := Letters(key)[j]];
    OtherNames(key);
    forall k
      ensures Under(ValueOf(m1, k, Changed(m1)), ValueOf(m2, k, Changed(m1)))
    {
      ValueRises(m, key, i, j, k, Changed(m1));
    }
  }

  lemma GatherRises(a1: Option<real>, a2: Option<real>, b1: Option<real>, b2: Option<real>,
                    c1: Option<real>, c2: Option<real>, d1: Option<real>, d2: Option<real>,
                    e1: Option<real>, e2: Option<real>, f1: Option<real>, f2: Option<real>,
                    g1: Option<real>, g2: Option<real>)
    requires Under(a1, a2) && Under(b1, b2) && Under(c1, c2) && Under(d1, d2)
    requires Under(e1, e2) && Under(f1, f2) && Under(g1, g2)
    ensures var v, w := Gather(a1, b1, c1, d1, e1, f1, g1), Gather(a2, b2, c2, d2, e2, f2, g2);
            (v.Some? <==> w.Some?) && (v.Some? ==> PointwiseBelow(v.value, w.value))
  {
  }

  lemma GraverWeights(m1: Metrics, m2: Metrics)
    requires Graver(m1, m2)
    ensures WeightsOf(m1).Some? <==> WeightsOf(m2).Some?
    ensures WeightsOf(m1).Some? ==> PointwiseBelow(WeightsOf(m1).value, WeightsOf(m2).value)
  {
    var t := Changed(m1);
    var (c, i, a) := ImpactOf("VC" in m1);
    WeightsAre(m1, t);
    WeightsAre(m2, t);
    GatherRises(ValueOf(m1, AV, t), ValueOf(m2, AV, t), ValueOf(m1, AC, t), ValueOf(m2, AC, t),
                ValueOf(m1, PR, t), ValueOf(m2, PR, t), ValueOf(m1, UI, t), ValueOf(m2, UI, t),
                ValueOf(m1, c, t), ValueOf(m2, c, t), ValueOf(m1, i, t), ValueOf(m2, i, t),
                ValueOf(m1, a, t), ValueOf(m2, a, t));
  }

  /** One product rises with each factor. */
  lemma ProductRises(a: real, b: real, c: real, d: real, x: real, y: real, z: real, w: real)
    requires 0.0 <= a <= x && 0.0 <= b <= y && 0.0 <= c <= z && 0.0 <= d <= w
    ensures Exploitability(a, b, c, d) <= Exploitability(x, y, z, w)
  {
    ProductMonotone(8.22, a, 8.22, x);
    ProductMonotone(8.22 * a, b, 8.22 * x, y);
    ProductMonotone(8.22 * a * b, c, 8.22 * x * y, z);
    ProductMonotone(8.22 * a * b * c, d, 8.22 * x * y * z, w);
  }

  /** The score rises with the ease of exploitation. */
  lemma EaseRaises(changed: bool, impact: real, e1: real, e2: real)
    requires e1 <= e2
    ensures Combine(changed, impact, e1) <= Combine(changed, impact, e2)
  {
    RoundupMonotone(if changed then 1.08 * (impact + e1) else impact + e1,
                    if changed then 1.08 * (impact + e2) else impact + e2);
  }

  /** Weights that are pointwise at least as high score at least as high. */
  lemma WeightsRaise(changed: bool, v: Weights, w: Weights)
    requires Weight(v.conf) && Weight(v.integ) && Weight(v.avail)
    requires Weight(w.conf) && Weight(w.integ) && Weight(w.avail)
    requires v.conf <= w.conf && v.integ <= w.integ && v.avail <= w.avail
    requires 0.0 <= v.av <= w.av && 0.0 <= v.ac <= w.ac && 0.0 <= v.pr <= w.pr && 0.0 <= v.ui <= w.ui
    ensures BaseScore(changed, v.conf, v.integ, v.avail, v.av, v.ac, v.pr, v.ui)
         <= BaseScore(changed, w.conf, w.integ, w.avail, w.av, w.ac, w.pr, w.ui)
  {
    ScoreMonotone(changed, v.conf, v.integ, v.avail, w.conf, w.integ, w.avail, v.av, v.ac, v.pr, v.ui);
    ProductRises(v.av, v.ac, v.pr, v.ui, w.av, w.ac, w.pr, w.ui);
    EaseRaises(changed, Impact(changed, SubScore(w.conf, w.integ, w.avail)),
               Exploitability(v.av, v.ac, v.pr, v.ui), Exploitability(w.av, w.ac, w.pr, w.ui));
  }

  ghost predicate PointwiseBelow(v: Weights, w: Weights) {
    && v.conf <= w.conf && v.integ <= w.integ && v.avail <= w.avail
    && 0.0 <= v.av <= w.av && 0.0 <= v.ac <= w.ac && 0.0 <= v.pr <= w.pr && 0.0 <= v.ui <= w.ui
  }

  /** Impact weights come from the table. */
  lemma ImpactWeights(m: Metrics)
    ensures WeightsOf(m).Some? ==>
              Weight(WeightsOf(m).value.conf) && Weight(WeightsOf(m).value.integ) && Weight(WeightsOf(m).value.avail)
  {
    assert forall v :: v in CIA_TABLE ==> Weight(CIA_TABLE[v]);
  }

  /** The scope and the explicit score are no graded metrics. */
  lemma OtherNames(k: Metric)
    ensures Name(k) != "S" && Name(k) != "BS"
  {
  }

  /**
   * Raising any one metric letter of a vector, everything else equal, never
   * lowers its score, in either scope and for v3 and v4 vectors; and the vector
   * scores with the one letter exactly when it does with the other.
   */
  lemma LetterRaises(m: Metrics, key: Metric, i: nat, j: nat, explicit: string -> Option<real>)
    requires i <= j < |Letters(key)| && "BS" !in m
    ensures var x := ScoreOf(m[Name(key) := Letters(key)[i]], explicit);
            var y := ScoreOf(m[Name(key) := Letters(key)[j]], explicit);
            (x.Some? <==> y.Some?) && (x.Some? ==> x.value <= y.value)
  {
    var m1, m2 := m[Name(key) := Letters(key)[i]], m[Name(key) := Letters(key)[j]];
    OtherNames(key);
    LetterGraver(m, key, i, j);
    GraverWeights(m1, m2);
    ScoreOfWeights(m1, explicit, Name(key));
    ScoreOfWeights(m2, explicit, Name(key));
    if WeightsOf(m1).Some? {
      ImpactWeights(m1);
      ImpactWeights(m2);
      WeightsRaise(Changed(m1), WeightsOf(m1).value, WeightsOf(m2).value);
    }
  }

  /** Without an explicit score the weights decide. */
  lemma ScoreOfWeights(m: Metrics, explicit: string -> Option<real>, key: string)
    requires key in m && "BS" !in m
    ensures ScoreOf(m, explicit) ==
            match WeightsOf(m)
            case None => None
            case Some(w) => Some(BaseScore(Changed(m), w.conf, w.integ, w.avail, w.av, w.ac, w.pr, w.ui))
  {
  }

  lemma TableDomain(k: Metric, changed: bool)
    ensures forall v :: v in TableOf(k, changed) <==> v in Letters(k)
  {
    match k
    case AV =>
    case AC =>
    case PR =>
    case UI =>
    case _ =>
  }

  /** The metric is there with one of its letters. */
  predicate Has(m: Metrics, k: Metric) {
    Name(k) in m && m[Name(k)] in Letters(k)
  }

  /** A vector without an explicit score scores exactly when it has every metric, the v4 impacts if it has VC. */
  lemma ScoresIff(m: Metrics, explicit: string -> Option<real>)
    requires m != map[] && "BS" !in m
    ensures ScoreOf(m, explicit).Some? <==>
            && Has(m, AV) && Has(m, AC) && Has(m, PR) && Has(m, UI)
            && if "VC" in m then Has(m, VC) && Has(m, VI) && Has(m, VA) else Has(m, C) && Has(m, I) && Has(m, A)
  {
    var t := Changed(m);
    WeightsAre(m, t);
    HasIff(m, AV, t);
    HasIff(m, AC, t);
    HasIff(m, PR, t);
    HasIff(m, UI, t);
    var (c, i, a) := ImpactOf("VC" in m);
    HasIff(m, c, t);
    HasIff(m, i, t);
    HasIff(m, a, t);
    ScoreSomeIff(m, explicit);
  }

  lemma HasIff(m: Metrics, k: Metric, changed: bool)
    ensures ValueOf(m, k, changed).Some? <==> Has(m, k)
  {
    TableDomain(k, changed);
  }

  lemma ScoreSomeIff(m: Metrics, explicit: string -> Option<real>)
    requires m != map[] && "BS" !in m
    ensures ScoreOf(m, explicit).Some? <==> WeightsOf(m).Some?
  {
  }

  /** A v3.1 vector. */
  function Vector(av: string, ac: string, pr: string, ui: string, s: string, c: string, i: string, a: string): Metrics {
    map["AV" := av, "AC" := ac, "PR" := pr, "UI" := ui, "S" := s, "C" := c, "I" := i, "A" := a]
  }

  /** A vector of known weights scores what they score. */
  lemma VectorScore(av: string, ac: string, pr: string, ui: string, s: string, c: string, i: string, a: string,
                    explicit: string -> Option<real>, w: Weights, score: real)
    requires av in AV_TABLE && ac in AC_TABLE && ui in UI_TABLE && c in CIA_TABLE && i in CIA_TABLE && a in CIA_TABLE
    requires pr in if s == "C" then PR_CHANGED_TABLE else PR_TABLE
    requires w == Weights(AV_TABLE[av], AC_TABLE[ac], if s == "C" then PR_CHANGED_TABLE[pr] else PR_TABLE[pr],
                          UI_TABLE[ui], CIA_TABLE[c], CIA_TABLE[i], CIA_TABLE[a])
    requires score == BaseScore(s == "C", w.conf, w.integ, w.avail, w.av, w.ac, w.pr, w.ui)
    ensures ScoreOf(Vector(av, ac, pr, ui, s, c, i, a), explicit) == Some(score)
  {
    var m := Vector(av, ac, pr, ui, s, c, i, a);
    VectorLetters(av, ac, pr, ui, s, c, i, a);
    ScoreOfWeights(m, explicit, "AV");
  }

  lemma VectorLetters(av: string, ac: string, pr: string, ui: string, s: string, c: string, i: string, a: string)
    ensures var m := Vector(av, ac, pr, ui, s, c, i, a);
            && "BS" !in m && "VC" !in m && "AV" in m && m["AV"] == av && "AC" in m && m["AC"] == ac
            && "PR" in m && m["PR"] == pr && "UI" in m && m["UI"] == ui && "S" in m && m["S"] == s
            && "C" in m && m["C"] == c && "I" in m && m["I"] == i && "A" in m && m["A"] == a
  {
  }

  lemma UnchangedScores()
    ensures BaseScore(false, 0.56, 0.56, 0.56, 0.85, 0.77, 0.85, 0.85) == 9.8
    ensures BaseScore(false, 0.22, 0.0, 0.0, 0.85, 0.77, 0.85, 0.85) == 5.3
    ensures BaseScore(false, 0.22, 0.0, 0.0, 0.85, 0.44, 0.85, 0.62) == 3.1
    ensures BaseScore(false, 0.56, 0.56, 0.56, 0.2, 0.77, 0.85, 0.85) == 6.8
    ensures BaseScore(false, 0.56, 0.56, 0.56, 0.62, 0.77, 0.85, 0.85) == 8.8
    ensures BaseScore(false, 0.22, 0.22, 0.22, 0.55, 0.77, 0.27, 0.85) == 4.2
  {
  }

  /** Rounding up a value between two tenths. */
  lemma RoundupIn(x: real, k: int)
    requires (10000 * k - 9999) as real <= x * 100000.0 <= (10000 * k) as real
    ensures Roundup(x) == k as real / 10.0
  {
    var n := Round(x * 100000.0);
    RoundupTenths(x);
    RoundNear(x * 100000.0);
    assert 10000 * k - 10000 < n <= 10000 * k;
    assert Tenths(n) == k;
  }

  lemma TopImpact()
    ensures 6.0477 <= Impact(true, TOP) <= 6.0478
  {
    PowChain(TOP - 0.02);
  }

  lemma LowImpact()
    ensures 2.7267 <= Impact(true, SubScore(0.22, 0.22, 0.0)) <= 2.7268
  {
    PowChain(SubScore(0.22, 0.22, 0.0) - 0.02);
  }

  lemma ChangedScore(conf: real, integ: real, avail: real, av: real, ac: real, pr: real, ui: real, impact: real, k: int)
    requires impact == Impact(true, SubScore(conf, integ, avail)) && impact > 0.0 && 0 <= k <= 100
    requires (10000 * k - 9999) as real <= 1.08 * (impact + Exploitability(av, ac, pr, ui)) * 100000.0
                                        <= (10000 * k) as real
    ensures BaseScore(true, conf, integ, avail, av, ac, pr, ui) == k as real / 10.0
  {
    RoundupIn(1.08 * (impact + Exploitability(av, ac, pr, ui)), k);
  }

  lemma ChangedScores()
    ensures BaseScore(true, 0.56, 0.56, 0.56, 0.85, 0.77, 0.68, 0.62) == 9.0
    ensures BaseScore(true, 0.56, 0.56, 0.56, 0.85, 0.77, 0.5, 0.85) == 9.1
    ensures BaseScore(true, 0.22, 0.22, 0.0, 0.85, 0.77, 0.68, 0.85) == 6.4
  {
    assert SubScore(0.56, 0.56, 0.56) == TOP;
    TopImpact();
    LowImpact();
    ChangedScore(0.56, 0.56, 0.56, 0.85, 0.77, 0.68, 0.62, Impact(true, TOP), 90);
    ChangedScore(0.56, 0.56, 0.56, 0.85, 0.77, 0.5, 0.85, Impact(true, TOP), 91);
    ChangedScore(0.22, 0.22, 0.0, 0.85, 0.77, 0.68, 0.85, Impact(true, SubScore(0.22, 0.22, 0.0)), 64);
  }

  /** And the top, which the clamp brings down from 10.8. */
  lemma TopScore()
    ensures BaseScore(true, 0.56, 0.56, 0.56, 0.85, 0.77, 0.85, 0.85) == 10.0
  {
    assert SubScore(0.56, 0.56, 0.56) == TOP;
    TopImpact();
    RoundupIn(1.08 * (Impact(true, TOP) + Exploitability(0.85, 0.77, 0.85, 0.85)), 108);
  }

  /** Scores as the CVSS v3.1 calculator gives them; between them the vectors use every letter of every metric. */
  lemma KnownScores(explicit: string -> Option<real>)
    ensures ScoreOf(Vector("N", "L", "N", "N", "U", "H", "H", "H"), explicit) == Some(9.8)
    ensures ScoreOf(Vector("N", "L", "N", "N", "U", "L", "N", "N"), explicit) == Some(5.3)
    ensures ScoreOf(Vector("N", "L", "L", "R", "C", "H", "H", "H"), explicit) == Some(9.0)
    ensures ScoreOf(Vector("N", "H", "N", "R", "U", "L", "N", "N"), explicit) == Some(3.1)
    ensures ScoreOf(Vector("P", "L", "N", "N", "U", "H", "H", "H"), explicit) == Some(6.8)
    ensures ScoreOf(Vector("A", "L", "N", "N", "U", "H", "H", "H"), explicit) == Some(8.8)
    ensures ScoreOf(Vector("L", "L", "H", "N", "U", "L", "L", "L"), explicit) == Some(4.2)
    ensures ScoreOf(Vector("N", "L", "H", "N", "C", "H", "H", "H"), explicit) == Some(9.1)
    ensures ScoreOf(Vector("N", "L", "L", "N", "C", "L", "L", "N"), explicit) == Some(6.4)
    ensures ScoreOf(Vector("N", "L", "N", "N", "C", "H", "H", "H"), explicit) == Some(10.0)
  {
    NetworkScores(explicit);
    OtherScores(explicit);
    ScopeScores(explicit);
  }

  lemma NetworkScores(explicit: string -> Option<real>)
    ensures ScoreOf(Vector("N", "L", "N", "N", "U", "H", "H", "H"), explicit) == Some(9.8)
    ensures ScoreOf(Vector("N", "L", "N", "N", "U", "L", "N", "N"), explicit) == Some(5.3)
    ensures ScoreOf(Vector("N", "H", "N", "R", "U", "L", "N", "N"), explicit) == Some(3.1)
  {
    UnchangedScores();
    VectorScore("N", "L", "N", "N", "U", "H", "H", "H", explicit,
                Weights(0.85, 0.77, 0.85, 0.85, 0.56, 0.56, 0.56), 9.8);
    VectorScore("N", "L", "N", "N", "U", "L", "N", "N", explicit,
                Weights(0.85, 0.77, 0.85, 0.85, 0.22, 0.0, 0.0), 5.3);
    VectorScore("N", "H", "N", "R", "U", "L", "N", "N", explicit,
                Weights(0.85, 0.44, 0.85, 0.62, 0.22, 0.0, 0.0), 3.1);
  }

  lemma OtherScores(explicit: string -> Option<real>)
    ensures ScoreOf(Vector("P", "L", "N", "N", "U", "H", "H", "H"), explicit) == Some(6.8)
    ensures ScoreOf(Vector("A", "L", "N", "N", "U", "H", "H", "H"), explicit) == Some(8.8)
    ensures ScoreOf(Vector("L", "L", "H", "N", "U", "L", "L", "L"), explicit) == Some(4.2)
  {
    UnchangedScores();
    VectorScore("P", "L", "N", "N", "U", "H", "H", "H", explicit,
                Weights(0.2, 0.77, 0.85, 0.85, 0.56, 0.56, 0.56), 6.8);
    VectorScore("A", "L", "N", "N", "U", "H", "H", "H", explicit,
                Weights(0.62, 0.77, 0.85, 0.85, 0.56, 0.56, 0.56), 8.8);
    VectorScore("L", "L", "H", "N", "U", "L", "L", "L", explicit,
                Weights(0.55, 0.77, 0.27, 0.85, 0.22, 0.22, 0.22), 4.2);
  }

  lemma ScopeScores(explicit: string -> Option<real>)
    ensures ScoreOf(Vector("N", "L", "L", "R", "C", "H", "H", "H"), explicit) == Some(9.0)
    ensures ScoreOf(Vector("N", "L", "H", "N", "C", "H", "H", "H"), explicit) == Some(9.1)
    ensures ScoreOf(Vector("N", "L", "L", "N", "C", "L", "L", "N"), explicit) == Some(6.4)
    ensures ScoreOf(Vector("N", "L", "N", "N", "C", "H", "H", "H"), explicit) == Some(10.0)
  {
    ChangedScores();
    TopScore();
    VectorScore("N", "L", "L", "R", "C", "H", "H", "H", explicit,
                Weights(0.85, 0.77, 0.68, 0.62, 0.56, 0.56, 0.56), 9.0);
    VectorScore("N", "L", "H", "N", "C", "H", "H", "H", explicit,
                Weights(0.85, 0.77, 0.5, 0.85, 0.56, 0.56, 0.56), 9.1);
    VectorScore("N", "L", "L", "N", "C", "L", "L", "N", explicit,
                Weights(0.85, 0.77, 0.68, 0.85, 0.22, 0.22, 0.0), 6.4);
    VectorScore("N", "L", "N", "N", "C", "H", "H", "H", explicit,
                Weights(0.85, 0.77, 0.85, 0.85, 0.56, 0.56, 0.56), 10.0);
  }

  /** An explicit score wins over the metrics, brought into the range. */
  lemma ExplicitWins(m: Metrics, explicit: string -> Option<real>)
    requires "BS" in m
    ensures explicit(m["BS"]).None? ==> ScoreOf(m, explicit).None?
    ensures forall x :: explicit(m["BS"]) == Some(x) ==>
              ScoreOf(m, explicit) == Some(if x < 0.0 then 0.0 else if x > 10.0 then 10.0 else x)
  {
  }
}
