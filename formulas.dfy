/** The scoring formulas of section 7 of the CVSS v3.1 specification as the
    calculator evaluates them: the weights gathered for one call, the Base,
    Temporal and Environmental equations, over exact reals. */
module Formulas {
  import Schema
  import Rounding
  import Assignment

  /** The weight of every metric of one call. */
  datatype Weights = Weights(
    AV: real, AC: real, PR: real, UI: real, S: real, C: real, I: real, A: real,
    E: real, RL: real, RC: real,
    CR: real, IR: real, AR: real,
    MAV: real, MAC: real, MPR: real, MUI: real, MS: real, MC: real, MI: real, MA: real)

  /** The value used for a Modified Base metric: its own unless it is "X",
      in which case that of the Base metric it modifies. */
  function Effective(modified: string, base: string): string {
    if modified != "X" then modified else base
  }

  /** The weights as the calculator gathers them. The PR weight comes from
      the table of the Scope value (PRU or PRC), the MPR weight from that of
      the effective Modified Scope; the requirements share table CIAR. */
  function GatherWeights(m: Assignment.Metrics): Weights {
    Weights(
      Schema.Weight("AV", m.AV), Schema.Weight("AC", m.AC), Schema.Weight("PR" + m.S, m.PR),
      Schema.Weight("UI", m.UI), Schema.Weight("S", m.S),
      Schema.Weight("CIA", m.C), Schema.Weight("CIA", m.I), Schema.Weight("CIA", m.A),
      Schema.Weight("E", m.E), Schema.Weight("RL", m.RL), Schema.Weight("RC", m.RC),
      Schema.Weight("CIAR", m.CR), Schema.Weight("CIAR", m.IR), Schema.Weight("CIAR", m.AR),
      Schema.Weight("AV", Effective(m.MAV, m.AV)), Schema.Weight("AC", Effective(m.MAC, m.AC)),
      Schema.Weight("PR" + Effective(m.MS, m.S), Effective(m.MPR, m.PR)),
      Schema.Weight("UI", Effective(m.MUI, m.UI)), Schema.Weight("S", Effective(m.MS, m.S)),
      Schema.Weight("CIA", Effective(m.MC, m.C)), Schema.Weight("CIA", Effective(m.MI, m.I)),
      Schema.Weight("CIA", Effective(m.MA, m.A)))
  }

  /** Every weight of the tables is non-negative; the Temporal weights are
      at most 1, the Confidentiality, Integrity and Availability weights at
      most 0.56 and the requirement weights at most 1.5. */
  predicate Bounded(w: Weights) {
    && 0.0 <= w.AV && 0.0 <= w.AC && 0.0 <= w.PR && 0.0 <= w.UI && 0.0 <= w.S
    && 0.0 <= w.C <= 0.56 && 0.0 <= w.I <= 0.56 && 0.0 <= w.A <= 0.56
    && 0.0 <= w.E <= 1.0 && 0.0 <= w.RL <= 1.0 && 0.0 <= w.RC <= 1.0
    && 0.0 <= w.CR <= 1.5 && 0.0 <= w.IR <= 1.5 && 0.0 <= w.AR <= 1.5
    && 0.0 <= w.MAV && 0.0 <= w.MAC && 0.0 <= w.MPR && 0.0 <= w.MUI && 0.0 <= w.MS
    && 0.0 <= w.MC <= 0.56 && 0.0 <= w.MI <= 0.56 && 0.0 <= w.MA <= 0.56
  }

  /** A PR lookup reads table PRU or PRC, or no table at all. */
  lemma PrivilegeWeight(scope: string, code: string)
    ensures 0.0 <= Schema.Weight("PR" + scope, code) <= 0.85
  {
    var t := "PR" + scope;
    if scope != "U" && scope != "C" {
      assert t[0] == 'P' && t[1] == 'R';
      assert t != "PRU" && t != "PRC" by {
        if |scope| == 1 { assert t[2] == scope[0]; }
      }
    }
  }

  /** Whatever the call passes, the gathered weights lie within the bounds
      of the tables. */
  lemma GatheredBounded(m: Assignment.Metrics)
    ensures Bounded(GatherWeights(m))
  {
    PrivilegeWeight(m.S, m.PR);
    PrivilegeWeight(Effective(m.MS, m.S), Effective(m.MPR, m.PR));
    Schema.WeightBounds("S", m.S);
    Schema.WeightBounds("S", Effective(m.MS, m.S));
  }

  /** std::min: the first argument unless the second is smaller. */
  function Min(a: real, b: real): (r: real)
    ensures r <= a && r <= b && (r == a || r == b)
  {
    if b < a then b else a
  }

  /** pow with a whole exponent. */
  function Pow(x: real, n: nat): real {
    if n == 0 then 1.0 else x * Pow(x, n - 1)
  }

  /** Impact Sub-Score (ISS). */
  function Iss(c: real, i: real, a: real): real {
    1.0 - ((1.0 - c) * (1.0 - i) * (1.0 - a))
  }

  /** Impact: proportional to the ISS when Scope is unchanged, otherwise
      corrected by a power of degree 15. */
  function Impact(s: real, iss: real, scopeUnchanged: bool): real {
    if scopeUnchanged then s * iss
    else s * (iss - 0.029) - 3.25 * Pow(iss - 0.02, 15)
  }

  /** Exploitability, from the Base metrics or from their modified
      values alike. */
  function Exploitability(av: real, ac: real, pr: real, ui: real): real {
    Schema.ExploitabilityCoefficient * av * ac * pr * ui
  }

  /** The Base score: 0 when the impact is not positive, otherwise the sum
      of exploitability and impact (scaled by 1.08 when Scope is changed),
      capped at 10 and rounded up to one decimal. */
  function BaseScore(impact: real, exploitability: real, scopeUnchanged: bool): real {
    if impact <= 0.0 then 0.0
    else if scopeUnchanged then Rounding.RoundUp1(Min(exploitability + impact, 10.0))
    else Rounding.RoundUp1(Min(Schema.ScopeCoefficient * (exploitability + impact), 10.0))
  }

  /** The Temporal score: the Base score weighted by the Temporal metrics,
      rounded up. */
  function TemporalScore(baseScore: real, e: real, rl: real, rc: real): real {
    Rounding.RoundUp1(baseScore * e * rl * rc)
  }

  /** Modified Impact Sub-Score (MISS), capped at 0.915. */
  function Miss(mc: real, cr: real, mi: real, ir: real, ma: real, ar: real): real {
    Min(1.0 - ((1.0 - mc * cr) * (1.0 - mi * ir) * (1.0 - ma * ar)), 0.915)
  }

  /** The Modified Scope counts as unchanged when it says so, or when it is
      not defined and the Scope is unchanged. */
  predicate ModifiedScopeUnchanged(modifiedScope: string, scope: string) {
    modifiedScope == "U" || (modifiedScope == "X" && scope == "U")
  }

  /** Modified Impact: unlike the Base impact, the correction for a changed
      scope uses the MISS scaled by 0.9731 and a power of degree 13. */
  function ModifiedImpact(ms: real, miss: real, scopeUnchanged: bool): real {
    if scopeUnchanged then ms * miss
    else ms * (miss - 0.029) - 3.25 * Pow(miss * 0.9731 - 0.02, 13)
  }

  /** The Environmental score: the Base equation applied to the modified
      sub-scores, weighted by the Temporal metrics and rounded again; 0 when
      the modified impact is not positive. */
  function EnvironmentalScore(modifiedImpact: real, modifiedExploitability: real, scopeUnchanged: bool,
                              e: real, rl: real, rc: real): real {
    if modifiedImpact <= 0.0 then 0.0
    else TemporalScore(BaseScore(modifiedImpact, modifiedExploitability, scopeUnchanged), e, rl, rc)
  }

  /** Every number the calculator computes for one call. */
  datatype Scores = Scores(
    iss: real, impact: real, exploitability: real, base: real,
    temporal: real,
    miss: real, modifiedImpact: real, modifiedExploitability: real, environmental: real)

  /** The three equations evaluated on the weights of one call, with the
      Scope and Modified Scope values that select their branches. */
  function Evaluate(w: Weights, scope: string, modifiedScope: string): Scores {
    var scopeUnchanged := scope == "U";
    var iss := Iss(w.C, w.I, w.A);
    var impact := Impact(w.S, iss, scopeUnchanged);
    var exploitability := Exploitability(w.AV, w.AC, w.PR, w.UI);
    var base := BaseScore(impact, exploitability, scopeUnchanged);
    var modifiedUnchanged := ModifiedScopeUnchanged(modifiedScope, scope);
    var miss := Miss(w.MC, w.CR, w.MI, w.IR, w.MA, w.AR);
    var modifiedImpact := ModifiedImpact(w.MS, miss, modifiedUnchanged);
    var modifiedExploitability := Exploitability(w.MAV, w.MAC, w.MPR, w.MUI);
    Scores(iss, impact, exploitability, base,
           TemporalScore(base, w.E, w.RL, w.RC),
           miss, modifiedImpact, modifiedExploitability,
           EnvironmentalScore(modifiedImpact, modifiedExploitability, modifiedUnchanged, w.E, w.RL, w.RC))
  }

  /** The numbers computed for an assignment of metric values. */
  function ScoresOf(m: Assignment.Metrics): Scores {
    Evaluate(GatherWeights(m), m.S, m.MS)
  }

  /** A product of factors in [0, 1] with a score in [0, top] stays in
      [0, top]. */
  lemma ScaledDown(x: real, e: real, rl: real, rc: real) returns (p: real)
    requires 0.0 <= x && 0.0 <= e <= 1.0 && 0.0 <= rl <= 1.0 && 0.0 <= rc <= 1.0
    ensures p == x * e * rl * rc && 0.0 <= p <= x
  {
    p := x * e * rl * rc;
    assert 0.0 <= x * e <= x;
    assert 0.0 <= x * e * rl <= x * e;
    assert 0.0 <= x * e * rl * rc <= x * e * rl;
  }

  /** Exploitability is never negative. */
  lemma ExploitabilityNonNegative(av: real, ac: real, pr: real, ui: real)
    requires 0.0 <= av && 0.0 <= ac && 0.0 <= pr && 0.0 <= ui
    ensures 0.0 <= Exploitability(av, ac, pr, ui)
  {
    var k := Schema.ExploitabilityCoefficient;
    assert 0.0 <= k * av;
    assert 0.0 <= k * av * ac;
    assert 0.0 <= k * av * ac * pr;
  }

  /** A rounded sum capped at 10 is a score of one decimal in [0, 10]. */
  lemma CappedScore(x: real)
    requires 0.0 <= x
    ensures 0.0 <= Rounding.RoundUp1(Min(x, 10.0)) <= 10.0
    ensures Rounding.RoundUp1(Rounding.RoundUp1(Min(x, 10.0))) == Rounding.RoundUp1(Min(x, 10.0))
  {
    Rounding.RoundUp1Range(Min(x, 10.0));
    Rounding.RoundUp1Idempotent(Min(x, 10.0));
  }

  /** Rounding up a value between 0 and a rounded score gives a score
      between 0 and that score. */
  lemma Reweighted(score: real, x: real)
    requires 0.0 <= score <= 10.0 && Rounding.RoundUp1(score) == score
    requires 0.0 <= x <= score
    ensures 0.0 <= Rounding.RoundUp1(x) <= score
  {
    Rounding.RoundUp1Monotone(x, score);
    Rounding.RoundUp1Range(x);
  }

  /** Weighting a rounded score by three factors in [0, 1] and rounding up
      again stays between 0 and that score. */
  lemma WeightedDown(score: real, e: real, rl: real, rc: real)
    requires 0.0 <= score <= 10.0 && Rounding.RoundUp1(score) == score
    requires 0.0 <= e <= 1.0 && 0.0 <= rl <= 1.0 && 0.0 <= rc <= 1.0
    ensures 0.0 <= Rounding.RoundUp1(score * e * rl * rc) <= score
  {
    var p := ScaledDown(score, e, rl, rc);
    Reweighted(score, p);
  }

  /** The Base score is a score of one decimal in [0, 10]. */
  lemma BaseScoreRange(impact: real, exploitability: real, scopeUnchanged: bool)
    requires 0.0 <= exploitability
    ensures 0.0 <= BaseScore(impact, exploitability, scopeUnchanged) <= 10.0
    ensures Rounding.RoundUp1(BaseScore(impact, exploitability, scopeUnchanged)) == BaseScore(impact, exploitability, scopeUnchanged)
  {
    if impact <= 0.0 {
      Rounding.ExactTenths(0);
    } else if scopeUnchanged {
      CappedScore(exploitability + impact);
    } else {
      CappedScore(Schema.ScopeCoefficient * (exploitability + impact));
    }
  }

  /** The Temporal score of a Base score lies between 0 and that Base score. */
  lemma TemporalScoreRange(baseScore: real, e: real, rl: real, rc: real)
    requires 0.0 <= baseScore <= 10.0 && Rounding.RoundUp1(baseScore) == baseScore
    requires 0.0 <= e <= 1.0 && 0.0 <= rl <= 1.0 && 0.0 <= rc <= 1.0
    ensures 0.0 <= TemporalScore(baseScore, e, rl, rc) <= baseScore
  {
    WeightedDown(baseScore, e, rl, rc);
  }

  /** With every Temporal metric at weight 1 (all "Not Defined"), the
      Temporal score is the Base score. */
  lemma TemporalNotDefined(baseScore: real)
    requires Rounding.RoundUp1(baseScore) == baseScore
    ensures TemporalScore(baseScore, 1.0, 1.0, 1.0) == baseScore
  {
    assert baseScore * 1.0 * 1.0 * 1.0 == baseScore;
  }

  /** The Environmental score is a score of one decimal in [0, 10]. */
  lemma EnvironmentalScoreRange(modifiedImpact: real, modifiedExploitability: real, scopeUnchanged: bool,
                                e: real, rl: real, rc: real)
    requires 0.0 <= modifiedExploitability
    requires 0.0 <= e <= 1.0 && 0.0 <= rl <= 1.0 && 0.0 <= rc <= 1.0
    ensures 0.0 <= EnvironmentalScore(modifiedImpact, modifiedExploitability, scopeUnchanged, e, rl, rc) <= 10.0
  {
    BaseScoreRange(modifiedImpact, modifiedExploitability, scopeUnchanged);
    TemporalScoreRange(BaseScore(modifiedImpact, modifiedExploitability, scopeUnchanged), e, rl, rc);
  }

  /** Whatever the metric values, the three scores lie in [0, 10], the Base
      score is a whole number of tenths and the Temporal score does not
      exceed it. */
  lemma ScoresRange(m: Assignment.Metrics)
    ensures 0.0 <= ScoresOf(m).base <= 10.0 && Rounding.RoundUp1(ScoresOf(m).base) == ScoresOf(m).base
    ensures 0.0 <= ScoresOf(m).temporal <= ScoresOf(m).base
    ensures 0.0 <= ScoresOf(m).environmental <= 10.0
  {
    var w := GatherWeights(m);
    var r := ScoresOf(m);
    GatheredBounded(m);
    ExploitabilityNonNegative(w.AV, w.AC, w.PR, w.UI);
    BaseScoreRange(r.impact, r.exploitability, m.S == "U");
    TemporalScoreRange(r.base, w.E, w.RL, w.RC);
    ExploitabilityNonNegative(w.MAV, w.MAC, w.MPR, w.MUI);
    EnvironmentalScoreRange(r.modifiedImpact, r.modifiedExploitability, ModifiedScopeUnchanged(m.MS, m.S), w.E, w.RL, w.RC);
  }

  /** Two factors in [0, 1] bounded below keep their product between the
      product of the bounds and 1. */
  lemma ProductBetween(a: real, b: real, lowA: real, lowB: real)
    requires 0.0 <= lowA <= a <= 1.0 && 0.0 <= lowB <= b <= 1.0
    ensures lowA * lowB <= a * b <= 1.0
  {
    assert lowA * lowB <= a * lowB;
    assert a * lowB <= a * b;
    assert a * b <= a;
  }

  /** With weights of at most 0.56 the ISS stays below the 0.915 cap of
      the MISS: it is at most 1 - 0.44^3 = 0.914816. */
  lemma IssBound(c: real, i: real, a: real)
    requires 0.0 <= c <= 0.56 && 0.0 <= i <= 0.56 && 0.0 <= a <= 0.56
    ensures 0.0 <= Iss(c, i, a) <= 0.914816
  {
    ProductBetween(1.0 - c, 1.0 - i, 0.44, 0.44);
    ProductBetween((1.0 - c) * (1.0 - i), 1.0 - a, 0.1936, 0.44);
  }

  /** With requirement weights 1 the MISS is the ISS of the modified
      weights. */
  lemma MissWithoutRequirements(c: real, i: real, a: real)
    requires 0.0 <= c <= 0.56 && 0.0 <= i <= 0.56 && 0.0 <= a <= 0.56
    ensures Miss(c, 1.0, i, 1.0, a, 1.0) == Iss(c, i, a)
  {
    IssBound(c, i, a);
    assert c * 1.0 == c && i * 1.0 == i && a * 1.0 == a;
  }

  /** With the same sub-scores and an unchanged scope on both sides, the
      Environmental equation gives the Temporal score of the Base score. */
  lemma EnvironmentalOfBase(impact: real, exploitability: real, e: real, rl: real, rc: real)
    ensures EnvironmentalScore(impact, exploitability, true, e, rl, rc)
         == TemporalScore(BaseScore(impact, exploitability, true), e, rl, rc)
  {
    if impact <= 0.0 {
      assert 0.0 * e * rl * rc == 0.0;
      Rounding.ExactTenths(0);
    }
  }

  /** No Environmental metric is defined: every requirement and every
      modified metric is "X". */
  predicate EnvironmentalNotDefined(m: Assignment.Metrics) {
    && m.CR == "X" && m.IR == "X" && m.AR == "X"
    && m.MAV == "X" && m.MAC == "X" && m.MPR == "X" && m.MUI == "X"
    && m.MS == "X" && m.MC == "X" && m.MI == "X" && m.MA == "X"
  }

  /** Left undefined, the requirements weigh 1 and every modified metric
      weighs what the metric it modifies does. */
  lemma UndefinedEnvironmentalWeights(m: Assignment.Metrics)
    requires EnvironmentalNotDefined(m)
    ensures GatherWeights(m).CR == 1.0 && GatherWeights(m).IR == 1.0 && GatherWeights(m).AR == 1.0
    ensures GatherWeights(m).MAV == GatherWeights(m).AV && GatherWeights(m).MAC == GatherWeights(m).AC
    ensures GatherWeights(m).MPR == GatherWeights(m).PR && GatherWeights(m).MUI == GatherWeights(m).UI
    ensures GatherWeights(m).MS == GatherWeights(m).S
    ensures GatherWeights(m).MC == GatherWeights(m).C && GatherWeights(m).MI == GatherWeights(m).I
    ensures GatherWeights(m).MA == GatherWeights(m).A
  {
  }

  /** How each weight is resolved, whatever the other metrics are: PR is read
      from the table of its Scope (PRU or PRC) and MPR from that of the
      effective Modified Scope; a Modified metric left "X" weighs what the
      metric it modifies does, one that is set is looked up itself; Temporal
      metrics and requirements left "X" weigh 1. */
  lemma GatherWeightsResolution(m: Assignment.Metrics)
    ensures m.S == "U" ==> GatherWeights(m).PR == Schema.Weight("PRU", m.PR)
    ensures m.S == "C" ==> GatherWeights(m).PR == Schema.Weight("PRC", m.PR)
    ensures (m.MS == "U" || (m.MS == "X" && m.S == "U")) ==>
      GatherWeights(m).MPR == Schema.Weight("PRU", Effective(m.MPR, m.PR))
    ensures (m.MS == "C" || (m.MS == "X" && m.S == "C")) ==>
      GatherWeights(m).MPR == Schema.Weight("PRC", Effective(m.MPR, m.PR))
    ensures m.MPR == "X" && m.MS == "X" ==> GatherWeights(m).MPR == GatherWeights(m).PR
    ensures m.MAV == "X" ==> GatherWeights(m).MAV == GatherWeights(m).AV
    ensures m.MAV != "X" ==> GatherWeights(m).MAV == Schema.Weight("AV", m.MAV)
    ensures m.MAC == "X" ==> GatherWeights(m).MAC == GatherWeights(m).AC
    ensures m.MAC != "X" ==> GatherWeights(m).MAC == Schema.Weight("AC", m.MAC)
    ensures m.MUI == "X" ==> GatherWeights(m).MUI == GatherWeights(m).UI
    ensures m.MUI != "X" ==> GatherWeights(m).MUI == Schema.Weight("UI", m.MUI)
    ensures m.MS == "X" ==> GatherWeights(m).MS == GatherWeights(m).S
    ensures m.MS != "X" ==> GatherWeights(m).MS == Schema.Weight("S", m.MS)
    ensures m.MC == "X" ==> GatherWeights(m).MC == GatherWeights(m).C
    ensures m.MC != "X" ==> GatherWeights(m).MC == Schema.Weight("CIA", m.MC)
    ensures m.MI == "X" ==> GatherWeights(m).MI == GatherWeights(m).I
    ensures m.MI != "X" ==> GatherWeights(m).MI == Schema.Weight("CIA", m.MI)
    ensures m.MA == "X" ==> GatherWeights(m).MA == GatherWeights(m).A
    ensures m.MA != "X" ==> GatherWeights(m).MA == Schema.Weight("CIA", m.MA)
    ensures m.E == "X" ==> GatherWeights(m).E == 1.0
    ensures m.RL == "X" ==> GatherWeights(m).RL == 1.0
    ensures m.RC == "X" ==> GatherWeights(m).RC == 1.0
    ensures m.CR == "X" ==> GatherWeights(m).CR == 1.0
    ensures m.IR == "X" ==> GatherWeights(m).IR == 1.0
    ensures m.AR == "X" ==> GatherWeights(m).AR == 1.0
  {
    assert "PR" + "U" == "PRU" && "PR" + "C" == "PRC";
  }

  /** When no Environmental metric is defined and the Scope is unchanged,
      the modified sub-scores are the Base ones and the Environmental score
      equals the Temporal score. */
  lemma EnvironmentalMatchesTemporal(m: Assignment.Metrics)
    requires EnvironmentalNotDefined(m) && m.S == "U"
    ensures ScoresOf(m).miss == ScoresOf(m).iss
    ensures ScoresOf(m).modifiedImpact == ScoresOf(m).impact
    ensures ScoresOf(m).modifiedExploitability == ScoresOf(m).exploitability
    ensures ScoresOf(m).environmental == ScoresOf(m).temporal
  {
    var w := GatherWeights(m);
    GatheredBounded(m);
    UndefinedEnvironmentalWeights(m);
    MissWithoutRequirements(w.C, w.I, w.A);
    var r := ScoresOf(m);
    EnvironmentalOfBase(r.impact, r.exploitability, w.E, w.RL, w.RC);
  }

  /** A value that rounds to `scaled` hundred-thousandths, strictly
      between two whole tenths, is rounded up to the upper one. */
  lemma RoundsUp(x: real, scaled: int, tenths: int)
    requires scaled as real - 0.5 <= x * 100000.0 < scaled as real + 0.5 && 0 <= scaled
    requires (tenths - 1) * 10000 < scaled < tenths * 10000
    ensures Rounding.RoundUp1(x) == tenths as real / 10.0
  {
    assert Rounding.Scaled(x) == scaled;
    assert scaled / 10000 == tenths - 1;
  }

  /** The Base score of an unchanged scope whose sub-scores sum to a value
      strictly between two tenths below 10 is the upper tenth. */
  lemma UnchangedBase(impact: real, exploitability: real, scaled: int, tenths: int)
    requires 0.0 < impact && 0 <= scaled && (tenths - 1) * 10000 < scaled < tenths * 10000 && tenths <= 100
    requires scaled as real - 0.5 <= (exploitability + impact) * 100000.0 < scaled as real + 0.5
    ensures BaseScore(impact, exploitability, true) == tenths as real / 10.0
  {
    RoundsUp(exploitability + impact, scaled, tenths);
  }

  /** P/H/L/N/U/L/L/H: ISS 0.732304, impact 4.70139168, exploitability
      0.38121072, Base score 5.1. */
  lemma PhysicalHighComplexityExample()
    ensures ScoresOf(Assignment.BaseOnly("P", "H", "L", "N", "U", "L", "L", "H")).base == 5.1
  {
    var w := GatherWeights(Assignment.BaseOnly("P", "H", "L", "N", "U", "L", "L", "H"));
    assert "PR" + "U" == "PRU";
    assert w.AV == 0.20 && w.AC == 0.44 && w.PR == 0.62 && w.UI == 0.85;
    assert w.S == 6.42 && w.C == 0.22 && w.I == 0.22 && w.A == 0.56;
    assert Iss(w.C, w.I, w.A) == 0.732304;
    assert Impact(w.S, Iss(w.C, w.I, w.A), true) == 4.70139168;
    assert Exploitability(w.AV, w.AC, w.PR, w.UI) == 0.38121072;
    UnchangedBase(4.70139168, 0.38121072, 508260, 51);
  }

  /** P/L/L/N/U/L/L/H: exploitability 0.66711876, Base score 5.4. */
  lemma PhysicalLowComplexityExample()
    ensures ScoresOf(Assignment.BaseOnly("P", "L", "L", "N", "U", "L", "L", "H")).base == 5.4
  {
    var w := GatherWeights(Assignment.BaseOnly("P", "L", "L", "N", "U", "L", "L", "H"));
    assert "PR" + "U" == "PRU";
    assert w.AV == 0.20 && w.AC == 0.77 && w.PR == 0.62 && w.UI == 0.85;
    assert w.S == 6.42 && w.C == 0.22 && w.I == 0.22 && w.A == 0.56;
    assert Iss(w.C, w.I, w.A) == 0.732304;
    assert Impact(w.S, Iss(w.C, w.I, w.A), true) == 4.70139168;
    assert Exploitability(w.AV, w.AC, w.PR, w.UI) == 0.66711876;
    UnchangedBase(4.70139168, 0.66711876, 536851, 54);
  }

  /** P/L/L/N/U/H/H/H: ISS 0.914816, impact 5.87311872, Base score 6.6. */
  lemma PhysicalHighImpactExample()
    ensures ScoresOf(Assignment.BaseOnly("P", "L", "L", "N", "U", "H", "H", "H")).base == 6.6
  {
    var w := GatherWeights(Assignment.BaseOnly("P", "L", "L", "N", "U", "H", "H", "H"));
    assert "PR" + "U" == "PRU";
    assert w.AV == 0.20 && w.AC == 0.77 && w.PR == 0.62 && w.UI == 0.85;
    assert w.S == 6.42 && w.C == 0.56 && w.I == 0.56 && w.A == 0.56;
    assert Iss(w.C, w.I, w.A) == 0.914816;
    assert Impact(w.S, Iss(w.C, w.I, w.A), true) == 5.87311872;
    assert Exploitability(w.AV, w.AC, w.PR, w.UI) == 0.66711876;
    UnchangedBase(5.87311872, 0.66711876, 654024, 66);
  }
}
