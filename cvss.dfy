/** The calculator's two entry points: calculateCVSSFromMetrics, which
    validates 22 metric values and computes every score, and
    calculateCVSSFromVector, which recognises and tokenizes a vector string
    and hands its values to the first. */
module Cvss {
  import Schema
  import Rounding
  import Severity
  import VectorSyntax
  import Assignment
  import Validation
  import Formulas
  import Parsing

  /** ResultT: the outcome of a calculation. A failure carries only its
      error type and message; every other field keeps the zero value that
      aggregate initialisation gives it. */
  datatype Result = Result(
    success: bool,
    errorType: string,
    errorMessage: string,
    baseMetricScore: real,
    baseSeverity: string,
    baseISS: real,
    baseImpact: real,
    baseExploitability: real,
    temporalMetricScore: real,
    temporalSeverity: string,
    environmentalMetricScore: real,
    environmentalSeverity: string,
    environmentalMISS: real,
    environmentalModifiedImpact: real,
    environmentalModifiedExploitability: real,
    vectorString: string,
    baseMetricsValues: map<string, string>)
  {
    /** operator bool: whether the calculation succeeded. */
    predicate Succeeded() {
      success
    }

    /** operator<: results are ordered by their Base score alone. */
    predicate Below(rhs: Result) {
      baseMetricScore < rhs.baseMetricScore
    }
  }

  /** A failed calculation with the given error type and message. */
  function Failure(errorType: string, errorMessage: string): Result {
    Result(false, errorType, errorMessage, 0.0, "", 0.0, 0.0, 0.0, 0.0, "", 0.0, "", 0.0, 0.0, 0.0, "", map[])
  }

  /** The names of the five severity ratings. */
  const Ratings: set<string> := {"None", "Low", "Medium", "High", "Critical"}

  /** The Base metric values as the result reports them, keyed by name. */
  function BaseValues(m: Assignment.Metrics): map<string, string> {
    map["AV" := m.AV, "AC" := m.AC, "PR" := m.PR, "UI" := m.UI,
        "S" := m.S, "C" := m.C, "I" := m.I, "A" := m.A]
  }

  /** The successful result for metric values that passed validation. */
  function Scored(m: Assignment.Metrics): Result {
    var s := Formulas.ScoresOf(m);
    Result(true, "", "",
           s.base, Severity.SeverityRating(s.base), s.iss, s.impact, s.exploitability,
           s.temporal, Severity.SeverityRating(s.temporal),
           s.environmental, Severity.SeverityRating(s.environmental),
           s.miss, s.modifiedImpact, s.modifiedExploitability,
           Assignment.VectorString(m), BaseValues(m))
  }

  /** calculateCVSSFromMetrics: missing Base metrics are reported first,
      then values that fail the check, and only then are the scores
      computed. */
  function FromMetrics(m: Assignment.Metrics): Result {
    if Validation.MissingBase(m) != [] then
      Failure("MissingBaseMetric", Validation.Listing(Validation.Names(Validation.MissingBase(m))))
    else if Validation.Unknown(m) != [] then
      Failure("UnknownMetricValue", Validation.Listing(Validation.Names(Validation.Unknown(m))))
    else Scored(m)
  }

  /** The 22 arguments read back out of the table of metric values. */
  function MetricsOf(values: map<string, string>): Assignment.Metrics {
    var v := values;
    Assignment.Metrics(
      Parsing.Lookup(v, "AV"), Parsing.Lookup(v, "AC"), Parsing.Lookup(v, "PR"), Parsing.Lookup(v, "UI"),
      Parsing.Lookup(v, "S"), Parsing.Lookup(v, "C"), Parsing.Lookup(v, "I"), Parsing.Lookup(v, "A"),
      Parsing.Lookup(v, "E"), Parsing.Lookup(v, "RL"), Parsing.Lookup(v, "RC"),
      Parsing.Lookup(v, "CR"), Parsing.Lookup(v, "IR"), Parsing.Lookup(v, "AR"),
      Parsing.Lookup(v, "MAV"), Parsing.Lookup(v, "MAC"), Parsing.Lookup(v, "MPR"), Parsing.Lookup(v, "MUI"),
      Parsing.Lookup(v, "MS"), Parsing.Lookup(v, "MC"), Parsing.Lookup(v, "MI"), Parsing.Lookup(v, "MA"))
  }

  /** The tokens of the body of a vector string, after the prefix. */
  function Tokens(s: string): seq<string>
    requires |s| >= |VectorSyntax.Prefix|
  {
    VectorSyntax.Split(s[|VectorSyntax.Prefix|..])
  }

  /** calculateCVSSFromVector: a string the grammar refuses is malformed; a
      recognised one whose tokens redefine a metric is refused with the
      redefined names; otherwise its values are scored. */
  function FromVector(s: string): Result {
    if !VectorSyntax.IsVectorString(s) then Failure("MalformedVectorString", "")
    else
      var t := Parsing.TallyOf(Tokens(s));
      if t.bad != [] then Failure("MultipleDefinitionsOfMetric", Validation.Listing(t.bad))
      else FromMetrics(MetricsOf(t.values))
  }

  // ---------------------------------------------------------------------
  // The imperative entry points

  lemma ListingSnoc(names: seq<string>, name: string)
    ensures Validation.Listing(names + [name]) == Validation.Listing(names) + name + ", "
  {
    if names != [] {
      assert (names + [name])[1..] == names[1..] + [name];
      ListingSnoc(names[1..], name);
    } else {
      assert [] + [name] == [name];
    }
  }

  /** Copies the names into a message through an ostream_iterator with
      delimiter ", ": every name is followed by the delimiter. */
  method WriteListing(names: seq<string>) returns (message: string)
    ensures message == Validation.Listing(names)
  {
    message := "";
    for k := 0 to |names|
      invariant message == Validation.Listing(names[..k])
    {
      ListingSnoc(names[..k], names[k]);
      assert names[..k + 1] == names[..k] + [names[k]];
      message := message + names[k] + ", ";
    }
    assert names[..|names|] == names;
  }

  /** calculateCVSSFromMetrics, step by step: the missing-metric pass, the
      value pass, the scores and the vector string built by appends. */
  method CalculateCVSSFromMetrics(m: Assignment.Metrics) returns (r: Result)
    ensures r == FromMetrics(m)
  {
    var badMetrics := Validation.CollectMissing(m);
    if |badMetrics| > 0 {
      var message := WriteListing(badMetrics);
      return Failure("MissingBaseMetric", message);
    }
    badMetrics := Validation.CollectUnknown(m);
    if |badMetrics| > 0 {
      var message := WriteListing(badMetrics);
      return Failure("UnknownMetricValue", message);
    }
    var s := Formulas.ScoresOf(m);
    var vectorString := Assignment.BuildVectorString(m);
    r := Result(true, "", "",
                s.base, Severity.SeverityRating(s.base), s.iss, s.impact, s.exploitability,
                s.temporal, Severity.SeverityRating(s.temporal),
                s.environmental, Severity.SeverityRating(s.environmental),
                s.miss, s.modifiedImpact, s.modifiedExploitability,
                vectorString, BaseValues(m));
  }

  /** calculateCVSSFromVector, step by step: the recognizer, the getline
      split, the token loop, and the call on the values read back. */
  method CalculateCVSSFromVector(s: string) returns (r: Result)
    ensures r == FromVector(s)
  {
    if !VectorSyntax.IsVectorString(s) {
      return Failure("MalformedVectorString", "");
    }
    var metricNameValues := VectorSyntax.SplitOnSlash(s[|VectorSyntax.Prefix|..]);
    var metricValues, badMetrics := Parsing.TallyTokens(metricNameValues);
    if |badMetrics| > 0 {
      var message := WriteListing(badMetrics);
      return Failure("MultipleDefinitionsOfMetric", message);
    }
    r := CalculateCVSSFromMetrics(MetricsOf(metricValues));
  }

  // ---------------------------------------------------------------------
  // What a result of calculateCVSSFromMetrics means

  /** Every Base metric has a value. */
  predicate AllBaseDefined(m: Assignment.Metrics) {
    forall id: Schema.Id :: id.IsBase() ==> !Validation.Undefined(m.Get(id))
  }

  /** Every metric value passes the value check. */
  predicate AllValid(m: Assignment.Metrics) {
    forall id: Schema.Id :: Validation.ValidValue(id, m.Get(id))
  }

  lemma MissingBaseEmpty(m: Assignment.Metrics)
    ensures Validation.MissingBase(m) == [] <==> AllBaseDefined(m)
  {
    Validation.MissingBaseExactly(m);
    if Validation.MissingBase(m) != [] {
      assert Validation.MissingBase(m)[0] in Validation.MissingBase(m);
    }
  }

  lemma UnknownEmpty(m: Assignment.Metrics)
    ensures Validation.Unknown(m) == [] <==> AllValid(m)
  {
    Validation.UnknownExactly(m);
    if Validation.Unknown(m) != [] {
      assert Validation.Unknown(m)[0] in Validation.Unknown(m);
    }
  }

  /** The calculation succeeds exactly when every Base metric is defined and
      every value passes the check. Missing metrics take precedence over
      unknown values, and each message lists exactly the offending metrics
      in canonical order. */
  lemma MetricsOutcome(m: Assignment.Metrics)
    ensures FromMetrics(m).Succeeded() <==> AllBaseDefined(m) && AllValid(m)
    ensures FromMetrics(m).errorType == "MissingBaseMetric" <==> !AllBaseDefined(m)
    ensures FromMetrics(m).errorType == "UnknownMetricValue" <==> AllBaseDefined(m) && !AllValid(m)
    ensures FromMetrics(m).errorType == "" <==> FromMetrics(m).Succeeded()
    ensures !AllBaseDefined(m) ==>
      FromMetrics(m).errorMessage == Validation.Listing(Validation.Names(Validation.MissingBase(m)))
    ensures AllBaseDefined(m) && !AllValid(m) ==>
      FromMetrics(m).errorMessage == Validation.Listing(Validation.Names(Validation.Unknown(m)))
  {
    MissingBaseEmpty(m);
    UnknownEmpty(m);
  }

  /** A failed calculation reports no scores, no ratings, no vector and no
      Base values: every field but the error type and message is zero or
      empty. */
  lemma FailureCarriesNoScores(m: Assignment.Metrics)
    requires !FromMetrics(m).Succeeded()
    ensures FromMetrics(m) == Failure(FromMetrics(m).errorType, FromMetrics(m).errorMessage)
    ensures FromMetrics(m).baseMetricScore == 0.0 && FromMetrics(m).temporalMetricScore == 0.0
    ensures FromMetrics(m).environmentalMetricScore == 0.0
    ensures FromMetrics(m).baseSeverity == "" && FromMetrics(m).vectorString == ""
    ensures FromMetrics(m).baseMetricsValues == map[]
    ensures FromMetrics(m).errorMessage != ""
  {
    MissingBaseEmpty(m);
    UnknownEmpty(m);
    if Validation.MissingBase(m) != [] {
      Validation.ListingHead(Validation.MissingBase(m));
    } else {
      Validation.ListingHead(Validation.Unknown(m));
    }
  }

  /** A score that is a whole number of tenths in [0, 10] is given one of the
      five ratings. */
  lemma RatedScore(score: real)
    requires 0.0 <= score <= 10.0 && Rounding.RoundUp1(score) == score
    ensures Severity.SeverityRating(score) in Ratings
  {
    var t := Rounding.Tenths(score);
    assert score == t as real / 10.0;
    Severity.SeverityOfTenths(t);
  }

  /** Every score the calculator returns is already rounded. */
  lemma TemporalWhole(baseScore: real, e: real, rl: real, rc: real)
    ensures Rounding.RoundUp1(Formulas.TemporalScore(baseScore, e, rl, rc)) == Formulas.TemporalScore(baseScore, e, rl, rc)
  {
    Rounding.RoundUp1Idempotent(baseScore * e * rl * rc);
  }

  lemma EnvironmentalWhole(modifiedImpact: real, modifiedExploitability: real, scopeUnchanged: bool,
                           e: real, rl: real, rc: real)
    ensures var env := Formulas.EnvironmentalScore(modifiedImpact, modifiedExploitability, scopeUnchanged, e, rl, rc);
      Rounding.RoundUp1(env) == env
  {
    if modifiedImpact <= 0.0 {
      Rounding.ExactTenths(0);
    } else {
      TemporalWhole(Formulas.BaseScore(modifiedImpact, modifiedExploitability, scopeUnchanged), e, rl, rc);
    }
  }

  /** A successful calculation reports scores in [0, 10], a Temporal score
      not above the Base score, and one of the five ratings for each. */
  lemma SuccessScores(m: Assignment.Metrics)
    requires FromMetrics(m).Succeeded()
    ensures var r := FromMetrics(m);
      && 0.0 <= r.baseMetricScore <= 10.0
      && 0.0 <= r.temporalMetricScore <= r.baseMetricScore
      && 0.0 <= r.environmentalMetricScore <= 10.0
      && r.baseSeverity in Ratings && r.temporalSeverity in Ratings && r.environmentalSeverity in Ratings
  {
    var w := Formulas.GatherWeights(m);
    var sc := Formulas.ScoresOf(m);
    Formulas.ScoresRange(m);
    TemporalWhole(sc.base, w.E, w.RL, w.RC);
    EnvironmentalWhole(sc.modifiedImpact, sc.modifiedExploitability,
                       Formulas.ModifiedScopeUnchanged(m.MS, m.S), w.E, w.RL, w.RC);
    RatedScore(sc.base);
    RatedScore(sc.temporal);
    RatedScore(sc.environmental);
  }

  /** A successful calculation reports the Base values it was given, under
      their names. */
  lemma SuccessBaseValues(m: Assignment.Metrics)
    requires FromMetrics(m).Succeeded()
    ensures FromMetrics(m).baseMetricsValues.Keys == Parsing.BaseNames
    ensures forall id: Schema.Id :: id.IsBase() ==>
      id.Name() in FromMetrics(m).baseMetricsValues && FromMetrics(m).baseMetricsValues[id.Name()] == m.Get(id)
  {
    assert FromMetrics(m).baseMetricsValues == BaseValues(m);
    BaseValuesNamed(m);
  }

  lemma BaseValuesNamed(m: Assignment.Metrics)
    ensures BaseValues(m).Keys == Parsing.BaseNames
    ensures forall id: Schema.Id :: id.IsBase() ==>
      id.Name() in BaseValues(m) && BaseValues(m)[id.Name()] == m.Get(id)
  {
    forall id: Schema.Id | id.IsBase()
      ensures id.Name() in BaseValues(m) && BaseValues(m)[id.Name()] == m.Get(id)
    {
      match id
      case AV => case AC => case PR => case UI =>
      case S => case C => case I => case A =>
    }
  }

  /** A failure never sorts above another result: its Base score is 0. */
  lemma FailureSortsFirst(m: Assignment.Metrics, n: Assignment.Metrics)
    requires !FromMetrics(m).Succeeded()
    ensures !FromMetrics(n).Below(FromMetrics(m))
  {
    FailureCarriesNoScores(m);
    if FromMetrics(n).Succeeded() {
      SuccessScores(n);
    } else {
      FailureCarriesNoScores(n);
    }
  }

  // ---------------------------------------------------------------------
  // The vector string of a result, and reading it back

  /** The letters the grammar allows for each metric, indexed by metric. */
  ghost function GrammarLetters(id: Schema.Id): string {
    match id
    case AV => "NALP" case AC => "LH" case PR => "UNLH" case UI => "NR" case S => "UC"
    case C => "NLH" case I => "NLH" case A => "NLH"
    case E => "XUPFH" case RL => "XOTWU" case RC => "XURC"
    case CR => "XLMH" case IR => "XLMH" case AR => "XLMH"
    case MAV => "XNALP" case MAC => "XLH" case MPR => "XUNLH" case MUI => "XNR" case MS => "XUC"
    case MC => "XNLH" case MI => "XNLH" case MA => "XNLH"
  }

  /** The grammar knows every metric, with the letters listed above. */
  lemma GrammarKnows(id: Schema.Id)
    ensures id.Name() in VectorSyntax.CodeLetters && VectorSyntax.CodeLetters[id.Name()] == GrammarLetters(id)
  {
    if id.IsBase() {
      GrammarKnowsBase(id);
    } else if id.IsTemporal() {
      GrammarKnowsTemporal(id);
    } else {
      GrammarKnowsEnvironmental(id);
    }
  }

  lemma GrammarKnowsBase(id: Schema.Id)
    requires id.IsBase()
    ensures id.Name() in VectorSyntax.CodeLetters && VectorSyntax.CodeLetters[id.Name()] == GrammarLetters(id)
  {
  }

  lemma GrammarKnowsTemporal(id: Schema.Id)
    requires id.IsTemporal()
    ensures id.Name() in VectorSyntax.CodeLetters && VectorSyntax.CodeLetters[id.Name()] == GrammarLetters(id)
  {
  }

  lemma GrammarKnowsEnvironmental(id: Schema.Id)
    requires id.IsEnvironmental()
    ensures id.Name() in VectorSyntax.CodeLetters && VectorSyntax.CodeLetters[id.Name()] == GrammarLetters(id)
  {
  }

  /** Every value the check accepts is one letter the grammar allows for
      that metric. */
  lemma AcceptedLetters(id: Schema.Id, v: string)
    requires v in Validation.AcceptedCodes(id)
    ensures id.Name() in VectorSyntax.CodeLetters && |v| == 1 && v[0] in VectorSyntax.CodeLetters[id.Name()]
  {
    GrammarKnows(id);
    assert |v| == 1 && v[0] in GrammarLetters(id);
  }

  /** The token of a metric whose value passes the check is a token of the
      grammar, naming that metric and carrying that value. */
  lemma ValidToken(m: Assignment.Metrics, id: Schema.Id)
    requires Validation.ValidValue(id, m.Get(id))
    ensures VectorSyntax.IsToken(Assignment.Token(m, id))
    ensures VectorSyntax.TokenName(Assignment.Token(m, id)) == id.Name()
    ensures VectorSyntax.TokenValue(Assignment.Token(m, id)) == m.Get(id)
  {
    Validation.ValidValueCodes(id, m.Get(id));
    AcceptedLetters(id, m.Get(id));
    VectorSyntax.TokenOf(id.Name(), m.Get(id));
  }

  lemma {:induction false} FieldsTokens(m: Assignment.Metrics, ids: seq<Schema.Id>)
    requires forall id :: id in ids ==> Validation.ValidValue(id, m.Get(id))
    ensures VectorSyntax.AllTokens(Assignment.Fields(m, ids))
  {
    if ids != [] {
      FieldsTokens(m, ids[1..]);
      ValidToken(m, ids[0]);
      var head := if Assignment.Included(m, ids[0]) then [Assignment.Token(m, ids[0])] else [];
      var tail := Assignment.Fields(m, ids[1..]);
      assert Assignment.Fields(m, ids) == head + tail;
      forall k | 0 <= k < |head + tail| ensures VectorSyntax.IsToken((head + tail)[k]) {
        if k >= |head| {
          assert (head + tail)[k] == tail[k - |head|];
        }
      }
    }
  }

  /** The vector string of a successful calculation is recognised by the
      grammar, and its tokens are those the serializer wrote. */
  lemma SuccessVector(m: Assignment.Metrics)
    requires FromMetrics(m).Succeeded()
    ensures FromMetrics(m).vectorString == Assignment.VectorString(m)
    ensures VectorSyntax.IsVectorString(Assignment.VectorString(m))
    ensures Tokens(Assignment.VectorString(m)) == Assignment.Fields(m, Schema.MetricIds)
  {
    UnknownEmpty(m);
    MissingBaseEmpty(m);
    var fields := Assignment.Fields(m, Schema.MetricIds);
    FieldsTokens(m, Schema.MetricIds);
    Assignment.VectorStringJoin(m);
    assert Schema.MetricIds[0] == Schema.Id.AV;
    assert fields != [];
    VectorSyntax.AcceptJoin(fields);
  }

  lemma {:induction false} NothingOptional(m: Assignment.Metrics, ids: seq<Schema.Id>)
    requires forall id: Schema.Id :: !id.IsBase() ==> m.Get(id) == "X"
    requires forall id :: id in ids ==> !id.IsBase()
    ensures Assignment.Fields(m, ids) == []
  {
    if ids != [] {
      NothingOptional(m, ids[1..]);
    }
  }

  lemma {:induction false} AllWritten(m: Assignment.Metrics, ids: seq<Schema.Id>)
    requires forall id :: id in ids ==> id.IsBase()
    ensures |Assignment.Fields(m, ids)| == |ids|
    ensures forall k :: 0 <= k < |ids| ==> Assignment.Fields(m, ids)[k] == Assignment.Token(m, ids[k])
  {
    if ids != [] {
      AllWritten(m, ids[1..]);
    }
  }

  /** No optional metric is a Base metric. */
  lemma OptionalIdsNotBase()
    ensures forall id :: id in Schema.OptionalIds ==> !id.IsBase()
  {
    Schema.CanonicalOrder();
    forall id | id in Schema.OptionalIds ensures !id.IsBase() {
      var k :| 0 <= k < |Schema.OptionalIds| && Schema.OptionalIds[k] == id;
      assert Schema.MetricIds[8 + k] == id;
    }
  }

  /** With no optional metric written, the tokens are the eight Base tokens. */
  lemma BaseTokens(m: Assignment.Metrics)
    requires forall id: Schema.Id :: !id.IsBase() ==> m.Get(id) == "X"
    ensures Assignment.Fields(m, Schema.MetricIds) == Assignment.Fields(m, Schema.BaseIds)
    ensures |Assignment.Fields(m, Schema.BaseIds)| == 8
    ensures forall k :: 0 <= k < 8 ==> Assignment.Fields(m, Schema.BaseIds)[k] == Assignment.Token(m, Schema.BaseIds[k])
  {
    Assignment.FieldsConcat(m, Schema.BaseIds, Schema.OptionalIds);
    OptionalIdsNotBase();
    NothingOptional(m, Schema.OptionalIds);
    Schema.CanonicalOrder();
    assert Assignment.Fields(m, Schema.BaseIds) + [] == Assignment.Fields(m, Schema.BaseIds);
    AllWritten(m, Schema.BaseIds);
  }

  /** The value of the first token naming a metric is its value. */
  lemma {:induction false} FirstValueAt(tokens: seq<string>, k: nat, name: string)
    requires k < |tokens| && VectorSyntax.TokenName(tokens[k]) == name
    requires forall j :: 0 <= j < k ==> VectorSyntax.TokenName(tokens[j]) != name
    ensures Parsing.FirstValue(tokens, name) == VectorSyntax.TokenValue(tokens[k])
  {
    if k > 0 {
      assert VectorSyntax.TokenName(tokens[0]) != name;
      forall j | 0 <= j < k - 1 ensures VectorSyntax.TokenName(tokens[1..][j]) != name {
        assert tokens[1..][j] == tokens[j + 1];
      }
      FirstValueAt(tokens[1..], k - 1, name);
    }
  }

  /** Each name the grammar knows is the name of a metric (six groups,
      to keep each proof small). */
  lemma BaseExploitabilityNamed(name: string)
    requires name == "AV" || name == "AC" || name == "PR" || name == "UI"
    ensures exists id: Schema.Id :: id.Name() == name
  {
    if name == "AV" {
      assert Schema.Id.AV.Name() == name;
    } else if name == "AC" {
      assert Schema.Id.AC.Name() == name;
    } else if name == "PR" {
      assert Schema.Id.PR.Name() == name;
    } else {
      assert Schema.Id.UI.Name() == name;
    }
  }

  lemma BaseImpactNamed(name: string)
    requires name == "S" || name == "C" || name == "I" || name == "A"
    ensures exists id: Schema.Id :: id.Name() == name
  {
    if name == "S" {
      assert Schema.Id.S.Name() == name;
    } else if name == "C" {
      assert Schema.Id.C.Name() == name;
    } else if name == "I" {
      assert Schema.Id.I.Name() == name;
    } else {
      assert Schema.Id.A.Name() == name;
    }
  }

  lemma TemporalNamed(name: string)
    requires name == "E" || name == "RL" || name == "RC"
    ensures exists id: Schema.Id :: id.Name() == name
  {
    if name == "E" {
      assert Schema.Id.E.Name() == name;
    } else if name == "RL" {
      assert Schema.Id.RL.Name() == name;
    } else {
      assert Schema.Id.RC.Name() == name;
    }
  }

  lemma RequirementNamed(name: string)
    requires name == "CR" || name == "IR" || name == "AR"
    ensures exists id: Schema.Id :: id.Name() == name
  {
    if name == "CR" {
      assert Schema.Id.CR.Name() == name;
    } else if name == "IR" {
      assert Schema.Id.IR.Name() == name;
    } else {
      assert Schema.Id.AR.Name() == name;
    }
  }

  lemma ModifiedExploitabilityNamed(name: string)
    requires name == "MAV" || name == "MAC" || name == "MPR" || name == "MUI"
    ensures exists id: Schema.Id :: id.Name() == name
  {
    if name == "MAV" {
      assert Schema.Id.MAV.Name() == name;
    } else if name == "MAC" {
      assert Schema.Id.MAC.Name() == name;
    } else if name == "MPR" {
      assert Schema.Id.MPR.Name() == name;
    } else {
      assert Schema.Id.MUI.Name() == name;
    }
  }

  lemma ModifiedImpactNamed(name: string)
    requires name == "MS" || name == "MC" || name == "MI" || name == "MA"
    ensures exists id: Schema.Id :: id.Name() == name
  {
    if name == "MS" {
      assert Schema.Id.MS.Name() == name;
    } else if name == "MC" {
      assert Schema.Id.MC.Name() == name;
    } else if name == "MI" {
      assert Schema.Id.MI.Name() == name;
    } else {
      assert Schema.Id.MA.Name() == name;
    }
  }

  /** The names the grammar and the table of metric values know are exactly
      the names of the 22 metrics, and a name is one whose table entry
      starts "undefined" exactly when it names a Base metric. */
  lemma MetricNames()
    ensures forall id: Schema.Id :: id.Name() in VectorSyntax.CodeLetters
    ensures forall name :: name in VectorSyntax.CodeLetters <==> exists id: Schema.Id :: id.Name() == name
    ensures forall id: Schema.Id :: id.IsBase() <==> id.Name() in Parsing.BaseNames
    ensures Parsing.Initial.Keys == VectorSyntax.CodeLetters.Keys
  {
    forall id: Schema.Id
      ensures id.Name() in VectorSyntax.CodeLetters
      ensures id.IsBase() <==> id.Name() in Parsing.BaseNames
    {
      GrammarKnows(id);
      BaseNameIn(id);
    }
    forall name | name in VectorSyntax.CodeLetters
      ensures exists id: Schema.Id :: id.Name() == name
    {
      assert name == "AV" || name == "AC" || name == "PR" || name == "UI" || name == "S" || name == "C" || name == "I" || name == "A" || name == "E" || name == "RL" || name == "RC" || name == "CR" || name == "IR" || name == "AR" || name == "MAV" || name == "MAC" || name == "MPR" || name == "MUI" || name == "MS" || name == "MC" || name == "MI" || name == "MA";
      if name == "AV" || name == "AC" || name == "PR" || name == "UI" {
        BaseExploitabilityNamed(name);
      } else if name == "S" || name == "C" || name == "I" || name == "A" {
        BaseImpactNamed(name);
      } else if name == "E" || name == "RL" || name == "RC" {
        TemporalNamed(name);
      } else if name == "CR" || name == "IR" || name == "AR" {
        RequirementNamed(name);
      } else if name == "MAV" || name == "MAC" || name == "MPR" || name == "MUI" {
        ModifiedExploitabilityNamed(name);
      } else {
        ModifiedImpactNamed(name);
      }
    }
  }

  /** The Base metrics are the ones whose table entry starts "undefined". */
  lemma BaseNameIn(id: Schema.Id)
    ensures id.Name() in Parsing.BaseNames <==> id.IsBase()
  {
  }

  /** The Base metrics have distinct names. */
  lemma BaseNamesDistinct(j: nat, k: nat)
    requires j < k < |Schema.BaseIds|
    ensures Schema.BaseIds[j].Name() != Schema.BaseIds[k].Name()
  {
    Schema.CanonicalOrder();
    assert Schema.BaseIds[j].Position() < Schema.BaseIds[k].Position();
    if Schema.BaseIds[j].Name() == Schema.BaseIds[k].Name() {
      Schema.NameInjective(Schema.BaseIds[j], Schema.BaseIds[k]);
    }
  }

  /** None of eight tokens naming the Base metrics in canonical order
      redefines its metric. */
  lemma NotRedefined(tokens: seq<string>, k: nat)
    requires |tokens| == 8 && k < 8
    requires forall i :: 0 <= i < 8 ==> VectorSyntax.TokenName(tokens[i]) == Schema.BaseIds[i].Name()
    ensures !Parsing.Redefines(tokens, k)
  {
    Schema.CanonicalOrder();
    assert Schema.BaseIds[k] in Schema.BaseIds;
    BaseNameIn(Schema.BaseIds[k]);
    forall j | 0 <= j < k ensures VectorSyntax.TokenName(tokens[j]) != VectorSyntax.TokenName(tokens[k]) {
      BaseNamesDistinct(j, k);
    }
  }

  /** The eight Base tokens, each naming a different Base metric, redefine
      nothing. */
  lemma NoRedefinition(tokens: seq<string>)
    requires |tokens| == 8
    requires forall k :: 0 <= k < 8 ==> VectorSyntax.TokenName(tokens[k]) == Schema.BaseIds[k].Name()
    ensures Parsing.Redefinitions(tokens) == []
  {
    if Parsing.Redefinitions(tokens) != [] {
      var name := Parsing.Redefinitions(tokens)[0];
      Parsing.RedefinitionsExactly(tokens, name);
      var k :| 0 <= k < 8 && Parsing.Redefines(tokens, k) && VectorSyntax.TokenName(tokens[k]) == name;
      NotRedefined(tokens, k);
    }
  }

  /** The eight Base tokens of an assignment that sets no optional metric,
      in canonical order. */
  predicate BaseTokensOf(m: Assignment.Metrics, tokens: seq<string>) {
    && (forall id: Schema.Id :: !id.IsBase() ==> m.Get(id) == "X")
    && |tokens| == 8 && VectorSyntax.AllTokens(tokens)
    && (forall k :: 0 <= k < 8 ==> VectorSyntax.TokenName(tokens[k]) == Schema.BaseIds[k].Name())
    && (forall k :: 0 <= k < 8 ==> VectorSyntax.TokenValue(tokens[k]) == m.Get(Schema.BaseIds[k]))
  }

  /** A Base metric is read back from the first, and only, token naming it. */
  lemma ReadBackBase(m: Assignment.Metrics, tokens: seq<string>, k: nat)
    requires BaseTokensOf(m, tokens) && k < 8
    ensures Parsing.FirstValue(tokens, Schema.BaseIds[k].Name()) == m.Get(Schema.BaseIds[k])
  {
    forall j | 0 <= j < k ensures VectorSyntax.TokenName(tokens[j]) != Schema.BaseIds[k].Name() {
      BaseNamesDistinct(j, k);
    }
    FirstValueAt(tokens, k, Schema.BaseIds[k].Name());
  }

  /** An optional metric keeps its initial "X", which is the value it had. */
  lemma ReadBackOptional(m: Assignment.Metrics, t: Parsing.Tally, tokens: seq<string>, id: Schema.Id)
    requires (forall id: Schema.Id :: !id.IsBase() ==> m.Get(id) == "X")
    requires Parsing.Describes(t, tokens) && !id.IsBase()
    ensures Parsing.Lookup(t.values, id.Name()) == m.Get(id)
  {
    GrammarKnows(id);
    BaseNameIn(id);
  }

  /** Every metric is read back with the value it had. */
  lemma ReadBackOne(m: Assignment.Metrics, tokens: seq<string>, id: Schema.Id)
    requires BaseTokensOf(m, tokens) && Parsing.Describes(Parsing.TallyOf(tokens), tokens)
    ensures Parsing.Lookup(Parsing.TallyOf(tokens).values, id.Name()) == m.Get(id)
  {
    if id.IsBase() {
      Schema.CanonicalOrder();
      var k :| 0 <= k < 8 && Schema.BaseIds[k] == id;
      ReadBackBase(m, tokens, k);
      GrammarKnows(id);
      BaseNameIn(id);
    } else {
      ReadBackOptional(m, Parsing.TallyOf(tokens), tokens, id);
    }
  }

  /** Reading the eight Base tokens back gives every metric the value it
      had, when no optional metric was set. */
  lemma ReadBack(m: Assignment.Metrics, tokens: seq<string>)
    requires BaseTokensOf(m, tokens)
    ensures Parsing.TallyOf(tokens).bad == []
    ensures MetricsOf(Parsing.TallyOf(tokens).values) == m
  {
    var t := Parsing.TallyOf(tokens);
    Parsing.TallyMeaning(tokens);
    NoRedefinition(tokens);
    forall id: Schema.Id ensures Parsing.Lookup(t.values, id.Name()) == m.Get(id) {
      ReadBackOne(m, tokens, id);
    }
    MetricsOfLookups(t.values, m);
  }

  /** Each argument is read from the table under the metric's name. */
  lemma MetricsOfGet(values: map<string, string>, id: Schema.Id)
    ensures MetricsOf(values).Get(id) == Parsing.Lookup(values, id.Name())
  {
  }

  /** Metric assignments that agree on every metric are equal. */
  lemma SameMetrics(a: Assignment.Metrics, b: Assignment.Metrics)
    requires forall id: Schema.Id :: a.Get(id) == b.Get(id)
    ensures a == b
  {
    assert a.AV == b.AV by { assert a.Get(Schema.Id.AV) == b.Get(Schema.Id.AV); }
    assert a.AC == b.AC by { assert a.Get(Schema.Id.AC) == b.Get(Schema.Id.AC); }
    assert a.PR == b.PR by { assert a.Get(Schema.Id.PR) == b.Get(Schema.Id.PR); }
    assert a.UI == b.UI by { assert a.Get(Schema.Id.UI) == b.Get(Schema.Id.UI); }
    assert a.S == b.S by { assert a.Get(Schema.Id.S) == b.Get(Schema.Id.S); }
    assert a.C == b.C by { assert a.Get(Schema.Id.C) == b.Get(Schema.Id.C); }
    assert a.I == b.I by { assert a.Get(Schema.Id.I) == b.Get(Schema.Id.I); }
    assert a.A == b.A by { assert a.Get(Schema.Id.A) == b.Get(Schema.Id.A); }
    assert a.E == b.E by { assert a.Get(Schema.Id.E) == b.Get(Schema.Id.E); }
    assert a.RL == b.RL by { assert a.Get(Schema.Id.RL) == b.Get(Schema.Id.RL); }
    assert a.RC == b.RC by { assert a.Get(Schema.Id.RC) == b.Get(Schema.Id.RC); }
    assert a.CR == b.CR by { assert a.Get(Schema.Id.CR) == b.Get(Schema.Id.CR); }
    assert a.IR == b.IR by { assert a.Get(Schema.Id.IR) == b.Get(Schema.Id.IR); }
    assert a.AR == b.AR by { assert a.Get(Schema.Id.AR) == b.Get(Schema.Id.AR); }
    assert a.MAV == b.MAV by { assert a.Get(Schema.Id.MAV) == b.Get(Schema.Id.MAV); }
    assert a.MAC == b.MAC by { assert a.Get(Schema.Id.MAC) == b.Get(Schema.Id.MAC); }
    assert a.MPR == b.MPR by { assert a.Get(Schema.Id.MPR) == b.Get(Schema.Id.MPR); }
    assert a.MUI == b.MUI by { assert a.Get(Schema.Id.MUI) == b.Get(Schema.Id.MUI); }
    assert a.MS == b.MS by { assert a.Get(Schema.Id.MS) == b.Get(Schema.Id.MS); }
    assert a.MC == b.MC by { assert a.Get(Schema.Id.MC) == b.Get(Schema.Id.MC); }
    assert a.MI == b.MI by { assert a.Get(Schema.Id.MI) == b.Get(Schema.Id.MI); }
    assert a.MA == b.MA by { assert a.Get(Schema.Id.MA) == b.Get(Schema.Id.MA); }
  }

  lemma MetricsOfLookups(values: map<string, string>, m: Assignment.Metrics)
    requires forall id: Schema.Id :: Parsing.Lookup(values, id.Name()) == m.Get(id)
    ensures MetricsOf(values) == m
  {
    forall id: Schema.Id ensures MetricsOf(values).Get(id) == m.Get(id) {
      MetricsOfGet(values, id);
    }
    SameMetrics(MetricsOf(values), m);
  }

  /** Round trip: the vector string of a successful calculation that sets
      no optional metric scores, when read back, exactly as the metrics it
      was built from. */
  lemma RoundTrip(m: Assignment.Metrics)
    requires FromMetrics(m).Succeeded()
    requires forall id: Schema.Id :: !id.IsBase() ==> m.Get(id) == "X"
    ensures FromVector(FromMetrics(m).vectorString) == FromMetrics(m)
  {
    SuccessVector(m);
    BaseTokens(m);
    UnknownEmpty(m);
    var tokens := Assignment.Fields(m, Schema.BaseIds);
    Schema.CanonicalOrder();
    forall k | 0 <= k < 8
      ensures VectorSyntax.TokenName(tokens[k]) == Schema.BaseIds[k].Name()
      ensures VectorSyntax.TokenValue(tokens[k]) == m.Get(Schema.BaseIds[k])
    {
      ValidToken(m, Schema.BaseIds[k]);
    }
    assert BaseTokensOf(m, tokens);
    ReadBack(m, tokens);
  }

  /** Any token of a Temporal or Environmental metric in a recognised
      vector is reported as a redefinition, since such a metric's entry
      starts as "X" rather than "undefined". */
  lemma OptionalTokenRefused(s: string, k: nat)
    requires VectorSyntax.IsVectorString(s)
    requires k < |Tokens(s)| && VectorSyntax.TokenName(Tokens(s)[k]) !in Parsing.BaseNames
    ensures FromVector(s).errorType == "MultipleDefinitionsOfMetric"
    ensures VectorSyntax.TokenName(Tokens(s)[k]) in Parsing.TallyOf(Tokens(s)).bad
  {
    Parsing.OptionalRedefines(Tokens(s), k);
    Parsing.TallyMeaning(Tokens(s));
  }

  /** A serialized Temporal metric is not read back: the vector string of a
      successful calculation that sets an optional metric is refused as
      redefining it. */
  lemma TemporalNotReparsed(m: Assignment.Metrics, id: Schema.Id)
    requires FromMetrics(m).Succeeded()
    requires !id.IsBase() && m.Get(id) != "X"
    ensures FromVector(FromMetrics(m).vectorString).errorType == "MultipleDefinitionsOfMetric"
  {
    SuccessVector(m);
    UnknownEmpty(m);
    Schema.CanonicalOrder();
    var tokens := Assignment.Fields(m, Schema.MetricIds);
    FieldsContain(m, Schema.MetricIds, id);
    var k :| 0 <= k < |tokens| && tokens[k] == Assignment.Token(m, id);
    ValidToken(m, id);
    BaseNameIn(id);
    OptionalTokenRefused(Assignment.VectorString(m), k);
  }

  lemma {:induction false} FieldsContain(m: Assignment.Metrics, ids: seq<Schema.Id>, id: Schema.Id)
    requires id in ids && Assignment.Included(m, id)
    ensures Assignment.Token(m, id) in Assignment.Fields(m, ids)
  {
    if ids[0] != id {
      FieldsContain(m, ids[1..], id);
    }
  }

  // ---------------------------------------------------------------------
  // What a result of calculateCVSSFromVector means

  /** The assignment a list of tokens declares: each Base metric takes the
      value of its first token (or "undefined"), every optional metric
      "X". */
  function Declared(tokens: seq<string>): Assignment.Metrics {
    Assignment.Metrics(
      Parsing.FirstValue(tokens, "AV"), Parsing.FirstValue(tokens, "AC"),
      Parsing.FirstValue(tokens, "PR"), Parsing.FirstValue(tokens, "UI"),
      Parsing.FirstValue(tokens, "S"), Parsing.FirstValue(tokens, "C"),
      Parsing.FirstValue(tokens, "I"), Parsing.FirstValue(tokens, "A"),
      "X", "X", "X", "X", "X", "X", "X", "X", "X", "X", "X", "X", "X", "X")
  }

  lemma DeclaredGet(tokens: seq<string>, id: Schema.Id)
    ensures Declared(tokens).Get(id) == if id.IsBase() then Parsing.FirstValue(tokens, id.Name()) else "X"
  {
  }

  /** The table after the loop holds, for every metric, what the tokens
      declare. */
  lemma DeclaredLookup(t: Parsing.Tally, tokens: seq<string>, id: Schema.Id)
    requires Parsing.Describes(t, tokens)
    ensures Parsing.Lookup(t.values, id.Name()) == Declared(tokens).Get(id)
  {
    GrammarKnows(id);
    BaseNameIn(id);
    DeclaredGet(tokens, id);
  }

  /** A recognised vector string that redefines nothing is scored as the
      assignment its tokens declare. */
  lemma VectorDeclares(s: string)
    requires VectorSyntax.IsVectorString(s) && Parsing.Redefinitions(Tokens(s)) == []
    ensures FromVector(s) == FromMetrics(Declared(Tokens(s)))
  {
    var tokens := Tokens(s);
    var t := Parsing.TallyOf(tokens);
    Parsing.TallyMeaning(tokens);
    forall id: Schema.Id ensures Parsing.Lookup(t.values, id.Name()) == Declared(tokens).Get(id) {
      DeclaredLookup(t, tokens, id);
    }
    MetricsOfLookups(t.values, Declared(tokens));
  }

  /** A vector string is refused as malformed exactly when the grammar
      refuses it; a recognised one is refused as redefining metrics exactly
      when some token redefines its metric, with those metrics listed in
      token order. */
  lemma VectorErrors(s: string)
    ensures FromVector(s).errorType == "MalformedVectorString" <==> !VectorSyntax.IsVectorString(s)
    ensures !VectorSyntax.IsVectorString(s) ==> FromVector(s).errorMessage == ""
    ensures VectorSyntax.IsVectorString(s) ==>
      (FromVector(s).errorType == "MultipleDefinitionsOfMetric" <==> Parsing.Redefinitions(Tokens(s)) != [])
    ensures VectorSyntax.IsVectorString(s) && Parsing.Redefinitions(Tokens(s)) != [] ==>
      FromVector(s).errorMessage == Validation.Listing(Parsing.Redefinitions(Tokens(s)))
  {
    if VectorSyntax.IsVectorString(s) {
      var t := Parsing.TallyOf(Tokens(s));
      Parsing.TallyMeaning(Tokens(s));
      if t.bad == [] {
        MetricsErrorType(MetricsOf(t.values));
      }
    }
  }

  /** calculateCVSSFromMetrics reports only its own two error types. */
  lemma MetricsErrorType(m: Assignment.Metrics)
    ensures FromMetrics(m).errorType in {"", "MissingBaseMetric", "UnknownMetricValue"}
  {
    if Validation.MissingBase(m) == [] && Validation.Unknown(m) == [] {
      assert FromMetrics(m) == Scored(m);
    }
  }

  /** One metric of an assignment of accepted Base values and no optional
      metric passes both checks. */
  lemma BaseOnlyChecks(av: string, ac: string, pr: string, ui: string, sc: string, c: string, i: string, a: string,
                       id: Schema.Id)
    requires av in Validation.AcceptedCodes(Schema.Id.AV) && ac in Validation.AcceptedCodes(Schema.Id.AC)
    requires pr in Validation.AcceptedCodes(Schema.Id.PR) && ui in Validation.AcceptedCodes(Schema.Id.UI)
    requires sc in Validation.AcceptedCodes(Schema.Id.S) && c in Validation.AcceptedCodes(Schema.Id.C)
    requires i in Validation.AcceptedCodes(Schema.Id.I) && a in Validation.AcceptedCodes(Schema.Id.A)
    ensures var m := Assignment.BaseOnly(av, ac, pr, ui, sc, c, i, a);
      Validation.ValidValue(id, m.Get(id)) && (id.IsBase() ==> !Validation.Undefined(m.Get(id)))
  {
    var m := Assignment.BaseOnly(av, ac, pr, ui, sc, c, i, a);
    Validation.ValidValueCodes(id, m.Get(id));
  }

  /** An assignment of accepted Base values and no optional metric passes
      validation. */
  lemma BaseOnlyValid(av: string, ac: string, pr: string, ui: string, sc: string, c: string, i: string, a: string)
    requires av in Validation.AcceptedCodes(Schema.Id.AV) && ac in Validation.AcceptedCodes(Schema.Id.AC)
    requires pr in Validation.AcceptedCodes(Schema.Id.PR) && ui in Validation.AcceptedCodes(Schema.Id.UI)
    requires sc in Validation.AcceptedCodes(Schema.Id.S) && c in Validation.AcceptedCodes(Schema.Id.C)
    requires i in Validation.AcceptedCodes(Schema.Id.I) && a in Validation.AcceptedCodes(Schema.Id.A)
    ensures FromMetrics(Assignment.BaseOnly(av, ac, pr, ui, sc, c, i, a)).Succeeded()
  {
    var m := Assignment.BaseOnly(av, ac, pr, ui, sc, c, i, a);
    forall id: Schema.Id ensures Validation.ValidValue(id, m.Get(id)) && (id.IsBase() ==> !Validation.Undefined(m.Get(id))) {
      BaseOnlyChecks(av, ac, pr, ui, sc, c, i, a, id);
    }
    assert AllValid(m) && AllBaseDefined(m);
    MetricsOutcome(m);
  }

  /** The vector string of an assignment with no optional metric: the
      version identifier and the eight Base tokens. */
  lemma BaseOnlyVectorString(av: string, ac: string, pr: string, ui: string, sc: string, c: string, i: string, a: string)
    ensures Assignment.VectorString(Assignment.BaseOnly(av, ac, pr, ui, sc, c, i, a))
         == "CVSS:3.1" + "/AV:" + av + "/AC:" + ac + "/PR:" + pr + "/UI:" + ui
          + "/S:" + sc + "/C:" + c + "/I:" + i + "/A:" + a
  {
    var m := Assignment.BaseOnly(av, ac, pr, ui, sc, c, i, a);
    Assignment.BaseAppended(m);
    BaseTokens(m);
  }

  /** The text of the test vector, piece by piece as the serializer
      appends it. */
  lemma ExampleText()
    ensures "CVSS:3.1" + "/AV:" + "P" + "/AC:" + "H" + "/PR:" + "L" + "/UI:" + "N"
          + "/S:" + "U" + "/C:" + "L" + "/I:" + "L" + "/A:" + "H"
         == "CVSS:3.1/AV:P/AC:H/PR:L/UI:N/S:U/C:L/I:L/A:H"
  {
    assert "CVSS:3.1" + "/AV:" + "P" == "CVSS:3.1/AV:P";
    assert "CVSS:3.1/AV:P" + "/AC:" + "H" == "CVSS:3.1/AV:P/AC:H";
    assert "CVSS:3.1/AV:P/AC:H" + "/PR:" + "L" == "CVSS:3.1/AV:P/AC:H/PR:L";
    assert "CVSS:3.1/AV:P/AC:H/PR:L" + "/UI:" + "N" == "CVSS:3.1/AV:P/AC:H/PR:L/UI:N";
    assert "CVSS:3.1/AV:P/AC:H/PR:L/UI:N" + "/S:" + "U" == "CVSS:3.1/AV:P/AC:H/PR:L/UI:N/S:U";
    assert "CVSS:3.1/AV:P/AC:H/PR:L/UI:N/S:U" + "/C:" + "L" == "CVSS:3.1/AV:P/AC:H/PR:L/UI:N/S:U/C:L";
    assert "CVSS:3.1/AV:P/AC:H/PR:L/UI:N/S:U/C:L" + "/I:" + "L" == "CVSS:3.1/AV:P/AC:H/PR:L/UI:N/S:U/C:L/I:L";
    assert "CVSS:3.1/AV:P/AC:H/PR:L/UI:N/S:U/C:L/I:L" + "/A:" + "H" == "CVSS:3.1/AV:P/AC:H/PR:L/UI:N/S:U/C:L/I:L/A:H";
  }

  /** The vector string "CVSS:3.1/AV:P/AC:H/PR:L/UI:N/S:U/C:L/I:L/A:H"
      scores 5.1, rated Medium. */
  lemma VectorExample(s: string)
    requires s == "CVSS:3.1/AV:P/AC:H/PR:L/UI:N/S:U/C:L/I:L/A:H"
    ensures FromVector(s).Succeeded()
    ensures FromVector(s).baseMetricScore == 5.1
    ensures FromVector(s).baseSeverity == "Medium"
    ensures FromVector(s).vectorString == s
  {
    var m := Assignment.BaseOnly("P", "H", "L", "N", "U", "L", "L", "H");
    BaseOnlyValid("P", "H", "L", "N", "U", "L", "L", "H");
    BaseOnlyVectorString("P", "H", "L", "N", "U", "L", "L", "H");
    ExampleText();
    SuccessVector(m);
    RoundTrip(m);
    assert FromVector(s) == FromMetrics(m);
    SuccessIsScored(m);
    Formulas.PhysicalHighComplexityExample();
    Severity.SeverityOfTenths(51);
    assert 51 as real / 10.0 == 5.1;
  }

  /** The k-th of eight tokens naming the Base metrics in canonical order
      is the k-th field of the assignment they declare. */
  lemma DeclaredToken(tokens: seq<string>, k: nat)
    requires |tokens| == 8 && k < 8 && VectorSyntax.IsToken(tokens[k])
    requires forall j :: 0 <= j < 8 ==> VectorSyntax.TokenName(tokens[j]) == Schema.BaseIds[j].Name()
    ensures Assignment.Token(Declared(tokens), Schema.BaseIds[k]) == tokens[k]
  {
    var id := Schema.BaseIds[k];
    Schema.CanonicalOrder();
    assert id in Schema.BaseIds;
    forall j | 0 <= j < k ensures VectorSyntax.TokenName(tokens[j]) != id.Name() {
      BaseNamesDistinct(j, k);
    }
    FirstValueAt(tokens, k, id.Name());
    DeclaredGet(tokens, id);
    var i := VectorSyntax.IndexOf(tokens[k], ':');
    assert tokens[k][i] == ':';
  }

  /** A recognised vector string is the prefix followed by the join of its
      tokens. */
  lemma Rebuilt(s: string)
    requires VectorSyntax.IsVectorString(s)
    ensures VectorSyntax.Prefix + VectorSyntax.Join(Tokens(s)) == s
  {
    var body := s[|VectorSyntax.Prefix|..];
    assert body[|body| - 1] == s[|s| - 1];
    VectorSyntax.JoinSplit(body);
  }

  /** Eight tokens naming the Base metrics in canonical order are the
      fields of the assignment they declare. */
  lemma DeclaredFields(tokens: seq<string>)
    requires |tokens| == 8 && VectorSyntax.AllTokens(tokens)
    requires forall k :: 0 <= k < 8 ==> VectorSyntax.TokenName(tokens[k]) == Schema.BaseIds[k].Name()
    ensures Assignment.Fields(Declared(tokens), Schema.MetricIds) == tokens
  {
    var d := Declared(tokens);
    forall id: Schema.Id | !id.IsBase() ensures d.Get(id) == "X" {
      DeclaredGet(tokens, id);
    }
    BaseTokens(d);
    forall k | 0 <= k < 8 ensures Assignment.Fields(d, Schema.BaseIds)[k] == tokens[k] {
      DeclaredToken(tokens, k);
    }
  }

  /** A recognised vector string whose tokens name the eight Base metrics
      once each, in canonical order, and which scores successfully is
      serialised back to itself. */
  lemma CanonicalVectorUnchanged(s: string)
    requires VectorSyntax.IsVectorString(s) && |Tokens(s)| == 8
    requires forall k :: 0 <= k < 8 ==> VectorSyntax.TokenName(Tokens(s)[k]) == Schema.BaseIds[k].Name()
    requires FromVector(s).Succeeded()
    ensures FromVector(s).vectorString == s
  {
    var tokens := Tokens(s);
    NoRedefinition(tokens);
    VectorDeclares(s);
    var d := Declared(tokens);
    SuccessVector(d);
    DeclaredFields(tokens);
    Assignment.VectorStringJoin(d);
    Rebuilt(s);
  }

  /** A successful result is the scored one. */
  lemma SuccessIsScored(m: Assignment.Metrics)
    requires FromMetrics(m).Succeeded()
    ensures FromMetrics(m) == Scored(m)
  {
  }
}
