/** The tokenizing loop of calculateCVSSFromVector: every token of a
    recognised vector either defines its metric in a table of metric values
    or is reported as a redefinition. */
module Parsing {
  import Schema
  import VectorSyntax

  /** The names of the eight Base metrics. */
  const BaseNames: set<string> := {"AV", "AC", "PR", "UI", "S", "C", "I", "A"}

  /** The table before the loop: every metric the grammar knows, the Base
      metrics "undefined" and all the others "X". */
  const Initial: map<string, string> :=
    map name | name in VectorSyntax.CodeLetters.Keys :: if name in BaseNames then "undefined" else "X"

  /** The state of the loop: the table of metric values and the names
      reported so far. */
  datatype Tally = Tally(values: map<string, string>, bad: seq<string>)

  /** std::map operator[] as a read: the stored value, or "" for a name not
      in the table (which the lookup then inserts). */
  function Lookup(values: map<string, string>, name: string): string {
    if name in values then values[name] else ""
  }

  /** One pass of the loop body: a metric still "undefined" takes the
      token's value; any other is reported, and stays as it was (a name
      the table lacked is inserted with ""). */
  function Record(t: Tally, p: string): Tally {
    var name := VectorSyntax.TokenName(p);
    var stored := Lookup(t.values, name);
    if stored == "undefined" then Tally(t.values[name := VectorSyntax.TokenValue(p)], t.bad)
    else Tally(t.values[name := stored], t.bad + [name])
  }

  /** The state after the loop has seen `tokens`. */
  function TallyOf(tokens: seq<string>): Tally {
    if tokens == [] then Tally(Initial, [])
    else Record(TallyOf(tokens[..|tokens| - 1]), tokens[|tokens| - 1])
  }

  /** The value of the first token for metric `name`, or "undefined" when
      no token names it. */
  function FirstValue(tokens: seq<string>, name: string): string {
    if tokens == [] then "undefined"
    else if VectorSyntax.TokenName(tokens[0]) == name then VectorSyntax.TokenValue(tokens[0])
    else FirstValue(tokens[1..], name)
  }

  /** The token at `k` redefines its metric: the metric is not a Base
      metric (its table entry starts as "X"), or an earlier token names it. */
  predicate Redefines(tokens: seq<string>, k: nat)
    requires k < |tokens|
  {
    var name := VectorSyntax.TokenName(tokens[k]);
    name !in BaseNames || exists j :: 0 <= j < k && VectorSyntax.TokenName(tokens[j]) == name
  }

  /** The names of the redefining tokens, in the order of the tokens. */
  function Redefinitions(tokens: seq<string>): seq<string> {
    if tokens == [] then []
    else
      var n := |tokens| - 1;
      Redefinitions(tokens[..n]) + (if Redefines(tokens, n) then [VectorSyntax.TokenName(tokens[n])] else [])
  }

  /** The loop over the tokens, updating the table in place. */
  method TallyTokens(tokens: seq<string>) returns (metricValues: map<string, string>, badMetrics: seq<string>)
    ensures Tally(metricValues, badMetrics) == TallyOf(tokens)
  {
    metricValues := Initial;
    badMetrics := [];
    for k := 0 to |tokens|
      invariant Tally(metricValues, badMetrics) == TallyOf(tokens[..k])
    {
      assert tokens[..k + 1][..k] == tokens[..k];
      var p := tokens[k];
      var singleMetricName := VectorSyntax.TokenName(p);
      var singleMetricValue := VectorSyntax.TokenValue(p);
      var stored := Lookup(metricValues, singleMetricName);
      metricValues := metricValues[singleMetricName := stored];
      if stored == "undefined" {
        metricValues := metricValues[singleMetricName := singleMetricValue];
      } else {
        badMetrics := badMetrics + [singleMetricName];
      }
    }
    assert tokens[..|tokens|] == tokens;
  }

  /** The value of a token of the grammar is one letter, never "undefined". */
  lemma TokenValueDefined(p: string)
    requires VectorSyntax.IsToken(p)
    ensures VectorSyntax.TokenValue(p) != "undefined"
    ensures VectorSyntax.TokenName(p) in VectorSyntax.CodeLetters
  {
    VectorSyntax.TokenShape(p);
  }

  /** Over tokens of the grammar, a metric is "undefined" exactly when no
      token names it. */
  lemma {:induction false} FirstValueUndefined(tokens: seq<string>, name: string)
    requires VectorSyntax.AllTokens(tokens)
    ensures FirstValue(tokens, name) == "undefined" <==>
      forall j :: 0 <= j < |tokens| ==> VectorSyntax.TokenName(tokens[j]) != name
  {
    if tokens != [] {
      TokenValueDefined(tokens[0]);
      FirstValueUndefined(tokens[1..], name);
      assert forall j :: 1 <= j < |tokens| ==> tokens[1..][j - 1] == tokens[j];
    }
  }

  /** Reading one more token only defines a metric that was undefined. */
  lemma {:induction false} FirstValueSnoc(tokens: seq<string>, p: string, name: string)
    requires VectorSyntax.AllTokens(tokens)
    ensures FirstValue(tokens + [p], name) ==
      if FirstValue(tokens, name) != "undefined" || VectorSyntax.TokenName(p) != name then FirstValue(tokens, name)
      else VectorSyntax.TokenValue(p)
  {
    if tokens == [] {
      assert [] + [p] == [p];
    } else {
      TokenValueDefined(tokens[0]);
      assert (tokens + [p])[1..] == tokens[1..] + [p];
      assert VectorSyntax.AllTokens(tokens[1..]) by {
        forall j | 0 <= j < |tokens[1..]| ensures VectorSyntax.IsToken(tokens[1..][j]) {
          assert tokens[1..][j] == tokens[j + 1];
        }
      }
      FirstValueSnoc(tokens[1..], p, name);
    }
  }

  /** The state `t` is the one the loop reaches after `tokens`, as the
      grammar's tokens determine it: the table holds exactly the grammar's
      metrics, a Base metric the value of its first token (or
      "undefined"), every other metric "X", and the reported names are the
      redefinitions. */
  predicate Describes(t: Tally, tokens: seq<string>) {
    && t.values.Keys == VectorSyntax.CodeLetters.Keys
    && (forall name :: name in VectorSyntax.CodeLetters && name in BaseNames ==>
          t.values[name] == FirstValue(tokens, name))
    && (forall name :: name in VectorSyntax.CodeLetters && name !in BaseNames ==> t.values[name] == "X")
    && t.bad == Redefinitions(tokens)
  }

  lemma InitialDescribes()
    ensures Describes(Tally(Initial, []), [])
  {
  }

  /** The prefix of a list of tokens of the grammar is one too. */
  lemma PrefixTokens(tokens: seq<string>, n: nat)
    requires VectorSyntax.AllTokens(tokens) && n <= |tokens|
    ensures VectorSyntax.AllTokens(tokens[..n])
  {
    forall j | 0 <= j < n ensures VectorSyntax.IsToken(tokens[..n][j]) {
      assert tokens[..n][j] == tokens[j];
    }
  }

  /** Whether the next token redefines its metric can be read off the
      table: its metric is not "undefined" there. */
  lemma RedefinesStored(t: Tally, init: seq<string>, p: string)
    requires VectorSyntax.AllTokens(init) && VectorSyntax.IsToken(p) && Describes(t, init)
    ensures Redefines(init + [p], |init|) <==> Lookup(t.values, VectorSyntax.TokenName(p)) != "undefined"
  {
    var name := VectorSyntax.TokenName(p);
    TokenValueDefined(p);
    if name in BaseNames {
      FirstValueUndefined(init, name);
      assert forall j :: 0 <= j < |init| ==> (init + [p])[j] == init[j];
    }
  }

  /** One pass of the loop body keeps the description. */
  lemma RecordStep(t: Tally, init: seq<string>, p: string)
    requires VectorSyntax.AllTokens(init) && VectorSyntax.IsToken(p) && Describes(t, init)
    ensures Describes(Record(t, p), init + [p])
  {
    var tokens := init + [p];
    assert tokens[..|init|] == init;
    RedefinesStored(t, init, p);
    TokenValueDefined(p);
    forall other | other in VectorSyntax.CodeLetters && other in BaseNames
      ensures Record(t, p).values[other] == FirstValue(tokens, other)
    {
      FirstValueSnoc(init, p, other);
    }
  }

  /** A non-empty list is its front followed by its last token. */
  lemma LastSplit(tokens: seq<string>)
    requires tokens != []
    ensures tokens == tokens[..|tokens| - 1] + [tokens[|tokens| - 1]]
  {
  }

  /** After the loop, over tokens of the grammar, the state is the one the
      tokens determine. */
  lemma {:induction false} TallyMeaning(tokens: seq<string>)
    requires VectorSyntax.AllTokens(tokens)
    ensures Describes(TallyOf(tokens), tokens)
  {
    if tokens == [] {
      InitialDescribes();
    } else {
      var n := |tokens| - 1;
      PrefixTokens(tokens, n);
      TallyMeaning(tokens[..n]);
      LastSplit(tokens);
      RecordStep(TallyOf(tokens[..n]), tokens[..n], tokens[n]);
    }
  }

  /** Some token redefines metric `name`. */
  predicate RedefinedIn(tokens: seq<string>, name: string) {
    exists k :: 0 <= k < |tokens| && Redefines(tokens, k) && VectorSyntax.TokenName(tokens[k]) == name
  }

  /** Whether a token redefines its metric depends only on the tokens before it. */
  lemma RedefinesPrefix(tokens: seq<string>, n: nat, k: nat)
    requires k < n <= |tokens|
    ensures Redefines(tokens[..n], k) == Redefines(tokens, k)
  {
    assert tokens[..n][k] == tokens[k];
    assert forall j :: 0 <= j < k ==> tokens[..n][j] == tokens[j];
  }

  /** A name is reported exactly when some token redefines it. */
  lemma {:induction false} RedefinitionsExactly(tokens: seq<string>, name: string)
    ensures name in Redefinitions(tokens) <==> RedefinedIn(tokens, name)
  {
    if tokens != [] {
      var n := |tokens| - 1;
      var init := tokens[..n];
      RedefinitionsExactly(init, name);
      if RedefinedIn(init, name) {
        var k :| 0 <= k < |init| && Redefines(init, k) && VectorSyntax.TokenName(init[k]) == name;
        RedefinesPrefix(tokens, n, k);
        assert init[k] == tokens[k];
      }
      if RedefinedIn(tokens, name) {
        var k :| 0 <= k < |tokens| && Redefines(tokens, k) && VectorSyntax.TokenName(tokens[k]) == name;
        if k < n {
          RedefinesPrefix(tokens, n, k);
          assert init[k] == tokens[k];
        }
      }
    }
  }

  /** A token for a Temporal or Environmental metric is always reported. */
  lemma OptionalRedefines(tokens: seq<string>, k: nat)
    requires k < |tokens| && VectorSyntax.TokenName(tokens[k]) !in BaseNames
    ensures VectorSyntax.TokenName(tokens[k]) in Redefinitions(tokens)
  {
    RedefinitionsExactly(tokens, VectorSyntax.TokenName(tokens[k]));
  }
}
