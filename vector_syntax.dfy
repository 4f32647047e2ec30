/** The syntax of a CVSS v3.1 vector string (section 6 of the CVSS v3.1
    specification) as the calculator's grammar accepts it, the splitting of
    its body into tokens, and the splitting of a token into metric and value. */
module VectorSyntax {
  import Schema

  /** The version identifier followed by the first separator. */
  const Prefix: string := Schema.CVSSVersionIdentifier + "/"

  /** For every metric the grammar knows, the value letters it allows after
      the colon. PR and MPR admit "U", which is not a value of either. */
  const CodeLetters: map<string, string> := map[
    "AV" := "NALP", "AC" := "LH", "PR" := "UNLH", "UI" := "NR", "S" := "UC",
    "C" := "NLH", "I" := "NLH", "A" := "NLH",
    "E" := "XUPFH", "RL" := "XOTWU", "RC" := "XURC",
    "CR" := "XLMH", "IR" := "XLMH", "AR" := "XLMH",
    "MAV" := "XNALP", "MAC" := "XLH", "MPR" := "XUNLH", "MUI" := "XNR", "MS" := "XUC",
    "MC" := "XNLH", "MI" := "XNLH", "MA" := "XNLH"
  ]

  /** The index of the first `c` in `s`, or |s| when there is none. */
  function IndexOf(s: string, c: char): (i: nat)
    ensures i <= |s| && (i < |s| ==> s[i] == c)
    ensures forall j :: 0 <= j < i ==> s[j] != c
  {
    if s == [] then 0 else if s[0] == c then 0 else 1 + IndexOf(s[1..], c)
  }

  /** One alternative of the grammar: a metric it knows, a colon and one of
      that metric's letters. */
  predicate IsToken(t: string) {
    var i := IndexOf(t, ':');
    i < |t| && t[..i] in CodeLetters && |t| == i + 2 && t[i + 1] in CodeLetters[t[..i]]
  }

  predicate AllTokens(ts: seq<string>) {
    forall k :: 0 <= k < |ts| ==> IsToken(ts[k])
  }

  /** The parts that a loop of std::getline(stream, part, '/') yields: the
      pieces between separators, without an empty piece after a final
      separator. */
  function Split(s: string): seq<string>
    decreases |s|
  {
    if s == [] then []
    else
      var i := IndexOf(s, '/');
      if i == |s| then [s] else [s[..i]] + Split(s[i + 1..])
  }

  /** The parts joined by single separators. */
  function Join(parts: seq<string>): string {
    if parts == [] then ""
    else if |parts| == 1 then parts[0]
    else parts[0] + "/" + Join(parts[1..])
  }

  /** The recognizer: the prefix, then one or more tokens separated by
      single separators and nothing else. */
  predicate IsVectorString(s: string) {
    |s| > |Prefix| && s[..|Prefix|] == Prefix && s[|s| - 1] != '/' && AllTokens(Split(s[|Prefix|..]))
  }

  /** The metric of a token: everything before the first colon, or the whole
      token when it has none (std::string::substr(0, npos)). */
  function TokenName(p: string): (name: string)
    ensures ':' !in name
  {
    var i := IndexOf(p, ':');
    if i < |p| then p[..i] else p
  }

  /** The value of a token: everything after the first colon, or the whole
      token when it has none (find yields npos, and npos + 1 wraps to 0). */
  function TokenValue(p: string): (value: string)
    ensures ':' in p ==> p == TokenName(p) + ":" + value
    ensures ':' !in p ==> value == p
  {
    var i := IndexOf(p, ':');
    if i < |p| then p[i + 1..] else p
  }

  /** A token of the grammar is non-empty and has no separator in it, its
      metric is one the grammar knows and its value is a single letter. */
  lemma TokenShape(t: string)
    requires IsToken(t)
    ensures |t| > 0 && '/' !in t
    ensures TokenName(t) in CodeLetters && |TokenValue(t)| == 1
    ensures TokenValue(t)[0] in CodeLetters[TokenName(t)]
  {
    var i := IndexOf(t, ':');
    assert t == t[..i] + [':', t[i + 1]];
    PlainMetric(t[..i]);
  }

  /** No metric name or value letter of the grammar is a separator. */
  lemma PlainMetric(k: string)
    requires k in CodeLetters
    ensures '/' !in k && '/' !in CodeLetters[k]
  {
  }

  /** The token for a metric and a value is recognised exactly when the
      value is one letter that the grammar allows for that metric. */
  lemma TokenOf(id: string, code: string)
    requires id in CodeLetters
    ensures IsToken(id + ":" + code) <==> |code| == 1 && code[0] in CodeLetters[id]
    ensures TokenName(id + ":" + code) == id && TokenValue(id + ":" + code) == code
  {
    var t := id + ":" + code;
    assert ':' !in id;
    assert IndexOf(t, ':') == |id| by {
      assert t[|id|] == ':';
      assert forall j :: 0 <= j < |id| ==> t[j] == id[j];
    }
    assert t[..|id|] == id && t[|id| + 1..] == code;
  }

  lemma IndexOfAfter(cur: string, c: char, rest: string)
    requires c !in cur
    ensures IndexOf(cur + [c] + rest, c) == |cur|
  {
    var s := cur + [c] + rest;
    assert s[|cur|] == c;
    assert forall j :: 0 <= j < |cur| ==> s[j] == cur[j];
  }

  /** A part without separators followed by a separator is split off whole. */
  lemma SplitCons(cur: string, rest: string)
    requires '/' !in cur
    ensures Split(cur + "/" + rest) == [cur] + Split(rest)
  {
    var s := cur + "/" + rest;
    IndexOfAfter(cur, '/', rest);
    assert s[..|cur|] == cur && s[|cur| + 1..] == rest;
  }

  lemma SplitSingle(cur: string)
    requires '/' !in cur
    ensures Split(cur) == if cur == [] then [] else [cur]
  {
  }

  /** Splitting undoes joining, for parts that are non-empty and free of
      separators. */
  lemma {:induction false} SplitJoin(parts: seq<string>)
    requires forall k :: 0 <= k < |parts| ==> |parts[k]| > 0 && '/' !in parts[k]
    ensures Split(Join(parts)) == parts
  {
    if |parts| == 1 {
      SplitSingle(parts[0]);
    } else if |parts| > 1 {
      SplitCons(parts[0], Join(parts[1..]));
      SplitJoin(parts[1..]);
    }
  }

  /** A string is the text before a separator, the separator and the text after it. */
  lemma CutAt(s: string, i: nat)
    requires i < |s| && s[i] == '/'
    ensures s == s[..i] + "/" + s[i + 1..]
  {
    assert s[i..] == "/" + s[i + 1..];
    assert s == s[..i] + s[i..];
  }

  /** Joining undoes splitting, for a string that does not end in a separator. */
  lemma {:induction false} JoinSplit(s: string)
    requires s != [] && s[|s| - 1] != '/'
    ensures Join(Split(s)) == s
    ensures |Split(s)| >= 1
    decreases |s|
  {
    var i := IndexOf(s, '/');
    if i < |s| {
      var rest := s[i + 1..];
      assert rest != [] && rest[|rest| - 1] != '/';
      JoinSplit(rest);
      var parts := [s[..i]] + Split(rest);
      assert Split(s) == parts;
      assert parts[0] == s[..i] && parts[1..] == Split(rest);
      assert Join(parts) == s[..i] + "/" + Join(Split(rest));
      CutAt(s, i);
    } else {
      assert Split(s) == [s];
    }
  }

  /** The recognizer accepts exactly the language of the grammar: the
      prefix followed by one or more tokens joined by single separators. */
  lemma VectorGrammar(s: string)
    ensures IsVectorString(s) <==>
      exists toks :: |toks| >= 1 && AllTokens(toks) && s == Prefix + Join(toks)
  {
    if IsVectorString(s) {
      var body := s[|Prefix|..];
      JoinSplit(body);
      assert s == Prefix + Join(Split(body));
    }
    if exists toks :: |toks| >= 1 && AllTokens(toks) && s == Prefix + Join(toks) {
      var toks :| |toks| >= 1 && AllTokens(toks) && s == Prefix + Join(toks);
      AcceptJoin(toks);
    }
  }

  /** Every non-empty list of tokens, joined after the prefix, is recognised. */
  lemma AcceptJoin(toks: seq<string>)
    requires |toks| >= 1 && AllTokens(toks)
    ensures IsVectorString(Prefix + Join(toks))
    ensures Split((Prefix + Join(toks))[|Prefix|..]) == toks
  {
    forall k | 0 <= k < |toks| ensures |toks[k]| > 0 && '/' !in toks[k] {
      TokenShape(toks[k]);
    }
    SplitJoin(toks);
    var s := Prefix + Join(toks);
    assert s[|Prefix|..] == Join(toks);
    JoinLast(toks);
  }

  /** The joined string ends with the last part. */
  lemma {:induction false} JoinLast(parts: seq<string>)
    requires |parts| >= 1 && |parts[|parts| - 1]| > 0
    ensures |Join(parts)| > 0 && Join(parts)[|Join(parts)| - 1] == parts[|parts| - 1][|parts[|parts| - 1]| - 1]
  {
    if |parts| > 1 {
      JoinLast(parts[1..]);
    }
  }

  /** One character of the getline loop: a separator closes the current
      part, any other character extends it. */
  lemma SplitStep(cur: string, s: string, i: nat)
    requires '/' !in cur && i < |s|
    ensures s[i] == '/' ==> Split(cur + s[i..]) == [cur] + Split("" + s[i + 1..])
    ensures s[i] != '/' ==> Split(cur + s[i..]) == Split((cur + [s[i]]) + s[i + 1..])
  {
    var rest := s[i + 1..];
    assert s[i..] == [s[i]] + rest;
    if s[i] == '/' {
      assert cur + s[i..] == cur + "/" + rest;
      assert "" + rest == rest;
      SplitCons(cur, rest);
    } else {
      assert cur + s[i..] == (cur + [s[i]]) + rest;
    }
  }

  /** std::getline split of the vector body, one character at a time. */
  method SplitOnSlash(s: string) returns (parts: seq<string>)
    ensures parts == Split(s)
  {
    parts := [];
    var cur: string := "";
    var i := 0;
    assert cur + s[i..] == s;
    while i < |s|
      invariant 0 <= i <= |s|
      invariant '/' !in cur
      invariant parts + Split(cur + s[i..]) == Split(s)
    {
      SplitStep(cur, s, i);
      if s[i] == '/' {
        parts := parts + [cur];
        cur := "";
      } else {
        cur := cur + [s[i]];
      }
      i := i + 1;
    }
    assert cur + s[i..] == cur;
    SplitSingle(cur);
    if cur != "" {
      parts := parts + [cur];
    }
  }
}
