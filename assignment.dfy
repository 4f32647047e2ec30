/** A metric assignment: the 22 metric values of one scoring request, and
    the canonical vector string that serializes it. */
module Assignment {
  import Schema
  import VectorSyntax

  /** The arguments of calculateCVSSFromMetrics, one value code per metric.
      Any string may be passed; "undefined" or "" marks a missing Base
      metric and "X" a Temporal or Environmental metric left Not Defined. */
  datatype Metrics = Metrics(
    AV: string, AC: string, PR: string, UI: string, S: string, C: string, I: string, A: string,
    E: string, RL: string, RC: string,
    CR: string, IR: string, AR: string,
    MAV: string, MAC: string, MPR: string, MUI: string, MS: string, MC: string, MI: string, MA: string)
  {
    /** The value supplied for metric `id`. */
    function Get(id: Schema.Id): string {
      match id
      case AV => AV case AC => AC case PR => PR case UI => UI
      case S => S case C => C case I => I case A => A
      case E => E case RL => RL case RC => RC
      case CR => CR case IR => IR case AR => AR
      case MAV => MAV case MAC => MAC case MPR => MPR case MUI => MUI
      case MS => MS case MC => MC case MI => MI case MA => MA
    }
  }

  /** A call with only the eight Base arguments: every optional metric takes
      its default, "X". */
  function BaseOnly(av: string, ac: string, pr: string, ui: string, s: string, c: string, i: string, a: string): (m: Metrics)
    ensures forall id: Schema.Id :: !id.IsBase() ==> m.Get(id) == "X"
    ensures [m.Get(Schema.Id.AV), m.Get(Schema.Id.AC), m.Get(Schema.Id.PR), m.Get(Schema.Id.UI),
             m.Get(Schema.Id.S), m.Get(Schema.Id.C), m.Get(Schema.Id.I), m.Get(Schema.Id.A)]
         == [av, ac, pr, ui, s, c, i, a]
  {
    Metrics(av, ac, pr, ui, s, c, i, a, "X", "X", "X", "X", "X", "X", "X", "X", "X", "X", "X", "X", "X", "X")
  }

  /** A metric is written to the vector when it is a Base metric or its
      supplied value is not "X". */
  predicate Included(m: Metrics, id: Schema.Id) {
    id.IsBase() || m.Get(id) != "X"
  }

  /** The "id:value" tokens of the metrics of `ids` that are written, in order. */
  function Fields(m: Metrics, ids: seq<Schema.Id>): seq<string> {
    if ids == [] then []
    else (if Included(m, ids[0]) then [ids[0].Name() + ":" + m.Get(ids[0])] else []) + Fields(m, ids[1..])
  }

  /** Each token preceded by a separator: the text the serializer appends. */
  function Appends(parts: seq<string>): string {
    if parts == [] then "" else "/" + parts[0] + Appends(parts[1..])
  }

  /** The canonical vector string: the version identifier, then, for every
      metric that is written, in canonical order, a separator and its token. */
  function VectorString(m: Metrics): string {
    Schema.CVSSVersionIdentifier + Appends(Fields(m, Schema.MetricIds))
  }

  lemma {:induction false} FieldsConcat(m: Metrics, a: seq<Schema.Id>, b: seq<Schema.Id>)
    ensures Fields(m, a + b) == Fields(m, a) + Fields(m, b)
  {
    if a == [] {
      assert a + b == b;
    } else {
      assert (a + b)[0] == a[0] && (a + b)[1..] == a[1..] + b;
      FieldsConcat(m, a[1..], b);
    }
  }

  lemma {:induction false} AppendsConcat(a: seq<string>, b: seq<string>)
    ensures Appends(a + b) == Appends(a) + Appends(b)
  {
    if a == [] {
      assert a + b == b;
    } else {
      assert (a + b)[0] == a[0] && (a + b)[1..] == a[1..] + b;
      AppendsConcat(a[1..], b);
    }
  }

  lemma {:induction false} AppendsJoin(parts: seq<string>)
    requires |parts| >= 1
    ensures "/" + VectorSyntax.Join(parts) == Appends(parts)
  {
    if |parts| > 1 {
      AppendsJoin(parts[1..]);
    }
  }

  /** Appending the tokens after the version identifier is the same as
      joining them after the prefix. */
  lemma PrefixAppends(fs: seq<string>)
    requires fs != []
    ensures Schema.CVSSVersionIdentifier + Appends(fs) == VectorSyntax.Prefix + VectorSyntax.Join(fs)
  {
    AppendsJoin(fs);
    assert Schema.CVSSVersionIdentifier + ("/" + VectorSyntax.Join(fs))
        == (Schema.CVSSVersionIdentifier + "/") + VectorSyntax.Join(fs);
  }

  /** The vector string is the prefix followed by the written tokens joined
      by single separators. */
  lemma VectorStringJoin(m: Metrics)
    ensures VectorString(m) == VectorSyntax.Prefix + VectorSyntax.Join(Fields(m, Schema.MetricIds))
  {
    var ids := Schema.MetricIds;
    assert ids[0] == Schema.Id.AV;
    assert Fields(m, ids) != [];
    PrefixAppends(Fields(m, ids));
  }

  /** The token written for metric `id`. */
  function Token(m: Metrics, id: Schema.Id): string {
    id.Name() + ":" + m.Get(id)
  }

  lemma AppendsSnoc(fs: seq<string>, tok: string)
    ensures Appends(fs + [tok]) == Appends(fs) + "/" + tok
  {
    AppendsConcat(fs, [tok]);
    assert Appends([tok]) == "/" + tok + "";
  }

  /** One step of the serializer: the token of metric `id`, when it is
      written, extends the token list of the metrics `done` before it to
      that of `done + [id]`. */
  lemma FieldsStep(m: Metrics, done: seq<Schema.Id>, id: Schema.Id)
    ensures Fields(m, done + [id]) == Fields(m, done) + (if Included(m, id) then [Token(m, id)] else [])
  {
    FieldsConcat(m, done, [id]);
    assert [id][1..] == [];
  }

  /** Writing a separator, a name, a colon and a value after the text so
      far is appending "/" and the token "name:value". */
  lemma TagAssoc(prefix: string, text: string, name: string, value: string)
    ensures (prefix + text) + ("/" + name + ":") + value == prefix + (text + "/" + (name + ":" + value))
  {
  }

  /** A Base metric is always appended. */
  lemma AppendBase(m: Metrics, done: seq<Schema.Id>, id: Schema.Id, v: string, tag: string)
    returns (next: seq<Schema.Id>)
    requires id.IsBase() && tag == "/" + id.Name() + ":"
    requires v == Schema.CVSSVersionIdentifier + Appends(Fields(m, done))
    ensures next == done + [id]
    ensures v + tag + m.Get(id) == Schema.CVSSVersionIdentifier + Appends(Fields(m, next))
  {
    next := done + [id];
    FieldsStep(m, done, id);
    AppendsSnoc(Fields(m, done), Token(m, id));
    TagAssoc(Schema.CVSSVersionIdentifier, Appends(Fields(m, done)), id.Name(), m.Get(id));
  }

  /** An optional metric is appended unless its value is "X": the text
      written for the metrics `done` extends to that for `done + [id]`. */
  lemma AppendOptional(m: Metrics, done: seq<Schema.Id>, id: Schema.Id, v: string, tag: string, value: string)
    returns (next: seq<Schema.Id>)
    requires !id.IsBase() && tag == "/" + id.Name() + ":" && value == m.Get(id)
    requires v == Schema.CVSSVersionIdentifier + Appends(Fields(m, done))
    ensures next == done + [id]
    ensures (if value != "X" then v + tag + value else v)
         == Schema.CVSSVersionIdentifier + Appends(Fields(m, next))
  {
    next := done + [id];
    FieldsStep(m, done, id);
    if value != "X" {
      AppendsSnoc(Fields(m, done), Token(m, id));
      TagAssoc(Schema.CVSSVersionIdentifier, Appends(Fields(m, done)), id.Name(), value);
    } else {
      assert Fields(m, done) + [] == Fields(m, done);
    }
  }

  /** The eight Base metrics are always written. */
  lemma BaseAppended(m: Metrics)
    ensures Schema.CVSSVersionIdentifier + "/AV:" + m.AV + "/AC:" + m.AC + "/PR:" + m.PR + "/UI:" + m.UI
        + "/S:" + m.S + "/C:" + m.C + "/I:" + m.I + "/A:" + m.A
        == Schema.CVSSVersionIdentifier + Appends(Fields(m, Schema.BaseIds))
  {
    var v := Schema.CVSSVersionIdentifier;
    ghost var done: seq<Schema.Id> := [];
    done := AppendBase(m, done, Schema.Id.AV, v, "/AV:"); v := v + "/AV:" + m.AV;
    done := AppendBase(m, done, Schema.Id.AC, v, "/AC:"); v := v + "/AC:" + m.AC;
    done := AppendBase(m, done, Schema.Id.PR, v, "/PR:"); v := v + "/PR:" + m.PR;
    done := AppendBase(m, done, Schema.Id.UI, v, "/UI:"); v := v + "/UI:" + m.UI;
    done := AppendBase(m, done, Schema.Id.S, v, "/S:"); v := v + "/S:" + m.S;
    done := AppendBase(m, done, Schema.Id.C, v, "/C:"); v := v + "/C:" + m.C;
    done := AppendBase(m, done, Schema.Id.I, v, "/I:"); v := v + "/I:" + m.I;
    done := AppendBase(m, done, Schema.Id.A, v, "/A:"); v := v + "/A:" + m.A;
    assert done == Schema.BaseIds;
  }

  /** The separators the serializer writes before each optional token. A
      proof aid that spares the serializer's proof unfolding the names; it
      models nothing of its own. */
  lemma OptionalTags()
    ensures Schema.BaseIds + [Schema.Id.E] + [Schema.Id.RL] + [Schema.Id.RC] + [Schema.Id.CR] + [Schema.Id.IR] + [Schema.Id.AR] + [Schema.Id.MAV] + [Schema.Id.MAC] + [Schema.Id.MPR] + [Schema.Id.MUI] + [Schema.Id.MS] + [Schema.Id.MC] + [Schema.Id.MI] + [Schema.Id.MA]
         == Schema.MetricIds
    ensures "/E:" == "/" + Schema.Id.E.Name() + ":"
    ensures "/RL:" == "/" + Schema.Id.RL.Name() + ":"
    ensures "/RC:" == "/" + Schema.Id.RC.Name() + ":"
    ensures "/CR:" == "/" + Schema.Id.CR.Name() + ":"
    ensures "/IR:" == "/" + Schema.Id.IR.Name() + ":"
    ensures "/AR:" == "/" + Schema.Id.AR.Name() + ":"
    ensures "/MAV:" == "/" + Schema.Id.MAV.Name() + ":"
    ensures "/MAC:" == "/" + Schema.Id.MAC.Name() + ":"
    ensures "/MPR:" == "/" + Schema.Id.MPR.Name() + ":"
    ensures "/MUI:" == "/" + Schema.Id.MUI.Name() + ":"
    ensures "/MS:" == "/" + Schema.Id.MS.Name() + ":"
    ensures "/MC:" == "/" + Schema.Id.MC.Name() + ":"
    ensures "/MI:" == "/" + Schema.Id.MI.Name() + ":"
    ensures "/MA:" == "/" + Schema.Id.MA.Name() + ":"
  {
  }

  /** Constructs the vector string by successive appends: all Base metrics,
      then each optional metric whose value is not "X", in canonical order. */
  method BuildVectorString(m: Metrics) returns (vectorString: string)
    ensures vectorString == VectorString(m)
  {
    BaseAppended(m);
    OptionalTags();
    vectorString :=
      Schema.CVSSVersionIdentifier +
      "/AV:" + m.AV +
      "/AC:" + m.AC +
      "/PR:" + m.PR +
      "/UI:" + m.UI +
      "/S:"  + m.S +
      "/C:"  + m.C +
      "/I:"  + m.I +
      "/A:"  + m.A;
    ghost var done := Schema.BaseIds;

    done := AppendOptional(m, done, Schema.Id.E, vectorString, "/E:", m.E);
    if m.E != "X" { vectorString := vectorString + "/E:" + m.E; }
    done := AppendOptional(m, done, Schema.Id.RL, vectorString, "/RL:", m.RL);
    if m.RL != "X" { vectorString := vectorString + "/RL:" + m.RL; }
    done := AppendOptional(m, done, Schema.Id.RC, vectorString, "/RC:", m.RC);
    if m.RC != "X" { vectorString := vectorString + "/RC:" + m.RC; }

    done := AppendOptional(m, done, Schema.Id.CR, vectorString, "/CR:", m.CR);
    if m.CR != "X" { vectorString := vectorString + "/CR:" + m.CR; }
    done := AppendOptional(m, done, Schema.Id.IR, vectorString, "/IR:", m.IR);
    if m.IR != "X" { vectorString := vectorString + "/IR:" + m.IR; }
    done := AppendOptional(m, done, Schema.Id.AR, vectorString, "/AR:", m.AR);
    if m.AR != "X" { vectorString := vectorString + "/AR:" + m.AR; }
    done := AppendOptional(m, done, Schema.Id.MAV, vectorString, "/MAV:", m.MAV);
    if m.MAV != "X" { vectorString := vectorString + "/MAV:" + m.MAV; }
    done := AppendOptional(m, done, Schema.Id.MAC, vectorString, "/MAC:", m.MAC);
    if m.MAC != "X" { vectorString := vectorString + "/MAC:" + m.MAC; }
    done := AppendOptional(m, done, Schema.Id.MPR, vectorString, "/MPR:", m.MPR);
    if m.MPR != "X" { vectorString := vectorString + "/MPR:" + m.MPR; }
    done := AppendOptional(m, done, Schema.Id.MUI, vectorString, "/MUI:", m.MUI);
    if m.MUI != "X" { vectorString := vectorString + "/MUI:" + m.MUI; }
    done := AppendOptional(m, done, Schema.Id.MS, vectorString, "/MS:", m.MS);
    if m.MS != "X" { vectorString := vectorString + "/MS:" + m.MS; }
    done := AppendOptional(m, done, Schema.Id.MC, vectorString, "/MC:", m.MC);
    if m.MC != "X" { vectorString := vectorString + "/MC:" + m.MC; }
    done := AppendOptional(m, done, Schema.Id.MI, vectorString, "/MI:", m.MI);
    if m.MI != "X" { vectorString := vectorString + "/MI:" + m.MI; }
    done := AppendOptional(m, done, Schema.Id.MA, vectorString, "/MA:", m.MA);
    if m.MA != "X" { vectorString := vectorString + "/MA:" + m.MA; }
  }
}
