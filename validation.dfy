/** Input validation of calculateCVSSFromMetrics: the check that every Base
    metric is present, the check of every value against the weight tables,
    and the error messages that list the offending metrics. */
module Validation {
  import Schema
  import VectorSyntax
  import Assignment

  /** A Base metric with this value is missing. */
  predicate Undefined(value: string) {
    value == "undefined" || value == ""
  }

  /** The metrics of `ids` whose value in `m` is missing, in the order of `ids`. */
  function MissingIn(m: Assignment.Metrics, ids: seq<Schema.Id>): (r: seq<Schema.Id>)
    ensures forall id :: id in r <==> id in ids && Undefined(m.Get(id))
    ensures |r| <= |ids|
  {
    if ids == [] then []
    else (if Undefined(m.Get(ids[0])) then [ids[0]] else []) + MissingIn(m, ids[1..])
  }

  /** The missing Base metrics of a call, in canonical order. */
  function MissingBase(m: Assignment.Metrics): seq<Schema.Id> {
    MissingIn(m, Schema.BaseIds)
  }

  /** The weight table the value check consults for metric `id`: PR is
      checked against the table for Unchanged Scope, C, I and A against
      their shared table, and every other metric against the table named
      after it. No table is named after an Environmental metric, so for
      those every lookup gives 0.0. */
  function CheckTable(id: Schema.Id): string {
    match id
    case PR => "PRU"
    case C => "CIA"
    case I => "CIA"
    case A => "CIA"
    case _ => id.Name()
  }

  /** The value check: a value passes when its weight in the checked table
      is not zero; an Environmental metric also passes with "X". */
  predicate ValidValue(id: Schema.Id, value: string) {
    (id.IsEnvironmental() && value == "X") || Schema.Weight(CheckTable(id), value) != 0.0
  }

  /** The metrics of `ids` whose value in `m` fails the value check, in the
      order of `ids`. */
  function InvalidIn(m: Assignment.Metrics, ids: seq<Schema.Id>): seq<Schema.Id>
  {
    if ids == [] then []
    else (if !ValidValue(ids[0], m.Get(ids[0])) then [ids[0]] else []) + InvalidIn(m, ids[1..])
  }

  /** The metrics of a call whose values are unknown, in canonical order. */
  function Unknown(m: Assignment.Metrics): seq<Schema.Id> {
    InvalidIn(m, Schema.MetricIds)
  }

  /** The names of the metrics, as pushed onto the list of bad metrics. */
  function Names(ids: seq<Schema.Id>): (r: seq<string>)
    ensures |r| == |ids| && forall k :: 0 <= k < |ids| ==> r[k] == ids[k].Name()
  {
    if ids == [] then [] else [ids[0].Name()] + Names(ids[1..])
  }

  /** The error message: every name followed by ", ", as copying the list
      through an ostream_iterator with that delimiter writes it. */
  function Listing(names: seq<string>): string {
    if names == [] then "" else names[0] + ", " + Listing(names[1..])
  }

  /** The accepted value codes of each metric, as the value check works out. */
  function AcceptedCodes(id: Schema.Id): set<string> {
    match id
    case AV => {"N", "A", "L", "P"}
    case AC => {"L", "H"}
    case PR => {"N", "L", "H"}
    case UI => {"N", "R"}
    case S => {"U", "C"}
    case C => {"L", "H"}
    case I => {"L", "H"}
    case A => {"L", "H"}
    case E => {"X", "U", "P", "F", "H"}
    case RL => {"X", "O", "T", "W", "U"}
    case RC => {"X", "U", "R", "C"}
    case _ => {"X"}
  }

  /** The values the check accepts. Because a weight of 0.0 counts as
      invalid, "N" is refused for C, I and A; PR:U is refused; and since no
      table exists for the Environmental metrics, they accept only "X". */
  lemma ValidValueCodes(id: Schema.Id, value: string)
    ensures ValidValue(id, value) <==> value in AcceptedCodes(id)
  {

  }

  lemma {:induction false} MissingInConcat(m: Assignment.Metrics, a: seq<Schema.Id>, b: seq<Schema.Id>)
    ensures MissingIn(m, a + b) == MissingIn(m, a) + MissingIn(m, b)
  {
    if a == [] {
      assert a + b == b;
    } else {
      assert (a + b)[0] == a[0] && (a + b)[1..] == a[1..] + b;
      MissingInConcat(m, a[1..], b);
    }
  }

  /** A metric is listed exactly when it is among `ids` and its value fails
      the check; the list is no longer than `ids`. */
  lemma {:induction false} InvalidInMembers(m: Assignment.Metrics, ids: seq<Schema.Id>)
    ensures forall id :: id in InvalidIn(m, ids) <==> id in ids && !ValidValue(id, m.Get(id))
    ensures |InvalidIn(m, ids)| <= |ids|
  {
    if ids != [] {
      InvalidInMembers(m, ids[1..]);
      assert forall id :: id in ids <==> id == ids[0] || id in ids[1..];
    }
  }

  lemma {:induction false} InvalidInConcat(m: Assignment.Metrics, a: seq<Schema.Id>, b: seq<Schema.Id>)
    ensures InvalidIn(m, a + b) == InvalidIn(m, a) + InvalidIn(m, b)
  {
    if a == [] {
      assert a + b == b;
    } else {
      assert (a + b)[0] == a[0] && (a + b)[1..] == a[1..] + b;
      InvalidInConcat(m, a[1..], b);
    }
  }

  lemma NamesConcat(a: seq<Schema.Id>, b: seq<Schema.Id>)
    ensures Names(a + b) == Names(a) + Names(b)
  {
  }

  lemma AfterHead(ids: seq<Schema.Id>, x: Schema.Id)
    requires Schema.InOrder(ids) && ids != [] && x in ids[1..]
    ensures ids[0].Position() < x.Position()
  {
    var j :| 0 <= j < |ids[1..]| && ids[1..][j] == x;
    assert ids[j + 1] == x;
  }

  /** A filter of a list in canonical order is in canonical order. */
  lemma {:induction false} MissingInOrder(m: Assignment.Metrics, ids: seq<Schema.Id>)
    requires Schema.InOrder(ids)
    ensures Schema.InOrder(MissingIn(m, ids))
  {
    if ids != [] {
      MissingInOrder(m, ids[1..]);
      var r := MissingIn(m, ids[1..]);
      forall k | 0 <= k < |r| ensures ids[0].Position() < r[k].Position() {
        assert r[k] in r;
        AfterHead(ids, r[k]);
      }
    }
  }

  lemma {:induction false} InvalidInOrder(m: Assignment.Metrics, ids: seq<Schema.Id>)
    requires Schema.InOrder(ids)
    ensures Schema.InOrder(InvalidIn(m, ids))
  {
    if ids != [] {
      InvalidInOrder(m, ids[1..]);
      InvalidInMembers(m, ids[1..]);
      var r := InvalidIn(m, ids[1..]);
      forall k | 0 <= k < |r| ensures ids[0].Position() < r[k].Position() {
        assert r[k] in r;
        AfterHead(ids, r[k]);
      }
    }
  }

  /** The missing-Base list names exactly the Base metrics whose value is
      "undefined" or empty, each once, in canonical order. */
  lemma MissingBaseExactly(m: Assignment.Metrics)
    ensures forall id: Schema.Id :: id in MissingBase(m) <==> id.IsBase() && Undefined(m.Get(id))
    ensures Schema.InOrder(MissingBase(m))
  {
    Schema.CanonicalOrder();
    MissingInOrder(m, Schema.BaseIds);
  }

  /** The unknown-value list names exactly the metrics whose value fails the
      check, each once, in canonical order. */
  lemma UnknownExactly(m: Assignment.Metrics)
    ensures forall id: Schema.Id :: id in Unknown(m) <==> !ValidValue(id, m.Get(id))
    ensures Schema.InOrder(Unknown(m))
  {
    Schema.CanonicalOrder();
    InvalidInMembers(m, Schema.MetricIds);
    InvalidInOrder(m, Schema.MetricIds);
  }

  /** The message determines the list of metrics it was built from. */
  lemma {:induction false} ListingInjective(a: seq<Schema.Id>, b: seq<Schema.Id>)
    requires Listing(Names(a)) == Listing(Names(b))
    ensures a == b
  {
    if a == [] || b == [] {
      if a != [] { ListingHead(a); }
      if b != [] { ListingHead(b); }
    } else {
      var s := Listing(Names(a));
      var x, y := a[0].Name(), b[0].Name();
      var ra, rb := " " + Listing(Names(a[1..])), " " + Listing(Names(b[1..]));
      ListingHead(a);
      ListingHead(b);
      VectorSyntax.IndexOfAfter(x, ',', ra);
      VectorSyntax.IndexOfAfter(y, ',', rb);
      assert x == s[..|x|] == y;
      Schema.NameInjective(a[0], b[0]);
      assert ra == s[|x| + 1..] == rb;
      assert Listing(Names(a[1..])) == ra[1..] == rb[1..] == Listing(Names(b[1..]));
      ListingInjective(a[1..], b[1..]);
    }
  }

  /** The message starts with the first name and a comma, which no name
      contains. */
  lemma ListingHead(ids: seq<Schema.Id>)
    requires ids != []
    ensures Listing(Names(ids)) == ids[0].Name() + [','] + (" " + Listing(Names(ids[1..])))
    ensures ',' !in ids[0].Name()
  {
    assert Names(ids)[1..] == Names(ids[1..]);
    NameHasNoComma(ids[0]);
  }

  lemma NameHasNoComma(id: Schema.Id)
    ensures ',' !in id.Name()
  {
  }

  /** The name when the metric is flagged, nothing otherwise: what one check
      pushes onto the list of bad metrics. */
  function Flagged(name: string, flagged: bool): seq<string> {
    if flagged then [name] else []
  }

  /** One Base check: the list for the metrics `done` extends to the list
      for `done + [id]`. */
  lemma MissingStep(m: Assignment.Metrics, done: seq<Schema.Id>, id: Schema.Id, bad: seq<string>,
                    name: string, value: string)
    returns (next: seq<Schema.Id>)
    requires name == id.Name() && value == m.Get(id)
    requires bad == Names(MissingIn(m, done))
    ensures next == done + [id]
    ensures bad + Flagged(name, Undefined(value)) == Names(MissingIn(m, next))
  {
    next := done + [id];
    MissingInConcat(m, done, [id]);
    assert [id][1..] == [];
    NamesConcat(MissingIn(m, done), MissingIn(m, [id]));
  }

  /** Four Base checks in a row. */
  lemma MissingFour(m: Assignment.Metrics, done: seq<Schema.Id>, bad: seq<string>,
                    w: Schema.Id, x: Schema.Id, y: Schema.Id, z: Schema.Id,
                    nw: string, nx: string, ny: string, nz: string,
                    vw: string, vx: string, vy: string, vz: string)
    requires nw == w.Name() && nx == x.Name() && ny == y.Name() && nz == z.Name()
    requires vw == m.Get(w) && vx == m.Get(x) && vy == m.Get(y) && vz == m.Get(z)
    requires bad == Names(MissingIn(m, done))
    ensures bad + Flagged(nw, Undefined(vw)) + Flagged(nx, Undefined(vx)) + Flagged(ny, Undefined(vy))
          + Flagged(nz, Undefined(vz)) == Names(MissingIn(m, done + [w] + [x] + [y] + [z]))
  {
    var d1 := MissingStep(m, done, w, bad, nw, vw);
    var b1 := bad + Flagged(nw, Undefined(vw));
    var d2 := MissingStep(m, d1, x, b1, nx, vx);
    var b2 := b1 + Flagged(nx, Undefined(vx));
    var d3 := MissingStep(m, d2, y, b2, ny, vy);
    var b3 := b2 + Flagged(ny, Undefined(vy));
    var d4 := MissingStep(m, d3, z, b3, nz, vz);
  }

  /** The missing-Base list, one check at a time. */
  lemma MissingUnrolled(m: Assignment.Metrics)
    ensures Names(MissingBase(m)) == [] + Flagged("AV", Undefined(m.AV)) + Flagged("AC", Undefined(m.AC)) + Flagged("PR", Undefined(m.PR)) + Flagged("UI", Undefined(m.UI)) + Flagged("S", Undefined(m.S)) + Flagged("C", Undefined(m.C)) + Flagged("I", Undefined(m.I)) + Flagged("A", Undefined(m.A))
  {
    Schema.BaseChain();
    var d0: seq<Schema.Id> := [];
    MissingFour(m, d0, [], Schema.Id.AV, Schema.Id.AC, Schema.Id.PR, Schema.Id.UI,
                "AV", "AC", "PR", "UI", m.AV, m.AC, m.PR, m.UI);
    MissingFour(m, d0 + [Schema.Id.AV] + [Schema.Id.AC] + [Schema.Id.PR] + [Schema.Id.UI],
                [] + Flagged("AV", Undefined(m.AV)) + Flagged("AC", Undefined(m.AC)) + Flagged("PR", Undefined(m.PR)) + Flagged("UI", Undefined(m.UI)),
                Schema.Id.S, Schema.Id.C, Schema.Id.I, Schema.Id.A,
                "S", "C", "I", "A", m.S, m.C, m.I, m.A);
  }

  /** One conditional push. */
  lemma Flag(bad: seq<string>, name: string, flagged: bool, checked: seq<string>)
    requires bad == checked
    ensures (if flagged then bad + [name] else bad) == checked + Flagged(name, flagged)
  {
  }

  /** Collects the Base metrics whose value is "undefined" or empty. */
  method CollectMissing(m: Assignment.Metrics) returns (badMetrics: seq<string>)
    ensures badMetrics == Names(MissingBase(m))
  {
    MissingUnrolled(m);
    badMetrics := [];
    ghost var checked: seq<string> := [];
    Flag(badMetrics, "AV", Undefined(m.AV), checked);
    checked := checked + Flagged("AV", Undefined(m.AV));
    if Undefined(m.AV) { badMetrics := badMetrics + ["AV"]; }
    Flag(badMetrics, "AC", Undefined(m.AC), checked);
    checked := checked + Flagged("AC", Undefined(m.AC));
    if Undefined(m.AC) { badMetrics := badMetrics + ["AC"]; }
    Flag(badMetrics, "PR", Undefined(m.PR), checked);
    checked := checked + Flagged("PR", Undefined(m.PR));
    if Undefined(m.PR) { badMetrics := badMetrics + ["PR"]; }
    Flag(badMetrics, "UI", Undefined(m.UI), checked);
    checked := checked + Flagged("UI", Undefined(m.UI));
    if Undefined(m.UI) { badMetrics := badMetrics + ["UI"]; }
    Flag(badMetrics, "S", Undefined(m.S), checked);
    checked := checked + Flagged("S", Undefined(m.S));
    if Undefined(m.S) { badMetrics := badMetrics + ["S"]; }
    Flag(badMetrics, "C", Undefined(m.C), checked);
    checked := checked + Flagged("C", Undefined(m.C));
    if Undefined(m.C) { badMetrics := badMetrics + ["C"]; }
    Flag(badMetrics, "I", Undefined(m.I), checked);
    checked := checked + Flagged("I", Undefined(m.I));
    if Undefined(m.I) { badMetrics := badMetrics + ["I"]; }
    Flag(badMetrics, "A", Undefined(m.A), checked);
    checked := checked + Flagged("A", Undefined(m.A));
    if Undefined(m.A) { badMetrics := badMetrics + ["A"]; }
  }

  /** One value check: the list for the metrics `done` extends to the list
      for `done + [id]`. */
  lemma InvalidStep(m: Assignment.Metrics, done: seq<Schema.Id>, bad: seq<string>, id: Schema.Id,
                    name: string, value: string)
    returns (next: seq<Schema.Id>, nextBad: seq<string>)
    requires name == id.Name() && value == m.Get(id)
    requires bad == Names(InvalidIn(m, done))
    ensures next == done + [id] && nextBad == bad + Flagged(name, !ValidValue(id, value))
    ensures nextBad == Names(InvalidIn(m, next))
  {
    next := done + [id];
    nextBad := bad + Flagged(name, !ValidValue(id, value));
    InvalidInConcat(m, done, [id]);
    assert [id][1..] == [];
    NamesConcat(InvalidIn(m, done), InvalidIn(m, [id]));
  }

  /** The eight Base value checks, in the validator's order. */
  lemma UnknownBaseChecks(m: Assignment.Metrics, done: seq<Schema.Id>, bad: seq<string>)
    requires bad == Names(InvalidIn(m, done))
    ensures bad + Flagged("AV", !ValidValue(Schema.Id.AV, m.AV)) + Flagged("AC", !ValidValue(Schema.Id.AC, m.AC)) + Flagged("PR", !ValidValue(Schema.Id.PR, m.PR)) + Flagged("UI", !ValidValue(Schema.Id.UI, m.UI)) + Flagged("S", !ValidValue(Schema.Id.S, m.S)) + Flagged("C", !ValidValue(Schema.Id.C, m.C)) + Flagged("I", !ValidValue(Schema.Id.I, m.I)) + Flagged("A", !ValidValue(Schema.Id.A, m.A)) == Names(InvalidIn(m, done + [Schema.Id.AV] + [Schema.Id.AC] + [Schema.Id.PR] + [Schema.Id.UI] + [Schema.Id.S] + [Schema.Id.C] + [Schema.Id.I] + [Schema.Id.A]))
  {
    var d, b := done, bad;
    d, b := InvalidStep(m, d, b, Schema.Id.AV, "AV", m.AV);
    d, b := InvalidStep(m, d, b, Schema.Id.AC, "AC", m.AC);
    d, b := InvalidStep(m, d, b, Schema.Id.PR, "PR", m.PR);
    d, b := InvalidStep(m, d, b, Schema.Id.UI, "UI", m.UI);
    d, b := InvalidStep(m, d, b, Schema.Id.S, "S", m.S);
    d, b := InvalidStep(m, d, b, Schema.Id.C, "C", m.C);
    d, b := InvalidStep(m, d, b, Schema.Id.I, "I", m.I);
    d, b := InvalidStep(m, d, b, Schema.Id.A, "A", m.A);
  }

  /** The three Temporal value checks, in the validator's order. */
  lemma UnknownTemporalChecks(m: Assignment.Metrics, done: seq<Schema.Id>, bad: seq<string>)
    requires bad == Names(InvalidIn(m, done))
    ensures bad + Flagged("E", !ValidValue(Schema.Id.E, m.E)) + Flagged("RL", !ValidValue(Schema.Id.RL, m.RL)) + Flagged("RC", !ValidValue(Schema.Id.RC, m.RC)) == Names(InvalidIn(m, done + [Schema.Id.E] + [Schema.Id.RL] + [Schema.Id.RC]))
  {
    var d, b := done, bad;
    d, b := InvalidStep(m, d, b, Schema.Id.E, "E", m.E);
    d, b := InvalidStep(m, d, b, Schema.Id.RL, "RL", m.RL);
    d, b := InvalidStep(m, d, b, Schema.Id.RC, "RC", m.RC);
  }

  /** The three security-requirement value checks, in the validator's order. */
  lemma UnknownRequirementChecks(m: Assignment.Metrics, done: seq<Schema.Id>, bad: seq<string>)
    requires bad == Names(InvalidIn(m, done))
    ensures bad + Flagged("CR", !ValidValue(Schema.Id.CR, m.CR)) + Flagged("IR", !ValidValue(Schema.Id.IR, m.IR)) + Flagged("AR", !ValidValue(Schema.Id.AR, m.AR)) == Names(InvalidIn(m, done + [Schema.Id.CR] + [Schema.Id.IR] + [Schema.Id.AR]))
  {
    var d, b := done, bad;
    d, b := InvalidStep(m, d, b, Schema.Id.CR, "CR", m.CR);
    d, b := InvalidStep(m, d, b, Schema.Id.IR, "IR", m.IR);
    d, b := InvalidStep(m, d, b, Schema.Id.AR, "AR", m.AR);
  }

  /** The eight Modified Base value checks, in the validator's order. */
  lemma UnknownModifiedChecks(m: Assignment.Metrics, done: seq<Schema.Id>, bad: seq<string>)
    requires bad == Names(InvalidIn(m, done))
    ensures bad + Flagged("MAV", !ValidValue(Schema.Id.MAV, m.MAV)) + Flagged("MAC", !ValidValue(Schema.Id.MAC, m.MAC)) + Flagged("MPR", !ValidValue(Schema.Id.MPR, m.MPR)) + Flagged("MUI", !ValidValue(Schema.Id.MUI, m.MUI)) + Flagged("MS", !ValidValue(Schema.Id.MS, m.MS)) + Flagged("MC", !ValidValue(Schema.Id.MC, m.MC)) + Flagged("MI", !ValidValue(Schema.Id.MI, m.MI)) + Flagged("MA", !ValidValue(Schema.Id.MA, m.MA)) == Names(InvalidIn(m, done + [Schema.Id.MAV] + [Schema.Id.MAC] + [Schema.Id.MPR] + [Schema.Id.MUI] + [Schema.Id.MS] + [Schema.Id.MC] + [Schema.Id.MI] + [Schema.Id.MA]))
  {
    var d, b := done, bad;
    d, b := InvalidStep(m, d, b, Schema.Id.MAV, "MAV", m.MAV);
    d, b := InvalidStep(m, d, b, Schema.Id.MAC, "MAC", m.MAC);
    d, b := InvalidStep(m, d, b, Schema.Id.MPR, "MPR", m.MPR);
    d, b := InvalidStep(m, d, b, Schema.Id.MUI, "MUI", m.MUI);
    d, b := InvalidStep(m, d, b, Schema.Id.MS, "MS", m.MS);
    d, b := InvalidStep(m, d, b, Schema.Id.MC, "MC", m.MC);
    d, b := InvalidStep(m, d, b, Schema.Id.MI, "MI", m.MI);
    d, b := InvalidStep(m, d, b, Schema.Id.MA, "MA", m.MA);
  }

  /** The unknown-value list, one check at a time, each check written as
      the validator writes it. */
  lemma UnknownUnrolled(m: Assignment.Metrics)
    ensures Names(Unknown(m)) == [] + Flagged("AV", !ValidValue(Schema.Id.AV, m.AV)) + Flagged("AC", !ValidValue(Schema.Id.AC, m.AC)) + Flagged("PR", !ValidValue(Schema.Id.PR, m.PR)) + Flagged("UI", !ValidValue(Schema.Id.UI, m.UI)) + Flagged("S", !ValidValue(Schema.Id.S, m.S)) + Flagged("C", !ValidValue(Schema.Id.C, m.C)) + Flagged("I", !ValidValue(Schema.Id.I, m.I)) + Flagged("A", !ValidValue(Schema.Id.A, m.A)) + Flagged("E", !ValidValue(Schema.Id.E, m.E)) + Flagged("RL", !ValidValue(Schema.Id.RL, m.RL)) + Flagged("RC", !ValidValue(Schema.Id.RC, m.RC)) + Flagged("CR", !ValidValue(Schema.Id.CR, m.CR)) + Flagged("IR", !ValidValue(Schema.Id.IR, m.IR)) + Flagged("AR", !ValidValue(Schema.Id.AR, m.AR)) + Flagged("MAV", !ValidValue(Schema.Id.MAV, m.MAV)) + Flagged("MAC", !ValidValue(Schema.Id.MAC, m.MAC)) + Flagged("MPR", !ValidValue(Schema.Id.MPR, m.MPR)) + Flagged("MUI", !ValidValue(Schema.Id.MUI, m.MUI)) + Flagged("MS", !ValidValue(Schema.Id.MS, m.MS)) + Flagged("MC", !ValidValue(Schema.Id.MC, m.MC)) + Flagged("MI", !ValidValue(Schema.Id.MI, m.MI)) + Flagged("MA", !ValidValue(Schema.Id.MA, m.MA))
  {
    Schema.MetricChain();
    var d0: seq<Schema.Id> := [];
    UnknownBaseChecks(m, d0, []);
    UnknownTemporalChecks(m, d0 + [Schema.Id.AV] + [Schema.Id.AC] + [Schema.Id.PR] + [Schema.Id.UI] + [Schema.Id.S] + [Schema.Id.C] + [Schema.Id.I] + [Schema.Id.A], [] + Flagged("AV", !ValidValue(Schema.Id.AV, m.AV)) + Flagged("AC", !ValidValue(Schema.Id.AC, m.AC)) + Flagged("PR", !ValidValue(Schema.Id.PR, m.PR)) + Flagged("UI", !ValidValue(Schema.Id.UI, m.UI)) + Flagged("S", !ValidValue(Schema.Id.S, m.S)) + Flagged("C", !ValidValue(Schema.Id.C, m.C)) + Flagged("I", !ValidValue(Schema.Id.I, m.I)) + Flagged("A", !ValidValue(Schema.Id.A, m.A)));
    UnknownRequirementChecks(m, d0 + [Schema.Id.AV] + [Schema.Id.AC] + [Schema.Id.PR] + [Schema.Id.UI] + [Schema.Id.S] + [Schema.Id.C] + [Schema.Id.I] + [Schema.Id.A] + [Schema.Id.E] + [Schema.Id.RL] + [Schema.Id.RC], [] + Flagged("AV", !ValidValue(Schema.Id.AV, m.AV)) + Flagged("AC", !ValidValue(Schema.Id.AC, m.AC)) + Flagged("PR", !ValidValue(Schema.Id.PR, m.PR)) + Flagged("UI", !ValidValue(Schema.Id.UI, m.UI)) + Flagged("S", !ValidValue(Schema.Id.S, m.S)) + Flagged("C", !ValidValue(Schema.Id.C, m.C)) + Flagged("I", !ValidValue(Schema.Id.I, m.I)) + Flagged("A", !ValidValue(Schema.Id.A, m.A)) + Flagged("E", !ValidValue(Schema.Id.E, m.E)) + Flagged("RL", !ValidValue(Schema.Id.RL, m.RL)) + Flagged("RC", !ValidValue(Schema.Id.RC, m.RC)));
    UnknownModifiedChecks(m, d0 + [Schema.Id.AV] + [Schema.Id.AC] + [Schema.Id.PR] + [Schema.Id.UI] + [Schema.Id.S] + [Schema.Id.C] + [Schema.Id.I] + [Schema.Id.A] + [Schema.Id.E] + [Schema.Id.RL] + [Schema.Id.RC] + [Schema.Id.CR] + [Schema.Id.IR] + [Schema.Id.AR], [] + Flagged("AV", !ValidValue(Schema.Id.AV, m.AV)) + Flagged("AC", !ValidValue(Schema.Id.AC, m.AC)) + Flagged("PR", !ValidValue(Schema.Id.PR, m.PR)) + Flagged("UI", !ValidValue(Schema.Id.UI, m.UI)) + Flagged("S", !ValidValue(Schema.Id.S, m.S)) + Flagged("C", !ValidValue(Schema.Id.C, m.C)) + Flagged("I", !ValidValue(Schema.Id.I, m.I)) + Flagged("A", !ValidValue(Schema.Id.A, m.A)) + Flagged("E", !ValidValue(Schema.Id.E, m.E)) + Flagged("RL", !ValidValue(Schema.Id.RL, m.RL)) + Flagged("RC", !ValidValue(Schema.Id.RC, m.RC)) + Flagged("CR", !ValidValue(Schema.Id.CR, m.CR)) + Flagged("IR", !ValidValue(Schema.Id.IR, m.IR)) + Flagged("AR", !ValidValue(Schema.Id.AR, m.AR)));
  }

  /** The value checks of the validator: the names of the metrics whose
      value is unknown, in canonical order. */
  method CollectUnknown(m: Assignment.Metrics) returns (badMetrics: seq<string>)
    ensures badMetrics == Names(Unknown(m))
  {
    UnknownUnrolled(m);
    badMetrics := CheckBaseValues(m, []);
    badMetrics := CheckTemporalValues(m, badMetrics);
    badMetrics := CheckRequirementValues(m, badMetrics);
    badMetrics := CheckModifiedValues(m, badMetrics);
  }

  /** Appends the Base metrics whose value has no weight. */
  method CheckBaseValues(m: Assignment.Metrics, bad: seq<string>) returns (badMetrics: seq<string>)
    ensures badMetrics == bad + Flagged("AV", !ValidValue(Schema.Id.AV, m.AV)) + Flagged("AC", !ValidValue(Schema.Id.AC, m.AC)) + Flagged("PR", !ValidValue(Schema.Id.PR, m.PR)) + Flagged("UI", !ValidValue(Schema.Id.UI, m.UI)) + Flagged("S", !ValidValue(Schema.Id.S, m.S)) + Flagged("C", !ValidValue(Schema.Id.C, m.C)) + Flagged("I", !ValidValue(Schema.Id.I, m.I)) + Flagged("A", !ValidValue(Schema.Id.A, m.A))
  {
    badMetrics := bad;
    ghost var checked := bad;
    Flag(badMetrics, "AV", !ValidValue(Schema.Id.AV, m.AV), checked);
    checked := checked + Flagged("AV", !ValidValue(Schema.Id.AV, m.AV));
    if !ValidValue(Schema.Id.AV, m.AV) { badMetrics := badMetrics + ["AV"]; }
    Flag(badMetrics, "AC", !ValidValue(Schema.Id.AC, m.AC), checked);
    checked := checked + Flagged("AC", !ValidValue(Schema.Id.AC, m.AC));
    if !ValidValue(Schema.Id.AC, m.AC) { badMetrics := badMetrics + ["AC"]; }
    Flag(badMetrics, "PR", !ValidValue(Schema.Id.PR, m.PR), checked);
    checked := checked + Flagged("PR", !ValidValue(Schema.Id.PR, m.PR));
    if !ValidValue(Schema.Id.PR, m.PR) { badMetrics := badMetrics + ["PR"]; }
    Flag(badMetrics, "UI", !ValidValue(Schema.Id.UI, m.UI), checked);
    checked := checked + Flagged("UI", !ValidValue(Schema.Id.UI, m.UI));
    if !ValidValue(Schema.Id.UI, m.UI) { badMetrics := badMetrics + ["UI"]; }
    Flag(badMetrics, "S", !ValidValue(Schema.Id.S, m.S), checked);
    checked := checked + Flagged("S", !ValidValue(Schema.Id.S, m.S));
    if !ValidValue(Schema.Id.S, m.S) { badMetrics := badMetrics + ["S"]; }
    Flag(badMetrics, "C", !ValidValue(Schema.Id.C, m.C), checked);
    checked := checked + Flagged("C", !ValidValue(Schema.Id.C, m.C));
    if !ValidValue(Schema.Id.C, m.C) { badMetrics := badMetrics + ["C"]; }
    Flag(badMetrics, "I", !ValidValue(Schema.Id.I, m.I), checked);
    checked := checked + Flagged("I", !ValidValue(Schema.Id.I, m.I));
    if !ValidValue(Schema.Id.I, m.I) { badMetrics := badMetrics + ["I"]; }
    Flag(badMetrics, "A", !ValidValue(Schema.Id.A, m.A), checked);
    checked := checked + Flagged("A", !ValidValue(Schema.Id.A, m.A));
    if !ValidValue(Schema.Id.A, m.A) { badMetrics := badMetrics + ["A"]; }
  }

  /** Appends the Temporal metrics whose value has no weight. */
  method CheckTemporalValues(m: Assignment.Metrics, bad: seq<string>) returns (badMetrics: seq<string>)
    ensures badMetrics == bad + Flagged("E", !ValidValue(Schema.Id.E, m.E)) + Flagged("RL", !ValidValue(Schema.Id.RL, m.RL)) + Flagged("RC", !ValidValue(Schema.Id.RC, m.RC))
  {
    badMetrics := bad;
    ghost var checked := bad;
    Flag(badMetrics, "E", !ValidValue(Schema.Id.E, m.E), checked);
    checked := checked + Flagged("E", !ValidValue(Schema.Id.E, m.E));
    if !ValidValue(Schema.Id.E, m.E) { badMetrics := badMetrics + ["E"]; }
    Flag(badMetrics, "RL", !ValidValue(Schema.Id.RL, m.RL), checked);
    checked := checked + Flagged("RL", !ValidValue(Schema.Id.RL, m.RL));
    if !ValidValue(Schema.Id.RL, m.RL) { badMetrics := badMetrics + ["RL"]; }
    Flag(badMetrics, "RC", !ValidValue(Schema.Id.RC, m.RC), checked);
    checked := checked + Flagged("RC", !ValidValue(Schema.Id.RC, m.RC));
    if !ValidValue(Schema.Id.RC, m.RC) { badMetrics := badMetrics + ["RC"]; }
  }

  /** Appends the security requirements whose value is neither "X" nor weighted. */
  method CheckRequirementValues(m: Assignment.Metrics, bad: seq<string>) returns (badMetrics: seq<string>)
    ensures badMetrics == bad + Flagged("CR", !ValidValue(Schema.Id.CR, m.CR)) + Flagged("IR", !ValidValue(Schema.Id.IR, m.IR)) + Flagged("AR", !ValidValue(Schema.Id.AR, m.AR))
  {
    badMetrics := bad;
    ghost var checked := bad;
    Flag(badMetrics, "CR", !ValidValue(Schema.Id.CR, m.CR), checked);
    checked := checked + Flagged("CR", !ValidValue(Schema.Id.CR, m.CR));
    if !ValidValue(Schema.Id.CR, m.CR) { badMetrics := badMetrics + ["CR"]; }
    Flag(badMetrics, "IR", !ValidValue(Schema.Id.IR, m.IR), checked);
    checked := checked + Flagged("IR", !ValidValue(Schema.Id.IR, m.IR));
    if !ValidValue(Schema.Id.IR, m.IR) { badMetrics := badMetrics + ["IR"]; }
    Flag(badMetrics, "AR", !ValidValue(Schema.Id.AR, m.AR), checked);
    checked := checked + Flagged("AR", !ValidValue(Schema.Id.AR, m.AR));
    if !ValidValue(Schema.Id.AR, m.AR) { badMetrics := badMetrics + ["AR"]; }
  }

  /** Appends the Modified Base metrics whose value is neither "X" nor weighted. */
  method CheckModifiedValues(m: Assignment.Metrics, bad: seq<string>) returns (badMetrics: seq<string>)
    ensures badMetrics == bad + Flagged("MAV", !ValidValue(Schema.Id.MAV, m.MAV)) + Flagged("MAC", !ValidValue(Schema.Id.MAC, m.MAC)) + Flagged("MPR", !ValidValue(Schema.Id.MPR, m.MPR)) + Flagged("MUI", !ValidValue(Schema.Id.MUI, m.MUI)) + Flagged("MS", !ValidValue(Schema.Id.MS, m.MS)) + Flagged("MC", !ValidValue(Schema.Id.MC, m.MC)) + Flagged("MI", !ValidValue(Schema.Id.MI, m.MI)) + Flagged("MA", !ValidValue(Schema.Id.MA, m.MA))
  {
    badMetrics := bad;
    ghost var checked := bad;
    Flag(badMetrics, "MAV", !ValidValue(Schema.Id.MAV, m.MAV), checked);
    checked := checked + Flagged("MAV", !ValidValue(Schema.Id.MAV, m.MAV));
    if !ValidValue(Schema.Id.MAV, m.MAV) { badMetrics := badMetrics + ["MAV"]; }
    Flag(badMetrics, "MAC", !ValidValue(Schema.Id.MAC, m.MAC), checked);
    checked := checked + Flagged("MAC", !ValidValue(Schema.Id.MAC, m.MAC));
    if !ValidValue(Schema.Id.MAC, m.MAC) { badMetrics := badMetrics + ["MAC"]; }
    Flag(badMetrics, "MPR", !ValidValue(Schema.Id.MPR, m.MPR), checked);
    checked := checked + Flagged("MPR", !ValidValue(Schema.Id.MPR, m.MPR));
    if !ValidValue(Schema.Id.MPR, m.MPR) { badMetrics := badMetrics + ["MPR"]; }
    Flag(badMetrics, "MUI", !ValidValue(Schema.Id.MUI, m.MUI), checked);
    checked := checked + Flagged("MUI", !ValidValue(Schema.Id.MUI, m.MUI));
    if !ValidValue(Schema.Id.MUI, m.MUI) { badMetrics := badMetrics + ["MUI"]; }
    Flag(badMetrics, "MS", !ValidValue(Schema.Id.MS, m.MS), checked);
    checked := checked + Flagged("MS", !ValidValue(Schema.Id.MS, m.MS));
    if !ValidValue(Schema.Id.MS, m.MS) { badMetrics := badMetrics + ["MS"]; }
    Flag(badMetrics, "MC", !ValidValue(Schema.Id.MC, m.MC), checked);
    checked := checked + Flagged("MC", !ValidValue(Schema.Id.MC, m.MC));
    if !ValidValue(Schema.Id.MC, m.MC) { badMetrics := badMetrics + ["MC"]; }
    Flag(badMetrics, "MI", !ValidValue(Schema.Id.MI, m.MI), checked);
    checked := checked + Flagged("MI", !ValidValue(Schema.Id.MI, m.MI));
    if !ValidValue(Schema.Id.MI, m.MI) { badMetrics := badMetrics + ["MI"]; }
    Flag(badMetrics, "MA", !ValidValue(Schema.Id.MA, m.MA), checked);
    checked := checked + Flagged("MA", !ValidValue(Schema.Id.MA, m.MA));
    if !ValidValue(Schema.Id.MA, m.MA) { badMetrics := badMetrics + ["MA"]; }
  }
}
