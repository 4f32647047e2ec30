/** The static metric schema of CVSS v3.1 as the calculator stores it: the
    weight tables, the metric identifiers in canonical order, and the
    constants of the score formulas. */
module Schema {

  const CVSSVersionIdentifier: string := "CVSS:3.1"

  /** Constants used in the score formulas. */
  const ExploitabilityCoefficient: real := 8.22
  const ScopeCoefficient: real := 1.08

  /** The closed set of metrics: eight Base, three Temporal and eleven
      Environmental (three requirements and eight Modified Base metrics). */
  datatype Id =
    | AV | AC | PR | UI | S | C | I | A
    | E | RL | RC
    | CR | IR | AR | MAV | MAC | MPR | MUI | MS | MC | MI | MA
  {
    /** The identifier as it is written in a vector string and in messages. */
    function Name(): string {
      match this
      case AV => "AV" case AC => "AC" case PR => "PR" case UI => "UI"
      case S => "S" case C => "C" case I => "I" case A => "A"
      case E => "E" case RL => "RL" case RC => "RC"
      case CR => "CR" case IR => "IR" case AR => "AR"
      case MAV => "MAV" case MAC => "MAC" case MPR => "MPR" case MUI => "MUI"
      case MS => "MS" case MC => "MC" case MI => "MI" case MA => "MA"
    }

    /** The place of the metric in the canonical order. */
    function Position(): nat {
      match this
      case AV => 0 case AC => 1 case PR => 2 case UI => 3
      case S => 4 case C => 5 case I => 6 case A => 7
      case E => 8 case RL => 9 case RC => 10
      case CR => 11 case IR => 12 case AR => 13
      case MAV => 14 case MAC => 15 case MPR => 16 case MUI => 17
      case MS => 18 case MC => 19 case MI => 20 case MA => 21
    }

    predicate IsBase() {
      AV? || AC? || PR? || UI? || S? || C? || I? || A?
    }

    predicate IsTemporal() {
      E? || RL? || RC?
    }

    predicate IsEnvironmental() {
      !IsBase() && !IsTemporal()
    }
  }

  /** The eight Base metrics, in the order they are validated and serialized. */
  const BaseIds: seq<Id> := [Id.AV, Id.AC, Id.PR, Id.UI, Id.S, Id.C, Id.I, Id.A]
  /** The Temporal and Environmental metrics: optional, default "X" (Not Defined). */
  const OptionalIds: seq<Id> := [Id.E, Id.RL, Id.RC, Id.CR, Id.IR, Id.AR,
                                  Id.MAV, Id.MAC, Id.MPR, Id.MUI, Id.MS, Id.MC, Id.MI, Id.MA]
  /** All 22 metrics in canonical order. */
  const MetricIds: seq<Id> := BaseIds + OptionalIds

  /** The ids of `ids` appear in canonical order, each once. */
  predicate InOrder(ids: seq<Id>) {
    forall i, j :: 0 <= i < j < |ids| ==> ids[i].Position() < ids[j].Position()
  }

  /** The canonical lists are listed by position. */
  lemma CanonicalOrder()
    ensures forall i :: 0 <= i < |MetricIds| ==> MetricIds[i].Position() == i
    ensures InOrder(MetricIds) && InOrder(BaseIds)
    ensures forall id: Id :: id.IsBase() <==> id in BaseIds
    ensures forall id: Id :: id in MetricIds
  {
    assert forall i :: 0 <= i < |BaseIds| ==> BaseIds[i] == MetricIds[i];
  }

  /** The Base list, one metric appended at a time. A proof aid for the
      serializer's step-by-step proofs; it models nothing of its own. */
  lemma BaseChain()
    ensures [] + [Id.AV] + [Id.AC] + [Id.PR] + [Id.UI] + [Id.S] + [Id.C] + [Id.I] + [Id.A] == BaseIds
  {
  }

  /** The canonical list, one metric appended at a time. A proof aid for the
      serializer's step-by-step proofs; it models nothing of its own. */
  lemma MetricChain()
    ensures [] + [Id.AV] + [Id.AC] + [Id.PR] + [Id.UI] + [Id.S] + [Id.C] + [Id.I] + [Id.A] + [Id.E] + [Id.RL] + [Id.RC] + [Id.CR] + [Id.IR] + [Id.AR] + [Id.MAV] + [Id.MAC] + [Id.MPR] + [Id.MUI] + [Id.MS] + [Id.MC] + [Id.MI] + [Id.MA]
         == MetricIds
  {
  }

  /** Distinct metrics have distinct names. */
  lemma NameInjective(x: Id, y: Id)
    requires x.Name() == y.Name()
    ensures x == y
  {
    assert x.Name()[0] == y.Name()[0] && |x.Name()| == |y.Name()|;
    if |x.Name()| > 1 { assert x.Name()[1] == y.Name()[1]; }
    if |x.Name()| > 2 { assert x.Name()[2] == y.Name()[2]; }
  }

  /** A decimal with at most two places after the point. */
  ghost predicate Hundredths(w: real) {
    (w * 100.0).Floor as real == w * 100.0
  }

  /** Weight[table][code]: the weight tables, keyed by table name and then
      by value code. The PR table is split by Scope (PRU: Unchanged, PRC:
      Changed); C, I and A share table CIA, and CR, IR and AR share table
      CIAR. A lookup of a missing table or code reads as 0.0, exactly as the
      value-initialised entry that std::map's operator[] yields. */
  function Weight(table: string, code: string): real {
    match table
    case "AV" => (match code case "N" => 0.85 case "A" => 0.62 case "L" => 0.55 case "P" => 0.20 case _ => 0.0)
    case "AC" => (match code case "H" => 0.44 case "L" => 0.77 case _ => 0.0)
    case "PRU" => (match code case "N" => 0.85 case "L" => 0.62 case "H" => 0.27 case _ => 0.0)
    case "PRC" => (match code case "N" => 0.85 case "L" => 0.68 case "H" => 0.50 case _ => 0.0)
    case "UI" => (match code case "N" => 0.85 case "R" => 0.62 case _ => 0.0)
    case "S" => (match code case "U" => 6.42 case "C" => 7.52 case _ => 0.0)
    case "CIA" => (match code case "N" => 0.00 case "L" => 0.22 case "H" => 0.56 case _ => 0.0)
    case "E" => (match code case "X" => 1.00 case "U" => 0.19 case "P" => 0.94 case "F" => 0.97 case "H" => 1.00 case _ => 0.0)
    case "RL" => (match code case "X" => 1.00 case "O" => 0.95 case "T" => 0.96 case "W" => 0.97 case "U" => 1.00 case _ => 0.0)
    case "RC" => (match code case "X" => 1.00 case "U" => 0.92 case "R" => 0.96 case "C" => 1.00 case _ => 0.0)
    case "CIAR" => (match code case "X" => 1.00 case "L" => 0.50 case "M" => 1.00 case "H" => 1.50 case _ => 0.0)
    case _ => 0.0
  }

  /** Every weight is a non-negative decimal of at most two places, at most
      7.52. */
  lemma WeightBounds(table: string, code: string)
    ensures 0.0 <= Weight(table, code) <= 7.52 && Hundredths(Weight(table, code))
  {
  }
}
