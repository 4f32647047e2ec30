/** The qualitative severity rating scale of section 5 of the CVSS v3.1
    specification, applied by a scan of the band table. */
module Severity {

  /** A named band with inclusive bounds. */
  datatype Band = Band(name: string, bottom: real, top: real)

  predicate Contains(b: Band, score: real) {
    b.bottom <= score <= b.top
  }

  /** The band table in the order a std::map keyed by name iterates it,
      which is alphabetical. */
  const SeverityRatings: seq<Band> := [
    Band("Critical", 9.0, 10.0),
    Band("High", 7.0, 8.9),
    Band("Low", 0.1, 3.9),
    Band("Medium", 4.0, 6.9),
    Band("None", 0.0, 0.0)
  ]

  /** The same bands in the order the table declares them. */
  const DeclaredOrder: seq<Band> := [
    Band("None", 0.0, 0.0),
    Band("Low", 0.1, 3.9),
    Band("Medium", 4.0, 6.9),
    Band("High", 7.0, 8.9),
    Band("Critical", 9.0, 10.0)
  ]

  /** The name of the first band of `bands` that contains `score`, or
      "undefined" when none does. */
  function FirstBand(bands: seq<Band>, score: real): (name: string)
    ensures (forall k :: 0 <= k < |bands| ==> !Contains(bands[k], score)) ==> name == "undefined"
    ensures forall k :: 0 <= k < |bands| && Contains(bands[k], score) ==>
      (exists j :: 0 <= j < k && Contains(bands[j], score)) || name == bands[k].name
  {
    if bands == [] then "undefined"
    else if Contains(bands[0], score) then bands[0].name
    else FirstBand(bands[1..], score)
  }

  /** severityRating: "NaN" for a score whose decimal rendering is not an
      unsigned number (here: a negative score), otherwise the first band
      containing it, or "undefined". */
  function SeverityRating(score: real): (name: string)
    ensures score < 0.0 ==> name == "NaN"
    ensures score >= 0.0 ==>
      (name == "undefined" <==> forall k :: 0 <= k < |SeverityRatings| ==> !Contains(SeverityRatings[k], score))
  {
    if score < 0.0 then "NaN" else FirstBand(SeverityRatings, score)
  }

  /** No score lies in two bands. */
  predicate Disjoint(bands: seq<Band>) {
    forall i, j :: 0 <= i < j < |bands| ==> bands[i].top < bands[j].bottom || bands[j].top < bands[i].bottom
  }

  /** In a table of disjoint bands the scan finds the one band that
      contains the score, wherever it sits in the table. */
  lemma {:induction false} UniqueBand(bands: seq<Band>, k: nat, score: real)
    requires Disjoint(bands)
    requires k < |bands| && Contains(bands[k], score)
    ensures FirstBand(bands, score) == bands[k].name
  {
    if k > 0 {
      assert !Contains(bands[0], score) by {
        assert bands[0].top < bands[k].bottom || bands[k].top < bands[0].bottom;
      }
      assert Disjoint(bands[1..]) by {
        forall i, j | 0 <= i < j < |bands[1..]|
          ensures bands[1..][i].top < bands[1..][j].bottom || bands[1..][j].top < bands[1..][i].bottom
        {
          assert bands[1..][i] == bands[i + 1] && bands[1..][j] == bands[j + 1];
        }
      }
      UniqueBand(bands[1..], k - 1, score);
    }
  }

  /** Two tables of disjoint bands holding the same bands, in whatever
      order, rate every score alike. */
  lemma ScanOrderFree(a: seq<Band>, b: seq<Band>, score: real)
    requires Disjoint(a) && Disjoint(b)
    requires forall k :: 0 <= k < |a| ==> a[k] in b
    requires forall k :: 0 <= k < |b| ==> b[k] in a
    ensures FirstBand(a, score) == FirstBand(b, score)
  {
    if k :| 0 <= k < |a| && Contains(a[k], score) {
      UniqueBand(a, k, score);
      var j :| 0 <= j < |b| && b[j] == a[k];
      UniqueBand(b, j, score);
    } else {
      forall j | 0 <= j < |b| ensures !Contains(b[j], score) {
        var k :| 0 <= k < |a| && a[k] == b[j];
      }
    }
  }

  lemma TablesDisjoint()
    ensures Disjoint(SeverityRatings) && Disjoint(DeclaredOrder)
  {
  }

  /** Because the bands are disjoint, the alphabetical order in which the
      table is scanned gives the same rating as the declared order would. */
  lemma ScanOrderIrrelevant(score: real)
    ensures FirstBand(SeverityRatings, score) == FirstBand(DeclaredOrder, score)
  {
    TablesDisjoint();
    var s, d := SeverityRatings, DeclaredOrder;
    assert s[0] == d[4] && s[1] == d[3] && s[2] == d[1] && s[3] == d[2] && s[4] == d[0];
    ScanOrderFree(s, d, score);
  }

  /** The rating of a score given in tenths: 0.0 is None, 0.1-3.9 Low,
      4.0-6.9 Medium, 7.0-8.9 High, 9.0-10.0 Critical; above 10.0 no band
      applies and a negative score is not a number. */
  lemma SeverityOfTenths(t: int)
    ensures SeverityRating(t as real / 10.0) ==
      if t < 0 then "NaN"
      else if t == 0 then "None"
      else if t <= 39 then "Low"
      else if t <= 69 then "Medium"
      else if t <= 89 then "High"
      else if t <= 100 then "Critical"
      else "undefined"
  {
    var x := t as real / 10.0;
    TablesDisjoint();
    if t < 0 {
    } else if t == 0 {
      UniqueBand(SeverityRatings, 4, x);
    } else if t <= 39 {
      UniqueBand(SeverityRatings, 2, x);
    } else if t <= 69 {
      UniqueBand(SeverityRatings, 3, x);
    } else if t <= 89 {
      UniqueBand(SeverityRatings, 1, x);
    } else if t <= 100 {
      UniqueBand(SeverityRatings, 0, x);
    }
  }

  /** Between two bands the scale has gaps: a score that is not a whole
      number of tenths may fall in none of them. */
  lemma BetweenBands()
    ensures SeverityRating(3.95) == "undefined"
    ensures SeverityRating(0.05) == "undefined"
  {
  }
}
