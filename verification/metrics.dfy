/**
 The key metrics over a (filtered) table: number of cases, number of cases
 that require a SAR, the SAR rate in percent with its empty-table guard, the
 number of distinct typologies, and the risk band the overall rate falls in.
 Rates are exact reals.
 */
module Metrics {
  import opened Seqs
  import opened Typologies
  import opened Cases
  import opened Filters

  /** The rows that require a SAR. */
  function SarRows(rows: seq<Row>): seq<Row> {
    Keep(rows, SarIs(true))
  }

  function SarCount(rows: seq<Row>): (n: nat)
    ensures n <= |rows|
  {
    |SarRows(rows)|
  }

  /** The SAR rows and the other rows together make up the table. */
  lemma SarCountSplits(rows: seq<Row>)
    ensures SarCount(rows) + |Keep(rows, SarIs(false))| == |rows|
  {
    KeepSplits(rows, SarIs(true));
    KeepExtensional(rows, Not(SarIs(true)), SarIs(false));
  }

  /** `part / whole * 100`, or 0 when `whole` is 0. */
  function Rate(part: nat, whole: nat): (r: real)
    ensures whole == 0 ==> r == 0.0
    ensures whole > 0 ==> r * whole as real == part as real * 100.0
    ensures part <= whole ==> 0.0 <= r <= 100.0
  {
    if whole > 0 then part as real / whole as real * 100.0 else 0.0
  }

  /** The distinct typologies of the rows. */
  function TypologiesIn(rows: seq<Row>): (ts: set<Typology>)
    ensures |ts| <= |rows|
    ensures forall i :: 0 <= i < |rows| ==> rows[i].typology in ts
    ensures forall t :: t in ts ==> exists i :: 0 <= i < |rows| && rows[i].typology == t
  {
    if rows == [] then {}
    else
      var rest := TypologiesIn(rows[1..]);
      TailLabelsOccur(rows, rest);
      {rows[0].typology} + rest
  }

  /** A label of the rows after the first is a label of some row of the whole table. */
  lemma TailLabelsOccur(rows: seq<Row>, rest: set<Typology>)
    requires rows != []
    requires forall t :: t in rest ==> exists i :: 0 <= i < |rows[1..]| && rows[1..][i].typology == t
    ensures forall t :: t in rest ==> exists i :: 1 <= i < |rows| && rows[i].typology == t
  {
    forall t | t in rest ensures exists i :: 1 <= i < |rows| && rows[i].typology == t {
      var j :| 0 <= j < |rows[1..]| && rows[1..][j].typology == t;
      assert rows[j + 1].typology == t;
    }
  }

  /** There are at most five labels, so at most five distinct typologies. */
  lemma AtMostFiveTypologies(ts: set<Typology>)
    ensures |ts| <= 5
  {
    var all := {Structuring, Layering, Integration, Placement, Unclassified};
    assert ts <= all by {
      forall t | t in ts ensures t in all {
        match t
        case Structuring =>
        case Layering =>
        case Integration =>
        case Placement =>
        case Unclassified =>
      }
    }
    assert |all| == 5;
    SubsetSize(ts, all);
  }

  lemma {:induction false} SubsetSize<T>(a: set<T>, b: set<T>)
    requires a <= b
    ensures |a| <= |b|
    decreases |b|
  {
    if a != {} {
      var x :| x in a;
      SubsetSize(a - {x}, b - {x});
    }
  }

  datatype Summary = Summary(total: nat, sarCount: nat, sarRate: real, typologyCount: nat)

  /** The four metric cards of the dashboard. */
  function KeyMetrics(rows: seq<Row>): (m: Summary)
    ensures m.total == |rows|
    ensures m.sarCount == SarCount(rows)
    ensures m.sarCount <= m.total
    ensures 0.0 <= m.sarRate <= 100.0
    ensures m.total == 0 ==> m.sarRate == 0.0
    ensures m.sarRate == Rate(m.sarCount, m.total)
    ensures m.typologyCount == |TypologiesIn(rows)|
    ensures m.typologyCount <= m.total && m.typologyCount <= 5
    ensures m.typologyCount == 0 <==> m.total == 0
  {
    var ts := TypologiesIn(rows);
    AtMostFiveTypologies(ts);
    assert rows != [] ==> rows[0].typology in ts;
    var n := SarCount(rows);
    var rate := Rate(n, |rows|);
    Summary(|rows|, n, rate, |ts|)
  }

  /** The narrative band of an overall SAR rate. */
  datatype RiskBand = LowRisk | ModerateRisk | HighRisk

  function Band(rate: real): (b: RiskBand)
    ensures b == HighRisk <==> rate > 70.0
    ensures b == ModerateRisk <==> 40.0 < rate <= 70.0
    ensures b == LowRisk <==> rate <= 40.0
  {
    if rate > 70.0 then HighRisk
    else if rate > 40.0 then ModerateRisk
    else LowRisk
  }

  function Severity(b: RiskBand): nat {
    match b
    case LowRisk => 0
    case ModerateRisk => 1
    case HighRisk => 2
  }

  /** A higher SAR rate never gives a milder band. */
  lemma BandMonotone(a: real, b: real)
    requires a <= b
    ensures Severity(Band(a)) <= Severity(Band(b))
  {
  }

  /** An empty table has rate 0 and so the LOW band. */
  lemma EmptyTableIsLowRisk()
    ensures KeyMetrics([]).sarRate == 0.0
    ensures Band(KeyMetrics([]).sarRate) == LowRisk
  {
  }
}
