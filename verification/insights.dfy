/**
 The per-typology insights of the summary panel: one entry for each distinct
 typology of the filtered table, in order of first appearance, with its case
 count, its SAR rate and its reference-table stage and description.
 */
module Insights {
  import opened Seqs
  import opened Typologies
  import opened Cases
  import opened Filters
  import opened Metrics

  /** The position of the first row labelled `t`, or `|rows|` if there is none. */
  function FirstIndex(rows: seq<Row>, t: Typology): (k: nat)
    ensures k <= |rows|
    ensures k < |rows| ==> rows[k].typology == t
    ensures forall j :: 0 <= j < k ==> rows[j].typology != t
  {
    if rows == [] then 0
    else if rows[0].typology == t then 0
    else 1 + FirstIndex(rows[1..], t)
  }

  lemma {:induction false} FirstIndexExtend(rows: seq<Row>, x: Row, t: Typology)
    ensures FirstIndex(rows + [x], t) ==
              if FirstIndex(rows, t) < |rows| then FirstIndex(rows, t)
              else if x.typology == t then |rows| else |rows| + 1
  {
    if rows != [] {
      assert (rows + [x])[1..] == rows[1..] + [x];
      FirstIndexExtend(rows[1..], x, t);
    }
  }

  /** The distinct typologies of the rows in order of first appearance. */
  function Unique(rows: seq<Row>): (u: seq<Typology>)
    ensures Distinct(u)
    ensures forall t :: t in u <==> FirstIndex(rows, t) < |rows|
    ensures forall i, j :: 0 <= i < j < |u| ==> FirstIndex(rows, u[i]) < FirstIndex(rows, u[j])
  {
    if rows == [] then []
    else
      var init := rows[..|rows| - 1];
      var x := rows[|rows| - 1];
      assert rows == init + [x];
      var u := Unique(init);
      forall t ensures FirstIndex(rows, t) == if FirstIndex(init, t) < |init| then FirstIndex(init, t)
                                              else if x.typology == t then |init| else |init| + 1 {
        FirstIndexExtend(init, x, t);
      }
      if x.typology in u then u else u + [x.typology]
  }

  /** A distinct sequence has as many elements as the set of its elements. */
  lemma {:induction false} DistinctCardinality(u: seq<Typology>)
    requires Distinct(u)
    ensures |set t | t in u| == |u|
  {
    if u != [] {
      var rest := u[1..];
      DistinctCardinality(rest);
      assert (set t | t in u) == {u[0]} + (set t | t in rest);
      assert u[0] !in rest;
    }
  }

  /** There are as many first appearances as distinct typologies. */
  lemma UniqueCountsTypologies(rows: seq<Row>)
    ensures |Unique(rows)| == |TypologiesIn(rows)|
  {
    var u := Unique(rows);
    DistinctCardinality(u);
    assert (set t | t in u) == TypologiesIn(rows) by {
      forall t ensures t in u <==> t in TypologiesIn(rows) {
        if t in TypologiesIn(rows) {
          var i :| 0 <= i < |rows| && rows[i].typology == t;
          assert FirstIndex(rows, t) <= i;
        }
      }
    }
  }

  function TypologyOf(t: Typology): Row -> bool {
    (r: Row) => r.typology == t
  }

  /** The rows labelled `t`. */
  function RowsOf(rows: seq<Row>, t: Typology): seq<Row> {
    Keep(rows, TypologyOf(t))
  }

  datatype Insight = Insight(typology: Typology, count: nat, sarRate: real, stage: Stage, description: string)

  /** The insight for one typology: its rows, their SAR rate, and its table entry. */
  function InsightFor(rows: seq<Row>, t: Typology): (ins: Insight)
    ensures ins.typology == t && ins.stage == StageOf(t) && ins.description == InfoDescription(t)
    ensures ins.count == |RowsOf(rows, t)|
    ensures ins.sarRate == Rate(SarCount(RowsOf(rows, t)), ins.count)
    ensures 0.0 <= ins.sarRate <= 100.0
  {
    var data := RowsOf(rows, t);
    var info := InfoOf(t);
    Insight(t, |data|, Rate(SarCount(data), |data|), info.stage, info.description)
  }

  /** The insights for the typologies `ts`, in that order. */
  function InsightsOf(rows: seq<Row>, ts: seq<Typology>): (ins: seq<Insight>)
    ensures |ins| == |ts|
    ensures forall i :: 0 <= i < |ts| ==> ins[i] == InsightFor(rows, ts[i])
  {
    if ts == [] then []
    else InsightsOf(rows, ts[..|ts| - 1]) + [InsightFor(rows, ts[|ts| - 1])]
  }

  /** The insight list of the summary panel. */
  function TypologyInsights(rows: seq<Row>): seq<Insight> {
    InsightsOf(rows, Unique(rows))
  }

  /** The sum of the case counts of the insights. */
  function TotalCount(ins: seq<Insight>): nat {
    if ins == [] then 0 else TotalCount(ins[..|ins| - 1]) + ins[|ins| - 1].count
  }

  /** The number of SAR cases an insight stands for, as the stage rollup computes it. */
  function SarCases(i: Insight): real {
    i.count as real * (i.sarRate / 100.0)
  }

  /** Scaling a rate back by its denominator gives the numerator exactly. */
  lemma RateScalesBack(part: nat, whole: nat)
    requires whole > 0
    ensures whole as real * (Rate(part, whole) / 100.0) == part as real
  {
    var w := whole as real;
    var r := Rate(part, whole);
    assert r * w == part as real * 100.0;
    calc {
      w * (r / 100.0);
      (r * w) / 100.0;
      (part as real * 100.0) / 100.0;
    }
  }

  /** The same, including the empty group, whose rate is 0. */
  lemma SarCasesOfRate(part: nat, whole: nat, rate: real)
    requires part <= whole && rate == Rate(part, whole)
    ensures whole as real * (rate / 100.0) == part as real
  {
    if whole > 0 {
      RateScalesBack(part, whole);
    }
  }

  /** An insight whose rate is that of `n` SAR cases stands for exactly `n` SAR cases. */
  lemma SarCasesOfInsight(i: Insight, n: nat)
    requires n <= i.count && i.sarRate == Rate(n, i.count)
    ensures SarCases(i) == n as real
  {
    SarCasesOfRate(n, i.count, i.sarRate);
  }

  /** An insight stands for exactly the SAR cases among its typology's rows. */
  lemma InsightSarCases(rows: seq<Row>, t: Typology)
    ensures SarCases(InsightFor(rows, t)) == SarCount(RowsOf(rows, t)) as real
  {
    var data := RowsOf(rows, t);
    assert SarCount(data) <= |data|;
    SarCasesOfInsight(InsightFor(rows, t), SarCount(data));
  }

  /** The sum, over the typologies `ts`, of the number of rows labelled with each. */
  function CountSum(rows: seq<Row>, ts: seq<Typology>): nat {
    if ts == [] then 0 else CountSum(rows, ts[..|ts| - 1]) + |RowsOf(rows, ts[|ts| - 1])|
  }

  /** How often `t` occurs in `ts`. */
  function Occurrences(ts: seq<Typology>, t: Typology): nat {
    if ts == [] then 0 else Occurrences(ts[..|ts| - 1], t) + (if ts[|ts| - 1] == t then 1 else 0)
  }

  lemma {:induction false} OccursOnce(ts: seq<Typology>, t: Typology)
    requires Distinct(ts)
    ensures Occurrences(ts, t) == if t in ts then 1 else 0
  {
    if ts != [] {
      var init := ts[..|ts| - 1];
      assert ts == init + [ts[|ts| - 1]];
      OccursOnce(init, t);
      assert ts[|ts| - 1] !in init;
    }
  }

  lemma {:induction false} CountSumExtend(rows: seq<Row>, x: Row, ts: seq<Typology>)
    ensures CountSum(rows + [x], ts) == CountSum(rows, ts) + Occurrences(ts, x.typology)
  {
    if ts != [] {
      var t := ts[|ts| - 1];
      CountSumExtend(rows, x, ts[..|ts| - 1]);
      KeepAppend(rows, [x], TypologyOf(t));
    }
  }

  /**
   Counting the rows of each typology in a list that holds every label of the
   table once counts every row exactly once.
   */
  lemma {:induction false} PartitionCount(rows: seq<Row>, ts: seq<Typology>)
    requires Distinct(ts)
    requires forall i :: 0 <= i < |rows| ==> rows[i].typology in ts
    ensures CountSum(rows, ts) == |rows|
    decreases |rows|
  {
    if rows == [] {
      EmptyCountSum(ts);
    } else {
      var init := rows[..|rows| - 1];
      var x := rows[|rows| - 1];
      assert rows == init + [x];
      PartitionCount(init, ts);
      CountSumExtend(init, x, ts);
      OccursOnce(ts, x.typology);
    }
  }

  lemma {:induction false} EmptyCountSum(ts: seq<Typology>)
    ensures CountSum([], ts) == 0
  {
    if ts != [] {
      EmptyCountSum(ts[..|ts| - 1]);
    }
  }

  lemma {:induction false} TotalCountIsCountSum(rows: seq<Row>, ts: seq<Typology>)
    ensures TotalCount(InsightsOf(rows, ts)) == CountSum(rows, ts)
  {
    if ts != [] {
      TotalCountIsCountSum(rows, ts[..|ts| - 1]);
    }
  }

  /** The SAR rows labelled `t` are the SAR rows among the rows labelled `t`. */
  lemma SarRowsOf(rows: seq<Row>, t: Typology)
    ensures SarCount(RowsOf(rows, t)) == |RowsOf(SarRows(rows), t)|
  {
    KeepCommutes(rows, TypologyOf(t), SarIs(true));
  }

  /** The SAR-weighted case counts of the insights, summed. */
  function TotalSarCases(ins: seq<Insight>): real {
    if ins == [] then 0.0 else TotalSarCases(ins[..|ins| - 1]) + SarCases(ins[|ins| - 1])
  }

  lemma {:induction false} TotalSarIsCountSum(rows: seq<Row>, ts: seq<Typology>)
    ensures TotalSarCases(InsightsOf(rows, ts)) == CountSum(SarRows(rows), ts) as real
  {
    if ts != [] {
      var t := ts[|ts| - 1];
      TotalSarIsCountSum(rows, ts[..|ts| - 1]);
      InsightSarCases(rows, t);
      SarRowsOf(rows, t);
    }
  }

  /**
   The insight list has one entry per distinct typology, in first-appearance
   order; every count is positive, so the empty-group guard is never taken;
   every rate is a percentage; and the counts add up to the number of cases.
   */
  lemma InsightsSummarizeTable(rows: seq<Row>)
    ensures |TypologyInsights(rows)| == |TypologiesIn(rows)|
    ensures forall i :: 0 <= i < |TypologyInsights(rows)| ==> TypologyInsights(rows)[i].typology == Unique(rows)[i]
    ensures forall i :: 0 <= i < |TypologyInsights(rows)| ==>
              TypologyInsights(rows)[i].count >= 1 && 0.0 <= TypologyInsights(rows)[i].sarRate <= 100.0
    ensures TotalCount(TypologyInsights(rows)) == |rows|
    ensures TotalSarCases(TypologyInsights(rows)) == SarCount(rows) as real
  {
    var u := Unique(rows);
    var ins := TypologyInsights(rows);
    UniqueCountsTypologies(rows);
    forall i | 0 <= i < |ins| ensures ins[i].count >= 1 {
      var k := FirstIndex(rows, u[i]);
      KeepSelects(rows, TypologyOf(u[i]), k);
    }
    forall i | 0 <= i < |rows| ensures rows[i].typology in u {
      assert FirstIndex(rows, rows[i].typology) <= i;
    }
    TotalCountIsCountSum(rows, u);
    PartitionCount(rows, u);
    TotalSarIsCountSum(rows, u);
    KeepMembers(rows, SarIs(true));
    PartitionCount(SarRows(rows), u);
  }
}
