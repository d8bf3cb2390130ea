/**
 The money-laundering stage rollup: the insights are folded, in order, into
 one running total per stage (case count and SAR-weighted case count), and
 each stage's SAR rate is computed from its totals.
 */
module Stages {
  import opened Seqs
  import opened Typologies
  import opened Cases
  import opened Filters
  import opened Metrics
  import opened Insights

  datatype StageTotal = StageTotal(stage: Stage, count: nat, sarCases: real)

  /** Adds one insight to the totals: to its stage's entry, or as a new last entry. */
  function AddInsight(acc: seq<StageTotal>, i: Insight): seq<StageTotal> {
    if acc == [] then [StageTotal(i.stage, i.count, SarCases(i))]
    else if acc[0].stage == i.stage then
      [StageTotal(acc[0].stage, acc[0].count + i.count, acc[0].sarCases + SarCases(i))] + acc[1..]
    else [acc[0]] + AddInsight(acc[1..], i)
  }

  /** The stage totals of a list of insights, accumulated in list order. */
  function StageRollup(ins: seq<Insight>): seq<StageTotal> {
    if ins == [] then [] else AddInsight(StageRollup(ins[..|ins| - 1]), ins[|ins| - 1])
  }

  /** A stage's SAR rate, 0 for a stage without cases. */
  function StageRate(e: StageTotal): real {
    if e.count > 0 then e.sarCases / e.count as real * 100.0 else 0.0
  }

  predicate DistinctStages(acc: seq<StageTotal>) {
    forall i, j :: 0 <= i < j < |acc| ==> acc[i].stage != acc[j].stage
  }

  /** The case count the totals hold for stage `g` (0 if it has no entry). */
  function EntryCount(acc: seq<StageTotal>, g: Stage): nat {
    if acc == [] then 0 else (if acc[0].stage == g then acc[0].count else 0) + EntryCount(acc[1..], g)
  }

  /** The SAR-weighted count the totals hold for stage `g` (0 if it has no entry). */
  function EntrySar(acc: seq<StageTotal>, g: Stage): real {
    if acc == [] then 0.0 else (if acc[0].stage == g then acc[0].sarCases else 0.0) + EntrySar(acc[1..], g)
  }

  /** The case counts of all entries, summed. */
  function EntriesTotal(acc: seq<StageTotal>): nat {
    if acc == [] then 0 else acc[0].count + EntriesTotal(acc[1..])
  }

  predicate HasStage(acc: seq<StageTotal>, g: Stage) {
    exists k :: 0 <= k < |acc| && acc[k].stage == g
  }

  /** The case count of the insights of stage `g`, summed. */
  function StageCount(ins: seq<Insight>, g: Stage): nat {
    if ins == [] then 0
    else StageCount(ins[..|ins| - 1], g) + (if ins[|ins| - 1].stage == g then ins[|ins| - 1].count else 0)
  }

  /** The SAR-weighted case count of the insights of stage `g`, summed. */
  function StageSar(ins: seq<Insight>, g: Stage): real {
    if ins == [] then 0.0
    else StageSar(ins[..|ins| - 1], g) + (if ins[|ins| - 1].stage == g then SarCases(ins[|ins| - 1]) else 0.0)
  }

  lemma SameStagesSameHas(a: seq<StageTotal>, b: seq<StageTotal>)
    requires |a| == |b|
    requires forall k :: 0 <= k < |a| ==> a[k].stage == b[k].stage
    ensures forall g :: HasStage(a, g) <==> HasStage(b, g)
  {
    forall g ensures HasStage(a, g) ==> HasStage(b, g) {
      if HasStage(a, g) {
        var k :| 0 <= k < |a| && a[k].stage == g;
        assert b[k].stage == g;
      }
    }
    forall g ensures HasStage(b, g) ==> HasStage(a, g) {
      if HasStage(b, g) {
        var k :| 0 <= k < |b| && b[k].stage == g;
        assert a[k].stage == g;
      }
    }
  }

  lemma HasStageCons(e: StageTotal, t: seq<StageTotal>)
    ensures forall g :: HasStage([e] + t, g) <==> e.stage == g || HasStage(t, g)
  {
    forall g ensures HasStage([e] + t, g) ==> e.stage == g || HasStage(t, g) {
      if HasStage([e] + t, g) && e.stage != g {
        var k :| 0 <= k < |[e] + t| && ([e] + t)[k].stage == g;
        assert t[k - 1].stage == g;
      }
    }
    forall g ensures HasStage(t, g) ==> HasStage([e] + t, g) {
      if HasStage(t, g) {
        var k :| 0 <= k < |t| && t[k].stage == g;
        assert ([e] + t)[k + 1].stage == g;
      }
    }
    forall g ensures e.stage == g ==> HasStage([e] + t, g) {
      if e.stage == g {
        assert ([e] + t)[0].stage == g;
      }
    }
  }

  /** One insight added: its stage's totals grow by its figures, the rest stay, and stages stay distinct. */
  lemma {:induction false} AddInsightEffect(acc: seq<StageTotal>, i: Insight)
    requires DistinctStages(acc)
    ensures DistinctStages(AddInsight(acc, i))
    ensures forall g :: EntryCount(AddInsight(acc, i), g) == EntryCount(acc, g) + (if i.stage == g then i.count else 0)
    ensures forall g :: EntrySar(AddInsight(acc, i), g) == EntrySar(acc, g) + (if i.stage == g then SarCases(i) else 0.0)
    ensures forall g :: HasStage(AddInsight(acc, i), g) <==> HasStage(acc, g) || g == i.stage
    ensures EntriesTotal(AddInsight(acc, i)) == EntriesTotal(acc) + i.count
  {
    var r := AddInsight(acc, i);
    if acc == [] {
      assert r == [r[0]] + [];
      HasStageCons(r[0], []);
    } else if acc[0].stage == i.stage {
      assert r[1..] == acc[1..];
      assert forall k :: 0 <= k < |r| ==> r[k].stage == acc[k].stage;
      SameStagesSameHas(r, acc);
      assert HasStage(acc, i.stage) by {
        assert acc[0].stage == i.stage;
      }
    } else {
      AddInsightEffect(acc[1..], i);
      var tail := AddInsight(acc[1..], i);
      assert r == [acc[0]] + tail;
      assert r[1..] == tail;
      forall a, b | 0 <= a < b < |r| ensures r[a].stage != r[b].stage {
        if a == 0 {
          assert HasStage(tail, r[b].stage) by { assert tail[b - 1] == r[b]; }
          if r[b].stage != i.stage {
            var k :| 0 <= k < |acc[1..]| && acc[1..][k].stage == r[b].stage;
            assert acc[k + 1].stage == r[b].stage;
          }
        } else {
          assert r[a] == tail[a - 1] && r[b] == tail[b - 1];
        }
      }
      HasStageCons(acc[0], tail);
      assert acc == [acc[0]] + acc[1..];
      HasStageCons(acc[0], acc[1..]);
    }
  }

  /** In totals with distinct stages, an entry holds the whole of its stage's totals. */
  lemma {:induction false} EntryIsStageTotal(acc: seq<StageTotal>, k: nat)
    requires DistinctStages(acc) && k < |acc|
    ensures EntryCount(acc, acc[k].stage) == acc[k].count
    ensures EntrySar(acc, acc[k].stage) == acc[k].sarCases
  {
    if k == 0 {
      AbsentStage(acc[1..], acc[0].stage);
    } else {
      EntryIsStageTotal(acc[1..], k - 1);
    }
  }

  lemma {:induction false} AbsentStage(acc: seq<StageTotal>, g: Stage)
    requires forall k :: 0 <= k < |acc| ==> acc[k].stage != g
    ensures EntryCount(acc, g) == 0 && EntrySar(acc, g) == 0.0
  {
    if acc != [] {
      AbsentStage(acc[1..], g);
    }
  }

  /**
   The rollup holds one entry per stage that occurs among the insights; each
   entry's figures are the sums over that stage's insights; and the entries'
   counts add up to the insights' counts.
   */
  lemma {:induction false} RollupSumsInsights(ins: seq<Insight>)
    ensures DistinctStages(StageRollup(ins))
    ensures forall g :: HasStage(StageRollup(ins), g) <==> exists k :: 0 <= k < |ins| && ins[k].stage == g
    ensures forall k :: 0 <= k < |StageRollup(ins)| ==>
              StageRollup(ins)[k].count == StageCount(ins, StageRollup(ins)[k].stage) &&
              StageRollup(ins)[k].sarCases == StageSar(ins, StageRollup(ins)[k].stage)
    ensures EntriesTotal(StageRollup(ins)) == TotalCount(ins)
  {
    if ins != [] {
      var init := ins[..|ins| - 1];
      var last := ins[|ins| - 1];
      RollupSumsInsights(init);
      RollupTotals(init);
      AddInsightEffect(StageRollup(init), last);
      var r := StageRollup(ins);
      forall k | 0 <= k < |r|
        ensures r[k].count == StageCount(ins, r[k].stage) && r[k].sarCases == StageSar(ins, r[k].stage)
      {
        EntryIsStageTotal(r, k);
      }
      forall g ensures HasStage(r, g) <==> exists k :: 0 <= k < |ins| && ins[k].stage == g {
        if exists k :: 0 <= k < |init| && init[k].stage == g {
          var k :| 0 <= k < |init| && init[k].stage == g;
          assert ins[k].stage == g;
        }
        if g != last.stage && exists k :: 0 <= k < |ins| && ins[k].stage == g {
          var k :| 0 <= k < |ins| && ins[k].stage == g;
          assert init[k].stage == g;
        }
      }
    }
  }

  /** The totals of the rollup, stage by stage, are the sums over that stage's insights. */
  lemma {:induction false} RollupTotals(ins: seq<Insight>)
    ensures DistinctStages(StageRollup(ins))
    ensures forall g :: EntryCount(StageRollup(ins), g) == StageCount(ins, g)
    ensures forall g :: EntrySar(StageRollup(ins), g) == StageSar(ins, g)
  {
    if ins != [] {
      RollupTotals(ins[..|ins| - 1]);
      AddInsightEffect(StageRollup(ins[..|ins| - 1]), ins[|ins| - 1]);
    }
  }

  function StageIs(g: Stage): Row -> bool {
    (r: Row) => StageOf(r.typology) == g
  }

  /** The rows whose typology belongs to stage `g`. */
  function StageRows(rows: seq<Row>, g: Stage): seq<Row> {
    Keep(rows, StageIs(g))
  }

  /** Among the rows of stage `g`, the rows of typology `t` are all of them or none. */
  lemma RowsOfStage(rows: seq<Row>, g: Stage, t: Typology)
    ensures |RowsOf(StageRows(rows, g), t)| == if StageOf(t) == g then |RowsOf(rows, t)| else 0
  {
    KeepKeep(rows, StageIs(g), TypologyOf(t));
    if StageOf(t) == g {
      KeepExtensional(rows, Both(StageIs(g), TypologyOf(t)), TypologyOf(t));
    } else {
      KeepNone(rows, Both(StageIs(g), TypologyOf(t)));
    }
  }

  lemma {:induction false} StageCountIsCountSum(rows: seq<Row>, ts: seq<Typology>, g: Stage)
    ensures StageCount(InsightsOf(rows, ts), g) == CountSum(StageRows(rows, g), ts)
  {
    if ts != [] {
      var t := ts[|ts| - 1];
      StageCountIsCountSum(rows, ts[..|ts| - 1], g);
      RowsOfStage(rows, g, t);
    }
  }

  lemma {:induction false} StageSarIsCountSum(rows: seq<Row>, ts: seq<Typology>, g: Stage)
    ensures StageSar(InsightsOf(rows, ts), g) == CountSum(StageRows(SarRows(rows), g), ts) as real
  {
    if ts != [] {
      var t := ts[|ts| - 1];
      StageSarIsCountSum(rows, ts[..|ts| - 1], g);
      InsightSarCases(rows, t);
      SarRowsOf(rows, t);
      RowsOfStage(SarRows(rows), g, t);
    }
  }

  /** Every label of a selection from the table is among the table's distinct labels. */
  lemma SelectionCovered(rows: seq<Row>, p: Row -> bool)
    ensures forall i :: 0 <= i < |Keep(rows, p)| ==> Keep(rows, p)[i].typology in Unique(rows)
  {
    KeepMembers(rows, p);
    forall i | 0 <= i < |Keep(rows, p)| ensures Keep(rows, p)[i].typology in Unique(rows) {
      var r := Keep(rows, p)[i];
      var k :| 0 <= k < |rows| && rows[k] == r;
      assert FirstIndex(rows, r.typology) <= k;
    }
  }

  /**
   The stage rollup of the summary panel: each stage entry counts exactly the
   table's cases of that stage and, with exact arithmetic, exactly its SAR
   cases, so its rate is a percentage; and the entries together count every
   case once.
   */
  lemma StageRollupOfTable(rows: seq<Row>)
    ensures EntriesTotal(StageRollup(TypologyInsights(rows))) == |rows|
    ensures forall k :: 0 <= k < |StageRollup(TypologyInsights(rows))| ==>
              var e := StageRollup(TypologyInsights(rows))[k];
              e.count == |StageRows(rows, e.stage)| &&
              e.sarCases == SarCount(StageRows(rows, e.stage)) as real &&
              0.0 <= StageRate(e) <= 100.0
  {
    var u := Unique(rows);
    var ins := TypologyInsights(rows);
    var r := StageRollup(ins);
    InsightsSummarizeTable(rows);
    RollupSumsInsights(ins);
    forall k | 0 <= k < |r|
      ensures r[k].count == |StageRows(rows, r[k].stage)|
      ensures r[k].sarCases == SarCount(StageRows(rows, r[k].stage)) as real
      ensures 0.0 <= StageRate(r[k]) <= 100.0
    {
      var g := r[k].stage;
      StageCountIsCountSum(rows, u, g);
      StageSarIsCountSum(rows, u, g);
      SelectionCovered(rows, StageIs(g));
      PartitionCount(StageRows(rows, g), u);
      KeepMembers(rows, SarIs(true));
      StageOfSarRowsCovered(rows, g);
      PartitionCount(StageRows(SarRows(rows), g), u);
      KeepCommutes(rows, SarIs(true), StageIs(g));
      StageRateIsRate(r[k], SarCount(StageRows(rows, g)));
    }
  }

  lemma StageOfSarRowsCovered(rows: seq<Row>, g: Stage)
    ensures forall i :: 0 <= i < |StageRows(SarRows(rows), g)| ==> StageRows(SarRows(rows), g)[i].typology in Unique(rows)
  {
    KeepKeep(rows, SarIs(true), StageIs(g));
    SelectionCovered(rows, Both(SarIs(true), StageIs(g)));
  }

  /** A stage's rate is the rate of its SAR cases among its cases. */
  lemma StageRateIsRate(e: StageTotal, n: nat)
    requires e.sarCases == n as real && n <= e.count
    ensures StageRate(e) == Rate(n, e.count)
  {
  }

  /** The rows labelled `t` or `u`. */
  function EitherTypology(t: Typology, u: Typology): Row -> bool {
    (r: Row) => r.typology == t || r.typology == u
  }

  /**
   The Placement stage holds exactly the STRUCTURING and the PLACEMENT rows, in
   table order, so its count is the sum of those two typologies' counts.
   */
  lemma {:induction false} PlacementStageRows(rows: seq<Row>)
    ensures StageRows(rows, PlacementStage) == Keep(rows, EitherTypology(Structuring, Placement))
    ensures |StageRows(rows, PlacementStage)| == |RowsOf(rows, Structuring)| + |RowsOf(rows, Placement)|
  {
    forall r: Row ensures StageIs(PlacementStage)(r) == EitherTypology(Structuring, Placement)(r) {
      StagesOfTypologies(r.typology);
    }
    KeepExtensional(rows, StageIs(PlacementStage), EitherTypology(Structuring, Placement));
    if rows != [] {
      PlacementStageRows(rows[1..]);
    }
  }

  /** Only UNCLASSIFIED cases count towards the Unknown stage. */
  lemma UnknownStageRows(rows: seq<Row>)
    ensures StageRows(rows, UnknownStage) == RowsOf(rows, Unclassified)
  {
    forall r: Row ensures StageIs(UnknownStage)(r) == TypologyOf(Unclassified)(r) {
      StagesOfTypologies(r.typology);
    }
    KeepExtensional(rows, StageIs(UnknownStage), TypologyOf(Unclassified));
  }
}
