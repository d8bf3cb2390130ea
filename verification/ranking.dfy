/**
 The "top risk typologies" list: the insights sorted by SAR rate, highest
 first, with a stable sort (equal rates keep their order), cut to three.
 */
module Ranking {
  import opened Seqs
  import opened Insights

  predicate NonIncreasing(s: seq<Insight>) {
    forall i, j :: 0 <= i < j < |s| ==> s[i].sarRate >= s[j].sarRate
  }

  /** Puts `x` before the first element whose rate is not above its own. */
  function Insert(x: Insight, s: seq<Insight>): (r: seq<Insight>)
    ensures |r| == |s| + 1
    ensures multiset(r) == multiset(s) + multiset{x}
    ensures forall k :: 0 <= k < |r| ==> r[k] == x || r[k] in s
  {
    if s == [] || s[0].sarRate <= x.sarRate then [x] + s
    else
      assert s == [s[0]] + s[1..];
      [s[0]] + Insert(x, s[1..])
  }

  /** Inserting into a list sorted by descending rate keeps it sorted. */
  lemma {:induction false} InsertKeepsOrder(x: Insight, s: seq<Insight>)
    requires NonIncreasing(s)
    ensures NonIncreasing(Insert(x, s))
  {
    var r := Insert(x, s);
    if s == [] || s[0].sarRate <= x.sarRate {
      assert forall k :: 1 <= k < |r| ==> r[k] == s[k - 1];
    } else {
      var tail := Insert(x, s[1..]);
      InsertKeepsOrder(x, s[1..]);
      assert r == [s[0]] + tail;
      forall k | 0 <= k < |tail| ensures s[0].sarRate >= tail[k].sarRate {
        if tail[k] != x {
          var m :| 0 <= m < |s[1..]| && s[1..][m] == tail[k];
          assert s[m + 1] == tail[k];
        }
      }
    }
  }

  /** Sorting by SAR rate in descending order, stably. */
  function SortByRate(s: seq<Insight>): (r: seq<Insight>)
    ensures |r| == |s|
    ensures multiset(r) == multiset(s)
    ensures NonIncreasing(r)
  {
    if s == [] then []
    else
      assert s == [s[0]] + s[1..];
      InsertKeepsOrder(s[0], SortByRate(s[1..]));
      Insert(s[0], SortByRate(s[1..]))
  }

  function RateIs(v: real): Insight -> bool {
    (i: Insight) => i.sarRate == v
  }

  lemma {:induction false} InsertKeepsTies(x: Insight, s: seq<Insight>, v: real)
    ensures Keep(Insert(x, s), RateIs(v)) == if x.sarRate == v then [x] + Keep(s, RateIs(v)) else Keep(s, RateIs(v))
  {
    if s == [] || s[0].sarRate <= x.sarRate {
      assert ([x] + s)[1..] == s;
    } else {
      InsertKeepsTies(x, s[1..], v);
      assert ([s[0]] + Insert(x, s[1..]))[1..] == Insert(x, s[1..]);
    }
  }

  /** Stability: the insights of any one rate appear in the sorted list in their input order. */
  lemma {:induction false} SortIsStable(s: seq<Insight>, v: real)
    ensures Keep(SortByRate(s), RateIs(v)) == Keep(s, RateIs(v))
  {
    if s != [] {
      SortIsStable(s[1..], v);
      InsertKeepsTies(s[0], SortByRate(s[1..]), v);
    }
  }

  /** The three insights with the highest SAR rates (fewer if there are fewer). */
  function TopRisk(ins: seq<Insight>): (top: seq<Insight>)
    ensures |top| == if |ins| < 3 then |ins| else 3
    ensures NonIncreasing(top)
    ensures multiset(top) <= multiset(ins)
  {
    var sorted := SortByRate(ins);
    var k := if |ins| < 3 then |ins| else 3;
    assert sorted == sorted[..k] + sorted[k..];
    sorted[..k]
  }

  /** Every insight left out of the list has a rate no higher than any insight in it. */
  lemma OmittedRankNoHigher(ins: seq<Insight>, x: Insight)
    requires x in ins && x !in TopRisk(ins)
    ensures forall i :: 0 <= i < |TopRisk(ins)| ==> x.sarRate <= TopRisk(ins)[i].sarRate
  {
    var sorted := SortByRate(ins);
    var top := TopRisk(ins);
    assert x in multiset(ins);
    assert x in multiset(sorted);
    var j :| 0 <= j < |sorted| && sorted[j] == x;
    assert forall m :: 0 <= m < |top| ==> top[m] == sorted[m];
    assert |top| <= j;
  }

  /**
   By position: every insight that sorts past the cut of three has a rate no
   higher than any insight in the list, including a copy of a listed insight.
   */
  lemma CutRanksNoHigher(ins: seq<Insight>)
    ensures forall j, i :: |TopRisk(ins)| <= j < |ins| && 0 <= i < |TopRisk(ins)| ==>
              SortByRate(ins)[j].sarRate <= TopRisk(ins)[i].sarRate
  {
    var sorted := SortByRate(ins);
    var top := TopRisk(ins);
    assert forall m :: 0 <= m < |top| ==> top[m] == sorted[m];
  }

  /** Ties inside the list keep their input order: per rate, the list holds a prefix of the input's insights of that rate. */
  lemma TopRiskKeepsTieOrder(ins: seq<Insight>, v: real)
    ensures Keep(TopRisk(ins), RateIs(v)) <= Keep(ins, RateIs(v))
  {
    var sorted := SortByRate(ins);
    var top := TopRisk(ins);
    assert sorted == top + sorted[|top|..];
    KeepAppend(top, sorted[|top|..], RateIs(v));
    SortIsStable(ins, v);
  }
}
