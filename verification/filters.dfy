/**
 The three dashboard filters. Each is a select box whose value "ALL" means no
 constraint; the SAR box constrains only for its two SAR values. The
 dashboard applies them one after another to a copy of the table.
 */
module Filters {
  import opened Seqs
  import opened Typologies
  import opened Rationales
  import opened Cases

  const All: string := "ALL"
  const SarRequired: string := "SAR Required"
  const NoSarRequired: string := "No SAR Required"

  /** The values of the risk level, typology and SAR status select boxes. */
  datatype Selection = Selection(risk: string, typology: string, sarStatus: string)

  const NoFilter: Selection := Selection(All, All, All)

  predicate RiskAdmits(sel: Selection, r: Row) {
    sel.risk == All || r.level == sel.risk
  }

  predicate TypologyAdmits(sel: Selection, r: Row) {
    sel.typology == All || Name(r.typology) == sel.typology
  }

  predicate SarAdmits(sel: Selection, r: Row) {
    if sel.sarStatus == SarRequired then r.sar
    else if sel.sarStatus == NoSarRequired then !r.sar
    else true
  }

  /** A row passes a selection when it passes all three criteria. */
  predicate Admits(sel: Selection, r: Row) {
    RiskAdmits(sel, r) && TypologyAdmits(sel, r) && SarAdmits(sel, r)
  }

  function LevelIs(level: string): Row -> bool {
    (r: Row) => r.level == level
  }

  function TypologyIs(name: string): Row -> bool {
    (r: Row) => Name(r.typology) == name
  }

  function SarIs(flag: bool): Row -> bool {
    (r: Row) => r.sar == flag
  }

  function RiskTest(sel: Selection): Row -> bool {
    (r: Row) => RiskAdmits(sel, r)
  }

  function TypologyTest(sel: Selection): Row -> bool {
    (r: Row) => TypologyAdmits(sel, r)
  }

  function SarTest(sel: Selection): Row -> bool {
    (r: Row) => SarAdmits(sel, r)
  }

  function AdmitsTest(sel: Selection): Row -> bool {
    (r: Row) => Admits(sel, r)
  }

  function ByRisk(rows: seq<Row>, sel: Selection): seq<Row> {
    if sel.risk != All then Keep(rows, LevelIs(sel.risk)) else rows
  }

  function ByTypology(rows: seq<Row>, sel: Selection): seq<Row> {
    if sel.typology != All then Keep(rows, TypologyIs(sel.typology)) else rows
  }

  function BySar(rows: seq<Row>, sel: Selection): seq<Row> {
    if sel.sarStatus == SarRequired then Keep(rows, SarIs(true))
    else if sel.sarStatus == NoSarRequired then Keep(rows, SarIs(false))
    else rows
  }

  /** The filters as the dashboard applies them: risk level, then typology, then SAR status. */
  function ApplyFilters(rows: seq<Row>, sel: Selection): seq<Row> {
    BySar(ByTypology(ByRisk(rows, sel), sel), sel)
  }

  /** The reference filter: one pass that keeps the rows passing all criteria. */
  function Select(rows: seq<Row>, sel: Selection): (out: seq<Row>)
    ensures |out| <= |rows|
    ensures forall i :: 0 <= i < |out| ==> Admits(sel, out[i])
  {
    Keep(rows, AdmitsTest(sel))
  }

  lemma ByRiskIsSelection(rows: seq<Row>, sel: Selection)
    ensures ByRisk(rows, sel) == Keep(rows, RiskTest(sel))
  {
    if sel.risk != All {
      KeepExtensional(rows, LevelIs(sel.risk), RiskTest(sel));
    } else {
      KeepAll(rows, RiskTest(sel));
    }
  }

  lemma ByTypologyIsSelection(rows: seq<Row>, sel: Selection)
    ensures ByTypology(rows, sel) == Keep(rows, TypologyTest(sel))
  {
    if sel.typology != All {
      KeepExtensional(rows, TypologyIs(sel.typology), TypologyTest(sel));
    } else {
      KeepAll(rows, TypologyTest(sel));
    }
  }

  lemma BySarIsSelection(rows: seq<Row>, sel: Selection)
    ensures BySar(rows, sel) == Keep(rows, SarTest(sel))
  {
    if sel.sarStatus == SarRequired {
      KeepExtensional(rows, SarIs(true), SarTest(sel));
    } else if sel.sarStatus == NoSarRequired {
      KeepExtensional(rows, SarIs(false), SarTest(sel));
    } else {
      KeepAll(rows, SarTest(sel));
    }
  }

  /** Applying the criteria one after another is selecting by their conjunction. */
  lemma ApplyFiltersIsSelect(rows: seq<Row>, sel: Selection)
    ensures ApplyFilters(rows, sel) == Select(rows, sel)
  {
    ByRiskIsSelection(rows, sel);
    ByTypologyIsSelection(ByRisk(rows, sel), sel);
    BySarIsSelection(ByTypology(ByRisk(rows, sel), sel), sel);
    KeepKeep(rows, RiskTest(sel), TypologyTest(sel));
    KeepKeep(rows, Both(RiskTest(sel), TypologyTest(sel)), SarTest(sel));
    KeepExtensional(rows, Both(Both(RiskTest(sel), TypologyTest(sel)), SarTest(sel)), AdmitsTest(sel));
  }

  /**
   The filtered table is an order-preserving subsequence of the table; every
   row in it passes each criterion that is not "ALL"; and no row passing all
   criteria is dropped: each such row is kept as often as it occurs.
   */
  lemma FilterSoundAndComplete(rows: seq<Row>, sel: Selection)
    ensures IsSubsequence(ApplyFilters(rows, sel), rows)
    ensures forall i :: 0 <= i < |ApplyFilters(rows, sel)| ==>
              var r := ApplyFilters(rows, sel)[i];
              (sel.risk != All ==> r.level == sel.risk) &&
              (sel.typology != All ==> Name(r.typology) == sel.typology) &&
              (sel.sarStatus == SarRequired ==> r.sar) &&
              (sel.sarStatus == NoSarRequired ==> !r.sar)
    ensures forall r :: multiset(ApplyFilters(rows, sel))[r] == if Admits(sel, r) then multiset(rows)[r] else 0
  {
    ApplyFiltersIsSelect(rows, sel);
    KeepCharacterized(rows, AdmitsTest(sel));
  }

  /** With every box at "ALL" the table is shown unchanged. */
  lemma NoFilterKeepsAll(rows: seq<Row>)
    ensures ApplyFilters(rows, NoFilter) == rows
  {
  }

  /** Re-applying the same selection to a filtered table changes nothing. */
  lemma FilterIdempotent(rows: seq<Row>, sel: Selection)
    ensures ApplyFilters(ApplyFilters(rows, sel), sel) == ApplyFilters(rows, sel)
  {
    ApplyFiltersIsSelect(rows, sel);
    ApplyFiltersIsSelect(Select(rows, sel), sel);
    KeepAll(Select(rows, sel), AdmitsTest(sel));
  }

  /** The SAR box constrains the table for exactly its two SAR values. */
  predicate SarConstrains(status: string) {
    status == SarRequired || status == NoSarRequired
  }

  /** Two selections that never constrain the same box. */
  predicate Independent(a: Selection, b: Selection) {
    (a.risk == All || b.risk == All) &&
    (a.typology == All || b.typology == All) &&
    (!SarConstrains(a.sarStatus) || !SarConstrains(b.sarStatus))
  }

  /** The selection that sets each box as whichever of `a` and `b` constrains it. */
  function Combine(a: Selection, b: Selection): Selection {
    Selection(if a.risk != All then a.risk else b.risk,
              if a.typology != All then a.typology else b.typology,
              if SarConstrains(a.sarStatus) then a.sarStatus else b.sarStatus)
  }

  /** Filtering by one selection and then by an independent one is filtering by both at once. */
  lemma FilterThenFilter(rows: seq<Row>, a: Selection, b: Selection)
    requires Independent(a, b)
    ensures ApplyFilters(ApplyFilters(rows, a), b) == ApplyFilters(rows, Combine(a, b))
  {
    ApplyFiltersIsSelect(rows, a);
    ApplyFiltersIsSelect(Select(rows, a), b);
    ApplyFiltersIsSelect(rows, Combine(a, b));
    KeepKeep(rows, AdmitsTest(a), AdmitsTest(b));
    KeepExtensional(rows, Both(AdmitsTest(a), AdmitsTest(b)), AdmitsTest(Combine(a, b)));
  }

  /** Filtering keeps enriched rows enriched: it only selects rows, never rewrites them. */
  lemma FilterKeepsEnrichment(rows: seq<Row>, sel: Selection)
    requires forall i :: 0 <= i < |rows| ==> Enriched(rows[i])
    ensures forall i :: 0 <= i < |ApplyFilters(rows, sel)| ==> Enriched(ApplyFilters(rows, sel)[i])
  {
    FilterSoundAndComplete(rows, sel);
    forall i | 0 <= i < |ApplyFilters(rows, sel)|
      ensures Enriched(ApplyFilters(rows, sel)[i])
    {
      var r := ApplyFilters(rows, sel)[i];
      assert r in multiset(ApplyFilters(rows, sel));
      assert r in multiset(rows);
    }
  }

  /** The rows whose rationale is not the placeholder. */
  const HasRationale: Row -> bool := (r: Row) => r.rationale != NoRationale

  function WithRationale(rows: seq<Row>): seq<Row> {
    Keep(rows, HasRationale)
  }

  /** Every enriched row has a rationale, so the rationale filter keeps the whole table. */
  lemma RationaleFilterKeepsAll(rows: seq<Row>)
    requires forall i :: 0 <= i < |rows| ==> Enriched(rows[i])
    ensures WithRationale(rows) == rows
  {
    forall i | 0 <= i < |rows|
      ensures rows[i].rationale != NoRationale
    {
      RationaleIsNeverPlaceholder(rows[i].scenario, Name(rows[i].typology));
    }
    KeepAll(rows, HasRationale);
  }
}
