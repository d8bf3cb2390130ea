/**
 The case records read from the assessment table and their enrichment with a
 typology label and a rationale, which happens once, before any filtering.
 */
module Cases {
  import opened Wrappers
  import opened Typologies
  import opened Classifier
  import opened Rationales

  /** One row of the input table: scenario text, risk level, overall score and SAR flag. */
  datatype Case = Case(scenario: string, level: string, score: real, sar: bool)

  /** A case with the two derived columns added. */
  datatype Row = Row(scenario: string, level: string, score: real, sar: bool,
                     typology: Typology, rationale: string)

  /** The input columns of a row. */
  function Original(r: Row): Case {
    Case(r.scenario, r.level, r.score, r.sar)
  }

  /** A row whose derived columns are the ones enrichment computes from its scenario. */
  predicate Enriched(r: Row) {
    r.typology == Classify(r.scenario) && r.rationale == Rationale(r.scenario, Name(r.typology))
  }

  /** Adds the typology of the scenario, then the rationale for that typology's column string. */
  function Enrich(c: Case): (r: Row)
    ensures Original(r) == c
    ensures Enriched(r)
    ensures Decode(r.rationale) == Some(Parts(c.scenario, r.typology))
  {
    var t := Classify(c.scenario);
    ParseName(t);
    DecodeRationale(c.scenario, Name(t));
    Row(c.scenario, c.level, c.score, c.sar, t, Rationale(c.scenario, Name(t)))
  }

  /** Enriches every case, keeping the order. */
  function EnrichAll(cases: seq<Case>): (rows: seq<Row>)
    ensures |rows| == |cases|
    ensures forall i :: 0 <= i < |rows| ==> Original(rows[i]) == cases[i] && Enriched(rows[i])
  {
    seq(|cases|, i requires 0 <= i < |cases| => Enrich(cases[i]))
  }
}
