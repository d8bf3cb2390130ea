# AML typology dashboard — verified model of the classification and aggregation pipeline

The dashboard reads a table of transaction-monitoring cases. Each case has a
scenario text, a risk level, a score and a SAR flag. The dashboard:

- labels every case with a money-laundering typology. The labels are
  STRUCTURING, LAYERING, INTEGRATION, PLACEMENT and UNCLASSIFIED. The rules
  are keyword pairs over the lower-cased scenario, and the first pair that
  matches wins;
- writes a rationale sentence for each label;
- looks up each label's description and money-laundering stage;
- filters the table by risk level, typology and SAR status;
- summarises the filtered table. The summary holds the key metrics, one
  insight per typology, the three typologies with the highest SAR rate, a
  rollup per money-laundering stage, and a HIGH / MODERATE / LOW risk
  assessment.

The model holds each of these as pure functions over immutable datatypes:

- `Typologies.Typology`, `Typologies.Stage` and `Typologies.Info` are the labels and the reference table.
- `Cases.Case` is an input record.
- `Cases.Row` is a record after the two columns are added.
- `Filters.Selection` holds the three filter boxes.
- `Metrics.Summary`, `Insights.Insight` and `Stages.StageTotal` are the aggregates.

Rates are exact `real` percentages. Lower-casing covers ASCII letters.

Modules follow the steps of the script:

- `Text`: ASCII lower-casing and substring search.
- `Seqs`: row selection by a predicate, modelling a boolean mask.
- `Typologies`: labels, the description and stage table, badge classes.
- `Classifier`: the ordered keyword rules.
- `Rationales`: the rationale sentence and its decoding.
- `Cases`: records, and adding the typology and rationale columns.
- `Filters`, `Metrics`, `Insights`, `Ranking`, `Stages`: the filter block and the summaries.
- `Examples`: concrete cases.

The two description texts for UNCLASSIFIED differ:

- the rationale table says "Requires further analysis for typology classification";
- the reference table says "Cases requiring further analysis for typology classification".

Both are modelled as written. `Rationales.ExplanationsMatchDescriptions` states
that this is the only difference.

## Model

| member | source | states |
|---|---|---|
| `Text.Lower` | app.py:112 | lower-casing keeps the length; each character is mapped on its own and ASCII capitals become small letters |
| `Text.ContainsIffOccurs` | app.py:113 | the substring test used by every rule holds exactly when the keyword occurs at some position of the text |
| `Classifier.FirstFiring` | app.py:113-130 | returns the index of the first rule whose keyword pair matches, and no earlier rule matches |
| `Classifier.ClassifyIsFirstMatch` | app.py:111-130 | the if/elif chain returns the label of the first matching rule of the eight, and UNCLASSIFIED if none matches |
| `Classifier.FirstFiringRuleDecides` | app.py:111-130 | if rule i matches and no earlier rule does, the label is rule i's label |
| `Classifier.UnclassifiedIffNoRuleFires` | app.py:129-130 | the label is UNCLASSIFIED exactly when neither keyword of any rule occurs in the lower-cased scenario |
| `Classifier.StructuringOutranksMixer` | app.py:113-122 | a scenario with both "structuring" and "mixer" is STRUCTURING, because the earlier rule wins |
| `Classifier.ClassifyIgnoresCase` | app.py:112 | classifying a scenario gives the same label as classifying its lower-cased form |
| `Classifier.ClassifySameUpToCase` | app.py:112 | two scenarios that differ only in letter case get the same label |
| `Typologies.Parse` | app.py:133-139 | reading a label string gives a typology exactly when the string is one of the five label names, and that typology has this name |
| `Typologies.ParseName` | app.py:133-139 | every label's name reads back as that label |
| `Typologies.LookupOrUnclassified` | app.py:140 | a known label name gives its typology; any other string gives UNCLASSIFIED, as the `.get` fallback does |
| `Typologies.StageNameInjective` | app.py:147-173 | different stages have different stage names |
| `Typologies.InfoFor` | app.py:147-173 | the entry of a known label is that label's entry; any other label gets the UNCLASSIFIED entry |
| `Typologies.StagesOfTypologies` | app.py:147-173 | Placement is the stage of STRUCTURING and PLACEMENT, and of no other label; Layering belongs only to LAYERING, Integration only to INTEGRATION, Unknown only to UNCLASSIFIED |
| `Typologies.BadgeClass` | app.py:313-324 | the class is one of the five badge classes; it is the lower-cased label whenever that is a badge class; any other input gets "unclassified" |
| `Typologies.BadgeClassIgnoresCase` | app.py:314 | the badge class depends only on the lower-cased label |
| `Typologies.BadgeClassOfName` | app.py:313-324 | each label's badge class is its lower-cased name; only UNCLASSIFIED gets "unclassified" |
| `Rationales.DecodeTailFinds` | app.py:140 | taking off the opening, the closing quote and a candidate label's explanation gives back the scenario and that label |
| `Rationales.DecodeRationale` | app.py:132-140 | the sentence determines the scenario and the label: decoding it gives back both, with unknown labels read as UNCLASSIFIED |
| `Rationales.UnknownLabelFallsBack` | app.py:140 | an unknown label gets the same sentence as UNCLASSIFIED |
| `Rationales.RationaleIsNeverPlaceholder` | app.py:132-140 | no sentence equals "No rationale provided" |
| `Rationales.ExplanationsMatchDescriptions` | app.py:133-173 | the rationale explanation of each label equals its reference description, except for UNCLASSIFIED, whose two texts differ |
| `Cases.Enrich` | app.py:143-144 | adding the columns keeps the case's own fields; the rationale is built from the scenario and the computed label; it decodes back to them |
| `Cases.EnrichAll` | app.py:143-144 | adding the columns keeps the number and order of the cases, and every row is labelled as `Enrich` labels it |
| `Seqs.Keep` | app.py:190-196 | a masked selection is no longer than the table and holds only rows that pass the mask |
| `Seqs.KeepCharacterized` | app.py:190-196 | a masked selection is an order-preserving subsequence that keeps every passing row as often as it occurs, and no other row |
| `Filters.Select` | app.py:188-196 | the filtered table is no longer than the table, and each row in it passes all three boxes |
| `Filters.ByRiskIsSelection` | app.py:189-190 | the risk step keeps exactly the rows of the chosen level, or every row when the box is "ALL" |
| `Filters.ByTypologyIsSelection` | app.py:191-192 | the typology step keeps exactly the rows with the chosen label, or every row when the box is "ALL" |
| `Filters.BySarIsSelection` | app.py:193-196 | the SAR step keeps SAR rows for "SAR Required", non-SAR rows for "No SAR Required", and every row otherwise |
| `Filters.ApplyFiltersIsSelect` | app.py:188-196 | the three steps in sequence select the same rows as one combined test |
| `Filters.FilterSoundAndComplete` | app.py:188-196 | the result is an order-preserving subsequence; each kept row meets every box that is not "ALL"; every row meeting all boxes is kept, as often as it occurs |
| `Filters.NoFilterKeepsAll` | app.py:188-196 | with every box at "ALL" the table comes back unchanged |
| `Filters.FilterIdempotent` | app.py:188-196 | filtering the filtered table again with the same boxes changes nothing |
| `Filters.FilterThenFilter` | app.py:188-196 | filtering with one selection and then with another that constrains different boxes equals one filter with the boxes combined |
| `Filters.FilterKeepsEnrichment` | app.py:188-196 | rows of the filtered table keep their computed label and rationale |
| `Filters.RationaleFilterKeepsAll` | app.py:271 | the "has a rationale" filter keeps every labelled row |
| `Metrics.SarCount` | app.py:211 | the SAR count is at most the number of cases |
| `Metrics.SarCountSplits` | app.py:211 | SAR and non-SAR rows together make up the table |
| `Metrics.Rate` | app.py:220 | the rate is 0 for an empty denominator, and otherwise the part times 100 over the whole; it is a percentage when the part is at most the whole |
| `Metrics.TypologiesIn` | app.py:229 | the set of labels of the table holds exactly the labels of its rows and is no larger than the table |
| `Metrics.AtMostFiveTypologies` | app.py:229 | a set of labels has at most five members |
| `Metrics.KeyMetrics` | app.py:205-229 | total is the number of cases; the SAR count is the number of SAR rows, at most the total; the SAR rate is the guarded rate of the two, a percentage and 0 on an empty table; the typology count is the number of distinct labels of the table, at most the total and at most five, and 0 exactly when the table is empty |
| `Metrics.Band` | app.py:424-429 | HIGH exactly when the rate is above 70, MODERATE exactly when above 40 and at most 70, LOW otherwise |
| `Metrics.BandMonotone` | app.py:424-429 | a higher rate never gets a milder band |
| `Metrics.EmptyTableIsLowRisk` | app.py:384-386 | an empty table has rate 0 and is LOW risk |
| `Insights.FirstIndex` | app.py:390 | the index of a label's first row, or the table length when it has none |
| `Insights.Unique` | app.py:390 | the distinct labels of the table, each once, in order of first appearance |
| `Insights.UniqueCountsTypologies` | app.py:390 | the number of distinct labels in order of appearance equals the size of the label set |
| `Insights.InsightFor` | app.py:391-401 | a label's insight holds its stage and description, the number of its rows, and the guarded SAR rate of those rows, a percentage |
| `Insights.InsightsOf` | app.py:389-401 | one insight per listed label, in list order |
| `Insights.RateScalesBack` | app.py:439 | for a non-empty group, the count times rate over 100 gives back the SAR count |
| `Insights.SarCasesOfInsight` | app.py:439 | an insight whose rate is that of n SAR cases out of its count stands for exactly n SAR cases |
| `Insights.InsightSarCases` | app.py:392-439 | each insight's count times its rate over 100 is exactly its number of SAR rows |
| `Insights.PartitionCount` | app.py:389-401 | when every row's label is listed once, the group sizes add up to the number of rows |
| `Insights.TotalCountIsCountSum` | app.py:397 | the insights' counts add up to the group sizes |
| `Insights.TotalSarIsCountSum` | app.py:392-439 | the insights' SAR cases add up to the SAR rows of the groups |
| `Insights.SarRowsOf` | app.py:392 | a label's SAR rows are the label's rows among the SAR rows |
| `Insights.InsightsSummarizeTable` | app.py:389-401 | one insight per distinct label, in first-appearance order; each count at least 1, so the empty-group guard is never taken; each rate a percentage; counts add up to the total; SAR cases add up to the SAR count |
| `Ranking.Insert` | app.py:417 | inserting adds exactly one element and keeps the others |
| `Ranking.InsertKeepsOrder` | app.py:417 | inserting into a list sorted by descending rate keeps it sorted |
| `Ranking.SortByRate` | app.py:417 | the sort is a permutation that puts rates in non-increasing order |
| `Ranking.InsertKeepsTies` | app.py:417 | insertion puts a new element before no element of the same rate |
| `Ranking.SortIsStable` | app.py:417 | insights of equal rate keep their input order after sorting |
| `Ranking.TopRisk` | app.py:417 | the list has min(3, number of insights) entries, in non-increasing rate order, all from the insights |
| `Ranking.OmittedRankNoHigher` | app.py:417 | an insight left out of the list has a rate no higher than any insight in it |
| `Ranking.CutRanksNoHigher` | app.py:417 | by position: every insight sorted past the cut of three has a rate no higher than any insight in the list, including a copy of a listed one |
| `Ranking.TopRiskKeepsTieOrder` | app.py:417 | for each rate, the list holds a prefix of the insights of that rate in input order |
| `Stages.AddInsightEffect` | app.py:434-439 | adding an insight raises its stage's count and SAR cases by its own figures, creates the stage entry if missing, leaves other stages alone and keeps stages distinct |
| `Stages.EntryIsStageTotal` | app.py:433-439 | with distinct stages, an entry holds all of its stage's totals |
| `Stages.RollupSumsInsights` | app.py:433-439 | one entry per stage present among the insights; each entry sums its stage's insights; entry counts add up to the insight counts |
| `Stages.RollupTotals` | app.py:433-439 | the totals read off the rollup for any stage equal the sums over that stage's insights |
| `Stages.RowsOfStage` | app.py:393-399 | a label's rows within a stage are all its rows when the label has that stage, and none otherwise |
| `Stages.StageCountIsCountSum` | app.py:438 | a stage's summed insight counts equal the number of the stage's rows in the listed groups |
| `Stages.StageSarIsCountSum` | app.py:439 | a stage's summed SAR cases equal the number of its SAR rows in the listed groups |
| `Stages.StageRollupOfTable` | app.py:433-443 | the entries count every case once; each entry's count is the number of its stage's rows and its SAR cases their SAR count, so its rate is a percentage |
| `Stages.StageRateIsRate` | app.py:442 | a stage whose SAR cases are a whole count has the guarded rate of that count |
| `Stages.PlacementStageRows` | app.py:147-173 | the Placement stage's rows are exactly the STRUCTURING and PLACEMENT rows, in table order, so its count is the sum of those two typologies' counts |
| `Stages.UnknownStageRows` | app.py:171 | the Unknown stage holds exactly the UNCLASSIFIED rows |
| `Examples.RoutinePayrollIsUnclassified` | app.py:111-130 | "Routine payroll" matches no rule and is UNCLASSIFIED |
| `Examples.StructuringOfCashDepositsIsStructuring` | app.py:113-114 | "Structuring of cash deposits" is STRUCTURING |
| `Examples.LetterCaseDoesNotMatter` | app.py:112-114 | "STRUCTURING test" and "structuring test" are both STRUCTURING |
| `Examples.TwoCaseTypologies` | app.py:143 | of the two-case table, the first case is STRUCTURING and the second UNCLASSIFIED |
| `Examples.TwoCaseFilterAndRate` | app.py:193-220 | on the two-case table, "SAR Required" keeps only the first case and the SAR rate is 50 |

## Left out

- Page setup, CSS, HTML markdown emission, widgets and all `st.*` calls: presentation only. The filter boxes become a `Selection` parameter.
- Loading the CSV file: file I/O. The table is a given sequence of `Case` records.
- Plotly charts and the DataFrames built for them: calls into a charting library.
- The order of pandas `value_counts` and the display of the first four typology cards: the order is defined by the library and affects only display.
- Floating-point rounding and `.1f` formatting: rates are exact reals. The accumulated SAR cases of a stage (`count * (rate / 100)`) are whole numbers only in this model; in floating point they can be off by rounding.
- Unicode lower-casing: only the ASCII letters A-Z are lowered.
- The colour strings of the reference table: used only for display.
- The case score: it is shown but never used in any decision.
- The order in which stage entries are listed: a dict in insertion order. The model accumulates in insight order, but no contract states the entry order.
- The detailed-results loop and the SAR-summary charts repeat lookups modelled above (`InfoFor`, `BadgeClass`, the SAR mask); their HTML is not modelled.
- The risk-level and typology box options (sorted unique values plus "ALL"): widget contents. Any string can be selected in the model.
