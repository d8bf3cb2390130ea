/**
 Worked cases of the classifier and of the whole pipeline on concrete
 scenarios. The literal-string facts are checked position by position; the
 intermediate assertions only split that check into shorter runs.
 */
module Examples {
  import opened Seqs
  import opened Text
  import opened Typologies
  import opened Classifier
  import opened Cases
  import opened Filters
  import opened Metrics

  lemma RoutinePayrollLowered()
    ensures Lower("Routine payroll") == "routine payroll"
  {
    LowersTo("Routine payroll", "routine payroll");
  }

  /** Neither keyword of the rule occurs in the text. */
  predicate Misses(text: string, r: Rule) {
    !Contains(text, r.first) && !Contains(text, r.second)
  }

  lemma PayrollMisses0()
    ensures Misses("routine payroll", Rules[0])
  {
    var s := "routine payroll";
    assert !ContainsFrom(s, "structuring", 1);
  }

  lemma PayrollMisses1()
    ensures Misses("routine payroll", Rules[1])
  {
    var s := "routine payroll";
    assert !ContainsFrom(s, "tax havens", 2);
  }

  lemma PayrollMisses2()
    ensures Misses("routine payroll", Rules[2])
  {
    var s := "routine payroll";
    assert !ContainsFrom(s, "wildlife", 4);
    assert !ContainsFrom(s, "wildlife", 1);
    assert !ContainsFrom(s, "trafficking", 1);
  }

  lemma PayrollMisses3()
    ensures Misses("routine payroll", Rules[3])
  {
    var s := "routine payroll";
    assert !ContainsFrom(s, "sanctioned", 2);
    assert !ContainsFrom(s, "bypass", 6);
    assert !ContainsFrom(s, "bypass", 3);
  }

  lemma PayrollMisses4()
    ensures Misses("routine payroll", Rules[4])
  {
    var s := "routine payroll";
    assert !ContainsFrom(s, "mixer", 7);
    assert !ContainsFrom(s, "mixer", 4);
    assert !ContainsFrom(s, "mixer", 1);
  }

  lemma PayrollMisses5()
    ensures Misses("routine payroll", Rules[5])
  {
    var s := "routine payroll";
    assert !ContainsFrom(s, "pep", 9);
    assert !ContainsFrom(s, "pep", 6);
    assert !ContainsFrom(s, "pep", 3);
    assert !ContainsFrom(s, "high-value", 2);
  }

  lemma PayrollMisses6()
    ensures Misses("routine payroll", Rules[6])
  {
    var s := "routine payroll";
    assert !ContainsFrom(s, "trade", 7);
    assert !ContainsFrom(s, "trade", 4);
    assert !ContainsFrom(s, "trade", 1);
    assert !ContainsFrom(s, "invoice", 5);
    assert !ContainsFrom(s, "invoice", 2);
  }

  lemma PayrollMisses7()
    ensures Misses("routine payroll", Rules[7])
  {
    var s := "routine payroll";
    assert !ContainsFrom(s, "high-risk", 3);
    assert !ContainsFrom(s, "country", 5);
    assert !ContainsFrom(s, "country", 2);
  }

  /** "Routine payroll" contains none of the sixteen keywords. */
  lemma RoutinePayrollIsUnclassified()
    ensures Classify("Routine payroll") == Unclassified
  {
    RoutinePayrollLowered();
    PayrollMisses0();
    PayrollMisses1();
    PayrollMisses2();
    PayrollMisses3();
    PayrollMisses4();
    PayrollMisses5();
    PayrollMisses6();
    PayrollMisses7();
    UnclassifiedIffNoRuleFires("Routine payroll");
  }

  /** A scenario that opens with "Structuring" is STRUCTURING whatever follows. */
  lemma StructuringOfCashDepositsIsStructuring()
    ensures Classify("Structuring of cash deposits") == Structuring
  {
    var head := "Structuring";
    var rest := " of cash deposits";
    assert "Structuring of cash deposits" == head + rest;
    LowerAppend(head, rest);
    LowersTo(head, "structuring");
    var s := Lower("Structuring of cash deposits");
    assert s[..11] == "structuring";
    assert OccursAt(s, "structuring", 0);
    ContainsIffOccurs(s, "structuring");
  }

  /** "STRUCTURING test" and "structuring test" get the same label, STRUCTURING. */
  lemma LetterCaseDoesNotMatter()
    ensures Classify("STRUCTURING test") == Classify("structuring test") == Structuring
  {
    LowersTo("STRUCTURING test", "structuring test");
    var s := "structuring test";
    assert MatchesAt(s, "structuring", 0, 6);
    assert MatchesAt(s, "structuring", 0, 0);
    ClassifyIgnoresCase("structuring test");
  }

  /** The two cases of the worked example (their scores play no part). */
  function TwoCases(score1: real, score2: real): seq<Case> {
    [Case("Structuring of cash deposits", "High", score1, true),
     Case("Routine payroll", "Low", score2, false)]
  }

  /** Enrichment labels the two cases STRUCTURING and UNCLASSIFIED. */
  lemma TwoCaseTypologies(score1: real, score2: real)
    ensures |EnrichAll(TwoCases(score1, score2))| == 2
    ensures EnrichAll(TwoCases(score1, score2))[0].typology == Structuring
    ensures EnrichAll(TwoCases(score1, score2))[1].typology == Unclassified
  {
    StructuringOfCashDepositsIsStructuring();
    RoutinePayrollIsUnclassified();
  }

  /** The "SAR Required" filter keeps exactly the first case, and the SAR rate of both is 50. */
  lemma TwoCaseFilterAndRate(score1: real, score2: real)
    ensures var rows := EnrichAll(TwoCases(score1, score2));
            ApplyFilters(rows, Selection(All, All, SarRequired)) == [rows[0]] &&
            KeyMetrics(rows).sarRate == 50.0
  {
    var rows := EnrichAll(TwoCases(score1, score2));
    assert rows[0].sar && !rows[1].sar;
    assert rows[1..][1..] == [];
    assert Keep(rows, SarIs(true)) == [rows[0]];
    assert SarCount(rows) == 1;
  }
}
