/**
 The typology classifier: a case-insensitive keyword search over the scenario
 text, tried rule by rule, where the first rule with a matching keyword
 decides the label and UNCLASSIFIED is the catch-all.
 */
module Classifier {
  import opened Text
  import opened Typologies

  /** A rule fires when the lower-cased text contains either keyword. */
  datatype Rule = Rule(first: string, second: string, typology: Typology)

  /** The rules in priority order. */
  const Rules: seq<Rule> := [
    Rule("structuring", "sub-threshold", Structuring),
    Rule("payment chain", "tax havens", Layering),
    Rule("wildlife", "trafficking", Integration),
    Rule("sanctioned", "bypass", Integration),
    Rule("cryptocurrency", "mixer", Layering),
    Rule("pep", "high-value", Placement),
    Rule("trade", "invoice", Layering),
    Rule("high-risk", "country", Placement)
  ]

  predicate Fires(r: Rule, lowered: string) {
    Contains(lowered, r.first) || Contains(lowered, r.second)
  }

  /** The classifier as the dashboard writes it: a chain of keyword tests. */
  function Classify(scenario: string): Typology {
    var s := Lower(scenario);
    if Contains(s, "structuring") || Contains(s, "sub-threshold") then Structuring
    else if Contains(s, "payment chain") || Contains(s, "tax havens") then Layering
    else if Contains(s, "wildlife") || Contains(s, "trafficking") then Integration
    else if Contains(s, "sanctioned") || Contains(s, "bypass") then Integration
    else if Contains(s, "cryptocurrency") || Contains(s, "mixer") then Layering
    else if Contains(s, "pep") || Contains(s, "high-value") then Placement
    else if Contains(s, "trade") || Contains(s, "invoice") then Layering
    else if Contains(s, "high-risk") || Contains(s, "country") then Placement
    else Unclassified
  }

  /** The position of the first rule that fires, or `|rules|` if none does. */
  function FirstFiring(rules: seq<Rule>, lowered: string): (k: nat)
    ensures k <= |rules|
    ensures k < |rules| ==> Fires(rules[k], lowered)
    ensures forall j :: 0 <= j < k ==> !Fires(rules[j], lowered)
  {
    if rules == [] then 0
    else if Fires(rules[0], lowered) then 0
    else 1 + FirstFiring(rules[1..], lowered)
  }

  /** The reference classifier: the label of the first rule that fires. */
  function FirstMatchLabel(rules: seq<Rule>, lowered: string): Typology {
    var k := FirstFiring(rules, lowered);
    if k < |rules| then rules[k].typology else Unclassified
  }

  /** The keyword chain is exactly first-match over the rule table. */
  lemma ClassifyIsFirstMatch(scenario: string)
    ensures Classify(scenario) == FirstMatchLabel(Rules, Lower(scenario))
  {
    var s := Lower(scenario);
    var k := FirstFiring(Rules, s);
    assert forall j :: 0 <= j < k ==> !Fires(Rules[j], s);
    if k == 0 {
    } else if k == 1 {
      assert !Fires(Rules[0], s);
    } else if k == 2 {
      assert !Fires(Rules[0], s) && !Fires(Rules[1], s);
    } else if k == 3 {
      assert !Fires(Rules[0], s) && !Fires(Rules[1], s) && !Fires(Rules[2], s);
    } else {
      assert !Fires(Rules[0], s) && !Fires(Rules[1], s) && !Fires(Rules[2], s) && !Fires(Rules[3], s);
      if k == 4 {
      } else if k == 5 {
        assert !Fires(Rules[4], s);
      } else if k == 6 {
        assert !Fires(Rules[4], s) && !Fires(Rules[5], s);
      } else if k == 7 {
        assert !Fires(Rules[4], s) && !Fires(Rules[5], s) && !Fires(Rules[6], s);
      } else {
        assert !Fires(Rules[4], s) && !Fires(Rules[5], s) && !Fires(Rules[6], s) && !Fires(Rules[7], s);
      }
    }
  }

  /** Rule `i` decides the label when it fires and no earlier rule does. */
  lemma FirstFiringRuleDecides(scenario: string, i: nat)
    requires i < |Rules|
    requires Fires(Rules[i], Lower(scenario))
    requires forall j :: 0 <= j < i ==> !Fires(Rules[j], Lower(scenario))
    ensures Classify(scenario) == Rules[i].typology
  {
    ClassifyIsFirstMatch(scenario);
    assert FirstFiring(Rules, Lower(scenario)) == i;
  }

  /** UNCLASSIFIED is returned exactly when no rule fires. */
  lemma UnclassifiedIffNoRuleFires(scenario: string)
    ensures Classify(scenario) == Unclassified <==>
            forall j :: 0 <= j < |Rules| ==> !Fires(Rules[j], Lower(scenario))
  {
    ClassifyIsFirstMatch(scenario);
    var k := FirstFiring(Rules, Lower(scenario));
    if k < |Rules| {
      assert Rules[k].typology != Unclassified;
    }
  }

  /** Rule 1 outranks rule 5: "structuring" wins even when "mixer" is present. */
  lemma StructuringOutranksMixer(scenario: string)
    requires Contains(Lower(scenario), "structuring")
    requires Contains(Lower(scenario), "mixer")
    ensures Classify(scenario) == Structuring
  {
  }

  /** The label depends on the scenario only through its lower-cased form. */
  lemma ClassifyIgnoresCase(scenario: string)
    ensures Classify(scenario) == Classify(Lower(scenario))
  {
    LowerIdempotent(scenario);
  }

  /** Two scenarios that differ only in letter case get the same label. */
  lemma ClassifySameUpToCase(a: string, b: string)
    requires Lower(a) == Lower(b)
    ensures Classify(a) == Classify(b)
  {
  }
}
