/**
 The rationale attached to every classified case: a sentence that quotes the
 scenario and gives the fixed explanation of its label. The explanation is
 looked up by label string, with the UNCLASSIFIED text as the default.
 A decoder recovers the scenario and the label from a rationale.
 */
module Rationales {
  import opened Wrappers
  import opened Typologies

  /** The explanation of each label used in rationales. */
  function Explanation(t: Typology): string {
    match t
    case Structuring => "Breaking down large transactions into smaller amounts to avoid reporting thresholds"
    case Layering => "Complex transactions to obscure the origin of illicit funds"
    case Integration => "Reintroducing laundered funds into the legitimate economy"
    case Placement => "Initial placement of illicit funds into the financial system"
    case Unclassified => "Requires further analysis for typology classification"
  }

  const Opening: string := "Based on scenario '"
  const Closing: string := "': "

  /** The placeholder the dashboard tests rationales against. */
  const NoRationale: string := "No rationale provided"

  /** The rationale of a scenario and a label string. */
  function Rationale(scenario: string, name: string): string {
    Opening + scenario + Closing + Explanation(LookupOrUnclassified(name))
  }

  /** What follows the scenario in the rationale of label `t`. */
  function Tail(t: Typology): string {
    Closing + Explanation(t)
  }

  datatype Parts = Parts(scenario: string, typology: Typology)

  predicate EndsWith(r: string, tail: string) {
    |tail| <= |r| && r[|r| - |tail|..] == tail
  }

  /** Tries the labels in `candidates` in order, looking for the one whose tail ends `r`. */
  function DecodeTail(r: string, candidates: seq<Typology>): Option<Parts>
    requires |Opening| <= |r|
  {
    if candidates == [] then None
    else
      var tail := Tail(candidates[0]);
      if |Opening| + |tail| <= |r| && EndsWith(r, tail) then
        Some(Parts(r[|Opening|..|r| - |tail|], candidates[0]))
      else DecodeTail(r, candidates[1..])
  }

  /** Recovers the scenario and the label from a rationale, if `r` is one. */
  function Decode(r: string): Option<Parts> {
    if |Opening| <= |r| && r[..|Opening|] == Opening then DecodeTail(r, AllTypologies)
    else None
  }

  /** Reading the last character, and the one two before it, of each tail. */
  lemma TailEnding(t: Typology)
    ensures |Tail(t)| >= 3
    ensures Tail(t)[|Tail(t)| - 1] == match t
                                      case Structuring => 's'
                                      case Layering => 's'
                                      case Integration => 'y'
                                      case Placement => 'm'
                                      case Unclassified => 'n'
    ensures Tail(t)[|Tail(t)| - 3] == match t
                                      case Structuring => 'l'
                                      case Layering => 'n'
                                      case Integration => 'o'
                                      case Placement => 't'
                                      case Unclassified => 'i'
  {
    match t
    case Structuring => assert |Explanation(t)| == 83;
    case Layering => assert |Explanation(t)| == 59;
    case Integration => assert |Explanation(t)| == 57;
    case Placement => assert |Explanation(t)| == 60;
    case Unclassified => assert |Explanation(t)| == 53;
  }

  /** A string ends with at most one of the five tails. */
  lemma TailsExclusive(r: string, t: Typology, u: Typology)
    requires EndsWith(r, Tail(t)) && t != u
    ensures !EndsWith(r, Tail(u))
  {
    TailEnding(t);
    TailEnding(u);
  }

  lemma ThreeParts(a: string, b: string, c: string)
    ensures EndsWith(a + b + c, c)
    ensures (a + b + c)[|a|..|a + b + c| - |c|] == b
    ensures |a| + |c| <= |a + b + c|
  {
    assert (a + b + c)[|a + b|..] == c;
  }

  lemma {:induction false} DecodeTailFinds(r: string, candidates: seq<Typology>, t: Typology, s: string)
    requires r == Opening + s + Tail(t)
    requires t in candidates
    ensures DecodeTail(r, candidates) == Some(Parts(s, t))
  {
    ThreeParts(Opening, s, Tail(t));
    if candidates[0] == t {
    } else {
      TailsExclusive(r, t, candidates[0]);
      DecodeTailFinds(r, candidates[1..], t, s);
    }
  }

  /** Decoding a rationale gives back its scenario and the label that was looked up. */
  lemma DecodeRationale(scenario: string, name: string)
    ensures Decode(Rationale(scenario, name)) == Some(Parts(scenario, LookupOrUnclassified(name)))
  {
    var r := Rationale(scenario, name);
    var t := LookupOrUnclassified(name);
    assert r == Opening + scenario + Tail(t);
    assert r[..|Opening|] == Opening;
    DecodeTailFinds(r, AllTypologies, t, scenario);
  }

  /** A label string that is not one of the five gets the UNCLASSIFIED explanation. */
  lemma UnknownLabelFallsBack(scenario: string, name: string)
    requires Parse(name).None?
    ensures Rationale(scenario, name) == Rationale(scenario, Name(Unclassified))
  {
  }

  /** A rationale is never the placeholder, whatever the scenario and label. */
  lemma RationaleIsNeverPlaceholder(scenario: string, name: string)
    ensures Rationale(scenario, name) != NoRationale
  {
    var r := Rationale(scenario, name);
    assert r[0] == 'B';
    assert NoRationale[0] == 'N';
  }

  /**
   The rationale explanations repeat the reference table's descriptions,
   except for UNCLASSIFIED, whose two texts differ.
   */
  lemma ExplanationsMatchDescriptions(t: Typology)
    ensures t != Unclassified ==> Explanation(t) == InfoDescription(t)
    ensures Explanation(Unclassified) != InfoDescription(Unclassified)
  {
  }
}
