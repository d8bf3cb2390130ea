/**
 The typology labels, the static reference table that gives each name its
 description and money-laundering stage, and the CSS badge class of a name.
 The dashboard stores labels as strings, so the string form and the parsing
 back from it are part of the model.
 */
module Typologies {
  import opened Wrappers
  import opened Text

  datatype Typology = Structuring | Layering | Integration | Placement | Unclassified

  /** Every name, in the order the reference table lists them. */
  const AllTypologies: seq<Typology> := [Structuring, Layering, Integration, Placement, Unclassified]

  /** The name as the data frame column stores it. */
  function Name(t: Typology): string {
    match t
    case Structuring => "STRUCTURING"
    case Layering => "LAYERING"
    case Integration => "INTEGRATION"
    case Placement => "PLACEMENT"
    case Unclassified => "UNCLASSIFIED"
  }

  /** The name a column string denotes, if it is one of the five (exact match, as a dictionary key). */
  function Parse(name: string): (r: Option<Typology>)
    ensures r.Some? ==> Name(r.value) == name
    ensures (exists t :: Name(t) == name) ==> r.Some?
  {
    if name == "STRUCTURING" then Some(Structuring)
    else if name == "LAYERING" then Some(Layering)
    else if name == "INTEGRATION" then Some(Integration)
    else if name == "PLACEMENT" then Some(Placement)
    else if name == "UNCLASSIFIED" then Some(Unclassified)
    else None
  }

  /** Parsing a label's name gives the label back. */
  lemma ParseName(t: Typology)
    ensures Parse(Name(t)) == Some(t)
  {
  }

  /** A dictionary lookup with the UNCLASSIFIED entry as the default. */
  function LookupOrUnclassified(name: string): (t: Typology)
    ensures Parse(name).Some? ==> Name(t) == name
    ensures Parse(name).None? ==> t == Unclassified
  {
    match Parse(name)
    case Some(t) => t
    case None => Unclassified
  }

  /** The money-laundering stage a typology belongs to. */
  datatype Stage = PlacementStage | LayeringStage | IntegrationStage | UnknownStage

  function StageName(g: Stage): string {
    match g
    case PlacementStage => "Placement"
    case LayeringStage => "Layering"
    case IntegrationStage => "Integration"
    case UnknownStage => "Unknown"
  }

  /** Distinct stages have distinct names, so keying by name is keying by stage. */
  lemma StageNameInjective(g: Stage, h: Stage)
    ensures StageName(g) == StageName(h) ==> g == h
  {
  }

  /** One entry of the reference table (the display colour is not modelled). */
  datatype Info = Info(description: string, stage: Stage)

  /** The description column of the reference table. */
  function InfoDescription(t: Typology): string {
    match t
    case Structuring => "Breaking down large transactions into smaller amounts to avoid reporting thresholds"
    case Layering => "Complex transactions to obscure the origin of illicit funds"
    case Integration => "Reintroducing laundered funds into the legitimate economy"
    case Placement => "Initial placement of illicit funds into the financial system"
    case Unclassified => "Cases requiring further analysis for typology classification"
  }

  /** The stage column of the reference table. */
  function StageOf(t: Typology): Stage {
    match t
    case Structuring => PlacementStage
    case Layering => LayeringStage
    case Integration => IntegrationStage
    case Placement => PlacementStage
    case Unclassified => UnknownStage
  }

  /** The reference table; it is total, so a lookup never fails. */
  function InfoOf(t: Typology): Info {
    Info(InfoDescription(t), StageOf(t))
  }

  /** The table lookup by column string, falling back to the UNCLASSIFIED entry. */
  function InfoFor(name: string): (i: Info)
    ensures Parse(name).None? ==> i == InfoOf(Unclassified)
    ensures Parse(name).Some? ==> i == InfoOf(Parse(name).value)
  {
    InfoOf(LookupOrUnclassified(name))
  }

  /**
   How the labels fall into stages: STRUCTURING and PLACEMENT both belong to
   the Placement stage, and only UNCLASSIFIED to the Unknown stage.
   */
  lemma StagesOfTypologies(t: Typology)
    ensures StageOf(t) == PlacementStage <==> t == Structuring || t == Placement
    ensures StageOf(t) == LayeringStage <==> t == Layering
    ensures StageOf(t) == IntegrationStage <==> t == Integration
    ensures StageOf(t) == UnknownStage <==> t == Unclassified
  {
  }

  /** The badge classes a case card can carry. */
  const BadgeClasses: set<string> := {"structuring", "layering", "integration", "placement", "unclassified"}

  /** The CSS class of a name's badge: the name compared case-insensitively. */
  function BadgeClass(name: string): (c: string)
    ensures c in BadgeClasses
    ensures c != "unclassified" ==> c == Lower(name)
    ensures Lower(name) in BadgeClasses ==> c == Lower(name)
  {
    var l := Lower(name);
    if l == "structuring" then "structuring"
    else if l == "layering" then "layering"
    else if l == "integration" then "integration"
    else if l == "placement" then "placement"
    else "unclassified"
  }

  /** The badge class of a name ignores the name's case. */
  lemma BadgeClassIgnoresCase(name: string)
    ensures BadgeClass(name) == BadgeClass(Lower(name))
  {
    LowerIdempotent(name);
  }

  /** Each stored name gets the badge class named after it. */
  lemma BadgeClassOfName(t: Typology)
    ensures BadgeClass(Name(t)) == Lower(Name(t))
    ensures BadgeClass(Name(t)) == "unclassified" <==> t == Unclassified
  {
    match t
    case Structuring => LowersTo("STRUCTURING", "structuring");
    case Layering => LowersTo("LAYERING", "layering");
    case Integration => LowersTo("INTEGRATION", "integration");
    case Placement => LowersTo("PLACEMENT", "placement");
    case Unclassified => LowersTo("UNCLASSIFIED", "unclassified");
  }
}
