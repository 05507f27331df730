/**
 * The request and result records of LoreGen.Core: GenerationContext, NameType,
 * StructuralConstraints, GenerationResult and GenerationMetadata. Only the fields the core
 * reads or writes are kept; each default is the one the C# initialiser gives.
 */
module Contexts {
  import opened Wrappers
  import opened Impressions

  /** The kind of name requested (`NameType`). */
  datatype NameType =
    | Person | Place | PlaceAdjective | PlaceResident | Title | Artifact | Organization

  /** `StructuralConstraints`: the core reads only the syllable-count bounds. */
  datatype StructuralConstraints = StructuralConstraints(
    MinSyllables: Option<int> := None,
    MaxSyllables: Option<int> := None)

  /** `GenerationContext`: a request; `Type` defaults to `Place`. */
  datatype GenerationContext = GenerationContext(
    Type: NameType := Place,
    Constraints: Option<StructuralConstraints> := None,
    Seed: Option<int> := None,
    BaseName: Option<string> := None)

  /** `GenerationMetadata`: rule names applied, syllable patterns used, rule-set id. */
  datatype GenerationMetadata = GenerationMetadata(
    AppliedRules: seq<string> := [],
    UsedSyllables: seq<string> := [],
    RulesetId: string := "")

  /** `GenerationResult`: the name, its impression and the metadata. */
  datatype GenerationResult = GenerationResult(
    Name: string := "",
    ActualImpression: ImpressionVector := ImpressionVector(),
    Metadata: GenerationMetadata := GenerationMetadata())
}
