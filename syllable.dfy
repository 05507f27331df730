/**
 * Syllables (LoreGen.Data): the phonetic structure of a syllable, its placement and adjacency
 * constraints, and the syllable itself.
 */
module Syllables {
  import opened Impressions

  /** `SyllableStructure`: onset, nucleus and coda, each empty by default. */
  datatype SyllableStructure = SyllableStructure(
    Onset: string := "",
    Nucleus: string := "",
    Coda: string := "")
  {
    /** `GetStructureType`: "C" for a non-empty onset, then "V" for a non-empty nucleus, then "C" for a non-empty coda. */
    function GetStructureType(): (t: string)
      ensures |t| == (if Onset != "" then 1 else 0) + (if Nucleus != "" then 1 else 0) + (if Coda != "" then 1 else 0)
      ensures forall k :: 0 <= k < |t| ==> t[k] in "CV"
      ensures ('V' in t) == (Nucleus != "")
      ensures Nucleus != "" ==> (t[0] == 'C') == (Onset != "") && (t[|t| - 1] == 'C') == (Coda != "")
    {
      var afterOnset := if Onset != "" then "C" else "";
      var afterNucleus := if Nucleus != "" then afterOnset + "V" else afterOnset;
      if Coda != "" then afterNucleus + "C" else afterNucleus
    }

    /** `GetPattern`: onset, nucleus and coda, concatenated. */
    function GetPattern(): (p: string)
      ensures |p| == |Onset| + |Nucleus| + |Coda|
      ensures p[..|Onset|] == Onset
      ensures p[|Onset|..|Onset| + |Nucleus|] == Nucleus
      ensures p[|Onset| + |Nucleus|..] == Coda
    {
      Onset + Nucleus + Coda
    }

    /** `EndsWithVowel`: a nucleus and no coda, i.e. the structure type ends in "V". */
    predicate EndsWithVowel()
      ensures EndsWithVowel() <==> (var t := GetStructureType(); |t| > 0 && t[|t| - 1] == 'V')
    {
      Nucleus != "" && Coda == ""
    }

    /** `StartsWithVowel`: a nucleus and no onset, i.e. the structure type starts with "V". */
    predicate StartsWithVowel()
      ensures StartsWithVowel() <==> (var t := GetStructureType(); |t| > 0 && t[0] == 'V')
    {
      Onset == "" && Nucleus != ""
    }
  }

  /** The four structures the structure-type tests use: CVC, CV, VC and V. */
  lemma StructureTypeExamples()
    ensures SyllableStructure("k", "a", "r").GetStructureType() == "CVC"
    ensures SyllableStructure("th", "o", "").GetStructureType() == "CV"
    ensures SyllableStructure("", "a", "n").GetStructureType() == "VC"
    ensures SyllableStructure("", "e", "").GetStructureType() == "V"
    ensures SyllableStructure("str", "ei", "nt").GetPattern() == "streint"
  {
  }

  /**
   * `PhoneticConstraints`: the ids allowed to follow (authoritative when non-empty), the ids
   * forbidden to follow, and whether the syllable may open or close a name. C# defaults:
   * both lists empty, both flags true.
   */
  datatype PhoneticConstraints = PhoneticConstraints(
    CanFollowSyllables: seq<string> := [],
    CannotFollowSyllables: seq<string> := [],
    CanBeInitial: bool := true,
    CanBeFinal: bool := true)

  /**
   * `Syllable`. A C# class: the store tells syllables apart by reference, so this is a Dafny
   * class too. The core never changes a syllable once built, so its fields are constants.
   */
  class Syllable {
    const Id: string
    const Pattern: string
    const Structure: SyllableStructure
    const Impression: ImpressionVector
    const Constraints: PhoneticConstraints
    const Weight: real

    /** An object initialiser; every omitted property takes the C# default (weight 1.0). */
    constructor (
      id: string := "",
      pattern: string := "",
      structure: SyllableStructure := SyllableStructure(),
      impression: ImpressionVector := ImpressionVector(),
      constraints: PhoneticConstraints := PhoneticConstraints(),
      weight: real := 1.0)
      ensures Id == id && Pattern == pattern && Structure == structure
      ensures Impression == impression && Constraints == constraints && Weight == weight
    {
      Id := id;
      Pattern := pattern;
      Structure := structure;
      Impression := impression;
      Constraints := constraints;
      Weight := weight;
    }
  }

  /** The selection weights of a list of syllables, in order (the selector `s => s.Weight` applied to each). */
  function Weights(syllables: seq<Syllable>): (w: seq<real>)
    ensures |w| == |syllables|
    ensures forall i :: 0 <= i < |syllables| ==> w[i] == syllables[i].Weight
  {
    if |syllables| == 0 then [] else Weights(syllables[..|syllables| - 1]) + [syllables[|syllables| - 1].Weight]
  }

  /** The syllable may open a name. */
  predicate CanOpen(s: Syllable) {
    s.Constraints.CanBeInitial
  }

  /** The syllable may close a name. */
  predicate CanClose(s: Syllable) {
    s.Constraints.CanBeFinal
  }

  /** The syllable does not start with a vowel. */
  predicate StartsWithConsonant(s: Syllable) {
    !s.Structure.StartsWithVowel()
  }
}
