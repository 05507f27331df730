/**
 * The derivation engine (LoreGen.Rules.DerivationEngine): picks the best rule of its rule set for
 * a base name, rewrites the name with it and shifts the rule set's default impression by the
 * rule's impression shift, clamping every dimension into [0, 1].
 */
module Derivation {
  import opened Wrappers
  import opened Impressions
  import opened Contexts
  import opened Regexes
  import opened DerivationRules
  import opened Rulesets
  import opened RuleConditions

  /** `Clamp` into [0, 1]: it agrees with `Math.Clamp(value, 0, 1)`; its cases are `ClampInUnit`'s. */
  function Clamp(value: real): (r: real)
    ensures 0.0 <= r <= 1.0
    ensures r == MathClamp(value, 0.0, 1.0)
  {
    if value < 0.0 then 0.0
    else if value > 1.0 then 1.0
    else value
  }

  /**
   * The clamp lands in [0, 1]: 0 below 0, 1 above 1, the value itself in between; so it is
   * `Math.Clamp(value, 0, 1)`, the clamp `ImpressionVector.Normalize` uses.
   */
  lemma ClampInUnit(value: real)
    ensures 0.0 <= Clamp(value) <= 1.0
    ensures 0.0 <= value <= 1.0 ==> Clamp(value) == value
    ensures value < 0.0 ==> Clamp(value) == 0.0
    ensures value > 1.0 ==> Clamp(value) == 1.0
    ensures Clamp(value) == MathClamp(value, 0.0, 1.0)
  {
  }

  /** A default formality of 0.9 shifted by 0.5 saturates at exactly 1.0. */
  lemma ClampSaturates()
    ensures Clamp(0.9 + 0.5) == 1.0
  {
  }

  /** `CalculateImpression`: each dimension is the clamped sum of the base and the shift, independently of the others. */
  function ShiftImpression(baseImpression: ImpressionVector, shift: ImpressionVector): (r: ImpressionVector)
    ensures forall d: Dimension :: r.At(d) == Clamp(baseImpression.At(d) + shift.At(d))
  {
    ImpressionVector(
      Hardness := Clamp(baseImpression.Hardness + shift.Hardness),
      Sharpness := Clamp(baseImpression.Sharpness + shift.Sharpness),
      Complexity := Clamp(baseImpression.Complexity + shift.Complexity),
      Rhythmicity := Clamp(baseImpression.Rhythmicity + shift.Rhythmicity),
      Antiquity := Clamp(baseImpression.Antiquity + shift.Antiquity),
      Formality := Clamp(baseImpression.Formality + shift.Formality),
      Exoticism := Clamp(baseImpression.Exoticism + shift.Exoticism),
      Mysticism := Clamp(baseImpression.Mysticism + shift.Mysticism))
  }

  /** Every dimension of a shifted impression lies in [0, 1], whatever the base and the shift. */
  lemma {:induction false} ShiftInRange(baseImpression: ImpressionVector, shift: ImpressionVector)
    ensures ShiftImpression(baseImpression, shift).InRange()
  {
    forall d: Dimension ensures 0.0 <= ShiftImpression(baseImpression, shift).At(d) <= 1.0 {
      ClampInUnit(baseImpression.At(d) + shift.At(d));
    }
  }

  /** Shifting is adding the two vectors and normalizing the sum. */
  lemma {:induction false} ShiftIsNormalizedSum(baseImpression: ImpressionVector, shift: ImpressionVector)
    ensures ShiftImpression(baseImpression, shift) == Add(baseImpression, shift).Normalize()
  {
    forall d: Dimension
      ensures ShiftImpression(baseImpression, shift).At(d) == Add(baseImpression, shift).Normalize().At(d)
    {
      ClampInUnit(baseImpression.At(d) + shift.At(d));
    }
    Extensionality(ShiftImpression(baseImpression, shift), Add(baseImpression, shift).Normalize());
  }

  /** A shift whose sum stays in range is applied exactly, and a zero shift leaves an in-range base unchanged. */
  lemma {:induction false} ShiftWithinRangeIsExact(baseImpression: ImpressionVector, shift: ImpressionVector)
    ensures Add(baseImpression, shift).InRange() ==>
      ShiftImpression(baseImpression, shift) == Add(baseImpression, shift)
    ensures baseImpression.InRange() ==> ShiftImpression(baseImpression, Zero()) == baseImpression
  {
    if Add(baseImpression, shift).InRange() {
      forall d: Dimension ensures ShiftImpression(baseImpression, shift).At(d) == Add(baseImpression, shift).At(d) {
        ClampInUnit(baseImpression.At(d) + shift.At(d));
      }
      Extensionality(ShiftImpression(baseImpression, shift), Add(baseImpression, shift));
    }
    if baseImpression.InRange() {
      forall d: Dimension ensures ShiftImpression(baseImpression, Zero()).At(d) == baseImpression.At(d) {
        ClampInUnit(baseImpression.At(d));
      }
      Extensionality(ShiftImpression(baseImpression, Zero()), baseImpression);
    }
  }

  /** The context `Derive(baseName, targetType, seed)` builds: that type, base name and seed, and nothing else. */
  function TypedContext(baseName: string, targetType: NameType, seed: Option<int>): GenerationContext {
    GenerationContext(Type := targetType, BaseName := Some(baseName), Seed := seed)
  }

  /** The rule's condition, if it has one, requires no type or exactly `t`. */
  predicate AdmitsType(rule: DerivationRule, t: NameType) {
    rule.Condition.None? || rule.Condition.value.RequiredType.None? || rule.Condition.value.RequiredType.value == t
  }

  /** An engine over a rule set. */
  class DerivationEngine {
    const ruleset: Ruleset

    /** `new DerivationEngine(ruleset)` for a present rule set. */
    constructor (ruleset: Ruleset)
      ensures this.ruleset == ruleset
    {
      this.ruleset := ruleset;
    }

    /** `new DerivationEngine(ruleset)`: an absent rule set is an `ArgumentNullException`. */
    static method Create(ruleset: Ruleset?) returns (r: Result<DerivationEngine>)
      ensures ruleset == null ==> r == Failure(ArgumentNull("ruleset"))
      ensures ruleset != null ==> r.Success? && fresh(r.value) && r.value.ruleset == ruleset
    {
      if ruleset == null {
        return Failure(ArgumentNull("ruleset"));
      }
      var engine := new DerivationEngine(ruleset);
      return Success(engine);
    }

    /**
     * `Derive(baseName, context)`: an empty base name is an `ArgumentException`. With no
     * applicable rule the name and the default impression come back unchanged with no rule
     * recorded; otherwise the best rule rewrites the name, its shift moves the impression, and its
     * name is the one rule recorded. The rule set's id is recorded either way.
     */
    function Derive(baseName: string, context: GenerationContext, regex: RegexEngine): (r: Result<GenerationResult>)
      reads ruleset
      ensures baseName == "" <==> r == Failure(ArgumentError("baseName"))
      ensures r.Success? <==> baseName != ""
      ensures r.Success? ==> r.value.Metadata.RulesetId == ruleset.Id && r.value.Metadata.UsedSyllables == []
      ensures r.Success? && (forall x | x in ruleset.DerivationRules :: !x.CanApply(baseName, context, regex)) ==>
        r.value.Name == baseName && r.value.ActualImpression == ruleset.DefaultImpression &&
        r.value.Metadata.AppliedRules == []
      ensures r.Success? && ruleset.GetBestRule(baseName, context, regex).Some? ==>
        var rule := ruleset.GetBestRule(baseName, context, regex).value;
        r.value.Name == rule.Apply(baseName, regex) && r.value.Metadata.AppliedRules == [rule.Name] &&
        r.value.ActualImpression.InRange() &&
        r.value.ActualImpression == ShiftImpression(ruleset.DefaultImpression, rule.ImpressionShift)
    {
      if baseName == "" then Failure(ArgumentError("baseName"))
      else
        match ruleset.GetBestRule(baseName, context, regex)
        case None =>
          Success(GenerationResult(
            Name := baseName,
            ActualImpression := ruleset.DefaultImpression,
            Metadata := GenerationMetadata(AppliedRules := [], RulesetId := ruleset.Id)))
        case Some(rule) =>
          ShiftInRange(ruleset.DefaultImpression, rule.ImpressionShift);
          Success(GenerationResult(
            Name := rule.Apply(baseName, regex),
            ActualImpression := ShiftImpression(ruleset.DefaultImpression, rule.ImpressionShift),
            Metadata := GenerationMetadata(AppliedRules := [rule.Name], RulesetId := ruleset.Id)))
    }

    /** `Derive(baseName, targetType, seed)`: the context overload on a context carrying the type, the base name and the seed. */
    function DeriveForType(baseName: string, targetType: NameType, seed: Option<int>, regex: RegexEngine)
      : (r: Result<GenerationResult>)
      reads ruleset
      ensures r.Success? <==> baseName != ""
      ensures baseName == "" ==> r == Failure(ArgumentError("baseName"))
      ensures r.Success? ==> r.value.Metadata.RulesetId == ruleset.Id && r.value.Metadata.UsedSyllables == []
      ensures r.Success? ==>
        var best := ruleset.GetBestRule(baseName, TypedContext(baseName, targetType, seed), regex);
        && (best.None? ==>
              r.value.Name == baseName && r.value.Metadata.AppliedRules == [] &&
              r.value.ActualImpression == ruleset.DefaultImpression)
        && (best.Some? ==>
              r.value.Name == best.value.Apply(baseName, regex) && r.value.Metadata.AppliedRules == [best.value.Name] &&
              r.value.ActualImpression == ShiftImpression(ruleset.DefaultImpression, best.value.ImpressionShift) &&
              r.value.ActualImpression.InRange() &&
              AdmitsType(best.value, targetType))
    {
      Derive(baseName, TypedContext(baseName, targetType, seed), regex)
    }
  }

  /**
   * The requested type reaches the rule conditions: when every rule of the set requires another
   * type than `targetType`, the base name comes back unchanged with the default impression and no
   * rule recorded.
   */
  lemma {:induction false} OtherTypesNeverApply(engine: DerivationEngine, baseName: string, targetType: NameType,
                                                seed: Option<int>, regex: RegexEngine)
    requires baseName != ""
    requires forall x | x in engine.ruleset.DerivationRules :: !AdmitsType(x, targetType)
    ensures var r := engine.DeriveForType(baseName, targetType, seed, regex);
      r.Success? && r.value.Name == baseName && r.value.Metadata.AppliedRules == [] &&
      r.value.ActualImpression == engine.ruleset.DefaultImpression
  {
    var context := TypedContext(baseName, targetType, seed);
    forall x | x in engine.ruleset.DerivationRules
      ensures !x.CanApply(baseName, context, regex)
    {
      assert !x.Condition.value.IsSatisfied(baseName, context);
    }
  }

  /**
   * A rule limited to places: `^(.+)$` to `$1ian` turns "Test" into "Testian" for a place, and
   * leaves it as "Test", with no rule recorded, for a person.
   */
  lemma PlaceOnlyRule(engine: DerivationEngine, rule: DerivationRule, place: GenerationContext, person: GenerationContext)
    requires engine.ruleset.DerivationRules == [rule]
    requires rule.MatchPattern == "^(.+)$" && rule.ReplacePattern == "$1ian"
    requires rule.Condition == Some(RuleCondition(RequiredType := Some(Place)))
    requires place.Type == Place && person.Type == Person
    ensures var r := engine.Derive("Test", place, SuffixRegex); r.Success? && r.value.Name == "Testian"
    ensures var r := engine.Derive("Test", person, SuffixRegex);
      r.Success? && r.value.Name == "Test" && r.value.Metadata.AppliedRules == []
  {
    assert IsSuffixPattern("^(.+)$") && SuffixOf("^(.+)$") == "";
    assert "$1ian"[..2] == "$1";
    assert IsSuffixTemplate("$1ian") && TemplateTail("$1ian") == "ian";
    SuffixRewrite("Test", "", "", rule.MatchPattern, rule.ReplacePattern);
    assert "Test" + "" + "" == "Test" && "Test" + "ian" + "" == "Testian";
    assert rule.CanApply("Test", place, SuffixRegex);
    assert !rule.CanApply("Test", person, SuffixRegex);
  }

  /** The two rules of the engine tests: `^(.+)or$` for "Valdor" and `^(.+)land$` for "England", misses the other names. */
  lemma TestRulesMatch(orRule: DerivationRule, landRule: DerivationRule, context: GenerationContext)
    requires orRule.MatchPattern == "^(.+)or$" && orRule.ReplacePattern == "$1orian" && orRule.Condition.None?
    requires landRule.MatchPattern == "^(.+)land$" && landRule.ReplacePattern == "$1lish" && landRule.Condition.None?
    ensures orRule.CanApply("Valdor", context, SuffixRegex) && !landRule.CanApply("Valdor", context, SuffixRegex)
    ensures landRule.CanApply("England", context, SuffixRegex) && !orRule.CanApply("England", context, SuffixRegex)
    ensures !orRule.CanApply("Karthal", context, SuffixRegex) && !landRule.CanApply("Karthal", context, SuffixRegex)
    ensures orRule.Apply("Valdor", SuffixRegex) == "Valdorian" && landRule.Apply("England", SuffixRegex) == "English"
  {
    OrRuleText();
    LandRuleText();
    ValdorExample(orRule, context);
    EnglandExample(landRule, context);
    KarthalMisses(orRule, context);
    SuffixRuleMisses(landRule, "Valdor", 1, context);
    SuffixRuleMisses(orRule, "England", 0, context);
    SuffixRuleMisses(landRule, "Karthal", 0, context);
  }

  /** The rule set of the engine tests: id "test", default formality 0.5, the `or` rule shifting formality by 0.3, then the `land` rule. */
  ghost predicate IsTestEngine(engine: DerivationEngine, orRule: DerivationRule, landRule: DerivationRule)
    reads engine, engine.ruleset
  {
    && engine.ruleset.Id == "test" && engine.ruleset.DefaultImpression == ImpressionVector(Formality := 0.5)
    && engine.ruleset.DerivationRules == [orRule, landRule]
    && orRule.Name == "Place to Adjective" && orRule.ImpressionShift == ImpressionVector(Formality := 0.3)
    && orRule.MatchPattern == "^(.+)or$" && orRule.ReplacePattern == "$1orian" && orRule.Condition.None?
    && landRule.MatchPattern == "^(.+)land$" && landRule.ReplacePattern == "$1lish" && landRule.Condition.None?
  }

  /** Of two rules where only one can apply, that one is the best rule. */
  lemma OnlyApplicableIsBest(ruleset: Ruleset, a: DerivationRule, b: DerivationRule, name: string,
                             context: GenerationContext, regex: RegexEngine)
    requires ruleset.DerivationRules == [a, b] || ruleset.DerivationRules == [b, a]
    requires a.CanApply(name, context, regex) && !b.CanApply(name, context, regex)
    ensures ruleset.GetBestRule(name, context, regex) == Some(a)
  {
    var best := ruleset.GetBestRule(name, context, regex);
    assert a in ruleset.DerivationRules;
    assert best.Some?;
  }

  /** On the test rule set "Valdor" becomes "Valdorian" by the `or` rule, with formality 0.5 + 0.3. */
  lemma DeriveValdor(engine: DerivationEngine, orRule: DerivationRule, landRule: DerivationRule, context: GenerationContext)
    requires IsTestEngine(engine, orRule, landRule)
    ensures var r := engine.Derive("Valdor", context, SuffixRegex);
      r.Success? && r.value.Name == "Valdorian" && r.value.Metadata.AppliedRules == ["Place to Adjective"] &&
      r.value.ActualImpression.Formality == 0.8 && r.value.Metadata.RulesetId == "test"
  {
    TestRulesMatch(orRule, landRule, context);
    OnlyApplicableIsBest(engine.ruleset, orRule, landRule, "Valdor", context, SuffixRegex);
    ClampInUnit(0.5 + 0.3);
    assert ShiftImpression(engine.ruleset.DefaultImpression, orRule.ImpressionShift).Formality == 0.8;
  }

  /** On the test rule set "England" becomes "English" by the `land` rule. */
  lemma DeriveEngland(engine: DerivationEngine, orRule: DerivationRule, landRule: DerivationRule, context: GenerationContext)
    requires IsTestEngine(engine, orRule, landRule)
    ensures var r := engine.Derive("England", context, SuffixRegex);
      r.Success? && r.value.Name == "English" && r.value.Metadata.RulesetId == "test"
  {
    TestRulesMatch(orRule, landRule, context);
    OnlyApplicableIsBest(engine.ruleset, landRule, orRule, "England", context, SuffixRegex);
  }

  /** On the test rule set "Karthal", which no rule matches, comes back unchanged with no rule recorded. */
  lemma DeriveKarthal(engine: DerivationEngine, orRule: DerivationRule, landRule: DerivationRule, context: GenerationContext)
    requires IsTestEngine(engine, orRule, landRule)
    ensures var r := engine.Derive("Karthal", context, SuffixRegex);
      r.Success? && r.value.Name == "Karthal" && r.value.Metadata.AppliedRules == [] && r.value.Metadata.RulesetId == "test"
  {
    TestRulesMatch(orRule, landRule, context);
    assert engine.ruleset.GetBestRule("Karthal", context, SuffixRegex).None?;
  }
}
