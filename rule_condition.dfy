/** The applicability condition of a derivation rule (LoreGen.Rules.RuleCondition). */
module RuleConditions {
  import opened Wrappers
  import opened Contexts

  /** An optional required name type and an optional custom predicate; both absent by default. */
  datatype RuleCondition = RuleCondition(
    RequiredType: Option<NameType> := None,
    CustomPredicate: Option<(string, GenerationContext) -> bool> := None)
  {
    /**
     * `IsSatisfied`: a required type must equal the context's type, and a predicate must hold;
     * an absent check passes. The type check comes first and decides alone when it fails.
     */
    function IsSatisfied(name: string, context: GenerationContext): (b: bool)
      ensures b <==>
        (RequiredType.None? || context.Type == RequiredType.value) &&
        (CustomPredicate.None? || CustomPredicate.value(name, context))
    {
      if RequiredType.Some? && context.Type != RequiredType.value then false
      else if CustomPredicate.Some? && !CustomPredicate.value(name, context) then false
      else true
    }
  }

  /** A condition with neither check is satisfied by every name and context. */
  lemma EmptyConditionHolds(name: string, context: GenerationContext)
    ensures RuleCondition().IsSatisfied(name, context)
  {
  }

  /** A type mismatch fails the condition whatever the predicate would say, so the predicate is never consulted. */
  lemma TypeMismatchDecides(t: NameType, p: (string, GenerationContext) -> bool,
                            q: (string, GenerationContext) -> bool, name: string, context: GenerationContext)
    requires context.Type != t
    ensures !RuleCondition(Some(t), Some(p)).IsSatisfied(name, context)
    ensures RuleCondition(Some(t), Some(p)).IsSatisfied(name, context) ==
            RuleCondition(Some(t), Some(q)).IsSatisfied(name, context)
  {
  }

  /** An absent predicate leaves only the type check. */
  lemma AbsentPredicateIgnored(t: Option<NameType>, name: string, context: GenerationContext)
    ensures RuleCondition(t, None).IsSatisfied(name, context) == (t.None? || context.Type == t.value)
  {
  }
}
