/** A name-derivation rule (LoreGen.Rules.DerivationRule). */
module DerivationRules {
  import opened Wrappers
  import opened Impressions
  import opened Contexts
  import opened Regexes
  import opened RuleConditions

  /**
   * A rule: a name, a match pattern, a replacement template, an optional condition, an impression
   * shift and a priority (0 by default; higher wins). Rules are told apart by reference, as the
   * C# list of rules does. The core never changes a rule's properties, so they are constants.
   */
  class DerivationRule {
    const Name: string
    const MatchPattern: string
    const ReplacePattern: string
    const Condition: Option<RuleCondition>
    const ImpressionShift: ImpressionVector
    const Priority: real

    /** An object initialiser; omitted properties take the C# defaults (empty strings, no condition, zero shift, priority 0). */
    constructor (
      name: string := "",
      matchPattern: string := "",
      replacePattern: string := "",
      condition: Option<RuleCondition> := None,
      impressionShift: ImpressionVector := ImpressionVector(),
      priority: real := 0.0)
      ensures Name == name && MatchPattern == matchPattern && ReplacePattern == replacePattern
      ensures Condition == condition && ImpressionShift == impressionShift && Priority == priority
    {
      Name := name;
      MatchPattern := matchPattern;
      ReplacePattern := replacePattern;
      Condition := condition;
      ImpressionShift := impressionShift;
      Priority := priority;
    }

    /** `CanApply`: the pattern matches the name (ignoring case) and the condition, if any, holds. */
    function CanApply(name: string, context: GenerationContext, regex: RegexEngine): (b: bool)
      ensures !regex.IsMatch(name, MatchPattern) ==> !b
      ensures b <==>
        regex.IsMatch(name, MatchPattern) && (Condition.None? || Condition.value.IsSatisfied(name, context))
    {
      if !regex.IsMatch(name, MatchPattern) then false
      else if Condition.Some? && !Condition.value.IsSatisfied(name, context) then false
      else true
    }

    /**
     * `Apply`: the case-insensitive replacement of the pattern by the template; no condition is
     * consulted. Like .NET's `Regex.Replace`, the concrete engine returns a name the pattern does
     * not match unchanged.
     */
    function Apply(name: string, regex: RegexEngine): (r: string)
      ensures regex == SuffixRegex && !regex.IsMatch(name, MatchPattern) ==> r == name
    {
      regex.Replace(name, MatchPattern, ReplacePattern)
    }
  }

  /** A rule built with no priority has priority 0. */
  method DefaultPriorityIsZero() returns (p: real)
    ensures p == 0.0
  {
    var rule := new DerivationRule(name := "Default");
    p := rule.Priority;
  }

  /**
   * A suffix rule `^(.+)X$` to `$1Y` applies to a name spelling `X` in any case after a non-empty
   * stem (when it has no condition), and rewrites it to the stem followed by `Y`; a final line
   * feed after the suffix is kept after `Y`.
   */
  lemma {:induction false} SuffixRuleRewrites(rule: DerivationRule, stem: string, spelled: string, ending: string,
                                              context: GenerationContext)
    requires IsSuffixPattern(rule.MatchPattern) && IsSuffixTemplate(rule.ReplacePattern)
    requires rule.Condition.None?
    requires |stem| > 0 && '\n' !in stem + spelled && (ending == "" || ending == "\n")
    requires Lower(spelled) == Lower(SuffixOf(rule.MatchPattern))
    ensures rule.CanApply(stem + spelled + ending, context, SuffixRegex)
    ensures rule.Apply(stem + spelled + ending, SuffixRegex) == stem + TemplateTail(rule.ReplacePattern) + ending
  {
    SuffixRewrite(stem, spelled, ending, rule.MatchPattern, rule.ReplacePattern);
  }

  /**
   * A suffix rule does not apply to a name whose line (the name without one final line feed)
   * holds a line feed, is too short for its suffix, or has a character at offset `k` of the
   * suffix that differs from the suffix's, ignoring case.
   */
  lemma {:induction false} SuffixRuleMisses(rule: DerivationRule, name: string, k: nat, context: GenerationContext)
    requires IsSuffixPattern(rule.MatchPattern)
    requires var line := Line(name);
      '\n' in line || |line| <= |SuffixOf(rule.MatchPattern)| ||
      (k < |SuffixOf(rule.MatchPattern)| &&
       ToLowerAscii(line[|line| - |SuffixOf(rule.MatchPattern)| + k]) != ToLowerAscii(SuffixOf(rule.MatchPattern)[k]))
    ensures !rule.CanApply(name, context, SuffixRegex)
    ensures rule.Apply(name, SuffixRegex) == name
  {
    var x := SuffixOf(rule.MatchPattern);
    var line := Line(name);
    if '\n' !in line && |line| > |x| {
      assert Lower(line[|line| - |x|..])[k] != Lower(x)[k];
    }
    SuffixMismatch(name, rule.MatchPattern, rule.ReplacePattern);
  }

  /** `Apply` never consults the condition: two rules with the same pattern and template rewrite every name alike. */
  lemma ApplyIgnoresCondition(a: DerivationRule, b: DerivationRule, name: string, regex: RegexEngine)
    requires a.MatchPattern == b.MatchPattern && a.ReplacePattern == b.ReplacePattern
    ensures a.Apply(name, regex) == b.Apply(name, regex)
  {
  }

  /** `^(.+)or$` is the suffix pattern of "or", and `$1orian` appends "orian". */
  lemma OrRuleText()
    ensures IsSuffixPattern("^(.+)or$") && SuffixOf("^(.+)or$") == "or"
    ensures IsSuffixTemplate("$1orian") && TemplateTail("$1orian") == "orian"
  {
    assert "^(.+)or$"[..5] == "^(.+)";
    assert "$1orian"[..2] == "$1";
  }

  /** `^(.+)OR$` is the suffix pattern of "OR". */
  lemma UpperOrRuleText()
    ensures IsSuffixPattern("^(.+)OR$") && SuffixOf("^(.+)OR$") == "OR"
  {
    assert "^(.+)OR$"[..5] == "^(.+)";
  }

  /** `^(.+)land$` is the suffix pattern of "land", and `$1lish` appends "lish". */
  lemma LandRuleText()
    ensures IsSuffixPattern("^(.+)land$") && SuffixOf("^(.+)land$") == "land"
    ensures IsSuffixTemplate("$1lish") && TemplateTail("$1lish") == "lish"
  {
    assert "^(.+)land$"[..5] == "^(.+)";
    assert "$1lish"[..2] == "$1";
  }

  /** `^(.+)or$` to `$1orian` applies to "Valdor" and turns it into "Valdorian". */
  lemma ValdorExample(rule: DerivationRule, context: GenerationContext)
    requires rule.MatchPattern == "^(.+)or$" && rule.ReplacePattern == "$1orian" && rule.Condition.None?
    ensures rule.CanApply("Valdor", context, SuffixRegex)
    ensures rule.Apply("Valdor", SuffixRegex) == "Valdorian"
  {
    OrRuleText();
    SuffixRuleRewrites(rule, "Vald", "or", "", context);
    assert "Vald" + "or" + "" == "Valdor" && "Vald" + "orian" + "" == "Valdorian";
  }

  /**
   * Without `RegexOptions.Multiline`, `$` also matches before a final line feed: `^(.+)or$` to
   * `$1orian` applies to "Valdor\n" and gives "Valdorian\n".
   */
  lemma ValdorBeforeLineFeed(rule: DerivationRule, context: GenerationContext)
    requires rule.MatchPattern == "^(.+)or$" && rule.ReplacePattern == "$1orian" && rule.Condition.None?
    ensures rule.CanApply("Valdor\n", context, SuffixRegex)
    ensures rule.Apply("Valdor\n", SuffixRegex) == "Valdorian\n"
  {
    OrRuleText();
    SuffixRuleRewrites(rule, "Vald", "or", "\n", context);
    assert "Vald" + "or" + "\n" == "Valdor\n" && "Vald" + "orian" + "\n" == "Valdorian\n";
  }

  /** The match ignores case: `^(.+)OR$` to `$1orian` turns "valdor" into "valdorian". */
  lemma MatchIgnoresCase(rule: DerivationRule, context: GenerationContext)
    requires rule.MatchPattern == "^(.+)OR$" && rule.ReplacePattern == "$1orian" && rule.Condition.None?
    ensures rule.CanApply("valdor", context, SuffixRegex)
    ensures rule.Apply("valdor", SuffixRegex) == "valdorian"
  {
    UpperOrRuleText();
    OrRuleText();
    assert Lower("or") == "or" && Lower("OR") == "or";
    SuffixRuleRewrites(rule, "vald", "or", "", context);
    assert "vald" + "or" + "" == "valdor" && "vald" + "orian" + "" == "valdorian";
  }

  /** `^(.+)land$` to `$1lish` applies to "England" and turns it into "English". */
  lemma EnglandExample(rule: DerivationRule, context: GenerationContext)
    requires rule.MatchPattern == "^(.+)land$" && rule.ReplacePattern == "$1lish" && rule.Condition.None?
    ensures rule.CanApply("England", context, SuffixRegex)
    ensures rule.Apply("England", SuffixRegex) == "English"
  {
    LandRuleText();
    SuffixRuleRewrites(rule, "Eng", "land", "", context);
    assert "Eng" + "land" + "" == "England" && "Eng" + "lish" + "" == "English";
  }

  /** `^(.+)or$` does not apply to "Karthal" and leaves it unchanged. */
  lemma KarthalMisses(rule: DerivationRule, context: GenerationContext)
    requires rule.MatchPattern == "^(.+)or$"
    ensures !rule.CanApply("Karthal", context, SuffixRegex)
    ensures rule.Apply("Karthal", SuffixRegex) == "Karthal"
  {
    OrRuleText();
    SuffixRuleMisses(rule, "Karthal", 0, context);
  }
}
