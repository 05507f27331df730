# LoreGen name generation, modelled in Dafny

LoreGen builds fantasy names in two ways.

- **Syllable chain.** `NameGenerator` seeds a `RandomProvider`, draws a syllable count in
  `[min, max]` (defaults 2 and 3), and picks syllables from a `SyllableDatabase` one position at
  a time. Position 0 takes a syllable that may open a name. Each later position starts from the
  previous syllable's followers; at the last position it prefers the followers that may close a
  name. It then drops the previous syllable's id, and after a syllable ending in a vowel it keeps
  only the candidates starting with a consonant, when there are any. Each pick is a weighted
  choice. A position without candidates throws. The name is the patterns joined with the first
  character upper-cased; the impression is the per-dimension mean.
- **Derivation.** With a base name and a `DerivationEngine`, the engine takes the best rule of
  its `Ruleset`. Rules are filtered by regex match and condition, then stable-sorted by
  descending priority, and the first is taken. The rule rewrites the name, and its impression
  shift is added to the default impression, each dimension clamped into [0, 1].

Modules, one per source file of the core:

- `Wrappers`: `Option`, the thrown exceptions as `Error`, and `Result`.
- `Seqs`: `Filter` and `Map`, the LINQ `Where` and `Select`.
- `Impressions` (`ImpressionVector`).
- `Contexts` (the request and result records).
- `Syllables` (`SyllableStructure`, `PhoneticConstraints`, `Syllable`).
- `Randomness` (`RandomProvider`).
- `SyllableStore` (`SyllableDatabase`).
- `Regexes`: the foreign regex engine as a value, plus a concrete engine for the suffix family `^(.+)X$` to `$1Y`.
- `RuleConditions`, `DerivationRules`, `Rulesets`, `Derivation`.
- `Chains` and `Generation` (`NameGenerator`).

How the C# maps onto Dafny:

- Classes whose fields change become Dafny classes with `modifies` clauses: `SyllableDatabase`, `Ruleset` and `RandomProvider`.
- Syllables and rules are compared by reference in the C#, so they are classes with constant fields.
- Value records become datatypes carrying the C# defaults.
- Loops stay loops: `SelectSyllables`, `CalculateImpression` and `ChooseWeighted`. Each is proved against a function:
  - `Chains.Selection` for the syllable chain;
  - `Generation.MeanImpression` for the mean impression;
  - `Randomness.WeightedChoice` for the weighted choice.

  Lemmas about these functions state what the source promises.

Foreign inputs become parameters:

- `System.Random` is a `DrawSource`: sample `k` of seed `s` is `source(s, k)`, a value in [0, 1). A provider counts the samples it has taken.
- The `Guid` hash the generator seeds with when the context has no seed is the parameter `fallbackSeed`.
- The regex engine is a `RegexEngine` value passed to each call.

## Model

| member | source | states |
|---|---|---|
| Impressions.Zero | LoreGen/Sources/Core/ImpressionVector.cs:43 | every one of the eight components is 0 |
| Impressions.MathClamp | LoreGen/Sources/Core/ImpressionVector.cs:54 | `Math.Clamp`: the result lies in [min, max]; it is the value when the value is inside, min below, max above |
| Impressions.ImpressionVector.Normalize | LoreGen/Sources/Core/ImpressionVector.cs:96-109 | each component is the clamp of that component into [0, 1]; the result is in range |
| Impressions.NormalizeIdentityOnRange | LoreGen/Sources/Core/ImpressionVector.cs:96-109 | normalizing an in-range vector returns it unchanged |
| Impressions.NormalizeIdempotent | LoreGen/Sources/Core/ImpressionVector.cs:96-109 | normalizing twice equals normalizing once |
| Impressions.Blend | LoreGen/Sources/Core/ImpressionVector.cs:52-68 | the weight is clamped into [0, 1], then each dimension interpolates the two components with that weight |
| Impressions.BlendEndpoints | LoreGen/Sources/Core/ImpressionVector.cs:52-68 | a weight at or below 0 gives the first vector; at or above 1, the second |
| Impressions.BlendHalfIsMidpoint | LoreGen.Tests/Core/ImpressionVectorTests.cs:45-54 | weight 0.5 gives the componentwise midpoint |
| Impressions.ConvexInUnit | LoreGen/Sources/Core/ImpressionVector.cs:59 | interpolating two numbers in [0, 1] with a weight in [0, 1] stays in [0, 1] |
| Impressions.BlendInRange | LoreGen/Sources/Core/ImpressionVector.cs:52-68 | blending two in-range vectors gives an in-range vector, for every weight |
| Impressions.Add | LoreGen/Sources/Generation/NameGenerator.cs:150-160 | each dimension of the sum is the sum of the two components |
| Impressions.DivideBy | LoreGen/Sources/Generation/NameGenerator.cs:162-173 | each dimension is divided by the count |
| Syllables.SyllableStructure.GetStructureType | LoreGen/Sources/Data/SyllableStructure.cs:18-25 | the length is the number of non-empty parts; every letter is C or V; V occurs exactly when there is a nucleus; given a nucleus, the first letter is C exactly when there is an onset, and the last exactly when there is a coda |
| Syllables.SyllableStructure.GetPattern | LoreGen/Sources/Data/SyllableStructure.cs:28 | onset, nucleus and coda each appear at their own offset, and the lengths add up |
| Syllables.SyllableStructure.EndsWithVowel | LoreGen.Tests/Data/SyllableStructureTests.cs:77-113 | holds exactly when the structure type ends in V |
| Syllables.SyllableStructure.StartsWithVowel | LoreGen.Tests/Data/SyllableStructureTests.cs:116-152 | holds exactly when the structure type starts with V |
| Syllables.StructureTypeExamples | LoreGen.Tests/Data/SyllableStructureTests.cs:10-74 | the tested structures give CVC, CV, VC and V; str+ei+nt gives the pattern "streint" |
| Syllables.Syllable.constructor | LoreGen/Sources/Data/Syllable.cs:8-27 | every property takes the given value; weight 1.0 and empty constraints are the defaults |
| Syllables.Weights | LoreGen/Sources/Generation/NameGenerator.cs:122 | the selector `s => s.Weight` applied in order: the same length, with entry i the weight of syllable i |
| Randomness.ScaledBelow | LoreGen/Sources/Utilities/RandomProvider.cs:40 | `Next(n)` for a sample: the integer part of r·n, in [0, n) when n > 0 |
| Randomness.Between | LoreGen/Sources/Utilities/RandomProvider.cs:45 | `Next(lo, hi)` for a sample: a value in [lo, hi), or lo when lo == hi |
| Randomness.Pick | LoreGen/Sources/Utilities/RandomProvider.cs:71-77 | fails with `ArgumentException("items")` exactly when the list is empty; otherwise returns an element of it |
| Randomness.FirstReaching | LoreGen/Sources/Utilities/RandomProvider.cs:94-101 | the least index from i on whose cumulative weight reaches the draw, or the last index |
| Randomness.WeightedIndex | LoreGen/Sources/Utilities/RandomProvider.cs:93-101 | no earlier index reaches the draw, and this one does unless it is the last |
| Randomness.WeightedIndexUnique | LoreGen/Sources/Utilities/RandomProvider.cs:93-101 | those properties determine the index |
| Randomness.ScaledDrawIsProduct | LoreGen/Sources/Utilities/RandomProvider.cs:91 | the scaled draw is the sample times the total weight |
| Randomness.WeightedChoice | LoreGen/Sources/Utilities/RandomProvider.cs:82-102 | a count mismatch is an `ArgumentException`; an empty list is one for "items"; otherwise the result is an element of the list |
| Randomness.PrefixSumMonotone | LoreGen/Sources/Utilities/RandomProvider.cs:93-96 | with non-negative weights the cumulative weight never decreases |
| Randomness.DrawWithinTotal | LoreGen/Sources/Utilities/RandomProvider.cs:90-91 | with non-negative weights the scaled draw lies in [0, total] |
| Randomness.ScaleWithin | LoreGen/Sources/Utilities/RandomProvider.cs:91 | a sample in [0, 1) times a non-negative total lies in [0, total] |
| Randomness.WeightedIndexInterval | LoreGen/Sources/Utilities/RandomProvider.cs:90-101 | item k is chosen exactly when the draw lies in (PrefixSum(k), PrefixSum(k+1)], the interval closed at 0 for k = 0 |
| Randomness.ZeroWeightUnreachable | LoreGen/Sources/Utilities/RandomProvider.cs:93-99 | a zero-weight item after the first is never chosen |
| Randomness.AllZeroWeightsPickFirst | LoreGen/Sources/Utilities/RandomProvider.cs:93-99 | with every weight 0 the first item is chosen |
| Randomness.ZeroWeightFirstReachable | LoreGen/Sources/Utilities/RandomProvider.cs:93-99 | a zero-weight first item is chosen by the sample 0 |
| Randomness.RandomProvider.constructor | LoreGen/Sources/Utilities/RandomProvider.cs:24-28 | keeps the seed; no sample has been taken yet |
| Randomness.RandomProvider.Next | LoreGen/Sources/Utilities/RandomProvider.cs:40 | a negative bound fails and takes no sample; otherwise one sample, and the result lies in [0, maxValue) |
| Randomness.RandomProvider.NextInRange | LoreGen/Sources/Utilities/RandomProvider.cs:45 | min > max fails and takes no sample; otherwise one sample, and the result lies in [min, max) |
| Randomness.RandomProvider.NextDouble | LoreGen/Sources/Utilities/RandomProvider.cs:50 | the next sample, in [0, 1); one sample taken |
| Randomness.RandomProvider.NextFloat | LoreGen/Sources/Utilities/RandomProvider.cs:55 | the next sample, in [0, 1); one sample taken |
| Randomness.RandomProvider.Choose | LoreGen/Sources/Utilities/RandomProvider.cs:71-77 | `Pick` of the next sample; a sample is taken only for a non-empty list |
| Randomness.RandomProvider.ChooseFromArray | LoreGen/Sources/Utilities/RandomProvider.cs:60-66 | the same as the list overload, on the array's elements |
| Randomness.RandomProvider.ChooseWeighted | LoreGen/Sources/Utilities/RandomProvider.cs:82-102 | the cumulative-sum loop returns `WeightedChoice` of the next sample; one sample is taken exactly when the call succeeds |
| Randomness.RandomProvider.Chance | LoreGen/Sources/Utilities/RandomProvider.cs:108 | true exactly when the sample is below p, so always true for p >= 1 and always false for p <= 0 |
| Randomness.SameSeedSameDraws | LoreGen.Tests/Utilities/RandomProviderTests.cs:17-27 | two providers with the same seed return the same values for the same calls |
| SyllableStore.Resolve | LoreGen/Sources/Data/SyllableDatabase.cs:47-49 | every result is the dictionary entry of some listed id, and every listed id in the dictionary contributes its entry |
| SyllableStore.ResolveAppend | LoreGen/Sources/Data/SyllableDatabase.cs:47-49 | resolving concatenated id lists concatenates the results, so allow-list order is kept |
| SyllableStore.ResolveMissing | LoreGen/Sources/Data/SyllableDatabase.cs:47-49 | ids absent from the dictionary are skipped |
| SyllableStore.SyllableDatabase.constructor | LoreGen/Sources/Data/SyllableDatabase.cs:12-13 | an empty dictionary and an empty list |
| SyllableStore.SyllableDatabase.GetById | LoreGen/Sources/Data/SyllableDatabase.cs:27-28 | present exactly when the id is a key; a syllable found carries that id and is listed |
| SyllableStore.SyllableDatabase.AddSyllable | LoreGen/Sources/Data/SyllableDatabase.cs:16-24 | an empty id fails and changes nothing; otherwise the id maps to the syllable, the list gains it only if that very object is missing, and every other id's lookup is unchanged |
| SyllableStore.SyllableDatabase.GetAll | LoreGen/Sources/Data/SyllableDatabase.cs:31 | each listed syllable's id is a key of the dictionary, and no object is listed twice |
| SyllableStore.SyllableDatabase.GetInitialSyllables | LoreGen/Sources/Data/SyllableDatabase.cs:34-35 | exactly the listed syllables that may open a name |
| SyllableStore.SyllableDatabase.GetFinalSyllables | LoreGen/Sources/Data/SyllableDatabase.cs:38-39 | exactly the listed syllables that may close a name |
| SyllableStore.SyllableDatabase.GetFollowingSyllables | LoreGen/Sources/Data/SyllableDatabase.cs:42-55 | with an allow-list, the allowed ids that resolve, and only those; without one, exactly the listed syllables whose id is not denied |
| SyllableStore.SyllableDatabase.Clear | LoreGen/Sources/Data/SyllableDatabase.cs:58-62 | both collections empty; no id resolves |
| SyllableStore.DuplicateIdKeepsBoth | LoreGen/Sources/Data/SyllableDatabase.cs:21-23 | adding two different objects with one id lists both, and the lookup returns the second |
| SyllableStore.ReAddSameObject | LoreGen/Sources/Data/SyllableDatabase.cs:22-23 | adding the same object twice lists it once |
| SyllableStore.ClearedIdIsMissing | LoreGen.Tests/Data/SyllableDatabaseTests.cs:149-157 | an id never added, or added before `Clear`, does not resolve |
| Regexes.ToLowerAscii | LoreGen/Sources/Rules/DerivationRule.cs:33 | upper-case ASCII letters become lower-case; every other character is unchanged |
| Regexes.Lower | LoreGen/Sources/Rules/DerivationRule.cs:33 | the same length, lower-cased character by character |
| Regexes.Line | LoreGen/Sources/Rules/DerivationRule.cs:33 | the text `$` can end at without `RegexOptions.Multiline`: the name without one final line feed, or the whole name when it does not end in one |
| Regexes.SuffixRewrite | LoreGen/Sources/Rules/DerivationRule.cs:44-47 | inside the suffix family, a line-feed-free stem followed by the suffix in any case, optionally followed by one final line feed, matches; it is replaced by the stem, the template's tail, then that line feed |
| Regexes.SuffixMismatch | LoreGen/Sources/Rules/DerivationRule.cs:33-34 | a name whose line holds a line feed, is too short for the suffix, or ends otherwise, does not match and is returned unchanged |
| RuleConditions.RuleCondition.IsSatisfied | LoreGen/Sources/Rules/RuleCondition.cs:18-29 | holds exactly when any required type equals the context's type and any predicate holds |
| RuleConditions.EmptyConditionHolds | LoreGen.Tests/Rules/RuleConditionTests.cs:11-18 | a condition with neither check always holds |
| RuleConditions.TypeMismatchDecides | LoreGen/Sources/Rules/RuleCondition.cs:21-22 | a type mismatch fails whatever the predicate is, so the predicate is never consulted |
| RuleConditions.AbsentPredicateIgnored | LoreGen/Sources/Rules/RuleCondition.cs:25 | without a predicate only the type check decides |
| DerivationRules.DerivationRule.constructor | LoreGen/Sources/Rules/DerivationRule.cs:9-27 | every property takes the given value; priority 0 and no condition are the defaults |
| DerivationRules.DerivationRule.CanApply | LoreGen/Sources/Rules/DerivationRule.cs:30-41 | false when the pattern does not match; holds exactly when it matches and any condition is satisfied |
| DerivationRules.DerivationRule.Apply | LoreGen/Sources/Rules/DerivationRule.cs:44-47 | the engine's replacement of the pattern by the template, consulting no condition; on the concrete engine a name the pattern does not match comes back unchanged |
| DerivationRules.ApplyIgnoresCondition | LoreGen/Sources/Rules/DerivationRule.cs:44-47 | two rules with the same pattern and template rewrite every name alike, whatever their conditions |
| DerivationRules.DefaultPriorityIsZero | LoreGen.Tests/Rules/DerivationRuleTests.cs:104-110 | a rule built without a priority has priority 0 |
| DerivationRules.SuffixRuleRewrites | LoreGen/Sources/Rules/DerivationRule.cs:44-47 | a suffix rule without a condition applies to a stem followed by the suffix in any case, and rewrites it to the stem followed by the tail; a final line feed is kept after the tail |
| DerivationRules.SuffixRuleMisses | LoreGen/Sources/Rules/DerivationRule.cs:33-34 | a name whose line holds a line feed, is too short, or differs from the suffix at some offset ignoring case, is not matched and is left unchanged |
| DerivationRules.ValdorExample | LoreGen.Tests/Rules/DerivationRuleTests.cs:51-63 | `^(.+)or$` to `$1orian` applies to "Valdor" and gives "Valdorian" |
| DerivationRules.ValdorBeforeLineFeed | LoreGen/Sources/Rules/DerivationRule.cs:33-46 | `$` also matches before a final line feed: "Valdor\n" is matched by `^(.+)or$` and gives "Valdorian\n" |
| DerivationRules.MatchIgnoresCase | LoreGen.Tests/Rules/DerivationRuleTests.cs:79-91 | `^(.+)OR$` applies to "valdor" and gives "valdorian" |
| DerivationRules.EnglandExample | LoreGen.Tests/Rules/DerivationRuleTests.cs:65-77 | `^(.+)land$` to `$1lish` applies to "England" and gives "English" |
| DerivationRules.KarthalMisses | LoreGen.Tests/Rules/DerivationEngineTests.cs:65-74 | `^(.+)or$` does not apply to "Karthal" and leaves it unchanged |
| Rulesets.Applicable | LoreGen/Sources/Rules/Ruleset.cs:36-37 | exactly the rules that can apply, each as often as it is listed |
| Rulesets.InsertByPriority | LoreGen/Sources/Rules/Ruleset.cs:38 | the result is a permutation of the list plus the inserted rule |
| Rulesets.SortByPriority | LoreGen/Sources/Rules/Ruleset.cs:38 | the result is a permutation of its input |
| Rulesets.InsertSorted | LoreGen/Sources/Rules/Ruleset.cs:38 | insertion keeps a list sorted by descending priority |
| Rulesets.SortSorted | LoreGen/Sources/Rules/Ruleset.cs:38 | the sort's result is sorted by descending priority |
| Rulesets.InsertWithPriority | LoreGen/Sources/Rules/Ruleset.cs:38 | the inserted rule comes first among the rules of its priority; other priorities are untouched |
| Rulesets.SortStable | LoreGen/Sources/Rules/Ruleset.cs:38 | for every priority, the rules of that priority keep their original order |
| Rulesets.EarliestMaximalIndex | LoreGen/Sources/Rules/Ruleset.cs:42-45 | an index of maximal priority, with every earlier rule of strictly lower priority |
| Rulesets.SortedHead | LoreGen/Sources/Rules/Ruleset.cs:42-45 | the head of the sorted list is the earliest rule of maximal priority |
| Rulesets.Ruleset.constructor | LoreGen/Sources/Rules/Ruleset.cs:10-25 | the given id, name, description and default impression; no rules |
| Rulesets.Ruleset.AddRule | LoreGen/Sources/Rules/Ruleset.cs:28-31 | appends the rule; the count grows by one and the earlier rules keep their order |
| Rulesets.Ruleset.GetApplicableRules | LoreGen/Sources/Rules/Ruleset.cs:34-39 | a permutation of the applicable rules, sorted by descending priority, with each priority's rules in insertion order |
| Rulesets.Ruleset.GetBestRule | LoreGen/Sources/Rules/Ruleset.cs:42-45 | absent exactly when no rule applies; otherwise an applicable rule of maximal priority, the earliest added among those |
| Rulesets.HigherPriorityWins | LoreGen.Tests/Rules/RulesetTests.cs:77-99 | of rules of priority 1 and 5 that both apply, the best is the one of priority 5 |
| Rulesets.EqualPriorityKeepsInsertionOrder | LoreGen/Sources/Rules/Ruleset.cs:38-44 | of two applicable rules of equal priority, the best is the one added first |
| Rulesets.BestOfTwo | LoreGen/Sources/Rules/Ruleset.cs:42-45 | of two applicable rules, the best is the higher-priority one, or the first on a tie |
| Rulesets.ThreePrioritiesSort | LoreGen.Tests/Rules/RulesetTests.cs:45-75 | priorities 1, 10, 5 sort to 10, 5, 1 |
| Rulesets.OrderedByDescendingPriority | LoreGen.Tests/Rules/RulesetTests.cs:45-75 | three applicable rules added with priorities 1, 10, 5 come back in the order 10, 5, 1 |
| Rulesets.AnyNameMatches | LoreGen/Sources/Rules/DerivationRule.cs:33 | `^(.+)$` matches every non-empty single-line name |
| Derivation.Clamp | LoreGen/Sources/Rules/DerivationEngine.cs:90-95 | the result lies in [0, 1] and equals `Math.Clamp(value, 0, 1)` |
| Derivation.ClampInUnit | LoreGen/Sources/Rules/DerivationEngine.cs:90-95 | the clamp gives 0 below 0, 1 above 1, the value in between, so it agrees with `Math.Clamp(value, 0, 1)` |
| Derivation.ClampSaturates | LoreGen.Tests/Rules/DerivationEngineTests.cs:88-107 | 0.9 + 0.5 clamps to exactly 1.0 |
| Derivation.ShiftImpression | LoreGen/Sources/Rules/DerivationEngine.cs:74-87 | each dimension is the clamped sum of base and shift, independently of the others |
| Derivation.ShiftInRange | LoreGen/Sources/Rules/DerivationEngine.cs:74-87 | every shifted impression is in [0, 1] |
| Derivation.ShiftIsNormalizedSum | LoreGen/Sources/Rules/DerivationEngine.cs:74-87 | shifting equals adding then normalizing |
| Derivation.ShiftWithinRangeIsExact | LoreGen/Sources/Rules/DerivationEngine.cs:74-87 | an in-range sum is applied exactly, and a zero shift leaves an in-range base unchanged |
| Derivation.DerivationEngine.constructor | LoreGen/Sources/Rules/DerivationEngine.cs:13-16 | the engine holds the given rule set |
| Derivation.DerivationEngine.Create | LoreGen/Sources/Rules/DerivationEngine.cs:13-16 | an absent rule set is an `ArgumentNullException`; otherwise a fresh engine over it |
| Derivation.DerivationEngine.Derive | LoreGen/Sources/Rules/DerivationEngine.cs:32-71 | an empty base name, and only it, gives the `ArgumentException` for "baseName", and every other name succeeds. With no applicable rule: the base name, the default impression and no rule recorded. Otherwise: the best rule's rewrite, its name recorded, and the clamped, in-range shifted impression. The rule set's id is recorded either way |
| Derivation.DerivationEngine.DeriveForType | LoreGen/Sources/Rules/DerivationEngine.cs:19-29 | fails exactly when the base name is empty; records the rule set's id and no syllables; without a best rule for a context of type `targetType`, returns the base name and the default impression with no rule recorded; otherwise applies and records that rule, whose condition requires no type or `targetType`, and returns the default impression shifted by its impression shift, clamped into range |
| Derivation.OtherTypesNeverApply | LoreGen/Sources/Rules/DerivationEngine.cs:19-29 | when every rule requires a type other than `targetType`, the base name and the default impression come back with no rule recorded |
| Derivation.PlaceOnlyRule | LoreGen.Tests/Rules/DerivationEngineTests.cs:133-154 | a place-only rule `^(.+)$` to `$1ian` turns "Test" into "Testian" for a place, and leaves "Test" with no rule for a person |
| Derivation.TestRulesMatch | LoreGen.Tests/Rules/DerivationEngineTests.cs:10-74 | the `or` rule applies to "Valdor" only, and the `land` rule to "England" only; neither applies to "Karthal" |
| Derivation.OnlyApplicableIsBest | LoreGen/Sources/Rules/Ruleset.cs:42-45 | of two rules where only one applies, that one is the best |
| Derivation.DeriveValdor | LoreGen.Tests/Rules/DerivationEngineTests.cs:41-119 | on the test rule set "Valdor" gives "Valdorian" by "Place to Adjective", with formality 0.8 and id "test" |
| Derivation.DeriveEngland | LoreGen.Tests/Rules/DerivationEngineTests.cs:52-63 | on the test rule set "England" gives "English" |
| Derivation.DeriveKarthal | LoreGen.Tests/Rules/DerivationEngineTests.cs:65-74 | on the test rule set "Karthal" comes back unchanged, with no rule recorded |
| Chains.PreferFinal | LoreGen/Sources/Generation/NameGenerator.cs:86-90 | the last position keeps only followers, and is never empty when there are followers |
| Chains.PreferFinalKeeps | LoreGen/Sources/Generation/NameGenerator.cs:86-90 | when some follower may close a name, the last position's candidates are exactly the closing followers, and otherwise all followers |
| Chains.Euphonic | LoreGen/Sources/Generation/NameGenerator.cs:100-117 | only candidates with another id than the previous syllable are kept, and every such consonant-initial one is kept. The result is non-empty exactly when some candidate has another id. Without a vowel ending, all of them are kept. After a vowel ending, only consonant-initial ones are kept when one exists, and all of them otherwise |
| Chains.Candidates | LoreGen/Sources/Generation/NameGenerator.cs:76-117 | the candidates of one position (initial syllables at position 0; the filtered followers later). It has no contract of its own: `CandidatesListed` and `LaterCandidate` state its properties, and `NameGenerator.PositionCandidates` is proved equal to it |
| Chains.Selection | LoreGen/Sources/Generation/NameGenerator.cs:70-127 | the whole chain as a function of the samples, one position per step. It has no contract of its own: `SelectionShape`, `SelectionFailure` and `ChainProperties` state its properties, and `NameGenerator.SelectSyllables` is proved equal to it |
| Chains.WeightedPick | LoreGen/Sources/Generation/NameGenerator.cs:122 | the weighted pick is one of the candidates |
| Chains.SelectionStep | LoreGen/Sources/Generation/NameGenerator.cs:119-124 | at a position with candidates, `ChooseWeighted` of its sample succeeds with a candidate, and the chain goes on from the extended prefix and the next sample |
| Chains.SelectionStuck | LoreGen/Sources/Generation/NameGenerator.cs:119-120 | a position without candidates ends the chain with `InvalidOperationException` at that position |
| Chains.SelectionShape | LoreGen/Sources/Generation/NameGenerator.cs:74-126 | a completed chain has `count` syllables extending the given prefix, and each added syllable was a candidate after the ones before it |
| Chains.SelectionFailure | LoreGen/Sources/Generation/NameGenerator.cs:119-120 | a failed chain fails only with `InvalidOperationException` at a position below `count`, reached by a prefix with no candidates; no partial result is returned |
| Chains.CandidatesListed | LoreGen/Sources/Generation/NameGenerator.cs:78-97 | every candidate is a listed syllable of the store |
| Chains.LaterCandidate | LoreGen/Sources/Generation/NameGenerator.cs:83-116 | a later candidate is a follower of the previous syllable with another id; under the vowel rule it starts with a consonant; at the last position it may close a name whenever some follower may |
| Chains.ChainProperties | LoreGen/Sources/Generation/NameGenerator.cs:70-127 | a completed chain has `count` syllables. The first may open a name. No two adjacent ones share an id, and each follows its predecessor. The vowel rule holds, and the last may close a name when some follower may |
| Generation.SyllableCount | LoreGen/Sources/Generation/NameGenerator.cs:63-68 | the count lies in [min, max] with defaults 2 and 3; min > max + 1 is the `ArgumentOutOfRangeException` of `Next`; min == max + 1 gives min |
| Generation.CountDefaultsAndFixed | LoreGen.Tests/Integration/Phase1IntegrationTests.cs:113-136 | without constraints the count is 2 or 3; with min = max = k it is k |
| Generation.ToUpperAscii | LoreGen/Sources/Generation/NameGenerator.cs:138 | lower-case ASCII letters are upper-cased; every other character is unchanged |
| Generation.ConcatHoldsPatterns | LoreGen/Sources/Generation/NameGenerator.cs:134 | the joined string holds each pattern, in order, at its offset |
| Generation.Patterns | LoreGen/Sources/Generation/NameGenerator.cs:57 | the patterns of the syllables, in order |
| Generation.CombineSyllables | LoreGen/Sources/Generation/NameGenerator.cs:129-141 | empty for no syllables; otherwise the joined patterns with only the first character upper-cased |
| Generation.CombineExample | LoreGen/Sources/Generation/NameGenerator.cs:129-141 | "kar" then "thal" combine to "Karthal" |
| Generation.MeanImpression | LoreGen/Sources/Generation/NameGenerator.cs:145-146 | the mean of no syllables is the zero vector |
| Generation.MeanInRange | LoreGen/Sources/Generation/NameGenerator.cs:143-174 | the mean of impressions in [0, 1] is in [0, 1] |
| Generation.MeanOfOne | LoreGen/Sources/Generation/NameGenerator.cs:143-174 | the mean of one syllable is its impression |
| Generation.ChainResult | LoreGen/Sources/Generation/NameGenerator.cs:51-60 | no rule set id and no rules are recorded; the used syllables are the patterns in order |
| Generation.DerivationDispatch | LoreGen/Sources/Generation/NameGenerator.cs:33-36 | with a non-empty base name and an engine, the result is exactly the engine's derivation |
| Generation.BaseNameIgnoredWithoutEngine | LoreGen.Tests/Generation/NameGeneratorDerivationTests.cs:97-115 | without an engine, the base name does not change the result |
| Generation.SeededIsReproducible | LoreGen/Sources/Generation/NameGenerator.cs:38 | with a seed in the context, the result does not depend on the fallback seed |
| Generation.SyllablePathResult | LoreGen/Sources/Generation/NameGenerator.cs:38-60 | a syllable-path result records no rule set id and no rules; it uses between min and max syllables; its impression is in range when every stored impression is |
| Generation.NameGenerator.constructor | LoreGen/Sources/Generation/NameGenerator.cs:23-27 | the generator holds the given store and engine |
| Generation.NameGenerator.Create | LoreGen/Sources/Generation/NameGenerator.cs:25 | an absent store is an `ArgumentNullException`; otherwise a fresh generator over it |
| Generation.NameGenerator.DetermineSyllableCount | LoreGen/Sources/Generation/NameGenerator.cs:63-68 | `SyllableCount` of the next sample; one sample taken when it succeeds |
| Generation.NameGenerator.PositionCandidates | LoreGen/Sources/Generation/NameGenerator.cs:76-117 | the loop body's candidate computation yields `Candidates` for that position |
| Generation.NameGenerator.NextSyllable | LoreGen/Sources/Generation/NameGenerator.cs:119-123 | without candidates: the `InvalidOperationException`, no sample, and the chain fails there. Otherwise: one sample, a candidate, and the chain continues from the extended prefix |
| Generation.NameGenerator.SelectSyllables | LoreGen/Sources/Generation/NameGenerator.cs:70-127 | the loop's result is `Selection` of the provider's samples; on success one sample per syllable is taken |
| Generation.NameGenerator.CalculateImpression | LoreGen/Sources/Generation/NameGenerator.cs:143-174 | the summing loop returns `MeanImpression` |
| Generation.Generation | LoreGen/Sources/Generation/NameGenerator.cs:30-61 | the whole of `Generate` as a function. It has no contract of its own: `DerivationDispatch`, `BaseNameIgnoredWithoutEngine`, `SeededIsReproducible` and `SyllablePathResult` state its properties |
| Generation.NameGenerator.Generate | LoreGen/Sources/Generation/NameGenerator.cs:30-61 | the result is `Generation`: the engine's derivation, or the syllable path with sample 0 for the count and sample 1 + i for position i |

## Left out

- `System.Random`, `Environment.TickCount` and `Guid.NewGuid`: they are foreign and not reproducible. Samples come from the `DrawSource` parameter, and the fallback seed is a parameter.
- General regular-expression semantics: the engine is a parameter. Only the suffix family `^(.+)X$` to `$1Y` has a concrete meaning (`SuffixRegex`). It folds ASCII case only, and follows .NET's rule that without `RegexOptions.Multiline` the `$` anchor also matches before one final line feed.
- `Derivation.DerivationEngine.Derive`: a null base name cannot be represented, because Dafny strings are never null. It would throw the same `ArgumentException` for "baseName" as `""` (`DerivationEngine.cs:34-35`, `string.IsNullOrEmpty`).
- `SyllableStore.SyllableDatabase.AddSyllable`: a null `Id` cannot be represented, for the same reason. It would throw the same `ArgumentException` as an empty id (`SyllableDatabase.cs:18-19`).
- Setters on `Syllable` and `DerivationRule`: the C# properties are settable, but the core only reads them after construction, so they are constant fields here. The model therefore cannot express changing a stored syllable's `Id` through an alias, which would leave its dictionary key stale.
- `ImpressionVector.Distance` and `ToString`: square roots and formatting.
- `Generation.ToUpperAscii`: `char.ToUpperInvariant` is modelled on ASCII letters only, because Unicode case mapping is not available.
- Floating point: `float` and `double` are `real`, so rounding is not modelled. `NextFloat`'s narrowing of a `double` to `float` is left out for the same reason.
- `Generation.SyllableCount`: the 32-bit wrap-around of `max + 1` when `max` is `int.MaxValue` is not modelled, because integers are unbounded.
- Fields the core never reads (`PreferredLength`, `MustStartWith`, `TargetImpression`, `EuphonyScore` and the like) are not modelled.
- The sample data, demo programs and statistical tests of the repository are not modelled: they are data and frequency checks, not contracts.
- The verification relies on `Selection` deciding one position per recursive step, so the name generator's loop is split into `NextSyllable` (one pass of the loop body) and `SelectSyllables` (the loop). The behaviour is unchanged.

## Notes on the source

- `NameGenerator.cs:122` calls `ChooseWeighted(candidates, s => s.Weight)`, a selector overload that `RandomProvider.cs` does not declare. It is modelled as the list-and-weights overload (`RandomProvider.cs:82`) applied to `Weights(candidates)`.
- `RandomProvider.cs:101` falls back to the last item when no cumulative weight reaches the draw. That fallback holds, but when every weight is 0 the draw is 0, and `0 <= 0` selects the first item (`RandomProvider.cs:97`). The model follows the code; see `AllZeroWeightsPickFirst` and `ZeroWeightFirstReachable`.
- A rejected syllable-count range (`min > max + 1`) is modelled as the `ArgumentOutOfRangeException` that `Random.Next` throws, not as a precondition. With `min == max + 1`, `Next(min, min)` returns `min`, so the count is `min`.
