/**
 * The name generator (LoreGen.Generation.NameGenerator). With a non-empty base name and a
 * derivation engine it hands over to the engine; otherwise it seeds a random provider, draws a
 * syllable count, builds a syllable chain (module `Chains`), joins the patterns with the first
 * character upper-cased and averages the syllables' impressions.
 */
module Generation {
  import opened Wrappers
  import opened Seqs
  import opened Impressions
  import opened Contexts
  import opened Syllables
  import opened SyllableStore
  import opened Randomness
  import opened Regexes
  import opened Derivation
  import opened Chains

  // ---------------------------------------------------------------- syllable count

  /**
   * `DetermineSyllableCount` for the sample `r`: `Next(min, max + 1)` with `min` and `max`
   * defaulting to 2 and 3, so a count in [min, max]; `min > max + 1` is the
   * `ArgumentOutOfRangeException` of `Next`, and `min == max + 1` gives `min`.
   */
  function SyllableCount(constraints: StructuralConstraints, r: real): (c: Result<int>)
    requires 0.0 <= r < 1.0
    ensures var min := constraints.MinSyllables.GetOr(2);
      var max := constraints.MaxSyllables.GetOr(3);
      && (c.Success? <==> min <= max + 1)
      && (c.Failure? ==> c.error == ArgumentOutOfRange("minValue"))
      && (c.Success? && min <= max ==> min <= c.value <= max)
      && (c.Success? && min == max + 1 ==> c.value == min)
  {
    var min := constraints.MinSyllables.GetOr(2);
    var max := constraints.MaxSyllables.GetOr(3);
    if min > max + 1 then Failure(ArgumentOutOfRange("minValue"))
    else Success(Between(min, max + 1, r))
  }

  /** Without constraints the count is 2 or 3, and with `min == max == k` it is `k`. */
  lemma CountDefaultsAndFixed(r: real, k: int)
    requires 0.0 <= r < 1.0
    ensures var c := SyllableCount(StructuralConstraints(), r); c.Success? && 2 <= c.value <= 3
    ensures SyllableCount(StructuralConstraints(Some(k), Some(k)), r) == Success(k)
  {
  }

  // ---------------------------------------------------------------- name

  /** `char.ToUpperInvariant` on the ASCII letters; every other character is left alone. */
  function ToUpperAscii(c: char): (d: char)
    ensures 'a' <= c <= 'z' ==> 'A' <= d <= 'Z' && d as int == c as int - 32
    ensures !('a' <= c <= 'z') ==> d == c
  {
    if 'a' <= c <= 'z' then (c as int - 'a' as int + 'A' as int) as char else c
  }

  /** `string.Join("", patterns)`. */
  function Concat(patterns: seq<string>): string {
    if patterns == [] then "" else patterns[0] + Concat(patterns[1..])
  }

  /** The patterns' total length: the positions where each pattern starts in the joined name. */
  function Offset(patterns: seq<string>, i: nat): nat
    requires i <= |patterns|
  {
    if i == 0 then 0 else Offset(patterns, i - 1) + |patterns[i - 1]|
  }

  /** Joining two lists of patterns one after the other is joining their concatenation. */
  lemma {:induction false} ConcatAppend(a: seq<string>, b: seq<string>)
    ensures Concat(a + b) == Concat(a) + Concat(b)
  {
    if a == [] {
      assert a + b == b;
    } else {
      assert (a + b)[0] == a[0];
      assert (a + b)[1..] == a[1..] + b;
      ConcatAppend(a[1..], b);
    }
  }

  /** The first `i` patterns join to a string of length `Offset(patterns, i)`. */
  lemma {:induction false} ConcatPrefixLength(patterns: seq<string>, i: nat)
    requires i <= |patterns|
    ensures |Concat(patterns[..i])| == Offset(patterns, i)
  {
    if i > 0 {
      ConcatPrefixLength(patterns, i - 1);
      assert patterns[..i] == patterns[..i - 1] + [patterns[i - 1]];
      ConcatAppend(patterns[..i - 1], [patterns[i - 1]]);
      assert Concat([patterns[i - 1]]) == patterns[i - 1] + Concat([]);
    }
  }

  /** The joined string holds every pattern, in order, at its offset; its length is the total length. */
  lemma {:induction false} ConcatHoldsPatterns(patterns: seq<string>, i: nat)
    requires i < |patterns|
    ensures |Concat(patterns)| == Offset(patterns, |patterns|)
    ensures Offset(patterns, i) + |patterns[i]| <= |Concat(patterns)|
    ensures Concat(patterns)[Offset(patterns, i)..Offset(patterns, i) + |patterns[i]|] == patterns[i]
  {
    assert patterns == patterns[..i] + patterns[i..];
    ConcatAppend(patterns[..i], patterns[i..]);
    ConcatPrefixLength(patterns, i);
    ConcatPrefixLength(patterns, |patterns|);
    assert patterns[..|patterns|] == patterns;
    assert Concat(patterns[i..]) == patterns[i] + Concat(patterns[i + 1..]) by {
      assert patterns[i..][0] == patterns[i];
      assert patterns[i..][1..] == patterns[i + 1..];
    }
  }

  /** The patterns of a list of syllables (the `Select(s => s.Pattern)`). */
  function Patterns(syllables: seq<Syllable>): (r: seq<string>)
    ensures |r| == |syllables| && forall i | 0 <= i < |syllables| :: r[i] == syllables[i].Pattern
  {
    Map(syllables, (s: Syllable) => s.Pattern)
  }

  /**
   * `CombineSyllables`: the patterns joined, with the first character upper-cased; empty for no
   * syllables. Only the first character differs from the joined patterns.
   */
  function CombineSyllables(syllables: seq<Syllable>): (name: string)
    ensures |syllables| == 0 ==> name == ""
    ensures |name| == |Concat(Patterns(syllables))|
    ensures |name| > 0 ==> name[0] == ToUpperAscii(Concat(Patterns(syllables))[0])
    ensures |name| > 0 ==> name[1..] == Concat(Patterns(syllables))[1..]
  {
    if |syllables| == 0 then ""
    else
      var name := Concat(Patterns(syllables));
      if |name| > 0 then [ToUpperAscii(name[0])] + name[1..] else name
  }

  /** "kar" then "thal" combine to "Karthal". */
  lemma CombineExample(kar: Syllable, thal: Syllable)
    requires kar.Pattern == "kar" && thal.Pattern == "thal"
    ensures CombineSyllables([kar, thal]) == "Karthal"
  {
    assert Patterns([kar, thal]) == ["kar", "thal"];
    assert ["kar", "thal"][1..] == ["thal"];
    assert ["thal"][1..] == [];
    assert Concat(["kar", "thal"]) == "karthal";
  }

  // ---------------------------------------------------------------- impression

  /** The running total of the syllables' impressions, in list order. */
  function ImpressionSum(syllables: seq<Syllable>): ImpressionVector {
    if |syllables| == 0 then ImpressionVector()
    else Add(ImpressionSum(syllables[..|syllables| - 1]), syllables[|syllables| - 1].Impression)
  }

  /**
   * The per-dimension mean of the syllables' impressions (`CalculateImpression`), the zero
   * vector for no syllables.
   */
  function MeanImpression(syllables: seq<Syllable>): (m: ImpressionVector)
    ensures |syllables| == 0 ==> m == Zero()
  {
    if |syllables| == 0 then ImpressionVector()
    else DivideBy(ImpressionSum(syllables), |syllables| as real)
  }

  /** When every impression is in [0, 1], each dimension of the sum lies between 0 and the number of syllables. */
  lemma {:induction false} SumBounds(syllables: seq<Syllable>)
    requires forall i | 0 <= i < |syllables| :: syllables[i].Impression.InRange()
    ensures forall d: Dimension :: 0.0 <= ImpressionSum(syllables).At(d) <= |syllables| as real
  {
    if |syllables| > 0 {
      var init := syllables[..|syllables| - 1];
      assert forall i | 0 <= i < |init| :: init[i] == syllables[i];
      SumBounds(init);
      var last := syllables[|syllables| - 1].Impression;
      assert last.InRange();
      forall d: Dimension ensures 0.0 <= ImpressionSum(syllables).At(d) <= |syllables| as real {
        assert ImpressionSum(syllables).At(d) == ImpressionSum(init).At(d) + last.At(d);
      }
    }
  }

  /** A value between 0 and `n` divided by `n` lies in [0, 1]. */
  lemma DivideWithin(x: real, n: real)
    requires 0.0 < n && 0.0 <= x <= n
    ensures 0.0 <= x / n <= 1.0
  {
    assert (x / n) * n == x;
  }

  /** The mean of impressions in [0, 1] is in [0, 1]. */
  lemma {:induction false} MeanInRange(syllables: seq<Syllable>)
    requires forall i | 0 <= i < |syllables| :: syllables[i].Impression.InRange()
    ensures MeanImpression(syllables).InRange()
  {
    if |syllables| > 0 {
      SumBounds(syllables);
      forall d: Dimension ensures 0.0 <= MeanImpression(syllables).At(d) <= 1.0 {
        DivideWithin(ImpressionSum(syllables).At(d), |syllables| as real);
      }
    }
  }

  /** The mean of one syllable is its own impression. */
  lemma {:induction false} MeanOfOne(s: Syllable)
    ensures MeanImpression([s]) == s.Impression
  {
    assert [s][..0] == [];
    var m := MeanImpression([s]);
    forall d: Dimension ensures m.At(d) == s.Impression.At(d) {
      assert ImpressionSum([s]).At(d) == 0.0 + s.Impression.At(d);
    }
    Extensionality(m, s.Impression);
  }

  // ---------------------------------------------------------------- generation

  /** The base name hands over to the engine when it is present and non-empty and there is an engine. */
  predicate Derives(engine: DerivationEngine?, context: GenerationContext) {
    context.BaseName.Some? && context.BaseName.value != "" && engine != null
  }

  /** The result of the syllable path for a completed chain. */
  function ChainResult(syllables: seq<Syllable>): (g: GenerationResult)
    ensures g.Metadata.RulesetId == "" && g.Metadata.AppliedRules == []
    ensures |g.Metadata.UsedSyllables| == |syllables|
    ensures forall i | 0 <= i < |syllables| :: g.Metadata.UsedSyllables[i] == syllables[i].Pattern
  {
    GenerationResult(
      Name := CombineSyllables(syllables),
      ActualImpression := MeanImpression(syllables),
      Metadata := GenerationMetadata(UsedSyllables := Patterns(syllables), RulesetId := ""))
  }

  /**
   * What `Generate` returns for a context: the engine's derivation when `Derives`; otherwise,
   * with the context's seed (or `fallbackSeed`, standing for the GUID hash), sample 0 decides the
   * count and sample `1 + i` the syllable at position `i`.
   */
  function Generation(db: SyllableDatabase, engine: DerivationEngine?, context: GenerationContext,
                      fallbackSeed: int, source: DrawSource, regex: RegexEngine): Result<GenerationResult>
    reads db, engine, if engine != null then {engine.ruleset} else {}
  {
    if Derives(engine, context) then
      engine.Derive(context.BaseName.value, context, regex)
    else
      var seed := context.Seed.GetOr(fallbackSeed);
      var constraints := context.Constraints.GetOr(StructuralConstraints());
      match SyllableCount(constraints, source(seed, 0))
      case Failure(e) => Failure(e)
      case Success(count) =>
        match Selection(db, count, source, seed, 1, [])
        case Failure(e) => Failure(e)
        case Success(syllables) => Success(ChainResult(syllables))
  }

  /** With a present, non-empty base name and an engine, the result is exactly the engine's derivation. */
  lemma DerivationDispatch(db: SyllableDatabase, engine: DerivationEngine?, context: GenerationContext,
                           fallbackSeed: int, source: DrawSource, regex: RegexEngine)
    requires engine != null && context.BaseName.Some? && context.BaseName.value != ""
    ensures Generation(db, engine, context, fallbackSeed, source, regex) ==
      engine.Derive(context.BaseName.value, context, regex)
  {
  }

  /** Without an engine, the base name is ignored. */
  lemma BaseNameIgnoredWithoutEngine(db: SyllableDatabase, context: GenerationContext,
                                     fallbackSeed: int, source: DrawSource, regex: RegexEngine)
    ensures Generation(db, null, context, fallbackSeed, source, regex) ==
      Generation(db, null, context.(BaseName := None), fallbackSeed, source, regex)
  {
  }

  /** A context with a seed gives the same result whatever the fallback seed: generation is reproducible. */
  lemma SeededIsReproducible(db: SyllableDatabase, engine: DerivationEngine?, context: GenerationContext,
                             fallbackA: int, fallbackB: int, source: DrawSource, regex: RegexEngine)
    requires context.Seed.Some?
    ensures Generation(db, engine, context, fallbackA, source, regex) ==
      Generation(db, engine, context, fallbackB, source, regex)
  {
  }

  /**
   * A syllable-path result: its used syllables are a chain as `ChainProperties` describes, drawn
   * from the samples after the count's, so their number lies in [min, max] (for `0 <= min <= max`,
   * defaults 2 and 3); no ruleset id and no applied rule are recorded; and when every listed
   * syllable's impression is in [0, 1], so is the result's.
   */
  lemma {:induction false} SyllablePathResult(db: SyllableDatabase, engine: DerivationEngine?, context: GenerationContext,
                                              fallbackSeed: int, source: DrawSource, regex: RegexEngine)
    requires !Derives(engine, context)
    requires Generation(db, engine, context, fallbackSeed, source, regex).Success?
    ensures var g := Generation(db, engine, context, fallbackSeed, source, regex).value;
      var constraints := context.Constraints.GetOr(StructuralConstraints());
      var min := constraints.MinSyllables.GetOr(2);
      var max := constraints.MaxSyllables.GetOr(3);
      && g.Metadata.RulesetId == "" && g.Metadata.AppliedRules == []
      && (0 <= min <= max ==> min <= |g.Metadata.UsedSyllables| <= max)
    ensures db.Valid() && (forall s | s in db.GetAll() :: s.Impression.InRange()) ==>
      Generation(db, engine, context, fallbackSeed, source, regex).value.ActualImpression.InRange()
  {
    var seed := context.Seed.GetOr(fallbackSeed);
    var constraints := context.Constraints.GetOr(StructuralConstraints());
    var count := SyllableCount(constraints, source(seed, 0)).value;
    var syllables := Selection(db, count, source, seed, 1, []).value;
    ChainProperties(db, count, source, seed, 1, syllables);
    SelectionShape(db, count, source, seed, 1, [], syllables);
    if db.Valid() && (forall s | s in db.GetAll() :: s.Impression.InRange()) {
      forall i | 0 <= i < |syllables| ensures syllables[i].Impression.InRange() {
        assert syllables[..i][..] == syllables[..i];
        CandidatesListed(db, syllables[..i], count);
      }
      MeanInRange(syllables);
    }
  }

  // ---------------------------------------------------------------- the generator

  /** A generator over a syllable store and an optional derivation engine; neither is changed by generating. */
  class NameGenerator {
    const database: SyllableDatabase
    const derivationEngine: DerivationEngine?

    /** `new NameGenerator(database, derivationEngine)`, the engine absent by default. */
    constructor (database: SyllableDatabase, derivationEngine: DerivationEngine? := null)
      ensures this.database == database && this.derivationEngine == derivationEngine
    {
      this.database := database;
      this.derivationEngine := derivationEngine;
    }

    /** The constructor's null check: an absent store is an `ArgumentNullException`. */
    static method Create(database: SyllableDatabase?, derivationEngine: DerivationEngine?) returns (r: Result<NameGenerator>)
      ensures database == null ==> r == Failure(ArgumentNull("database"))
      ensures database != null ==>
        r.Success? && fresh(r.value) && r.value.database == database && r.value.derivationEngine == derivationEngine
    {
      if database == null {
        return Failure(ArgumentNull("database"));
      }
      var generator := new NameGenerator(database, derivationEngine);
      return Success(generator);
    }

    /** `DetermineSyllableCount`: one draw from `random`, unless the bounds are rejected. */
    method DetermineSyllableCount(constraints: StructuralConstraints, random: RandomProvider) returns (c: Result<int>)
      modifies random
      ensures c == SyllableCount(constraints, old(random.NextSample()))
      ensures random.calls == old(random.calls) + (if c.Success? then 1 else 0)
    {
      var min := constraints.MinSyllables.GetOr(2);
      var max := constraints.MaxSyllables.GetOr(3);
      c := random.NextInRange(min, max + 1);
    }

    /** The candidates at position `|result|` of a name of `count` syllables, computed as the loop body of `SelectSyllables` does. */
    method PositionCandidates(result: seq<Syllable>, count: int) returns (candidates: seq<Syllable>)
      ensures candidates == Candidates(database, result, count)
    {
      var i := |result|;
      if i == 0 {
        candidates := database.GetInitialSyllables();
      } else if i == count - 1 {
        var previous := result[i - 1];
        var followingCandidates := database.GetFollowingSyllables(previous);
        var finalCandidates := Filter(followingCandidates, CanClose);
        candidates := if |finalCandidates| > 0 then finalCandidates else followingCandidates;
      } else {
        var previous := result[i - 1];
        candidates := database.GetFollowingSyllables(previous);
      }
      if i > 0 {
        var previous := result[i - 1];
        candidates := Filter(candidates, (s: Syllable) => s.Id != previous.Id);
        if previous.Structure.EndsWithVowel() {
          var consonantStartCandidates := Filter(candidates, StartsWithConsonant);
          if |consonantStartCandidates| > 0 {
            candidates := consonantStartCandidates;
          }
        }
      }
    }

    /**
     * One pass of the loop body of `SelectSyllables` at position `|result|`: with no candidate,
     * the `InvalidOperationException` naming the position and no draw; otherwise one draw of
     * `ChooseWeighted(candidates, s => s.Weight)`, after which the chain goes on from `result`
     * with the pick added and the following sample.
     */
    method NextSyllable(result: seq<Syllable>, count: int, random: RandomProvider) returns (selected: Result<Syllable>)
      requires |result| < count
      modifies random
      ensures selected.Failure? ==>
        selected == Failure(InvalidOperation(|result|)) && random.calls == old(random.calls) &&
        Selection(database, count, random.source, random.Seed, old(random.calls), result) == Failure(InvalidOperation(|result|))
      ensures selected.Success? ==>
        random.calls == old(random.calls) + 1 && selected.value in Candidates(database, result, count) &&
        Selection(database, count, random.source, random.Seed, old(random.calls), result) ==
        Selection(database, count, random.source, random.Seed, random.calls, result + [selected.value])
    {
      var candidates := PositionCandidates(result, count);
      if |candidates| == 0 {
        SelectionStuck(database, count, random.source, random.Seed, random.calls, result);
        return Failure(InvalidOperation(|result|));
      }
      ghost var next := random.calls;
      var choice := random.ChooseWeighted(candidates, Weights(candidates));
      SelectionStep(database, count, random.source, random.Seed, next, result, candidates, choice);
      return Success(choice.value);
    }

    /**
     * `SelectSyllables`: position by position, the candidates as `Candidates` defines them, one
     * weighted draw from `random` per position; the first position without candidates fails.
     */
    method SelectSyllables(count: int, random: RandomProvider) returns (r: Result<seq<Syllable>>)
      modifies random
      ensures r == Selection(database, count, random.source, random.Seed, old(random.calls), [])
      ensures r.Success? ==> random.calls == old(random.calls) + |r.value|
    {
      ghost var chain := Selection(database, count, random.source, random.Seed, random.calls, []);
      ghost var start := random.calls;
      var result: seq<Syllable> := [];
      var i := 0;
      while i < count
        invariant 0 <= i == |result|
        invariant random.calls == start + i
        invariant chain == Selection(database, count, random.source, random.Seed, random.calls, result)
        decreases count - i
      {
        var selected := NextSyllable(result, count, random);
        if selected.Failure? {
          return Failure(selected.error);
        }
        result := result + [selected.value];
        i := i + 1;
      }
      return Success(result);
    }

    /** `CalculateImpression`: the impressions summed in a loop, then divided by their number. */
    method CalculateImpression(syllables: seq<Syllable>) returns (v: ImpressionVector)
      ensures v == MeanImpression(syllables)
    {
      if |syllables| == 0 {
        return ImpressionVector();
      }
      var sum := ImpressionVector();
      var k := 0;
      while k < |syllables|
        invariant 0 <= k <= |syllables|
        invariant sum == ImpressionSum(syllables[..k])
      {
        assert syllables[..k + 1][..k] == syllables[..k];
        sum := Add(sum, syllables[k].Impression);
        k := k + 1;
      }
      assert syllables[..|syllables|] == syllables;
      var count := |syllables| as real;
      v := DivideBy(sum, count);
    }

    /**
     * `Generate(context)`: the derivation engine's result when `Derives`; otherwise a fresh
     * provider seeded with the context's seed (or `fallbackSeed`) draws the count and the chain.
     */
    method Generate(context: GenerationContext, fallbackSeed: int, source: DrawSource, regex: RegexEngine)
      returns (r: Result<GenerationResult>)
      ensures r == Generation(database, derivationEngine, context, fallbackSeed, source, regex)
    {
      if context.BaseName.Some? && context.BaseName.value != "" && derivationEngine != null {
        return derivationEngine.Derive(context.BaseName.value, context, regex);
      }
      var random := new RandomProvider(context.Seed.GetOr(fallbackSeed), source);
      var constraints := context.Constraints.GetOr(StructuralConstraints());
      var syllableCount := DetermineSyllableCount(constraints, random);
      if syllableCount.Failure? {
        return Failure(syllableCount.error);
      }
      var syllables := SelectSyllables(syllableCount.value, random);
      if syllables.Failure? {
        return Failure(syllables.error);
      }
      var name := CombineSyllables(syllables.value);
      var impression := CalculateImpression(syllables.value);
      return Success(GenerationResult(
        Name := name,
        ActualImpression := impression,
        Metadata := GenerationMetadata(UsedSyllables := Patterns(syllables.value), RulesetId := "")));
    }
  }
}
