/**
 * The syllable chain of the name generator (LoreGen.Generation.NameGenerator.SelectSyllables):
 * which syllables are candidates at each position, and the chain of weighted picks over them.
 *
 * Position 0 draws from the syllables that may open a name. Every later position starts from the
 * previous syllable's followers (at the last position, the followers that may close a name when
 * there are any), drops the previous syllable's id, and after a syllable ending in a vowel keeps
 * only the candidates starting with a consonant when there are any. An empty candidate list is an
 * `InvalidOperationException` naming the position.
 */
module Chains {
  import opened Wrappers
  import opened Seqs
  import opened Syllables
  import opened SyllableStore
  import opened Randomness

  /**
   * The last position's filter: the followers that may close a name, or all followers when none
   * may. It keeps only followers, and the fallback never empties a non-empty list.
   */
  function PreferFinal(following: seq<Syllable>): (r: seq<Syllable>)
    ensures forall s | s in r :: s in following
    ensures |following| > 0 ==> |r| > 0
  {
    var finals := Filter(following, CanClose);
    if |finals| > 0 then finals else following
  }

  /**
   * When some follower may close a name, the last position keeps exactly those that may;
   * otherwise all of them.
   */
  lemma PreferFinalKeeps(following: seq<Syllable>)
    ensures (exists s | s in following :: CanClose(s)) ==>
      (forall s | s in PreferFinal(following) :: CanClose(s)) &&
      (forall s | s in following && CanClose(s) :: s in PreferFinal(following))
    ensures (forall s | s in following :: !CanClose(s)) ==> PreferFinal(following) == following
  {
  }

  /**
   * The euphony filters (`Phase 2.5`): the previous syllable's id is removed; then, after a syllable
   * ending in a vowel, the candidates starting with a consonant are kept if there are any.
   */
  function Euphonic(candidates: seq<Syllable>, previous: Syllable): (r: seq<Syllable>)
    ensures forall s | s in r :: s in candidates && s.Id != previous.Id
    ensures forall s | s in candidates && s.Id != previous.Id && StartsWithConsonant(s) :: s in r
    ensures |r| > 0 <==> exists s | s in candidates :: s.Id != previous.Id
    ensures !previous.Structure.EndsWithVowel() ==> forall s | s in candidates && s.Id != previous.Id :: s in r
    ensures (previous.Structure.EndsWithVowel() &&
      exists s | s in candidates :: s.Id != previous.Id && StartsWithConsonant(s)) ==>
      forall s | s in r :: StartsWithConsonant(s)
    ensures (forall s | s in candidates && s.Id != previous.Id :: !StartsWithConsonant(s)) ==>
      forall s | s in candidates && s.Id != previous.Id :: s in r
  {
    var distinct := Filter(candidates, (s: Syllable) => s.Id != previous.Id);
    if previous.Structure.EndsWithVowel() then
      var consonantStart := Filter(distinct, StartsWithConsonant);
      if |consonantStart| > 0 then consonantStart else distinct
    else
      distinct
  }

  /** The candidates of a later position before the euphony filters: the previous syllable's followers, narrowed at the last position. */
  function FollowerBase(db: SyllableDatabase, chosen: seq<Syllable>, count: int): seq<Syllable>
    requires |chosen| > 0
    reads db
  {
    var following := db.GetFollowingSyllables(chosen[|chosen| - 1]);
    if |chosen| == count - 1 then PreferFinal(following) else following
  }

  /** The candidates at position `|chosen|` after the syllables `chosen` of a name of `count` syllables. */
  function Candidates(db: SyllableDatabase, chosen: seq<Syllable>, count: int): seq<Syllable>
    reads db
  {
    if |chosen| == 0 then db.GetInitialSyllables()
    else Euphonic(FollowerBase(db, chosen, count), chosen[|chosen| - 1])
  }

  /** `ChooseWeighted(candidates, s => s.Weight)` for the sample `r`: always one of the candidates. */
  function WeightedPick(candidates: seq<Syllable>, r: real): (s: Syllable)
    requires |candidates| > 0
    ensures s in candidates
  {
    WeightedChoice(candidates, Weights(candidates), r).value
  }

  /**
   * The rest of the chain after `chosen`, whose next position draws sample `next` of the seed:
   * each position picks among its candidates by weight and the position after it draws the
   * following sample; the first position without candidates is the failure.
   */
  function Selection(db: SyllableDatabase, count: int, source: DrawSource, seed: int, next: nat, chosen: seq<Syllable>)
    : Result<seq<Syllable>>
    reads db
    decreases if |chosen| < count then count - |chosen| else 0
  {
    if |chosen| >= count then Success(chosen)
    else
      var candidates := Candidates(db, chosen, count);
      if |candidates| == 0 then Failure(InvalidOperation(|chosen|))
      else
        Selection(db, count, source, seed, next + 1, chosen + [WeightedPick(candidates, source(seed, next))])
  }

  /**
   * One step of the chain: at a position with candidates, `ChooseWeighted` on the sample `next`
   * succeeds, and the chain goes on from the syllables with its pick added and the following sample.
   */
  lemma SelectionStep(db: SyllableDatabase, count: int, source: DrawSource, seed: int, next: nat, chosen: seq<Syllable>,
                      candidates: seq<Syllable>, choice: Result<Syllable>)
    requires |chosen| < count && candidates == Candidates(db, chosen, count) && |candidates| > 0
    requires choice == WeightedChoice(candidates, Weights(candidates), source(seed, next))
    ensures choice.Success? && choice.value in candidates
    ensures Selection(db, count, source, seed, next, chosen) ==
      Selection(db, count, source, seed, next + 1, chosen + [choice.value])
  {
  }

  /** A position before `count` without candidates ends the chain with its failure. */
  lemma SelectionStuck(db: SyllableDatabase, count: int, source: DrawSource, seed: int, next: nat, chosen: seq<Syllable>)
    requires |chosen| < count && |Candidates(db, chosen, count)| == 0
    ensures Selection(db, count, source, seed, next, chosen) == Failure(InvalidOperation(|chosen|))
  {
  }

  /**
   * A completed chain extends `chosen` to `count` syllables (or keeps `chosen` when it is already
   * that long), and each added syllable was a candidate after the syllables before it.
   */
  lemma {:induction false} SelectionShape(db: SyllableDatabase, count: int, source: DrawSource, seed: int, next: nat,
                                          chosen: seq<Syllable>, names: seq<Syllable>)
    requires Selection(db, count, source, seed, next, chosen) == Success(names)
    ensures |names| == if |chosen| < count then count else |chosen|
    ensures names[..|chosen|] == chosen
    ensures forall i | |chosen| <= i < |names| :: names[i] in Candidates(db, names[..i], count)
    decreases if |chosen| < count then count - |chosen| else 0
  {
    if |chosen| < count {
      var candidates := Candidates(db, chosen, count);
      var pick := WeightedPick(candidates, source(seed, next));
      var longer := chosen + [pick];
      SelectionShape(db, count, source, seed, next + 1, longer, names);
      assert names[..|chosen|] == names[..|longer|][..|chosen|];
      assert names[..|chosen|] == chosen;
      assert names[|chosen|] == names[..|longer|][|chosen|] == pick;
      forall i | |chosen| <= i < |names| ensures names[i] in Candidates(db, names[..i], count) {
        if i == |chosen| {
          assert names[..i] == chosen;
        }
      }
    }
  }

  /** `prefix` extends `chosen` to `position` syllables and leaves no candidate for the next position. */
  predicate StuckAfter(db: SyllableDatabase, count: int, chosen: seq<Syllable>, prefix: seq<Syllable>, position: int)
    reads db
  {
    |chosen| <= |prefix| == position && prefix[..|chosen|] == chosen && Candidates(db, prefix, count) == []
  }

  /**
   * A failed chain fails with an `InvalidOperationException` at a position `i` before `count`,
   * reached by extending `chosen`, where there was no candidate; nothing of the chain is kept.
   */
  lemma {:induction false} SelectionFailure(db: SyllableDatabase, count: int, source: DrawSource, seed: int, next: nat,
                                            chosen: seq<Syllable>, e: Error)
    returns (prefix: seq<Syllable>)
    requires Selection(db, count, source, seed, next, chosen) == Failure(e)
    ensures e.InvalidOperation? && |chosen| <= e.position < count
    ensures StuckAfter(db, count, chosen, prefix, e.position)
    decreases if |chosen| < count then count - |chosen| else 0
  {
    var candidates := Candidates(db, chosen, count);
    if |candidates| == 0 {
      prefix := StuckHere(db, count, source, seed, next, chosen, e);
    } else {
      var choice := WeightedChoice(candidates, Weights(candidates), source(seed, next));
      SelectionStep(db, count, source, seed, next, chosen, candidates, choice);
      var longer := chosen + [choice.value];
      prefix := SelectionFailure(db, count, source, seed, next + 1, longer, e);
      StuckLater(db, count, chosen, longer, prefix, e.position);
    }
  }

  lemma StuckHere(db: SyllableDatabase, count: int, source: DrawSource, seed: int, next: nat,
                  chosen: seq<Syllable>, e: Error) returns (prefix: seq<Syllable>)
    requires Selection(db, count, source, seed, next, chosen) == Failure(e)
    requires Candidates(db, chosen, count) == []
    ensures e.InvalidOperation? && |chosen| <= e.position < count
    ensures StuckAfter(db, count, chosen, prefix, e.position)
  {
    assert chosen[..|chosen|] == chosen;
    prefix := chosen;
  }

  lemma StuckLater(db: SyllableDatabase, count: int, chosen: seq<Syllable>, longer: seq<Syllable>,
                   prefix: seq<Syllable>, position: int)
    requires |longer| == |chosen| + 1 && longer[..|chosen|] == chosen
    requires StuckAfter(db, count, longer, prefix, position)
    ensures StuckAfter(db, count, chosen, prefix, position)
  {
    assert prefix[..|chosen|] == prefix[..|longer|][..|chosen|];
  }

  /** Every candidate is a listed syllable of the store. */
  lemma CandidatesListed(db: SyllableDatabase, chosen: seq<Syllable>, count: int)
    requires db.Valid()
    ensures forall s | s in Candidates(db, chosen, count) :: s in db.GetAll()
  {
    if |chosen| > 0 {
      var following := db.GetFollowingSyllables(chosen[|chosen| - 1]);
      assert forall s | s in FollowerBase(db, chosen, count) :: s in following;
    }
  }

  /** After `chosen`, some follower other than the previous syllable starts with a consonant. */
  predicate ConsonantAvailable(db: SyllableDatabase, chosen: seq<Syllable>, count: int)
    requires |chosen| > 0
    reads db
  {
    exists s | s in FollowerBase(db, chosen, count) :: s.Id != chosen[|chosen| - 1].Id && StartsWithConsonant(s)
  }

  /** Some follower of `previous` may close a name. */
  predicate FinalAvailable(db: SyllableDatabase, previous: Syllable)
    reads db
  {
    exists s | s in db.GetFollowingSyllables(previous) :: CanClose(s)
  }

  /** What a candidate at a later position is: a follower of the previous syllable with another id, which starts with a consonant when the vowel rule applies. */
  lemma LaterCandidate(db: SyllableDatabase, chosen: seq<Syllable>, count: int, s: Syllable)
    requires |chosen| > 0 && s in Candidates(db, chosen, count)
    ensures s in db.GetFollowingSyllables(chosen[|chosen| - 1]) && s.Id != chosen[|chosen| - 1].Id
    ensures chosen[|chosen| - 1].Structure.EndsWithVowel() && ConsonantAvailable(db, chosen, count) ==>
      StartsWithConsonant(s)
    ensures |chosen| == count - 1 && FinalAvailable(db, chosen[|chosen| - 1]) ==> CanClose(s)
  {
    var following := db.GetFollowingSyllables(chosen[|chosen| - 1]);
    assert forall x | x in FollowerBase(db, chosen, count) :: x in following;
  }

  /**
   * The properties of a completed chain of `count` syllables: its length; an opening syllable first;
   * every later syllable a follower of the one before with a different id; the vowel rule; and at
   * the last position a syllable that may close a name whenever some follower may.
   */
  lemma {:induction false} ChainProperties(db: SyllableDatabase, count: int, source: DrawSource, seed: int, start: nat,
                                           names: seq<Syllable>)
    requires Selection(db, count, source, seed, start, []) == Success(names)
    ensures |names| == if count > 0 then count else 0
    ensures count >= 1 ==> names[0] in db.GetInitialSyllables() && CanOpen(names[0])
    ensures forall i | 0 < i < |names| :: names[i].Id != names[i - 1].Id
    ensures forall i | 0 < i < |names| :: names[i] in db.GetFollowingSyllables(names[i - 1])
    ensures forall i | 0 < i < |names| ::
      (names[i - 1].Structure.EndsWithVowel() && ConsonantAvailable(db, names[..i], count)) ==> StartsWithConsonant(names[i])
    ensures count > 1 && FinalAvailable(db, names[count - 2]) ==> CanClose(names[count - 1])
  {
    SelectionShape(db, count, source, seed, start, [], names);
    forall i | 0 < i < |names|
      ensures names[i].Id != names[i - 1].Id
      ensures names[i] in db.GetFollowingSyllables(names[i - 1])
      ensures (names[i - 1].Structure.EndsWithVowel() && ConsonantAvailable(db, names[..i], count)) ==> StartsWithConsonant(names[i])
    {
      assert names[..i][i - 1] == names[i - 1];
      LaterCandidate(db, names[..i], count, names[i]);
    }
    if count >= 1 {
      assert names[0] in Candidates(db, names[..0], count);
    }
    if count > 1 {
      var i := count - 1;
      assert names[..i][i - 1] == names[count - 2];
      LaterCandidate(db, names[..i], count, names[i]);
    }
  }
}
