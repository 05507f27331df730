/**
 * A rule set (LoreGen.Rules.Ruleset): the rules in the order they were added, plus the
 * identity and default impression the derivation engine reports. Applicable rules are returned
 * sorted by descending priority with a stable sort (`OrderByDescending`), so among equal
 * priorities the earlier-added rule comes first.
 */
module Rulesets {
  import opened Wrappers
  import opened Seqs
  import opened Impressions
  import opened Contexts
  import opened Regexes
  import opened DerivationRules

  /** The rules of `rules` that can apply to `name` in `context` (the `Where`), in their order. */
  function Applicable(rules: seq<DerivationRule>, name: string, context: GenerationContext, regex: RegexEngine)
    : (r: seq<DerivationRule>)
    ensures forall x | x in r :: x in rules && x.CanApply(name, context, regex)
    ensures forall x | x in rules && x.CanApply(name, context, regex) :: x in r
    ensures forall x | x in rules ::
      multiset(r)[x] == if x.CanApply(name, context, regex) then multiset(rules)[x] else 0
  {
    Filter(rules, (rule: DerivationRule) => rule.CanApply(name, context, regex))
  }

  /** Priorities never increase along `s`. */
  predicate SortedByPriority(s: seq<DerivationRule>) {
    forall i, j | 0 <= i < j < |s| :: s[i].Priority >= s[j].Priority
  }

  /** The rules of `s` with priority exactly `p`, in their order in `s`. */
  function WithPriority(s: seq<DerivationRule>, p: real): seq<DerivationRule> {
    if s == [] then []
    else (if s[0].Priority == p then [s[0]] else []) + WithPriority(s[1..], p)
  }

  /** The first rule of priority `p` in `s`, at index `k`, heads `WithPriority(s, p)`. */
  lemma {:induction false} WithPriorityHead(s: seq<DerivationRule>, p: real, k: nat)
    requires k < |s| && s[k].Priority == p
    requires forall j | 0 <= j < k :: s[j].Priority != p
    ensures |WithPriority(s, p)| > 0 && WithPriority(s, p)[0] == s[k]
  {
    if k > 0 {
      WithPriorityHead(s[1..], p, k - 1);
    }
  }

  /** Inserts `x` ahead of the first rule whose priority is not above its own. */
  function InsertByPriority(x: DerivationRule, s: seq<DerivationRule>): (r: seq<DerivationRule>)
    ensures multiset(r) == multiset(s) + multiset{x}
  {
    if s == [] then [x]
    else if s[0].Priority > x.Priority then
      assert s == [s[0]] + s[1..];
      [s[0]] + InsertByPriority(x, s[1..])
    else
      [x] + s
  }

  /** `OrderByDescending(rule => rule.Priority)`: a stable sort on descending priority. */
  function SortByPriority(s: seq<DerivationRule>): (r: seq<DerivationRule>)
    ensures multiset(r) == multiset(s)
  {
    if s == [] then []
    else
      assert s == [s[0]] + s[1..];
      InsertByPriority(s[0], SortByPriority(s[1..]))
  }

  /** No rule of `s` has priority above `q`. */
  predicate AtMost(s: seq<DerivationRule>, q: real) {
    forall i | 0 <= i < |s| :: s[i].Priority <= q
  }

  /** Inserting a rule of priority at most `q` among rules of priority at most `q` keeps that bound. */
  lemma {:induction false} InsertAtMost(x: DerivationRule, s: seq<DerivationRule>, q: real)
    requires AtMost(s, q) && x.Priority <= q
    ensures AtMost(InsertByPriority(x, s), q)
  {
    if s != [] && s[0].Priority > x.Priority {
      InsertAtMost(x, s[1..], q);
    }
  }

  /** A rule followed by a sorted list of rules no higher than it is sorted. */
  lemma ConsSorted(a: DerivationRule, t: seq<DerivationRule>)
    requires SortedByPriority(t) && AtMost(t, a.Priority)
    ensures SortedByPriority([a] + t)
  {
  }

  /** Inserting into a sorted list gives a sorted list. */
  lemma {:induction false} InsertSorted(x: DerivationRule, s: seq<DerivationRule>)
    requires SortedByPriority(s)
    ensures SortedByPriority(InsertByPriority(x, s))
  {
    if s == [] {
    } else if s[0].Priority > x.Priority {
      InsertSorted(x, s[1..]);
      InsertAtMost(x, s[1..], s[0].Priority);
      ConsSorted(s[0], InsertByPriority(x, s[1..]));
    } else {
      ConsSorted(x, s);
    }
  }

  /** The sort's result is sorted by descending priority. */
  lemma {:induction false} SortSorted(s: seq<DerivationRule>)
    ensures SortedByPriority(SortByPriority(s))
  {
    if s != [] {
      SortSorted(s[1..]);
      InsertSorted(s[0], SortByPriority(s[1..]));
    }
  }

  /** Filtering a one-element prefix. */
  lemma WithPriorityCons(x: DerivationRule, s: seq<DerivationRule>, p: real)
    ensures WithPriority([x] + s, p) == (if x.Priority == p then [x] else []) + WithPriority(s, p)
  {
    assert ([x] + s)[1..] == s;
  }

  /** Inserting `x` puts it first among the rules of its priority and leaves the other priorities alone. */
  lemma {:induction false} InsertWithPriority(x: DerivationRule, s: seq<DerivationRule>, p: real)
    ensures WithPriority(InsertByPriority(x, s), p) ==
      (if x.Priority == p then [x] else []) + WithPriority(s, p)
  {
    if s == [] {
      WithPriorityCons(x, [], p);
    } else if s[0].Priority > x.Priority {
      assert s == [s[0]] + s[1..];
      var rest := InsertByPriority(x, s[1..]);
      assert InsertByPriority(x, s) == [s[0]] + rest;
      InsertWithPriority(x, s[1..], p);
      WithPriorityCons(s[0], rest, p);
      WithPriorityCons(s[0], s[1..], p);
      // At most one of `s[0]` and `x` has priority `p`, since `s[0]` is above `x`.
      if s[0].Priority == p {
        assert WithPriority(rest, p) == WithPriority(s[1..], p);
      } else if x.Priority == p {
        assert WithPriority(s, p) == WithPriority(s[1..], p);
      }
    } else {
      WithPriorityCons(x, s, p);
    }
  }

  /** The sort is stable: for every priority it keeps the rules of that priority in their original order. */
  lemma {:induction false} SortStable(s: seq<DerivationRule>, p: real)
    ensures WithPriority(SortByPriority(s), p) == WithPriority(s, p)
  {
    if s != [] {
      assert s == [s[0]] + s[1..];
      SortStable(s[1..], p);
      InsertWithPriority(s[0], SortByPriority(s[1..]), p);
      WithPriorityCons(s[0], s[1..], p);
    }
  }

  /** The index of the first rule of maximal priority in `s`. */
  function EarliestMaximalIndex(s: seq<DerivationRule>): (k: nat)
    requires |s| > 0
    ensures k < |s|
    ensures forall j | 0 <= j < |s| :: s[j].Priority <= s[k].Priority
    ensures forall j | 0 <= j < k :: s[j].Priority < s[k].Priority
  {
    if |s| == 1 then 0
    else
      var k := EarliestMaximalIndex(s[..|s| - 1]);
      assert forall j | 0 <= j < |s| - 1 :: s[..|s| - 1][j] == s[j];
      if s[|s| - 1].Priority > s[k].Priority then |s| - 1 else k
  }

  /** The first rule after sorting is the earliest rule of maximal priority. */
  lemma {:induction false} SortedHead(s: seq<DerivationRule>)
    requires |s| > 0
    ensures |SortByPriority(s)| > 0
    ensures SortByPriority(s)[0] == s[EarliestMaximalIndex(s)]
  {
    var sorted := SortByPriority(s);
    SortSorted(s);
    var k := EarliestMaximalIndex(s);
    var p := s[k].Priority;
    assert |sorted| == |s| by {
      assert |multiset(sorted)| == |multiset(s)|;
    }
    // The head of the sorted list has the maximal priority.
    assert sorted[0] in multiset(s);
    assert s[k] in multiset(sorted);
    var i :| 0 <= i < |sorted| && sorted[i] == s[k];
    assert sorted[0].Priority == p;
    // Both lists, filtered to priority p, start with their first rule of priority p.
    WithPriorityHead(sorted, p, 0);
    WithPriorityHead(s, p, k);
    SortStable(s, p);
  }

  /** A rule set; only its list of rules changes after construction. */
  class Ruleset {
    const Id: string
    const Name: string
    const Description: string
    const DefaultImpression: ImpressionVector
    var DerivationRules: seq<DerivationRule>

    /** An object initialiser; omitted properties take the C# defaults (empty strings and list, zero impression). */
    constructor (
      id: string := "",
      name: string := "",
      description: string := "",
      defaultImpression: ImpressionVector := ImpressionVector())
      ensures Id == id && Name == name && Description == description
      ensures DefaultImpression == defaultImpression && DerivationRules == []
    {
      Id := id;
      Name := name;
      Description := description;
      DefaultImpression := defaultImpression;
      DerivationRules := [];
    }

    /** `AddRule`: appends `rule`, leaving the earlier rules and their order as they were. */
    method AddRule(rule: DerivationRule)
      modifies this
      ensures DerivationRules == old(DerivationRules) + [rule]
      ensures |DerivationRules| == |old(DerivationRules)| + 1
      ensures DerivationRules[..|old(DerivationRules)|] == old(DerivationRules)
    {
      DerivationRules := DerivationRules + [rule];
    }

    /**
     * `GetApplicableRules`: exactly the rules that can apply, each as often as it is listed,
     * sorted by descending priority, and in insertion order within each priority.
     */
    function GetApplicableRules(name: string, context: GenerationContext, regex: RegexEngine)
      : (r: seq<DerivationRule>)
      reads this
      ensures multiset(r) == multiset(Applicable(DerivationRules, name, context, regex))
      ensures forall x | x in r :: x in DerivationRules && x.CanApply(name, context, regex)
      ensures SortedByPriority(r)
      ensures forall p: real ::
        WithPriority(r, p) == WithPriority(Applicable(DerivationRules, name, context, regex), p)
    {
      var applicable := Applicable(DerivationRules, name, context, regex);
      var sorted := SortByPriority(applicable);
      SortSorted(applicable);
      assert forall x | x in sorted :: x in applicable by {
        forall x | x in sorted ensures x in applicable {
          assert x in multiset(sorted);
        }
      }
      assert forall p: real :: WithPriority(sorted, p) == WithPriority(applicable, p) by {
        forall p: real ensures WithPriority(sorted, p) == WithPriority(applicable, p) {
          SortStable(applicable, p);
        }
      }
      sorted
    }

    /**
     * `GetBestRule`: absent exactly when no rule can apply; otherwise the earliest-added rule
     * among those of maximal priority that can apply.
     */
    function GetBestRule(name: string, context: GenerationContext, regex: RegexEngine): (r: Option<DerivationRule>)
      reads this
      ensures r.None? <==> forall x | x in DerivationRules :: !x.CanApply(name, context, regex)
      ensures r.Some? ==>
        var applicable := Applicable(DerivationRules, name, context, regex);
        |applicable| > 0 && r.value == applicable[EarliestMaximalIndex(applicable)]
      ensures r.Some? ==> r.value in DerivationRules && r.value.CanApply(name, context, regex)
      ensures r.Some? ==> forall x | x in DerivationRules && x.CanApply(name, context, regex) ::
        x.Priority <= r.value.Priority
    {
      var applicable := Applicable(DerivationRules, name, context, regex);
      var sorted := GetApplicableRules(name, context, regex);
      assert |sorted| == |applicable| by {
        assert |multiset(applicable)| == |multiset(sorted)|;
      }
      if |sorted| == 0 then
        None
      else
        SortedHead(applicable);
        assert applicable[EarliestMaximalIndex(applicable)] in applicable;
        Some(sorted[0])
    }
  }

  /** Rules of priority 1 and 5 that both apply: the best rule is the one of priority 5. */
  method HigherPriorityWins(name: string, context: GenerationContext)
    returns (low: DerivationRule, high: DerivationRule, best: Option<DerivationRule>)
    requires |name| > 0 && '\n' !in name
    ensures low.Priority == 1.0 && high.Priority == 5.0 && best == Some(high)
  {
    var ruleset := new Ruleset();
    low := new DerivationRule(name := "Rule1", matchPattern := "^(.+)$", priority := 1.0);
    high := new DerivationRule(name := "Rule2", matchPattern := "^(.+)$", priority := 5.0);
    ruleset.AddRule(low);
    ruleset.AddRule(high);
    AnyNameMatches(low, name, context);
    AnyNameMatches(high, name, context);
    BestOfTwo(ruleset, low, high, name, context);
    best := ruleset.GetBestRule(name, context, SuffixRegex);
  }

  /** Two applicable rules of equal priority: the best rule is the one added first. */
  method EqualPriorityKeepsInsertionOrder(name: string, context: GenerationContext, priority: real)
    returns (first: DerivationRule, second: DerivationRule, best: Option<DerivationRule>)
    requires |name| > 0 && '\n' !in name
    ensures first != second && best == Some(first)
  {
    var ruleset := new Ruleset();
    first := new DerivationRule(name := "First", matchPattern := "^(.+)$", priority := priority);
    second := new DerivationRule(name := "Second", matchPattern := "^(.+)$", priority := priority);
    ruleset.AddRule(first);
    ruleset.AddRule(second);
    AnyNameMatches(first, name, context);
    AnyNameMatches(second, name, context);
    BestOfTwo(ruleset, first, second, name, context);
    best := ruleset.GetBestRule(name, context, SuffixRegex);
  }

  /**
   * Of two applicable rules, the best is the one of higher priority, and the one added first when
   * their priorities are equal.
   */
  lemma BestOfTwo(ruleset: Ruleset, a: DerivationRule, b: DerivationRule, name: string, context: GenerationContext)
    requires ruleset.DerivationRules == [a, b]
    requires a.CanApply(name, context, SuffixRegex) && b.CanApply(name, context, SuffixRegex)
    ensures a.Priority < b.Priority ==> ruleset.GetBestRule(name, context, SuffixRegex) == Some(b)
    ensures a.Priority >= b.Priority ==> ruleset.GetBestRule(name, context, SuffixRegex) == Some(a)
  {
    FilterAll([a, b], (rule: DerivationRule) => rule.CanApply(name, context, SuffixRegex));
    assert Applicable([a, b], name, context, SuffixRegex) == [a, b];
    if a.Priority < b.Priority {
      assert EarliestMaximalIndex([a, b]) == 1;
    } else {
      assert EarliestMaximalIndex([a, b]) == 0;
    }
  }

  /** Sorting rules of priority 1, 10 and 5 gives the order 10, 5, 1. */
  lemma ThreePrioritiesSort(low: DerivationRule, high: DerivationRule, medium: DerivationRule)
    requires low.Priority == 1.0 && high.Priority == 10.0 && medium.Priority == 5.0
    ensures SortByPriority([low, high, medium]) == [high, medium, low]
  {
    assert [medium][1..] == [];
    assert [high, medium][1..] == [medium];
    assert [low, high, medium][1..] == [high, medium];
    assert SortByPriority([medium]) == [medium];
    assert SortByPriority([high, medium]) == [high, medium];
    assert InsertByPriority(low, [medium]) == [medium, low];
    assert InsertByPriority(low, [high, medium]) == [high] + [medium, low];
  }

  /** Rules of priority 1, 10 and 5, added in that order and all applicable, come back as 10, 5, 1. */
  lemma OrderedByDescendingPriority(ruleset: Ruleset, low: DerivationRule, high: DerivationRule, medium: DerivationRule,
                                    name: string, context: GenerationContext)
    requires ruleset.DerivationRules == [low, high, medium]
    requires low.Priority == 1.0 && high.Priority == 10.0 && medium.Priority == 5.0
    requires low.CanApply(name, context, SuffixRegex) && high.CanApply(name, context, SuffixRegex)
    requires medium.CanApply(name, context, SuffixRegex)
    ensures ruleset.GetApplicableRules(name, context, SuffixRegex) == [high, medium, low]
  {
    var all := [low, high, medium];
    FilterAll(all, (rule: DerivationRule) => rule.CanApply(name, context, SuffixRegex));
    assert Applicable(all, name, context, SuffixRegex) == all;
    ThreePrioritiesSort(low, high, medium);
  }

  /** The suffix-free pattern `^(.+)$` matches every non-empty single-line name. */
  lemma AnyNameMatches(rule: DerivationRule, name: string, context: GenerationContext)
    requires rule.MatchPattern == "^(.+)$" && rule.Condition.None?
    requires |name| > 0 && '\n' !in name
    ensures rule.CanApply(name, context, SuffixRegex)
  {
    assert IsSuffixPattern("^(.+)$") && SuffixOf("^(.+)$") == "";
  }
}
