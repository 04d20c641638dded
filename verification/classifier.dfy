/**
 * Ordered, first-match-wins classification of a message by substring tests,
 * the shape shared by the error translator and the upload error-key lookup.
 */
module Classifier {
  import opened Optional
  import opened Strings

  /** One branch's test: some alternative occurs (`a || b`) or every part
      occurs (`a && b`). */
  datatype Pattern = AnyOf(alts: seq<string>) | AllOf(parts: seq<string>)

  datatype Rule<+T> = Rule(pattern: Pattern, outcome: T)

  predicate Matches(p: Pattern, text: string) {
    match p
    case AnyOf(alts) => exists i :: 0 <= i < |alts| && Contains(text, alts[i])
    case AllOf(parts) => forall i :: 0 <= i < |parts| ==> Contains(text, parts[i])
  }

  /** Index of the first rule at or after `start` whose pattern matches. */
  function FirstMatchFrom<T>(rules: seq<Rule<T>>, text: string, start: nat): (r: Option<nat>)
    requires start <= |rules|
    ensures r.Some? ==> start <= r.value < |rules| && Matches(rules[r.value].pattern, text)
    ensures r.Some? ==> forall j :: start <= j < r.value ==> !Matches(rules[j].pattern, text)
    ensures r.None? ==> forall j :: start <= j < |rules| ==> !Matches(rules[j].pattern, text)
    decreases |rules| - start
  {
    if start == |rules| then None
    else if Matches(rules[start].pattern, text) then Some(start)
    else FirstMatchFrom(rules, text, start + 1)
  }

  /** Index of the first matching rule: the branch an `if` chain takes. */
  function FirstMatch<T>(rules: seq<Rule<T>>, text: string): (r: Option<nat>)
    ensures r.Some? ==> r.value < |rules| && Matches(rules[r.value].pattern, text)
    ensures r.Some? ==> forall j :: 0 <= j < r.value ==> !Matches(rules[j].pattern, text)
    ensures r.None? <==> forall j :: 0 <= j < |rules| ==> !Matches(rules[j].pattern, text)
  {
    FirstMatchFrom(rules, text, 0)
  }

  /** A matching rule is never passed over: the branch taken is it or an earlier one. */
  lemma MatchingRuleBounds<T>(rules: seq<Rule<T>>, text: string, k: nat)
    requires k < |rules| && Matches(rules[k].pattern, text)
    ensures FirstMatch(rules, text).Some? && FirstMatch(rules, text).value <= k
  {
  }

  /** The first alternative of a disjunctive pattern occurs, so it matches. */
  lemma AnyOfMatches(alts: seq<string>, text: string, i: nat)
    requires i < |alts| && Contains(text, alts[i])
    ensures Matches(AnyOf(alts), text)
  {
  }

  /** When a later rule is taken, a rule before it did not match. */
  lemma EarlierRuleFailed<T>(rules: seq<Rule<T>>, text: string, early: nat, late: nat)
    requires early < late && FirstMatch(rules, text) == Some(late)
    ensures !Matches(rules[early].pattern, text)
  {
  }

  /** Two disjunctive rules sharing an alternative: the later one is taken only
      through its own alternative, because the shared one is always caught
      by the earlier rule. */
  lemma SharedAlternativeShadowed<T>(rules: seq<Rule<T>>, text: string, early: nat, late: nat,
                                     first: string, second: string, shared: string)
    requires early < late < |rules|
    requires rules[early].pattern == AnyOf([first, shared])
    requires rules[late].pattern == AnyOf([second, shared])
    requires FirstMatch(rules, text) == Some(late)
    ensures Contains(text, second) && !Contains(text, shared)
  {
    EarlierRuleFailed(rules, text, early, late);
    if Contains(text, shared) {
      AnyOfMatches([first, shared], text, 1);
      assert false;
    }
    assert Matches(AnyOf([second, shared]), text);
  }

  /** A rule whose first alternative occurs bounds the branch taken. */
  lemma FirstAlternativeBounds<T>(rules: seq<Rule<T>>, text: string, k: nat, alts: seq<string>)
    requires k < |rules| && rules[k].pattern == AnyOf(alts)
    requires |alts| > 0 && Contains(text, alts[0])
    ensures FirstMatch(rules, text).Some? && FirstMatch(rules, text).value <= k
  {
    AnyOfMatches(alts, text, 0);
    MatchingRuleBounds(rules, text, k);
  }
}
