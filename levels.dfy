/**
 * The levels record that a tab hands to the tree renderer, and the override
 * hook `modifyLevelsForSearch` that the search and missing-items views attach
 * to it. The hook looks only at the key being descended into: the synthetic
 * wrapper keys "uniques" and "sets" grant extra depth, every other key leaves
 * the record alone.
 */
module Levels {

  /** The two descent budgets: ordinary nesting depth and variant depth. */
  datatype Levels = Levels(level: nat, variantLevel: nat)

  /** The keys the search override treats specially. */
  const SyntheticKeys: set<string> := {"uniques", "sets"}

  /** The levels the override hook yields when the renderer descends into `key`. */
  function SearchAdjusted(l: Levels, key: string): (r: Levels)
    ensures key == "uniques" ==> r.level == l.level + 1 && r.variantLevel == l.variantLevel
    ensures key == "sets" ==> r.level == l.level + 1 && r.variantLevel == l.variantLevel + 2
    ensures r == l <==> key !in SyntheticKeys
    ensures r.level >= l.level && r.variantLevel >= l.variantLevel
  {
    if key == "uniques" then
      l.(level := l.level + 1)
    else if key == "sets" then
      l.(level := l.level + 1, variantLevel := l.variantLevel + 2)
    else
      l
  }

  /**
   * The hook applied to one and the same record key after key, which is what
   * happens when the record is mutated in place and handed on.
   */
  function AdjustedAlong(l: Levels, keys: seq<string>): Levels
    decreases |keys|
  {
    if keys == [] then l else AdjustedAlong(SearchAdjusted(l, keys[0]), keys[1..])
  }

  /** How many times `key` occurs in `keys`. */
  function Occurrences(keys: seq<string>, key: string): nat
  {
    if keys == [] then 0
    else (if keys[0] == key then 1 else 0) + Occurrences(keys[1..], key)
  }

  /**
   * Repeated adjustment depends only on how often each synthetic key was
   * passed: `level` grows by one per "uniques" or "sets", `variantLevel` by two
   * per "sets", and no other key has any effect.
   */
  lemma {:induction false} AdjustedAlongCounts(l: Levels, keys: seq<string>)
    ensures AdjustedAlong(l, keys) ==
      Levels(l.level + Occurrences(keys, "uniques") + Occurrences(keys, "sets"),
             l.variantLevel + 2 * Occurrences(keys, "sets"))
    decreases |keys|
  {
    if keys != [] {
      AdjustedAlongCounts(SearchAdjusted(l, keys[0]), keys[1..]);
    }
  }

  /** Counting occurrences is taking the multiplicity in the multiset of the keys. */
  lemma {:induction false} OccurrencesIsMultiplicity(keys: seq<string>, key: string)
    ensures Occurrences(keys, key) == multiset(keys)[key]
    decreases |keys|
  {
    if keys != [] {
      assert keys == [keys[0]] + keys[1..];
      assert multiset(keys) == multiset([keys[0]]) + multiset(keys[1..]);
      OccurrencesIsMultiplicity(keys[1..], key);
    }
  }

  /**
   * Consequently the order in which keys are passed does not matter: any
   * rearrangement of the same keys gives the same record.
   */
  lemma AdjustedAlongPermutation(l: Levels, keys: seq<string>, reordered: seq<string>)
    requires multiset(keys) == multiset(reordered)
    ensures AdjustedAlong(l, keys) == AdjustedAlong(l, reordered)
  {
    AdjustedAlongCounts(l, keys);
    AdjustedAlongCounts(l, reordered);
    OccurrencesIsMultiplicity(keys, "uniques");
    OccurrencesIsMultiplicity(keys, "sets");
    OccurrencesIsMultiplicity(reordered, "uniques");
    OccurrencesIsMultiplicity(reordered, "sets");
  }
}
