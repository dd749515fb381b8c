/** Drawing random suggestions from a category. The shuffle is a
    parameter: any function that permutes its argument. */
module RandomSuggestionService {
  import opened Wrappers
  import opened Seqs
  import opened Models

  /** A shuffle returns a rearrangement of its input. */
  ghost predicate IsShuffle(shuffle: seq<string> -> seq<string>) {
    forall xs :: multiset(shuffle(xs)) == multiset(xs)
  }

  function Min(a: int, b: int): int {
    if a <= b then a else b
  }

  /** The category's suggestions that are not excluded, in order. */
  function Available(category: SuggestionCategory, exclusions: set<string>): seq<string> {
    Filter((x: string) => x !in exclusions, category.suggestions)
  }

  /** The live `getRandomSuggestions`: up to `count` suggestions, drawn
      without repetition from the non-excluded ones. A negative count
      traps in `prefix` unless nothing is available. */
  function GetRandomSuggestions(category: SuggestionCategory, count: int, exclusions: set<string>,
                                shuffle: seq<string> -> seq<string>): (r: seq<string>)
    requires IsShuffle(shuffle)
    requires count >= 0 || |Available(category, exclusions)| == 0
    ensures forall x :: x in r ==> x in category.suggestions && x !in exclusions
    ensures count >= 0 ==> |r| == Min(count, |Available(category, exclusions)|)
    ensures |Available(category, exclusions)| == 0 ==> r == []
    ensures multiset(r) <= multiset(Available(category, exclusions))
  {
    var available := Available(category, exclusions);
    if |available| == 0 then []
    else
      var shuffled := shuffle(available);
      assert |shuffled| == |multiset(shuffled)| == |available|;
      var k := Min(count, |shuffled|);
      assert shuffled == shuffled[..k] + shuffled[k..];
      assert multiset(shuffled[..k]) <= multiset(shuffled);
      assert forall x :: x in shuffled[..k] ==> x in multiset(available);
      shuffled[..k]
  }

  /** With no duplicates in the category, a draw has none either. */
  lemma DrawHasNoDuplicates(category: SuggestionCategory, count: int, exclusions: set<string>,
                            shuffle: seq<string> -> seq<string>)
    requires IsShuffle(shuffle)
    requires count >= 0 || |Available(category, exclusions)| == 0
    requires Distinct(category.suggestions)
    ensures Distinct(GetRandomSuggestions(category, count, exclusions, shuffle))
  {
    var available := Available(category, exclusions);
    var r := GetRandomSuggestions(category, count, exclusions, shuffle);
    FilterDistinct((x: string) => x !in exclusions, category.suggestions);
    forall x ensures multiset(r)[x] <= 1 {
      DistinctCountAtMostOne(available, x);
    }
    CountAtMostOneDistinct(r);
  }

  /** The test `getRandomSuggestions`: the first `count` suggestions,
      exclusions ignored. */
  function TestGetRandomSuggestions(category: SuggestionCategory, count: int, exclusions: set<string>): (r: seq<string>)
    requires count >= 0
    ensures |r| == Min(count, |category.suggestions|)
    ensures forall i :: 0 <= i < |r| ==> r[i] == category.suggestions[i]
  {
    category.suggestions[..Min(count, |category.suggestions|)]
  }

  /** The live `fetchCategories`: the loaded categories, or none when the
      configuration could not be loaded. */
  function FetchCategories(loaded: Option<seq<SuggestionCategory>>): (r: seq<SuggestionCategory>)
    ensures loaded.None? ==> r == []
    ensures loaded.Some? ==> r == loaded.value
  {
    loaded.GetOr([])
  }
}
