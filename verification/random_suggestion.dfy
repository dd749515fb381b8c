/** The random-suggestion screen: pick a category, see three suggestions
    not used before, mark one used. */
module RandomSuggestion {
  import opened Wrappers
  import opened Models
  import opened Seqs
  import UsedSuggestions
  import Service = RandomSuggestionService

  /** How many suggestions a draw asks for. */
  const DrawCount: int := 3

  datatype State = State(
    categories: seq<SuggestionCategory>,
    selectedCategory: Option<SuggestionCategory>,
    currentSuggestions: seq<string>,
    selectedSuggestion: Option<string>,
    usedSuggestions: set<string>,
    isLoadingCategories: bool)

  const Initial: State := State([], None, [], None, {}, true)

  datatype Action =
    | OnAppear
    | CategoriesLoaded(categories: seq<SuggestionCategory>)
    | CategorySelected(category: SuggestionCategory)
    | UsedSuggestionsLoaded(used: set<string>)
    | RefreshSuggestions
    | SuggestionSelected(suggestion: string)

  datatype Effect =
    | NoEffect
    | FetchCategories
      /** Resets the category if exhausted, then reports its used set. */
    | PrepareCategory(category: SuggestionCategory)
    | MarkUsed(suggestion: string, categoryId: string)

  datatype Step = Step(state: State, effect: Effect)

  /** The injected `getRandomSuggestions(category, count, exclusions)`. */
  type Draw = (SuggestionCategory, int, set<string>) -> seq<string>

  function Reduce(s: State, a: Action, draw: Draw): (r: Step)
    ensures a.OnAppear? && s.categories != [] ==> r == Step(s, NoEffect)
    ensures a.OnAppear? && s.categories == [] ==> r == Step(s.(isLoadingCategories := true), FetchCategories)
    ensures a.CategoriesLoaded? ==>
      r == Step(s.(categories := a.categories, isLoadingCategories := false), NoEffect)
    ensures a.CategorySelected? ==>
      && r.state == s.(selectedCategory := Some(a.category), selectedSuggestion := None)
      && r.effect == PrepareCategory(a.category)
    ensures a.UsedSuggestionsLoaded? && s.selectedCategory.None? ==>
      r == Step(s.(usedSuggestions := a.used), NoEffect)
    ensures a.UsedSuggestionsLoaded? && s.selectedCategory.Some? ==>
      r == Step(s.(usedSuggestions := a.used,
                   currentSuggestions := draw(s.selectedCategory.value, DrawCount, a.used)), NoEffect)
    ensures a.RefreshSuggestions? && s.selectedCategory.None? ==> r == Step(s, NoEffect)
    ensures a.RefreshSuggestions? && s.selectedCategory.Some? ==>
      r == Step(s.(currentSuggestions := draw(s.selectedCategory.value, DrawCount, s.usedSuggestions)), NoEffect)
    ensures a.SuggestionSelected? ==> r.state == s.(selectedSuggestion := Some(a.suggestion))
    ensures a.SuggestionSelected? ==>
      r.effect == (if s.selectedCategory.Some? then MarkUsed(a.suggestion, s.selectedCategory.value.id) else NoEffect)
  {
    match a
    case OnAppear =>
      if s.categories != [] then Step(s, NoEffect)
      else Step(s.(isLoadingCategories := true), FetchCategories)
    case CategoriesLoaded(cs) =>
      Step(s.(categories := cs, isLoadingCategories := false), NoEffect)
    case CategorySelected(c) =>
      Step(s.(selectedCategory := Some(c), selectedSuggestion := None), PrepareCategory(c))
    case UsedSuggestionsLoaded(used) =>
      var s' := s.(usedSuggestions := used);
      if s.selectedCategory.None? then Step(s', NoEffect)
      else Step(s'.(currentSuggestions := draw(s.selectedCategory.value, DrawCount, used)), NoEffect)
    case RefreshSuggestions =>
      if s.selectedCategory.None? then Step(s, NoEffect)
      else Step(s.(currentSuggestions := draw(s.selectedCategory.value, DrawCount, s.usedSuggestions)), NoEffect)
    case SuggestionSelected(x) =>
      var s' := s.(selectedSuggestion := Some(x));
      if s.selectedCategory.None? then Step(s', NoEffect)
      else Step(s', MarkUsed(x, s.selectedCategory.value.id))
  }

  /** Runs an effect against the store; a `PrepareCategory` answers with
      the action it sends back. */
  function RunEffect(e: Effect, store: UsedSuggestions.Store): (r: (UsedSuggestions.Store, Option<Action>))
    ensures e.PrepareCategory? ==>
      && r.0 == UsedSuggestions.ResetIfExhausted(store, e.category.id, |e.category.suggestions|).0
      && r.1 == Some(UsedSuggestionsLoaded(UsedSuggestions.GetUsed(r.0, e.category.id)))
      && (|r.1.value.used| < |e.category.suggestions| || r.1.value.used == {})
    ensures e.MarkUsed? ==>
      && r == (UsedSuggestions.MarkUsed(store, e.suggestion, e.categoryId), None)
      && UsedSuggestions.GetUsed(r.0, e.categoryId) == UsedSuggestions.GetUsed(store, e.categoryId) + {e.suggestion}
    ensures e.NoEffect? || e.FetchCategories? ==> r == (store, None)
  {
    match e
    case PrepareCategory(c) =>
      var (store', used) := UsedSuggestions.ResetIfExhausted(store, c.id, |c.suggestions|);
      (store', Some(UsedSuggestionsLoaded(used)))
    case MarkUsed(x, id) =>
      UsedSuggestions.MarkUsedEffect(store, x, id);
      (UsedSuggestions.MarkUsed(store, x, id), None)
    case _ => (store, None)
  }

  // ---------------------------------------------------------------------

  /** Selecting a category and feeding back what its effect reports gives,
      with the live draw, suggestions from that category that were not
      used; when the category has suggestions and no repeats, the draw is
      never empty, because the reset rule leaves something unused. */
  lemma SelectCategoryDrawsUnused(s: State, c: SuggestionCategory, store: UsedSuggestions.Store,
                                  shuffle: seq<string> -> seq<string>, draw: Draw)
    requires Service.IsShuffle(shuffle)
    requires forall c', e :: draw(c', DrawCount, e) == Service.GetRandomSuggestions(c', DrawCount, e, shuffle)
    ensures var s1 := Reduce(s, CategorySelected(c), draw);
      var (store', back) := RunEffect(s1.effect, store);
      var s2 := Reduce(s1.state, back.value, draw).state;
      && s2.selectedCategory == Some(c)
      && s2.usedSuggestions == UsedSuggestions.GetUsed(store', c.id)
      && (forall x :: x in s2.currentSuggestions ==>
            x in c.suggestions && x !in UsedSuggestions.GetUsed(store', c.id))
      && (|c.suggestions| > 0 && Distinct(c.suggestions) ==> |s2.currentSuggestions| > 0)
  {
    var s1 := Reduce(s, CategorySelected(c), draw);
    var (store', back) := RunEffect(s1.effect, store);
    var used := UsedSuggestions.GetUsed(store', c.id);
    var s2 := Reduce(s1.state, back.value, draw).state;
    assert s2.currentSuggestions == Service.GetRandomSuggestions(c, DrawCount, used, shuffle);
    if |c.suggestions| > 0 && Distinct(c.suggestions) {
      SomeAvailable(c, used);
    }
  }

  /** Fewer exclusions than (distinct) suggestions leave one available. */
  lemma SomeAvailable(c: SuggestionCategory, excluded: set<string>)
    requires Distinct(c.suggestions)
    requires |excluded| < |c.suggestions|
    ensures |Service.Available(c, excluded)| > 0
  {
    var elems := set x | x in c.suggestions;
    DistinctElementCount(c.suggestions);
    assert elems == (elems - excluded) + (elems * excluded);
    assert |elems * excluded| <= |excluded| by {
      assert excluded == (elems * excluded) + (excluded - elems);
    }
    var x :| x in elems - excluded;
    assert x in Service.Available(c, excluded);
  }

  /** With a repeated suggestion the used set never reaches the count:
      once each distinct suggestion has been used, selecting the category
      keeps the store as it is and the draw has nothing left to offer. */
  lemma RepeatedSuggestionsStarve(c: SuggestionCategory, store: UsedSuggestions.Store)
    requires !Distinct(c.suggestions)
    requires UsedSuggestions.GetUsed(store, c.id) == set x | x in c.suggestions
    ensures RunEffect(PrepareCategory(c), store) == (store, Some(UsedSuggestionsLoaded(UsedSuggestions.GetUsed(store, c.id))))
    ensures Service.Available(c, UsedSuggestions.GetUsed(store, c.id)) == []
  {
    UsedSuggestions.ShouldResetNeverWithRepeats(store, c.id, c.suggestions);
  }

  /** A worked instance of `RepeatedSuggestionsStarve`, kept as an
      illustration: the category `["a", "a"]` with "a" used. */
  lemma RepeatedSuggestionStarves()
    ensures var c := SuggestionCategory("c", "C", "", ["a", "a"]);
      var store := [UsedSuggestions.Record("a", "c")];
      var (store', back) := RunEffect(PrepareCategory(c), store);
      && store' == store
      && back == Some(UsedSuggestionsLoaded({"a"}))
      && Service.Available(c, {"a"}) == []
  {
    var c := SuggestionCategory("c", "C", "", ["a", "a"]);
    var store := [UsedSuggestions.Record("a", "c")];
    assert UsedSuggestions.GetUsed(store, "c") == {"a"} by {
      assert forall x :: x in UsedSuggestions.GetUsed(store, "c") <==> x == "a";
    }
    assert c.suggestions[0] == c.suggestions[1];
    RepeatedSuggestionsStarve(c, store);
  }
}
