/** The warm-up list: the catalogue, an optional category filter, and
    the warm-ups ticked off as completed. */
module WarmUpList {
  import opened Wrappers
  import opened Seqs
  import opened Models

  /** `favoriteWarmUpNames` is read and written by the app's navigation
      reducer; the list itself never touches it. */
  datatype State = State(
    warmUps: seq<WarmUp>,
    selectedCategory: Option<WarmUpCategory>,
    completedWarmUps: set<Uuid>,
    favoriteWarmUpNames: set<string>)

  const Initial: State := State([], None, {}, {})

  datatype Action =
    | OnAppear
    | CategorySelected(category: Option<WarmUpCategory>)
    | WarmUpSelected(warmUp: WarmUp)
    | ToggleCompleted(id: Uuid)
    | WarmUpsLoaded(warmUps: seq<WarmUp>)

  datatype Effect = NoEffect | FetchWarmUps

  datatype Step = Step(state: State, effect: Effect)

  function InCategory(k: WarmUpCategory): WarmUp -> bool {
    (w: WarmUp) => w.category == k
  }

  /** `filteredWarmUps`: the whole list, or the warm-ups of the selected
      category in catalogue order. */
  function FilteredWarmUps(s: State): (r: seq<WarmUp>)
    ensures s.selectedCategory.None? ==> r == s.warmUps
    ensures forall w :: w in r <==>
      w in s.warmUps && (s.selectedCategory.None? || w.category == s.selectedCategory.value)
    ensures Embeds(r, s.warmUps)
  {
    match s.selectedCategory
    case None =>
      EmbedsRefl(s.warmUps);
      s.warmUps
    case Some(k) => Filter(InCategory(k), s.warmUps)
  }

  /** Flips one id's membership and no other. */
  function Toggle(completed: set<Uuid>, id: Uuid): (r: set<Uuid>)
    ensures id in r <==> id !in completed
    ensures forall x :: x != id ==> (x in r <==> x in completed)
  {
    if id in completed then completed - {id} else completed + {id}
  }

  function Reduce(s: State, a: Action): (r: Step)
    ensures a.OnAppear? ==> r == Step(s, FetchWarmUps)
    ensures a.WarmUpsLoaded? ==> r == Step(s.(warmUps := a.warmUps), NoEffect)
    ensures a.CategorySelected? ==> r == Step(s.(selectedCategory := a.category), NoEffect)
    ensures a.WarmUpSelected? ==> r == Step(s, NoEffect)
    ensures a.ToggleCompleted? ==> r == Step(s.(completedWarmUps := Toggle(s.completedWarmUps, a.id)), NoEffect)
  {
    match a
    case OnAppear => Step(s, FetchWarmUps)
    case WarmUpsLoaded(ws) => Step(s.(warmUps := ws), NoEffect)
    case CategorySelected(k) => Step(s.(selectedCategory := k), NoEffect)
    case WarmUpSelected(_) => Step(s, NoEffect)
    case ToggleCompleted(id) => Step(s.(completedWarmUps := Toggle(s.completedWarmUps, id)), NoEffect)
  }

  // ---------------------------------------------------------------------

  /** Toggling the same warm-up twice restores the state. */
  lemma ToggleCompletedTwice(s: State, id: Uuid)
    ensures Reduce(Reduce(s, ToggleCompleted(id)).state, ToggleCompleted(id)).state == s
  {
    var c := s.completedWarmUps;
    assert Toggle(Toggle(c, id), id) == c;
  }

  /** The four category views split the catalogue: every warm-up appears
      in exactly the view of its own category, as often as in the list. */
  lemma CategoryViewsPartition(s: State)
    ensures var v := (k: WarmUpCategory) => FilteredWarmUps(s.(selectedCategory := Some(k)));
      multiset(v(Physical)) + multiset(v(Vocal)) + multiset(v(Mental)) + multiset(v(Group))
        == multiset(s.warmUps)
  {
    var v := (k: WarmUpCategory) => FilteredWarmUps(s.(selectedCategory := Some(k)));
    forall w
      ensures (multiset(v(Physical)) + multiset(v(Vocal)) + multiset(v(Mental)) + multiset(v(Group)))[w]
        == multiset(s.warmUps)[w]
    {
      assert v(w.category) == Filter(InCategory(w.category), s.warmUps);
    }
  }

  /** Re-applying the selected filter to the filtered list changes nothing. */
  lemma FilteredIsStable(s: State)
    ensures FilteredWarmUps(s.(warmUps := FilteredWarmUps(s))) == FilteredWarmUps(s)
  {
    if s.selectedCategory.Some? {
      FilterIdempotent(InCategory(s.selectedCategory.value), s.warmUps);
    }
  }
}

/** The warm-up detail screen: one warm-up and whether it is a favourite. */
module WarmUpDetail {
  import opened Wrappers
  import opened Models

  datatype State = State(warmUp: WarmUp, isFavorite: bool)

  datatype Delegate = FavoriteToggled(name: string, isFavorite: bool)

  datatype Action = ToggleFavorite | DelegateAction(delegate: Delegate)

  datatype Effect =
    | NoEffect
      /** Adds (`value`) or removes the favourite, then reports it. */
    | SaveFavorite(name: string, value: bool)

  datatype Step = Step(state: State, effect: Effect)

  function Reduce(s: State, a: Action): (r: Step)
    ensures r.state.warmUp == s.warmUp
    ensures a.ToggleFavorite? ==>
      r.state.isFavorite == !s.isFavorite && r.effect == SaveFavorite(s.warmUp.name, !s.isFavorite)
    ensures a.DelegateAction? ==> r == Step(s, NoEffect)
  {
    match a
    case ToggleFavorite =>
      var value := !s.isFavorite;
      Step(s.(isFavorite := value), SaveFavorite(s.warmUp.name, value))
    case DelegateAction(_) => Step(s, NoEffect)
  }

  /** Runs an effect against the favourites store (a set of names) and
      returns the delegate it sends. `writeOk` says whether the add or
      remove succeeded; a failure is swallowed, leaves the store as it
      was, and the delegate is sent all the same. */
  function RunEffect(e: Effect, favorites: set<string>, writeOk: bool): (r: (set<string>, Option<Action>))
    ensures e.NoEffect? ==> r == (favorites, None)
    ensures e.SaveFavorite? ==> r.1 == Some(DelegateAction(FavoriteToggled(e.name, e.value)))
    ensures e.SaveFavorite? && writeOk ==>
      && (e.name in r.0 <==> e.value)
      && (forall n :: n != e.name ==> (n in r.0 <==> n in favorites))
    ensures e.SaveFavorite? && !writeOk ==> r.0 == favorites
  {
    match e
    case NoEffect => (favorites, None)
    case SaveFavorite(name, value) =>
      var favorites' := if !writeOk then favorites else if value then favorites + {name} else favorites - {name};
      (favorites', Some(DelegateAction(FavoriteToggled(name, value))))
  }

  // ---------------------------------------------------------------------

  /** Toggling twice restores the state. */
  lemma ToggleTwiceRestores(s: State)
    ensures Reduce(Reduce(s, ToggleFavorite).state, ToggleFavorite).state == s
  {
  }

  /** After a toggle and its effect the delegate carries the screen's new
      value; the store agrees with the screen when the write succeeded and
      is unchanged, so disagrees with the screen, when it failed. */
  lemma ToggleSyncsStore(s: State, favorites: set<string>, writeOk: bool)
    ensures var step := Reduce(s, ToggleFavorite);
      var (favorites', sent) := RunEffect(step.effect, favorites, writeOk);
      && sent == Some(DelegateAction(FavoriteToggled(s.warmUp.name, step.state.isFavorite)))
      && (writeOk ==> (s.warmUp.name in favorites' <==> step.state.isFavorite))
      && (!writeOk ==> favorites' == favorites)
      && (!writeOk && (s.warmUp.name in favorites <==> s.isFavorite) ==>
            (s.warmUp.name in favorites' <==> !step.state.isFavorite))
  {
  }
}
