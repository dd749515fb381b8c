/** The app's root reducer: a navigation stack of feature screens. The
    root reacts to child delegates by pushing screens and keeps the
    warm-up lists' favourites in step with detail screens. */
module App {
  import opened Wrappers
  import opened Seqs
  import opened Models
  import PracticeEntry
  import Suggestion
  import SessionSetup
  import Session
  import WarmUpList
  import WarmUpDetail

  datatype Element =
    | PracticeEntryScreen(practiceEntry: PracticeEntry.State)
    | SuggestionScreen(suggestion: Suggestion.State)
    | PracticeSetup(practiceSetup: SessionSetup.State)
    | PracticeSession(practiceSession: Session.State)
    | WarmUpListScreen(warmUpList: WarmUpList.State)
    | WarmUpDetailScreen(warmUpDetail: WarmUpDetail.State)

  type ElementId = nat

  datatype Entry = Entry(id: ElementId, element: Element)

  /** The stack, bottom first; pushed entries take ids from a counter. */
  datatype State = State(path: seq<Entry>, nextId: ElementId)

  const Initial: State := State([], 0)

  /** Ids are unique and all below the counter. */
  predicate WellFormed(s: State) {
    && (forall i :: 0 <= i < |s.path| ==> s.path[i].id < s.nextId)
    && (forall i, j :: 0 <= i < j < |s.path| ==> s.path[i].id != s.path[j].id)
  }

  datatype HomeDelegate = NavigateToWarmUps | NavigateToPractice

  datatype ElementAction =
    | PracticeEntryAction(practiceEntryAction: PracticeEntry.Action)
    | SuggestionAction(suggestionAction: Suggestion.Action)
    | PracticeSetupAction(practiceSetupAction: SessionSetup.Action)
    | PracticeSessionAction(practiceSessionAction: Session.Action)
    | WarmUpListAction(warmUpListAction: WarmUpList.Action)
    | WarmUpDetailAction(warmUpDetailAction: WarmUpDetail.Action)

  /** `HomeOther` is any home action but its delegates; `PathPopFrom` is
      the stack's own pop, which the root leaves to the stack runtime. */
  datatype Action =
    | HomeDelegateAction(delegate: HomeDelegate)
    | HomeOther
    | PathElement(id: ElementId, action: ElementAction)
    | PathPopFrom(id: ElementId)

  function Push(s: State, e: Element): (r: State)
    ensures |r.path| == |s.path| + 1 && r.path[..|s.path|] == s.path
    ensures r.path[|s.path|] == Entry(s.nextId, e) && r.nextId > s.nextId
    ensures WellFormed(s) ==> WellFormed(r)
  {
    State(s.path + [Entry(s.nextId, e)], s.nextId + 1)
  }

  /** `path[id: id]`. */
  function Lookup(path: seq<Entry>, id: ElementId): (r: Option<Element>)
    ensures r.None? <==> forall e :: e in path ==> e.id != id
    ensures r.Some? ==> Entry(id, r.value) in path
  {
    match FirstWhere((e: Entry) => e.id == id, path)
    case None => None
    case Some(e) => Some(e.element)
  }

  /** One element after a favourite change: warm-up lists gain or lose
      the name, other screens are untouched. */
  function SyncElement(e: Entry, name: string, isFavorite: bool): (r: Entry)
    ensures r.id == e.id
    ensures !e.element.WarmUpListScreen? ==> r == e
    ensures e.element.WarmUpListScreen? ==>
      && r.element.WarmUpListScreen?
      && r.element.warmUpList.(favoriteWarmUpNames := e.element.warmUpList.favoriteWarmUpNames) == e.element.warmUpList
      && (name in r.element.warmUpList.favoriteWarmUpNames <==> isFavorite)
      && (forall n :: n != name ==>
            (n in r.element.warmUpList.favoriteWarmUpNames <==> n in e.element.warmUpList.favoriteWarmUpNames))
  {
    match e.element
    case WarmUpListScreen(list) =>
      var names := if isFavorite then list.favoriteWarmUpNames + {name} else list.favoriteWarmUpNames - {name};
      Entry(e.id, WarmUpListScreen(list.(favoriteWarmUpNames := names)))
    case _ => e
  }

  /** Every element synchronised. */
  function SyncFavorite(path: seq<Entry>, name: string, isFavorite: bool): (r: seq<Entry>)
    ensures |r| == |path|
    ensures forall i :: 0 <= i < |path| ==> r[i] == SyncElement(path[i], name, isFavorite)
  {
    seq(|path|, i requires 0 <= i < |path| => SyncElement(path[i], name, isFavorite))
  }

  /** The source's loop over `path.ids`, rewriting warm-up lists in place. */
  method SyncFavoriteInPlace(path: seq<Entry>, name: string, isFavorite: bool) returns (r: seq<Entry>)
    ensures |r| == |path|
    ensures forall i :: 0 <= i < |path| ==> r[i].id == path[i].id
    ensures forall i :: 0 <= i < |path| && !path[i].element.WarmUpListScreen? ==> r[i] == path[i]
    ensures forall i :: 0 <= i < |path| && path[i].element.WarmUpListScreen? ==>
      r[i].element.WarmUpListScreen? && (name in r[i].element.warmUpList.favoriteWarmUpNames <==> isFavorite)
    ensures r == SyncFavorite(path, name, isFavorite)
  {
    r := path;
    var k := 0;
    while k < |path|
      invariant 0 <= k <= |path| && |r| == |path|
      invariant forall i :: 0 <= i < k ==> r[i] == SyncElement(path[i], name, isFavorite)
      invariant forall i :: k <= i < |path| ==> r[i] == path[i]
    {
      if r[k].element.WarmUpListScreen? {
        var list := r[k].element.warmUpList;
        var names := if isFavorite then list.favoriteWarmUpNames + {name} else list.favoriteWarmUpNames - {name};
        r := r[k := Entry(r[k].id, WarmUpListScreen(list.(favoriteWarmUpNames := names)))];
      }
      k := k + 1;
    }
  }

  function Reduce(s: State, a: Action): (r: State)
    ensures a == HomeDelegateAction(NavigateToWarmUps) ==> r == Push(s, WarmUpListScreen(WarmUpList.Initial))
    ensures a == HomeDelegateAction(NavigateToPractice) ==> r == Push(s, PracticeEntryScreen(PracticeEntry.Initial))
    ensures a.PathElement? && a.action == PracticeEntryAction(PracticeEntry.DelegateAction(PracticeEntry.GetAISuggestion)) ==>
      r == Push(s, SuggestionScreen(Suggestion.Initial))
    ensures a.PathElement? && a.action == PracticeEntryAction(PracticeEntry.DelegateAction(PracticeEntry.StartPractice)) ==>
      r == Push(s, PracticeSetup(SessionSetup.Initial(None)))
    ensures a.PathElement? && a.action.SuggestionAction? && a.action.suggestionAction.SuggestionSelected? ==>
      r == Push(s, PracticeSetup(SessionSetup.Initial(Some(a.action.suggestionAction.suggestion))))
    ensures a.PathElement? && a.action.PracticeSetupAction? && a.action.practiceSetupAction.DelegateAction? ==>
      var d := a.action.practiceSetupAction.delegate;
      r == Push(s, PracticeSession(Session.Initial(d.suggestion, d.format, d.opening, d.duration)))
    ensures a.PathElement? && a.action.WarmUpListAction? && a.action.warmUpListAction.WarmUpSelected? ==>
      var w := a.action.warmUpListAction.warmUp;
      match Lookup(s.path, a.id)
      case Some(WarmUpListScreen(list)) =>
        r == Push(s, WarmUpDetailScreen(WarmUpDetail.State(w, w.name in list.favoriteWarmUpNames)))
      case _ => r == s
    ensures a.PathElement? && a.action.WarmUpDetailAction? && a.action.warmUpDetailAction.DelegateAction? ==>
      var d := a.action.warmUpDetailAction.delegate;
      r == s.(path := SyncFavorite(s.path, d.name, d.isFavorite))
    ensures a.HomeOther? || a.PathPopFrom? ==> r == s
    ensures |r.path| == |s.path| || (|r.path| == |s.path| + 1 && r.path[..|s.path|] == s.path)
  {
    match a
    case HomeDelegateAction(NavigateToWarmUps) => Push(s, WarmUpListScreen(WarmUpList.Initial))
    case HomeDelegateAction(NavigateToPractice) => Push(s, PracticeEntryScreen(PracticeEntry.Initial))
    case HomeOther => s
    case PathPopFrom(_) => s
    case PathElement(id, action) =>
      if action == PracticeEntryAction(PracticeEntry.DelegateAction(PracticeEntry.GetAISuggestion)) then
        Push(s, SuggestionScreen(Suggestion.Initial))
      else if action == PracticeEntryAction(PracticeEntry.DelegateAction(PracticeEntry.StartPractice)) then
        Push(s, PracticeSetup(SessionSetup.Initial(None)))
      else if action.SuggestionAction? && action.suggestionAction.SuggestionSelected? then
        Push(s, PracticeSetup(SessionSetup.Initial(Some(action.suggestionAction.suggestion))))
      else if action.PracticeSetupAction? && action.practiceSetupAction.DelegateAction? then
        var d := action.practiceSetupAction.delegate;
        Push(s, PracticeSession(Session.Initial(d.suggestion, d.format, d.opening, d.duration)))
      else if action.WarmUpListAction? && action.warmUpListAction.WarmUpSelected? then
        var w := action.warmUpListAction.warmUp;
        match Lookup(s.path, id)
        case Some(WarmUpListScreen(list)) =>
          Push(s, WarmUpDetailScreen(WarmUpDetail.State(w, w.name in list.favoriteWarmUpNames)))
        case _ => s
      else if action.WarmUpDetailAction? && action.warmUpDetailAction.DelegateAction? then
        var d := action.warmUpDetailAction.delegate;
        s.(path := SyncFavorite(s.path, d.name, d.isFavorite))
      else s
  }

  // ---------------------------------------------------------------------

  /** Every action keeps element ids unique, and grows the stack by at
      most one screen. */
  lemma ReduceKeepsWellFormed(s: State, a: Action)
    requires WellFormed(s)
    ensures WellFormed(Reduce(s, a))
    ensures |s.path| <= |Reduce(s, a).path| <= |s.path| + 1
  {
  }

  /** The unhandled random-suggestion delegate leaves the stack alone. */
  lemma RandomSuggestionDelegateIgnored(s: State, id: ElementId)
    ensures Reduce(s, PathElement(id, PracticeEntryAction(PracticeEntry.DelegateAction(PracticeEntry.GetRandomSuggestion)))) == s
  {
  }

  /** Opening a warm-up from a list, toggling its favourite, running the
      toggle's effect and routing the delegate back leaves the detail
      screen and every warm-up list in agreement, whether or not the store
      write succeeded; the store agrees as well only when it did. */
  lemma FavoriteRoundTrip(s: State, listId: ElementId, w: WarmUp, favorites: set<string>, writeOk: bool)
    requires Lookup(s.path, listId).Some? && Lookup(s.path, listId).value.WarmUpListScreen?
    ensures var s1 := Reduce(s, PathElement(listId, WarmUpListAction(WarmUpList.WarmUpSelected(w))));
      var detail := s1.path[|s.path|].element.warmUpDetail;
      var step := WarmUpDetail.Reduce(detail, WarmUpDetail.ToggleFavorite);
      var (favorites', sent) := WarmUpDetail.RunEffect(step.effect, favorites, writeOk);
      var s2 := Reduce(s1, PathElement(s1.path[|s.path|].id, WarmUpDetailAction(sent.value)));
      && detail.warmUp == w
      && detail.isFavorite == (w.name in Lookup(s.path, listId).value.warmUpList.favoriteWarmUpNames)
      && step.state.isFavorite == !detail.isFavorite
      && (writeOk ==> (w.name in favorites' <==> step.state.isFavorite))
      && (!writeOk ==> favorites' == favorites)
      && (forall e :: e in s2.path && e.element.WarmUpListScreen? ==>
            (w.name in e.element.warmUpList.favoriteWarmUpNames <==> step.state.isFavorite))
  {
    var s1 := Reduce(s, PathElement(listId, WarmUpListAction(WarmUpList.WarmUpSelected(w))));
    var detail := s1.path[|s.path|].element.warmUpDetail;
    var step := WarmUpDetail.Reduce(detail, WarmUpDetail.ToggleFavorite);
    WarmUpDetail.ToggleSyncsStore(detail, favorites, writeOk);
    var (favorites', sent) := WarmUpDetail.RunEffect(step.effect, favorites, writeOk);
    var s2 := Reduce(s1, PathElement(s1.path[|s.path|].id, WarmUpDetailAction(sent.value)));
    forall e | e in s2.path && e.element.WarmUpListScreen?
      ensures w.name in e.element.warmUpList.favoriteWarmUpNames <==> step.state.isFavorite
    {
      var i :| 0 <= i < |s2.path| && s2.path[i] == e;
      assert e == SyncElement(s1.path[i], w.name, step.state.isFavorite);
    }
  }

  /** Syncing the same change twice is syncing it once. */
  lemma SyncFavoriteIdempotent(path: seq<Entry>, name: string, isFavorite: bool)
    ensures SyncFavorite(SyncFavorite(path, name, isFavorite), name, isFavorite) == SyncFavorite(path, name, isFavorite)
  {
    var once := SyncFavorite(path, name, isFavorite);
    var twice := SyncFavorite(once, name, isFavorite);
    forall i | 0 <= i < |path| ensures twice[i] == once[i] {
      if path[i].element.WarmUpListScreen? {
        var n1 := once[i].element.warmUpList.favoriteWarmUpNames;
        var n2 := twice[i].element.warmUpList.favoriteWarmUpNames;
        assert n1 == n2;
      }
    }
  }
}
