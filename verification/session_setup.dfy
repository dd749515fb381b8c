/** Session setup: choose a format, an opening and a duration before
    starting a practice session. Openings are narrowed to those the
    selected format allows, and an opening is picked automatically from
    the format's required or preferred opening. */
module SessionSetup {
  import opened Wrappers
  import opened Seqs
  import opened Models
  import opened Formats

  /** Minutes a session lasts unless changed. */
  const DefaultDuration: int := 25

  datatype State = State(
    suggestion: Option<string>,
    formats: seq<Format>,
    selectedType: Option<Format>,
    totalDuration: int,
    openings: seq<Opening>,
    selectedOpening: Option<Opening>,
    availableOpenings: seq<Opening>)

  function Initial(suggestion: Option<string>): (s: State)
    ensures s.suggestion == suggestion && s.selectedType.None? && s.totalDuration == DefaultDuration
    ensures s.formats == [] && s.openings == [] && s.selectedOpening.None? && s.availableOpenings == []
  {
    State(suggestion, [], None, DefaultDuration, [], None, [])
  }

  datatype Delegate = Next(suggestion: Option<string>, format: Format, opening: Opening, duration: int)

  datatype Action =
    | OnAppear
    | FormatsLoaded(formats: seq<Format>)
    | OpeningsLoaded(openings: seq<Opening>)
    | TypeSelected(format: Format)
    | OpeningSelected(opening: Option<Opening>)
    | DurationChanged(minutes: int)
    | StartSelected
    | DelegateAction(delegate: Delegate)

  /** `LoadCatalogues` fetches formats and openings and then sends
      `FormatsLoaded` and `OpeningsLoaded`. */
  datatype Effect = NoEffect | LoadCatalogues | Send(action: Action)

  datatype Step = Step(state: State, effect: Effect)

  /** The openings a format allows: all of them when it names none. */
  function AvailableOpenings(selected: Option<Format>, openings: seq<Opening>): (r: seq<Opening>)
    ensures selected.None? ==> r == []
    ensures selected.Some? && selected.value.allowedOpeningIds.None? ==> r == openings
    ensures selected.Some? && selected.value.allowedOpeningIds.Some? ==>
      (forall o :: o in r <==> o in openings && o.id in selected.value.allowedOpeningIds.value)
      && (forall o :: multiset(r)[o] == if o.id in selected.value.allowedOpeningIds.value then multiset(openings)[o] else 0)
      && Embeds(r, openings)
  {
    match selected
    case None => []
    case Some(f) =>
      match f.allowedOpeningIds
      case None => openings
      case Some(ids) => Filter((o: Opening) => o.id in ids, openings)
  }

  /** `updateAvailableOpenings()`. */
  function UpdateAvailableOpenings(s: State): (s': State)
    ensures s' == s.(availableOpenings := s'.availableOpenings)
    ensures Embeds(s'.availableOpenings, s.openings)
    ensures s.selectedType.None? ==> s'.availableOpenings == []
    ensures s.selectedType.Some? && s.selectedType.value.allowedOpeningIds.None? ==> s'.availableOpenings == s.openings
    ensures s.selectedType.Some? && s.selectedType.value.allowedOpeningIds.Some? ==>
      forall o :: o in s'.availableOpenings <==> o in s.openings && o.id in s.selectedType.value.allowedOpeningIds.value
    ensures s'.availableOpenings == AvailableOpenings(s.selectedType, s.openings)
  {
    EmbedsRefl(s.openings);
    s.(availableOpenings := AvailableOpenings(s.selectedType, s.openings))
  }

  /** The first opening with the given id. */
  function OpeningWithId(openings: seq<Opening>, id: string): (r: Option<Opening>)
    ensures r.None? <==> forall o :: o in openings ==> o.id != id
    ensures r.Some? ==> r.value in openings && r.value.id == id
    ensures r.Some? ==>
      exists i :: (0 <= i < |openings| && openings[i] == r.value && forall j :: 0 <= j < i ==> openings[j].id != id)
  {
    FirstWhere((o: Opening) => o.id == id, openings)
  }

  /** Replaces the formats and selects the first, if any. */
  function OnFormatsLoaded(s: State, formats: seq<Format>): (r: State)
    ensures r.formats == formats
    ensures |formats| > 0 ==> r.selectedType == Some(formats[0])
    ensures |formats| == 0 ==> r.selectedType == s.selectedType
    ensures r == s.(formats := formats, selectedType := r.selectedType)
  {
    if |formats| > 0 then s.(formats := formats, selectedType := Some(formats[0]))
    else s.(formats := formats)
  }

  /** Replaces the openings, recomputes the available ones, and selects
      the required opening, else the preferred one, of the selected
      format; the selection is kept when the format names neither. */
  function OnOpeningsLoaded(s: State, openings: seq<Opening>): (r: State)
    ensures r.openings == openings
    ensures r.availableOpenings == AvailableOpenings(s.selectedType, openings)
    ensures s.selectedType.Some? && s.selectedType.value.requiredOpeningId.Some? ==>
      r.selectedOpening == OpeningWithId(openings, s.selectedType.value.requiredOpeningId.value)
    ensures (s.selectedType.Some? && s.selectedType.value.requiredOpeningId.None?
             && s.selectedType.value.preferredOpeningId.Some?) ==>
      r.selectedOpening == OpeningWithId(openings, s.selectedType.value.preferredOpeningId.value)
    ensures (s.selectedType.None? || (s.selectedType.value.requiredOpeningId.None?
      && s.selectedType.value.preferredOpeningId.None?)) ==> r.selectedOpening == s.selectedOpening
    ensures r == s.(openings := openings, availableOpenings := r.availableOpenings,
                    selectedOpening := r.selectedOpening)
  {
    var s1 := UpdateAvailableOpenings(s.(openings := openings));
    match s.selectedType
    case None => s1
    case Some(f) =>
      if f.requiredOpeningId.Some? then s1.(selectedOpening := OpeningWithId(openings, f.requiredOpeningId.value))
      else if f.preferredOpeningId.Some? then s1.(selectedOpening := OpeningWithId(openings, f.preferredOpeningId.value))
      else s1
  }

  /** Selects a format, recomputes the available openings, and selects
      the required opening, else the preferred one (both looked up among
      all openings), else the first available opening. */
  function OnTypeSelected(s: State, f: Format): (r: State)
    ensures r.selectedType == Some(f)
    ensures r.availableOpenings == AvailableOpenings(Some(f), s.openings)
    ensures f.requiredOpeningId.Some? ==> r.selectedOpening == OpeningWithId(s.openings, f.requiredOpeningId.value)
    ensures f.requiredOpeningId.None? && f.preferredOpeningId.Some? ==>
      r.selectedOpening == OpeningWithId(s.openings, f.preferredOpeningId.value)
    ensures f.requiredOpeningId.None? && f.preferredOpeningId.None? ==>
      r.selectedOpening == (if |r.availableOpenings| > 0 then Some(r.availableOpenings[0]) else None)
    ensures r.selectedOpening.Some? ==> r.selectedOpening.value in s.openings
    ensures r == s.(selectedType := Some(f), availableOpenings := r.availableOpenings,
                    selectedOpening := r.selectedOpening)
  {
    var s1 := UpdateAvailableOpenings(s.(selectedType := Some(f)));
    var chosen :=
      if f.requiredOpeningId.Some? then OpeningWithId(s.openings, f.requiredOpeningId.value)
      else if f.preferredOpeningId.Some? then OpeningWithId(s.openings, f.preferredOpeningId.value)
      else if |s1.availableOpenings| > 0 then Some(s1.availableOpenings[0])
      else None;
    s1.(selectedOpening := chosen)
  }

  /** Starts only with both a format and an opening; the state never
      changes. */
  function OnStartSelected(s: State): (r: Step)
    ensures r.state == s
    ensures r.effect != NoEffect <==> s.selectedType.Some? && s.selectedOpening.Some?
    ensures r.effect != NoEffect ==>
      r.effect == Send(DelegateAction(Next(s.suggestion, s.selectedType.value, s.selectedOpening.value, s.totalDuration)))
  {
    match (s.selectedType, s.selectedOpening)
    case (Some(f), Some(o)) => Step(s, Send(DelegateAction(Next(s.suggestion, f, o, s.totalDuration))))
    case _ => Step(s, NoEffect)
  }

  /** The reducer. */
  function Reduce(s: State, a: Action): (r: Step)
    ensures r.state.suggestion == s.suggestion
    ensures a.OpeningSelected? ==> r == Step(s.(selectedOpening := a.opening), NoEffect)
    ensures a.DurationChanged? ==> r == Step(s.(totalDuration := a.minutes), NoEffect)
    ensures a.DelegateAction? ==> r == Step(s, NoEffect)
    ensures a == OnAppear ==> r == Step(s, LoadCatalogues)
  {
    match a
    case OnAppear => Step(s, LoadCatalogues)
    case FormatsLoaded(fs) => Step(OnFormatsLoaded(s, fs), NoEffect)
    case OpeningsLoaded(os) => Step(OnOpeningsLoaded(s, os), NoEffect)
    case TypeSelected(f) => Step(OnTypeSelected(s, f), NoEffect)
    case OpeningSelected(o) => Step(s.(selectedOpening := o), NoEffect)
    case DurationChanged(m) => Step(s.(totalDuration := m), NoEffect)
    case StartSelected => OnStartSelected(s)
    case DelegateAction(_) => Step(s, NoEffect)
  }

  // ---------------------------------------------------------------------

  /** The available openings are always drawn from the loaded openings,
      in their order. */
  lemma AvailableWithinOpenings(selected: Option<Format>, openings: seq<Opening>)
    ensures Embeds(AvailableOpenings(selected, openings), openings)
    ensures forall o :: o in AvailableOpenings(selected, openings) ==> o in openings
  {
    EmbedsRefl(openings);
  }

  /** Filtering by allowed ids keeps nothing the format disallows, and
      recomputing the available openings is idempotent. */
  lemma UpdateAvailableIdempotent(s: State)
    ensures UpdateAvailableOpenings(UpdateAvailableOpenings(s)) == UpdateAvailableOpenings(s)
    ensures s.selectedType.Some? && s.selectedType.value.allowedOpeningIds.Some? ==>
      forall o :: o in UpdateAvailableOpenings(s).availableOpenings ==> o.id in s.selectedType.value.allowedOpeningIds.value
  {
  }

  /** With neither a required nor a preferred opening, selecting a format
      that allows some loaded opening always ends with an opening the
      format allows, so the session can start. */
  lemma TypeSelectedEnablesStart(s: State, f: Format)
    requires f.requiredOpeningId.None? && f.preferredOpeningId.None?
    requires |AvailableOpenings(Some(f), s.openings)| > 0
    ensures var t := OnTypeSelected(s, f);
      t.selectedOpening.Some? && t.selectedOpening.value in t.availableOpenings
      && OnStartSelected(t).effect.Send?
  {
  }
}
