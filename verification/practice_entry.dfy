/** The practice entry screen: the option cards offered, which depend on
    whether on-device AI is available. */
module PracticeEntry {
  import opened Wrappers
  import opened Seqs

  const AISuggestionId: string := "getAISuggestion"
  const RandomSuggestionId: string := "getRandomSuggestion"
  const StartPracticeId: string := "startPractice"

  /** An option card; its colour is presentation and is left out. */
  datatype OptionCard = OptionCard(id: string, title: string, subtitle: string, icon: string)

  datatype State = State(options: seq<OptionCard>, isAIAvailable: bool, isCheckingAvailability: bool)

  const Initial: State := State([], false, true)

  datatype Delegate = GetAISuggestion | GetRandomSuggestion | StartPractice

  datatype Action =
    | OnAppear
    | AvailabilityChecked(isAIAvailable: bool)
    | OptionSelected(id: string)
    | DelegateAction(delegate: Delegate)

  datatype Effect = NoEffect | CheckAvailability | Send(delegate: Delegate)

  datatype Step = Step(state: State, effect: Effect)

  function Ids(options: seq<OptionCard>): (r: seq<string>)
    ensures |r| == |options|
    ensures forall i :: 0 <= i < |options| ==> r[i] == options[i].id
  {
    if options == [] then [] else [options[0].id] + Ids(options[1..])
  }

  const AICard: OptionCard := OptionCard(AISuggestionId, "AI Suggestion", "Let AI inspire your practice", "sparkles")
  const RandomCard: OptionCard := OptionCard(RandomSuggestionId, "Random Suggestion", "Pick from curated categories", "shuffle")
  const StartCard: OptionCard := OptionCard(StartPracticeId, "Start Practice", "Jump right into a session", "play.circle.fill")

  /** `buildOptions(isAIAvailable:)`. The random and start cards are
      always offered, the AI card exactly when AI is available, and no
      id repeats. */
  function BuildOptions(isAIAvailable: bool): (r: seq<OptionCard>)
    ensures RandomSuggestionId in Ids(r) && StartPracticeId in Ids(r)
    ensures AISuggestionId in Ids(r) <==> isAIAvailable
    ensures Distinct(Ids(r))
    ensures |r| == if isAIAvailable then 3 else 2
    ensures r[|r| - 2] == RandomCard && r[|r| - 1] == StartCard
    ensures isAIAvailable ==> r[0] == AICard
  {
    var r := if isAIAvailable then [AICard, RandomCard, StartCard] else [RandomCard, StartCard];
    assert Ids(r)[|r| - 2] == RandomSuggestionId && Ids(r)[|r| - 1] == StartPracticeId;
    r
  }

  /** The delegate an option id dispatches to, if any. */
  function DelegateFor(id: string): (r: Option<Delegate>)
    ensures r.Some? <==> id in [AISuggestionId, RandomSuggestionId, StartPracticeId]
  {
    if id == AISuggestionId then Some(GetAISuggestion)
    else if id == RandomSuggestionId then Some(GetRandomSuggestion)
    else if id == StartPracticeId then Some(StartPractice)
    else None
  }

  /** The option id that dispatches to a delegate. */
  function IdOf(d: Delegate): string {
    match d
    case GetAISuggestion => AISuggestionId
    case GetRandomSuggestion => RandomSuggestionId
    case StartPractice => StartPracticeId
  }

  function Reduce(s: State, a: Action): (r: Step)
    ensures a.OnAppear? && !s.isCheckingAvailability ==> r == Step(s, NoEffect)
    ensures a.OnAppear? && s.isCheckingAvailability ==> r == Step(s, CheckAvailability)
    ensures a.AvailabilityChecked? ==>
      && r.state.isAIAvailable == a.isAIAvailable
      && !r.state.isCheckingAvailability
      && r.state.options == BuildOptions(a.isAIAvailable)
      && r.effect == NoEffect
    ensures a.OptionSelected? ==> r.state == s
    ensures a.OptionSelected? ==>
      r.effect == (if DelegateFor(a.id).Some? then Send(DelegateFor(a.id).value) else NoEffect)
    ensures a.DelegateAction? ==> r == Step(s, NoEffect)
  {
    match a
    case OnAppear => if s.isCheckingAvailability then Step(s, CheckAvailability) else Step(s, NoEffect)
    case AvailabilityChecked(b) => Step(State(BuildOptions(b), b, false), NoEffect)
    case OptionSelected(id) =>
      if DelegateFor(id).Some? then Step(s, Send(DelegateFor(id).value)) else Step(s, NoEffect)
    case DelegateAction(_) => Step(s, NoEffect)
  }

  // ---------------------------------------------------------------------

  /** Ids and delegates correspond one to one. */
  lemma DelegateIdRoundTrip(d: Delegate, id: string)
    ensures DelegateFor(IdOf(d)) == Some(d)
    ensures DelegateFor(id).Some? ==> IdOf(DelegateFor(id).value) == id
  {
  }

  /** Every card offered dispatches to a delegate when tapped, and the
      AI delegate is reachable from the cards only when AI is available. */
  lemma OfferedCardsDispatch(b: bool)
    ensures var s := Reduce(Initial, AvailabilityChecked(b)).state;
      && (forall c :: c in s.options ==> Reduce(s, OptionSelected(c.id)).effect.Send?)
      && (forall c :: c in s.options && Reduce(s, OptionSelected(c.id)).effect == Send(GetAISuggestion) ==> b)
  {
  }

  /** Once availability is known, appearing again starts no check. */
  lemma CheckedOnce(s: State, b: bool)
    ensures var s1 := Reduce(s, AvailabilityChecked(b)).state;
      Reduce(s1, OnAppear) == Step(s1, NoEffect)
  {
  }
}
