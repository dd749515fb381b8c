/** The AI-suggestion screen: a text prompt, the conversations sent so
    far, and whether a reply is streaming in. */
module Suggestion {
  import opened Wrappers
  import opened Seqs
  import Conversations
  import UsedSuggestions

  type Conversation = Conversations.Conversation

  datatype State = State(textInput: string, conversations: seq<Conversation>, isFetching: bool)

  const Initial: State := State("", [], false)

  datatype Action =
    | SetTextInput(value: string)
    | SendSuggestionTapped
    | ConversationReceived(id: string, content: string)
    | DeleteAll
    | SuggestionSelected(suggestion: string)

  datatype Effect =
    | NoEffect
      /** Streams the replies to `prompt` into `conversationReceived(id, _)`. */
    | StreamSuggestions(prompt: string, conversationId: string)
    | MarkAIUsed(suggestion: string)

  datatype Step = Step(state: State, effect: Effect)

  function HasId(id: string): Conversation -> bool {
    (c: Conversation) => c.id == id
  }

  /** `sendSuggestionTapped`; `freshId` is the new conversation's UUID. */
  function OnSend(s: State, freshId: string): (r: Step)
    ensures s.textInput == [] ==> r == Step(s, NoEffect)
    ensures s.textInput != [] ==>
      && r.state.textInput == []
      && r.state.isFetching
      && |r.state.conversations| == |s.conversations| + 1
      && r.state.conversations[..|s.conversations|] == s.conversations
      && r.state.conversations[|s.conversations|] == Conversations.Conversation(freshId, s.textInput, "")
      && r.effect == StreamSuggestions(s.textInput, freshId)
  {
    if s.textInput == [] then Step(s, NoEffect)
    else
      var conversation := Conversations.Conversation(freshId, s.textInput, "");
      Step(State("", s.conversations + [conversation], true), StreamSuggestions(s.textInput, freshId))
  }

  /** `conversationReceived(id, content)`: replaces the content of the
      first conversation with that id. */
  function OnReceived(s: State, id: string, content: string): (r: Step)
    ensures r.effect == NoEffect && !r.state.isFetching && r.state.textInput == s.textInput
    ensures |r.state.conversations| == |s.conversations|
    ensures FirstIndex(HasId(id), s.conversations).None? ==> r.state.conversations == s.conversations
    ensures FirstIndex(HasId(id), s.conversations).Some? ==>
      var k := FirstIndex(HasId(id), s.conversations).value;
      && r.state.conversations[k] == Conversations.Update(s.conversations[k], content)
      && forall j :: 0 <= j < |s.conversations| && j != k ==> r.state.conversations[j] == s.conversations[j]
  {
    match FirstIndex(HasId(id), s.conversations)
    case None => Step(s.(isFetching := false), NoEffect)
    case Some(k) =>
      var updated := s.conversations[k := Conversations.Update(s.conversations[k], content)];
      Step(s.(conversations := updated, isFetching := false), NoEffect)
  }

  function Reduce(s: State, a: Action, freshId: string): (r: Step)
    ensures a.SetTextInput? ==> r == Step(s.(textInput := a.value), NoEffect)
    ensures a.DeleteAll? ==> r == Step(s.(conversations := [], isFetching := false), NoEffect)
    ensures a.SuggestionSelected? ==> r == Step(s, MarkAIUsed(a.suggestion))
    ensures a.SendSuggestionTapped? ==> r == OnSend(s, freshId)
    ensures a.ConversationReceived? ==> r == OnReceived(s, a.id, a.content)
  {
    match a
    case SetTextInput(v) => Step(s.(textInput := v), NoEffect)
    case SendSuggestionTapped => OnSend(s, freshId)
    case ConversationReceived(id, content) => OnReceived(s, id, content)
    case DeleteAll => Step(s.(conversations := [], isFetching := false), NoEffect)
    case SuggestionSelected(x) => Step(s, MarkAIUsed(x))
  }

  /** Runs an effect against the used-suggestion store. */
  function RunEffect(e: Effect, store: UsedSuggestions.Store): (r: UsedSuggestions.Store)
    ensures !e.MarkAIUsed? ==> r == store
    ensures e.MarkAIUsed? ==> multiset(r) == multiset(store) + multiset{UsedSuggestions.Record(e.suggestion, UsedSuggestions.AICategoryId)}
    ensures e.MarkAIUsed? ==> UsedSuggestions.GetAIUsed(r) == UsedSuggestions.GetAIUsed(store) + {e.suggestion}
    ensures forall c :: c != UsedSuggestions.AICategoryId ==> UsedSuggestions.GetUsed(r, c) == UsedSuggestions.GetUsed(store, c)
  {
    if e.MarkAIUsed? then
      UsedSuggestions.AIOperationsAreCategoryOperations(store, e.suggestion);
      UsedSuggestions.MarkAIUsed(store, e.suggestion)
    else store
  }

  // ---------------------------------------------------------------------

  /** A streamed reply never changes which conversations exist, their ids
      or their prompts. */
  lemma ReceivedKeepsIdsAndPrompts(s: State, id: string, content: string)
    ensures var c' := OnReceived(s, id, content).state.conversations;
      forall j :: 0 <= j < |c'| ==> c'[j].id == s.conversations[j].id && c'[j].prompt == s.conversations[j].prompt
  {
  }

  /** Streaming replaces the content: receiving `c1` then `c2` for the
      same id is receiving `c2` alone. */
  lemma LastChunkWins(s: State, id: string, c1: string, c2: string)
    ensures OnReceived(OnReceived(s, id, c1).state, id, c2) == OnReceived(s, id, c2)
  {
    var s1 := OnReceived(s, id, c1).state;
    FirstIndexFrame(HasId(id), s.conversations, s1.conversations);
  }

  /** A reply for the conversation just sent lands in it. */
  lemma SendThenReceive(s: State, freshId: string, content: string)
    requires s.textInput != []
    requires forall c :: c in s.conversations ==> c.id != freshId
    ensures var r := OnReceived(OnSend(s, freshId).state, freshId, content).state;
      && r.conversations == s.conversations + [Conversations.Conversation(freshId, s.textInput, content)]
      && !r.isFetching
  {
    var s1 := OnSend(s, freshId).state;
    FirstIndexOfLast(HasId(freshId), s.conversations, s1.conversations[|s.conversations|]);
    assert s1.conversations == s.conversations + [s1.conversations[|s.conversations|]];
  }

  /** Selecting an AI suggestion marks it used under "ai" and leaves the
      screen as it was. */
  lemma SelectionMarksAIUsed(s: State, x: string, freshId: string, store: UsedSuggestions.Store)
    ensures var r := Reduce(s, SuggestionSelected(x), freshId);
      && r.state == s
      && x in UsedSuggestions.GetAIUsed(RunEffect(r.effect, store))
  {
    UsedSuggestions.AIOperationsAreCategoryOperations(store, x);
  }
}
