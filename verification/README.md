# FirstBeat core in Dafny

FirstBeat is an improv-practice app built with SwiftUI and the Composable
Architecture. This project models its logic as pure Dafny functions:

- **Remote-config loader.** A tiered fallback policy over a small file cache:
  valid cache, then remote, then stale cache, then bundled file, then nothing.
  Cache expiry is driven by metadata with a one-hour lifetime.
- **Feature reducers.** Each is a step from (state, action) to (new state,
  effect):
  - the session timer (preshow countdown, per-segment countdown, confetti);
  - session setup (opening filtering and auto-selection);
  - the AI-suggestion conversation list and its numbered-list parser;
  - random suggestions with the used-suggestion store and its reset rule;
  - the warm-up list and detail screens;
  - the practice entry options;
  - the app's navigation stack, including favourite syncing.

Module layout:

- **Foundations.**
  - `Wrappers` holds `Option`.
  - `Seqs` holds Swift's `filter`, `firstIndex(where:)` and `first(where:)`,
    plus subsequence and no-duplicate predicates.
  - `Text` holds trimming, splitting on a character, and integer rendering and
    parsing.
- **`RemoteConfig`.** The cache is a map from a cache file name to a payload
  half and a metadata half. The metadata half stands for the `.metadata`
  sibling file. The clock, the network answer and the success of each file
  write are parameters. JSON decoding is a parameter `decode: Payload -> Option<T>`.
- **`Models` and `Formats`.** The records the reducers carry, segment
  durations and their `"Xm Ys"` text. A segment's portion (a `Double` in the
  source) is kept in hundredths.
- **Reducer modules.** `Session`, `SessionSetup`, `Conversations`,
  `Suggestion`, `UsedSuggestions`, `RandomSuggestionService`,
  `RandomSuggestion`, `WarmUpList`, `WarmUpDetail`, `PracticeEntry` and
  `App`. Each reducer returns a `Step(state, effect)`. An effect is a
  datatype describing what the source's `.run`/`.send` does. Where an effect
  touches a store, a `RunEffect` function applies it to an explicit store value.
  Dependencies are function parameters: the random draw, the shuffle, and the
  fresh UUID of a new conversation.

Modelling choices about the repository's code:

- `startSegmentTimer` with an index past the last segment is a complete no-op.
- A tick that ends the preshow subscripts the segment list without a bounds
  check. The model states this as the precondition `Session.Defined`.
- `SessionFeature.State` in `Session/SessionFeature.swift` declares no
  `opening` and a non-optional `title`. `AppFeature` builds the session
  state with an `opening` and the optional suggestion as its title. The
  model's session state follows `AppFeature`.
- `FormatType` in `AppCore/Models/FormatType.swift` is an enum without
  `requiredOpeningId`, `preferredOpeningId` or `allowedOpeningIds`.
  `SessionSetupFeature` reads all three from the selected format. The model
  carries them as plain fields of the format record.
- `WarmUpListFeature.State` declares no `favoriteWarmUpNames`, while
  `AppFeature` and the warm-up list view use it. The model makes it a field
  of the warm-up list state.

## Model

| member | source | states |
|---|---|---|
| RemoteConfig.Status | FirstBeat/FirstBeat/AppCore/Services/RemoteConfigService.swift:122-142 | not cached exactly without metadata; expired exactly when now > expiresAt (so valid at the expiry instant); cachedAt/expiresAt come from the metadata |
| RemoteConfig.IsExpired | FirstBeat/FirstBeat/AppCore/Services/RemoteConfigService.swift:123 | metadata is still valid at its expiry instant and expired strictly after it |
| RemoteConfig.ExpiryIsMonotone | FirstBeat/FirstBeat/AppCore/Services/RemoteConfigService.swift:123 | once metadata is expired it stays expired at every later time |
| RemoteConfig.ClearCache | FirstBeat/FirstBeat/AppCore/Services/RemoteConfigService.swift:146-154 | afterwards the request is not cached at any time and has no payload; every other file name is untouched |
| RemoteConfig.ClearAllCache | FirstBeat/FirstBeat/AppCore/Services/RemoteConfigService.swift:157-161 | afterwards every request is not cached and no file has a payload |
| RemoteConfig.SaveToCache | FirstBeat/FirstBeat/AppCore/Services/RemoteConfigService.swift:264-284 | a failed payload write changes nothing; otherwise the payload is stored, metadata is stamped (now, now + 3600) when its write succeeds and kept otherwise, and other files are untouched |
| RemoteConfig.FetchAndCache | FirstBeat/FirstBeat/AppCore/Services/RemoteConfigService.swift:212-240 | a value comes back exactly for a 200 answer whose body decodes, and it is the decoded body; on every failure the cache is unchanged; on success the cache is the save of the body |
| RemoteConfig.LoadFromCache | FirstBeat/FirstBeat/AppCore/Services/RemoteConfigService.swift:243-261 | returns the decoded cache file whatever the metadata says, and nothing without a file |
| RemoteConfig.Load | FirstBeat/FirstBeat/AppCore/Services/RemoteConfigService.swift:166-207 | a background refresh starts exactly on a cache hit; nothing is returned exactly when the tier is Unavailable; only the remote tier changes the cache, and only the request's own file |
| RemoteConfig.LoadServesValidCache | FirstBeat/FirstBeat/AppCore/Services/RemoteConfigService.swift:170-182 | fresh metadata and a decodable file give the cached value, an unchanged cache, a background refresh, and a result independent of the network answer |
| RemoteConfig.LoadPrefersRemote | FirstBeat/FirstBeat/AppCore/Services/RemoteConfigService.swift:186-191 | otherwise a successful fetch's value wins even if saving failed; a fully saved fetch leaves the cache valid for 3600 s from now |
| RemoteConfig.LoadFallsBackToStale | FirstBeat/FirstBeat/AppCore/Services/RemoteConfigService.swift:193-197 | a failed fetch serves the decodable cache file regardless of metadata and leaves the cache unchanged |
| RemoteConfig.LoadFallsBackToBundle | FirstBeat/FirstBeat/AppCore/Services/RemoteConfigService.swift:199-206 | a failed fetch with no decodable cache file returns the bundled value (possibly nothing) |
| RemoteConfig.LoadValueOrigin | FirstBeat/FirstBeat/AppCore/Services/RemoteConfigService.swift:166-207 | every returned value is the cache file's, the remote body's or the bundle's |
| RemoteConfig.LoadNoneIff | FirstBeat/FirstBeat/AppCore/Services/RemoteConfigService.swift:166-207 | load yields nothing iff the fetch fails, the cache file does not decode and there is no bundle |
| RemoteConfig.RefreshMetadataOutcome | FirstBeat/FirstBeat/AppCore/Services/RemoteConfigService.swift:176-179 | the background refresh leaves the metadata as it was or stamped with the refresh time |
| RemoteConfig.StatusAfterSave | FirstBeat/FirstBeat/AppCore/Services/RemoteConfigService.swift:264-284 | after a full save at t the status is Valid(t, t + 3600) up to t + 3600 and Expired(t) after |
| RemoteConfig.RequestLayout | FirstBeat/FirstBeat/AppCore/Services/RemoteConfigService.swift:33-58 | each request fetches base URL + "json/" + its cache file name, and its bundle name is the cache name without ".json" |
| RemoteConfig.BaseUrlIsHttps | FirstBeat/FirstBeat/AppCore/Services/RemoteConfigService.swift:14 | the base URL starts with "https://" |
| RemoteConfig.RequestFilesDistinct | FirstBeat/FirstBeat/AppCore/Services/RemoteConfigService.swift:33-58 | the three cache files and three metadata files are pairwise distinct |
| RemoteConfig.ClearCacheIsolated | FirstBeat/FirstBeat/AppCore/Services/RemoteConfigService.swift:146-154 | clearing one request leaves another's status and files unchanged |
| RemoteConfig.ClearAllCacheNotCached | FirstBeat/FirstBeat/AppCore/Services/RemoteConfigService.swift:157-161 | after clearing all, every known request is not cached |
| RemoteConfig.ClearCacheIdempotent | FirstBeat/FirstBeat/AppCore/Services/RemoteConfigService.swift:146-154 | clearing twice is clearing once |
| Formats.TruncDiv | FirstBeat/FirstBeat/AppCore/Models/FormatType.swift:22 | Swift's division truncates toward zero: the quotient brackets the dividend from below for a >= 0 and from above for a < 0 |
| Formats.TruncRem | FirstBeat/FirstBeat/AppCore/Models/FormatType.swift:23 | quotient * 60 + remainder == seconds, and 0 <= remainder < 60 for non-negative seconds |
| Formats.SegmentSeconds | FirstBeat/FirstBeat/AppCore/Models/FormatType.swift:15-21 | the whole-second duration is the floor of the segment's share of totalDuration * 60 |
| Formats.FormatSeconds | FirstBeat/FirstBeat/AppCore/Models/FormatType.swift:24-26 | the text reads back as exactly the truncated minutes s / 60 and the remainder s % 60, and ends in "m" exactly when the remainder is 0, otherwise in "s"; by FormatSecondsDetermined these clauses fix every character, with no leading zeros |
| Formats.FormatSecondsInjective | FirstBeat/FirstBeat/AppCore/Models/FormatType.swift:20-27 | different second counts give different texts |
| Formats.ParseSecondsFieldCanonical | FirstBeat/FirstBeat/AppCore/Models/FormatType.swift:26 | the only seconds fields that read back are the empty one and `" Ys"` with Y written without leading zeros |
| Formats.ParseSecondsCanonical | FirstBeat/FirstBeat/AppCore/Models/FormatType.swift:24-26 | the only texts that read back as (m, y) are "Xm" and "Xm Ys" with X and Y written the way Swift interpolates an Int |
| Formats.FormatSecondsDetermined | FirstBeat/FirstBeat/AppCore/Models/FormatType.swift:20-27 | any text that reads back as s's truncated minutes and remainder and ends in "m" exactly for whole minutes is the duration text itself, so the contract of FormatSeconds fixes every character, with no leading zeros |
| Formats.FormatSecondsMinutesAndSeconds | FirstBeat/FirstBeat/AppCore/Models/FormatType.swift:20-27 | 125 s is written "2m 5s" |
| Formats.FormatSecondsWholeMinutes | FirstBeat/FirstBeat/AppCore/Models/FormatType.swift:20-27 | 120 s is written "2m", without a seconds part |
| Formats.FormatSecondsNegative | FirstBeat/FirstBeat/AppCore/Models/FormatType.swift:22-26 | -65 s is written "-1m -5s", because Swift's / and % truncate toward zero |
| Formats.StringDuration | FirstBeat/FirstBeat/AppCore/Models/FormatType.swift:20-27 | a segment's text reads back as the truncated minutes and remaining seconds of its whole-second duration, with seconds below 60 for a non-negative show length; it ends in "m", with no seconds part, exactly when that remainder is 0; by FormatSecondsDetermined these clauses fix the text character for character |
| Formats.TotalSecondsBound | FirstBeat/FirstBeat/AppCore/Models/FormatType.swift:15-17 | truncated segment durations add up to at most the segments' share of the show |
| Formats.BuiltInFormats | FirstBeat/FirstBeat/AppCore/Models/FormatType.swift:34-62 | the ids are "Harold" and "Montage"; Harold has the six titles Intro, Beat 1, Group Game 1, Beat 2, Group Game 2, Beat 3 / Wrap-Up with portions 8, 24, 8, 24, 8, 28 hundredths, Montage the four titles Opening, Heightening, Tag Run, Wrap-Up with portions 30, 40, 20, 10; each sums to 100% |
| Formats.FormatType.Id | FirstBeat/FirstBeat/AppCore/Models/FormatType.swift:34 | a format's id is its title |
| Formats.FormatType.Segments | FirstBeat/FirstBeat/AppCore/Models/FormatType.swift:43-62 | every built-in segment has a positive portion and a format's portions sum to the whole show |
| Formats.BuiltInSegmentsFit | FirstBeat/FirstBeat/AppCore/Models/FormatType.swift:43-62 | a built-in format's segments never last longer than the show |
| Session.Initial | FirstBeat/FirstBeat/Session/SessionFeature.swift:15-30 | a new session keeps the given title, format, opening and duration, is stopped at segment 0 with no segment, total or remaining time, shows neither the timer, the preshow nor confetti, and has a five-second preshow |
| Session.OnTogglePlayPause | FirstBeat/FirstBeat/Session/SessionFeature.swift:48-69 | running: hide the timer and run a pause; stopped: show it and send the first matching start (resume preshow, resume segment, fresh preshow at the very start, else resume segment) |
| Session.OnStartPreshowCountdown | FirstBeat/FirstBeat/Session/SessionFeature.swift:70-84 | sets running and shows the preshow; the countdown restarts at 5 unless resuming; nothing else changes; starts the ticker |
| Session.OnStartSegmentTimer | FirstBeat/FirstBeat/Session/SessionFeature.swift:85-100 | a no-op past the last segment; otherwise running, and a fresh start with nothing remaining loads the segment's duration and zeroes elapsed time |
| Session.OnPause | FirstBeat/FirstBeat/Session/SessionFeature.swift:101-103 | pausing stops the timer, cancels the ticker and changes nothing else |
| Session.OnTick | FirstBeat/FirstBeat/Session/SessionFeature.swift:104-143 | preshow counts down by exactly 1, then hides and loads the current segment; a running segment moves one second to elapsed; an exhausted segment stops, advances by one, and loads the next or shows confetti |
| Session.Reduce | FirstBeat/FirstBeat/Session/SessionFeature.swift:45-146 | no action changes the format, duration, title or opening |
| Session.TotalDurationText | FirstBeat/FirstBeat/Session/SessionFeature.swift:150-152 | the text is the decimal rendering of the duration followed by " min", and that number reads back as the duration |
| Session.IndexOnlyAdvancesOnTick | FirstBeat/FirstBeat/Session/SessionFeature.swift:104-143 | no action decreases the segment index; only a tick increases it, by exactly one |
| Session.SegmentTickConserves | FirstBeat/FirstBeat/Session/SessionFeature.swift:123-128 | a segment tick conserves remaining + segment-elapsed time and adds one second of total elapsed time |
| Session.ToggleThenPauseStops | FirstBeat/FirstBeat/Session/SessionFeature.swift:48-103 | toggling a running timer and delivering the pause stops it and hides the timer |
| Session.PauseResumeRestores | FirstBeat/FirstBeat/Session/SessionFeature.swift:48-103 | pausing and resuming mid-preshow or mid-segment returns exactly to the running state |
| Session.RunIndexBounds | FirstBeat/FirstBeat/Session/SessionFeature.swift:104-143 | over any run the index never decreases and grows by at most the number of ticks |
| Session.TicksCountDown | FirstBeat/FirstBeat/Session/SessionFeature.swift:123-128 | n ticks with at least n seconds left count down n seconds without leaving the segment |
| SessionSetup.Initial | FirstBeat/FirstBeat/Features/SessionSetup/SessionSetupFeature.swift:14-23 | a new setup has the given suggestion, no formats, openings or available openings, nothing selected and a 25-minute duration |
| SessionSetup.AvailableOpenings | FirstBeat/FirstBeat/Features/SessionSetup/SessionSetupFeature.swift:25-38 | empty without a format; all openings when the format allows any; otherwise exactly the openings with an allowed id, order kept, multiplicities kept |
| SessionSetup.UpdateAvailableOpenings | FirstBeat/FirstBeat/Features/SessionSetup/SessionSetupFeature.swift:25-38 | only the available openings change: none without a format, all openings when it allows any, else exactly the allowed ones with their multiplicities and order (AvailableOpenings) |
| SessionSetup.OpeningWithId | FirstBeat/FirstBeat/Features/SessionSetup/SessionSetupFeature.swift:84-101 | the first opening with the id, or nothing exactly when none has it |
| SessionSetup.OnFormatsLoaded | FirstBeat/FirstBeat/Features/SessionSetup/SessionSetupFeature.swift:72-77 | formats replaced; the first is selected when there is one, otherwise the selection is kept; nothing else changes |
| SessionSetup.OnOpeningsLoaded | FirstBeat/FirstBeat/Features/SessionSetup/SessionSetupFeature.swift:79-91 | openings replaced and available openings recomputed; selects the required, else the preferred opening among all openings; keeps the selection when the format names neither |
| SessionSetup.OnTypeSelected | FirstBeat/FirstBeat/Features/SessionSetup/SessionSetupFeature.swift:93-106 | selects the format and recomputes availability; picks the required, else preferred (among all openings), else first available opening; a picked opening is always a loaded one |
| SessionSetup.OnStartSelected | FirstBeat/FirstBeat/Features/SessionSetup/SessionSetupFeature.swift:116-131 | the state never changes; the next delegate is sent, carrying suggestion, format, opening and duration, iff both a format and an opening are selected |
| SessionSetup.Reduce | FirstBeat/FirstBeat/Features/SessionSetup/SessionSetupFeature.swift:60-137 | the suggestion never changes; openingSelected and durationChanged set only their field; delegate actions do nothing; onAppear loads the catalogues |
| SessionSetup.AvailableWithinOpenings | FirstBeat/FirstBeat/Features/SessionSetup/SessionSetupFeature.swift:25-38 | available openings are always drawn, in order, from the loaded openings |
| SessionSetup.UpdateAvailableIdempotent | FirstBeat/FirstBeat/Features/SessionSetup/SessionSetupFeature.swift:25-38 | recomputing availability twice is recomputing it once, and only allowed ids survive |
| SessionSetup.TypeSelectedEnablesStart | FirstBeat/FirstBeat/Features/SessionSetup/SessionSetupFeature.swift:93-131 | a format with no required or preferred opening that allows some opening ends with an allowed opening selected, so start sends the delegate |
| Conversations.LeadingDigits | FirstBeat/FirstBeat/Suggestion/Conversation.swift:25 | the length of the leading run of ASCII digits |
| Conversations.StripNumberPrefix | FirstBeat/FirstBeat/Suggestion/Conversation.swift:25 | removes a prefix of the form digits "." spaces, only when present, leaving a suffix that does not start with a space |
| Conversations.CleanLine | FirstBeat/FirstBeat/Suggestion/Conversation.swift:19-26 | a cleaned line is the trimmed line with one anchored number prefix removed (both steps characterised by Trim and StripNumberPrefix), and has no outer whitespace |
| Conversations.ContentArray | FirstBeat/FirstBeat/Suggestion/Conversation.swift:16-29 | empty content gives no lines; otherwise one entry per newline-separated line, the i-th being that line cleaned, none with outer whitespace |
| Conversations.Update | FirstBeat/FirstBeat/Suggestion/Conversation.swift:32-34 | replaces the content and keeps id and prompt |
| Conversations.ContentArrayLines | FirstBeat/FirstBeat/Suggestion/Conversation.swift:19-28 | joining the raw lines back with newlines gives the content |
| Conversations.UnnumberedLineOnlyTrimmed | FirstBeat/FirstBeat/Suggestion/Conversation.swift:19-26 | a line without a number prefix comes back trimmed but otherwise unchanged |
| Conversations.OnlyOnePrefixRemoved | FirstBeat/FirstBeat/Suggestion/Conversation.swift:25 | only one prefix is removed: "1. 2. x" gives "2. x" |
| Conversations.CleanLineStable | FirstBeat/FirstBeat/Suggestion/Conversation.swift:19-26 | cleaning a cleaned line without a number prefix changes nothing |
| Suggestion.OnSend | FirstBeat/FirstBeat/Features/Suggestion/SuggestionFeature.swift:42-62 | empty input: no change, no effect; otherwise clears the input, sets fetching, appends exactly one conversation (fresh id, the prompt, empty content) and streams replies for it |
| Suggestion.OnReceived | FirstBeat/FirstBeat/Features/Suggestion/SuggestionFeature.swift:64-71 | updates the first conversation with the id and leaves the others; no match leaves the list; fetching always ends |
| Suggestion.Reduce | FirstBeat/FirstBeat/Features/Suggestion/SuggestionFeature.swift:34-85 | the binding sets only the input; deleteAll empties the list and ends fetching; suggestionSelected changes nothing and marks the suggestion used for AI |
| Suggestion.RunEffect | FirstBeat/FirstBeat/Features/Suggestion/SuggestionFeature.swift:78-82 | marking an AI suggestion adds exactly one "ai" record, so the AI used set gains the suggestion and every other category is unchanged; other effects leave the store |
| Suggestion.ReceivedKeepsIdsAndPrompts | FirstBeat/FirstBeat/Features/Suggestion/SuggestionFeature.swift:64-71 | a reply never changes which conversations exist, their ids or their prompts |
| Suggestion.LastChunkWins | FirstBeat/FirstBeat/Features/Suggestion/SuggestionFeature.swift:64-71 | receiving c1 then c2 for an id equals receiving c2 alone |
| Suggestion.SendThenReceive | FirstBeat/FirstBeat/Features/Suggestion/SuggestionFeature.swift:42-71 | a reply for the conversation just sent fills exactly that conversation |
| Suggestion.SelectionMarksAIUsed | FirstBeat/FirstBeat/Features/Suggestion/SuggestionFeature.swift:78-82 | selecting leaves the screen unchanged and the suggestion is then among the AI-used ones |
| UsedSuggestions.GetUsed | FirstBeat/FirstBeat/AppCore/Services/UsedSuggestionsStore.swift:36-46 | a suggestion is used for a category iff a record pairs them |
| UsedSuggestions.MarkUsed | FirstBeat/FirstBeat/AppCore/Services/UsedSuggestionsStore.swift:30-34 | adds exactly one record |
| UsedSuggestions.ShouldReset | FirstBeat/FirstBeat/AppCore/Services/UsedSuggestionsStore.swift:48-51 | holds iff the category's used set has at least totalCount suggestions |
| UsedSuggestions.ShouldResetIffExhausted | FirstBeat/FirstBeat/AppCore/Services/UsedSuggestionsStore.swift:48-51 | for a category without repeats whose used set holds only its own suggestions, shouldReset with the suggestion count holds exactly when every suggestion has been used |
| UsedSuggestions.ShouldResetNeverWithRepeats | FirstBeat/FirstBeat/AppCore/Services/UsedSuggestionsStore.swift:48-51 | for a category with a repeated suggestion, shouldReset with the suggestion count never holds while the used set holds only its own suggestions |
| UsedSuggestions.Reset | FirstBeat/FirstBeat/AppCore/Services/UsedSuggestionsStore.swift:53-66 | afterwards exactly the records of other categories remain |
| UsedSuggestions.MarkUsedEffect | FirstBeat/FirstBeat/AppCore/Services/UsedSuggestionsStore.swift:30-46 | marking adds the suggestion to its category's set and changes no other category |
| UsedSuggestions.MarkUsedTwiceSameView | FirstBeat/FirstBeat/AppCore/Services/UsedSuggestionsStore.swift:30-46 | marking twice looks the same as marking once |
| UsedSuggestions.ResetEffect | FirstBeat/FirstBeat/AppCore/Services/UsedSuggestionsStore.swift:53-66 | reset empties the category and leaves every other category unchanged |
| UsedSuggestions.AIOperationsAreCategoryOperations | FirstBeat/FirstBeat/AppCore/Services/UsedSuggestionsStore.swift:70-80 | the AI operations are the category operations for "ai" |
| UsedSuggestions.ResetIfExhausted | FirstBeat/FirstBeat/Features/RandomSuggestion/RandomSuggestionFeature.swift:56-67 | the store is reset for the category exactly when shouldReset holds and kept as it is otherwise; the set read back is the category's, smaller than the suggestion count unless that is 0 and the set empty; other categories are unchanged |
| RandomSuggestionService.GetRandomSuggestions | FirstBeat/FirstBeat/AppCore/Services/RandomSuggestionService.swift:21-27 | every result is in the category and not excluded; length min(count, available) for count >= 0; empty when nothing is available; a sub-multiset of the available suggestions |
| RandomSuggestionService.DrawHasNoDuplicates | FirstBeat/FirstBeat/AppCore/Services/RandomSuggestionService.swift:25-26 | a category without repeats gives a draw without repeats |
| RandomSuggestionService.TestGetRandomSuggestions | FirstBeat/FirstBeat/AppCore/Services/RandomSuggestionService.swift:32-34 | the first min(count, n) suggestions in order, exclusions ignored |
| RandomSuggestionService.FetchCategories | FirstBeat/FirstBeat/AppCore/Services/RandomSuggestionService.swift:18-20 | the loaded categories, or none when loading yields nothing |
| RandomSuggestion.Reduce | FirstBeat/FirstBeat/Features/RandomSuggestion/RandomSuggestionFeature.swift:38-98 | each case is a whole-state result: onAppear fetches only when no categories are loaded; categoriesLoaded stores them and ends loading; categorySelected selects and clears the suggestion; usedSuggestionsLoaded stores the set and draws 3 for a selected category only; refresh draws 3 for a selected category only; suggestionSelected always records the pick and marks it used only with a category |
| RandomSuggestion.RunEffect | FirstBeat/FirstBeat/Features/RandomSuggestion/RandomSuggestionFeature.swift:53-96 | preparing a category leaves the store as ResetIfExhausted does and answers with the resulting used set, smaller than the suggestion count unless empty; marking appends exactly the one record, so the category's used set gains the suggestion |
| RandomSuggestion.SelectCategoryDrawsUnused | FirstBeat/FirstBeat/Features/RandomSuggestion/RandomSuggestionFeature.swift:53-78 | selecting a category and feeding back its used set draws suggestions from that category that are unused; with a non-empty category without repeats the draw is non-empty |
| RandomSuggestion.SomeAvailable | FirstBeat/FirstBeat/AppCore/Services/RandomSuggestionService.swift:22-23 | fewer exclusions than distinct suggestions leave one available |
| RandomSuggestion.RepeatedSuggestionsStarve | FirstBeat/FirstBeat/AppCore/Services/UsedSuggestionsStore.swift:48-51 | for any category with a repeated suggestion and every distinct suggestion used, selecting it keeps the store and nothing is available to draw |
| RandomSuggestion.RepeatedSuggestionStarves | FirstBeat/FirstBeat/AppCore/Services/UsedSuggestionsStore.swift:48-51 | illustrates RepeatedSuggestionsStarve on ["a", "a"] with "a" used: the store is kept, the used set read back is {"a"} and nothing is available |
| WarmUpList.FilteredWarmUps | FirstBeat/FirstBeat/Features/WarmUps/WarmUpListFeature.swift:19-22 | all warm-ups without a category; otherwise exactly those of the category, as a subsequence of the list |
| WarmUpList.Toggle | FirstBeat/FirstBeat/Features/WarmUps/WarmUpListFeature.swift:55-61 | flips the id's membership and no other |
| WarmUpList.Reduce | FirstBeat/FirstBeat/Features/WarmUps/WarmUpListFeature.swift:35-64 | onAppear fetches; warmUpsLoaded, categorySelected and toggleCompleted change only their own field; warmUpSelected changes nothing |
| WarmUpList.ToggleCompletedTwice | FirstBeat/FirstBeat/Features/WarmUps/WarmUpListFeature.swift:55-61 | toggling twice restores the state |
| WarmUpList.CategoryViewsPartition | FirstBeat/FirstBeat/Features/WarmUps/WarmUpListFeature.swift:19-22 | the four category views together hold every warm-up exactly as often as the list |
| WarmUpList.FilteredIsStable | FirstBeat/FirstBeat/Features/WarmUps/WarmUpListFeature.swift:19-22 | filtering the filtered list again changes nothing |
| WarmUpDetail.Reduce | FirstBeat/FirstBeat/Features/WarmUps/WarmUpDetailFeature.swift:31-53 | the warm-up never changes; toggleFavorite flips isFavorite and saves the new value; delegates do nothing |
| WarmUpDetail.RunEffect | FirstBeat/FirstBeat/Features/WarmUps/WarmUpDetailFeature.swift:37-47 | when the write succeeds the store gains the name for true and loses it for false and touches no other name; when it fails the store is unchanged; either way the delegate reports name and value |
| WarmUpDetail.ToggleTwiceRestores | FirstBeat/FirstBeat/Features/WarmUps/WarmUpDetailFeature.swift:34-35 | toggling twice restores the state |
| WarmUpDetail.ToggleSyncsStore | FirstBeat/FirstBeat/Features/WarmUps/WarmUpDetailFeature.swift:34-47 | after a toggle and its effect the delegate carries the new value; a successful write leaves the store agreeing with the screen, a failed one leaves the store unchanged and, if it agreed before, now disagreeing |
| PracticeEntry.Ids | FirstBeat/FirstBeat/Features/Practice/PracticeEntryFeature.swift:71-101 | the ids of the option cards, one per card |
| PracticeEntry.BuildOptions | FirstBeat/FirstBeat/Features/Practice/PracticeEntryFeature.swift:71-101 | random and start are always offered, last and in that order, each card with its fixed id, title, subtitle and icon; the AI card, with its own fixed fields, is offered first iff AI is available; ids never repeat; three cards with AI, two without |
| PracticeEntry.DelegateFor | FirstBeat/FirstBeat/Features/Practice/PracticeEntryFeature.swift:53-63 | exactly the three known ids dispatch to a delegate |
| PracticeEntry.Reduce | FirstBeat/FirstBeat/Features/Practice/PracticeEntryFeature.swift:37-69 | onAppear checks only while checking; availabilityChecked records it, ends checking and rebuilds the options; optionSelected sends the matching delegate or nothing; delegates do nothing |
| PracticeEntry.DelegateIdRoundTrip | FirstBeat/FirstBeat/Features/Practice/PracticeEntryFeature.swift:53-63 | ids and delegates correspond one to one |
| PracticeEntry.OfferedCardsDispatch | FirstBeat/FirstBeat/Features/Practice/PracticeEntryFeature.swift:47-101 | every offered card dispatches when tapped, and the AI delegate is reachable only when AI is available |
| PracticeEntry.CheckedOnce | FirstBeat/FirstBeat/Features/Practice/PracticeEntryFeature.swift:40-51 | once availability is known, appearing again starts no check |
| App.Push | FirstBeat/FirstBeat/Features/App/AppFeature.swift:92 | appends exactly one element with a fresh id and keeps the ids well formed |
| App.Lookup | FirstBeat/FirstBeat/Features/App/AppFeature.swift:126 | the element with the id, or nothing exactly when no element has it |
| App.SyncElement | FirstBeat/FirstBeat/Features/App/AppFeature.swift:140-147 | a warm-up list gains or loses the name and keeps everything else; other screens are untouched |
| App.SyncFavorite | FirstBeat/FirstBeat/Features/App/AppFeature.swift:139-148 | every element is synchronised and the path keeps its length |
| App.SyncFavoriteInPlace | FirstBeat/FirstBeat/Features/App/AppFeature.swift:139-148 | the in-place loop keeps every id and non-list element, leaves every list agreeing with the new value, and equals the functional sync |
| App.Reduce | FirstBeat/FirstBeat/Features/App/AppFeature.swift:87-154 | home delegates push a fresh list or entry screen; getAISuggestion pushes a suggestion screen; startPractice pushes setup without and suggestionSelected with a suggestion; next pushes a session with exactly its four values; warmUpSelected pushes a detail reflecting the list's favourites or does nothing when the source is not a list; favoriteToggled syncs every list; everything else leaves the path |
| App.ReduceKeepsWellFormed | FirstBeat/FirstBeat/Features/App/AppFeature.swift:87-154 | every action keeps element ids unique and grows the path by at most one |
| App.RandomSuggestionDelegateIgnored | FirstBeat/FirstBeat/Features/App/AppFeature.swift:152-153 | the unhandled getRandomSuggestion delegate leaves the path unchanged |
| App.FavoriteRoundTrip | FirstBeat/FirstBeat/Features/App/AppFeature.swift:125-149 | opening a warm-up, toggling its favourite, running the save and routing the delegate leaves the detail and every warm-up list in agreement; the store agrees too when the write succeeds and is unchanged when it fails |
| App.SyncFavoriteIdempotent | FirstBeat/FirstBeat/Features/App/AppFeature.swift:137-149 | syncing the same change twice is syncing it once |
| Text.Trim | FirstBeat/FirstBeat/Suggestion/Conversation.swift:21 | the result is the input with exactly its leading and trailing whitespace removed: it starts after the leading whitespace, everything after it is whitespace, and it has no outer whitespace |
| Text.TrimIdempotent | FirstBeat/FirstBeat/Suggestion/Conversation.swift:21 | trimming twice is trimming once |
| Text.TrimFixedIff | FirstBeat/FirstBeat/Suggestion/Conversation.swift:21 | trimming leaves a string unchanged iff it has no outer whitespace |
| Text.Split | FirstBeat/FirstBeat/Suggestion/Conversation.swift:19 | one more piece than separators, none containing the separator |
| Text.JoinSplit | FirstBeat/FirstBeat/Suggestion/Conversation.swift:19 | joining the pieces with the separator gives back the string |
| Text.SplitJoin | FirstBeat/FirstBeat/Suggestion/Conversation.swift:19 | splitting a join of separator-free pieces gives back the pieces |
| Text.IntToString | FirstBeat/FirstBeat/Session/SessionFeature.swift:151 | a leading "-" exactly for negative numbers, then a non-empty run of decimal digits that starts with "0" only for 0 itself |
| Text.ParseInt | FirstBeat/FirstBeat/Session/SessionFeature.swift:151 | reads back only the canonical rendering: a result n means the text is exactly the rendering of n, so "02" and "-0" are rejected |
| Text.ParseIntToString | FirstBeat/FirstBeat/Session/SessionFeature.swift:151 | rendered integers parse back to themselves |
| Text.IntToStringInjective | FirstBeat/FirstBeat/AppCore/Models/FormatType.swift:25-26 | different integers render differently |
| Seqs.Filter | FirstBeat/FirstBeat/Features/WarmUps/WarmUpListFeature.swift:21 | exactly the elements satisfying the predicate, each as often as in the input, in input order |
| Seqs.FirstIndex | FirstBeat/FirstBeat/Features/Suggestion/SuggestionFeature.swift:65 | the first index where the predicate holds, or nothing when it holds nowhere |
| Seqs.FirstWhere | FirstBeat/FirstBeat/Features/SessionSetup/SessionSetupFeature.swift:86 | the first element satisfying the predicate, or nothing when none does |

## Left out

- User interface, animation, colours, logging and the `HomeFeature` switch. None of them carries logic.
- The AI suggestion service (on-device LLM streaming with retries). It is a foreign asynchronous call; its output reaches the model only as `conversationReceived` actions.
- The favourites service and the AI-availability check. They are modelled as a set of names and a boolean the runtime reports.
- The file system, JSON encoding and decoding, URLSession and the bundle reader. They become a cache map, a `decode` parameter, a `Response` input, per-write success flags and a `bundled` value.
- Every read error of a metadata file counts as absent metadata, as the source treats it.
- A non-HTTP response is folded into the non-200 case.
- Time is an integer number of seconds; `Date` and time intervals are not modelled.
- Concurrency. The background refresh after a cache hit is a flag plus a separate `FetchAndCache` step. Effects are data, not executed tasks. Timer cancellation and in-flight replacement are only named.
- Randomness. `shuffled()` is any permutation, given as a parameter. Fresh UUIDs are parameters too.
- Unicode. Whitespace and digits are ASCII. Trimming covers space, tab, newline, carriage return, vertical tab and form feed.
- Formats.SegmentSeconds: the source multiplies by a `Double` portion; the model uses whole hundredths and floors to whole seconds.
- Session.OnTick: `remainingTime` is whole seconds. In the source it is a `Double`, so a fractional segment duration lasts one tick longer than the truncated value.
- RandomSuggestionService.GetRandomSuggestions: requires a count of at least 0 when something is available, because `prefix` traps on a negative length in the source; the model does not describe the trap.
- RandomSuggestionService.TestGetRandomSuggestions: requires a count of at least 0 for the same reason.
- WarmUpDetail.RunEffect: a failed favourite write is one flag. A failed add or remove leaves the store as it was; a save that fails after an insert or delete is approximated the same way, although the unsaved change may linger in the SwiftData context.
- UsedSuggestions.GetUsed: a fetch error, which the source answers with the empty set, is not modelled; the model always reads the stored records. The same holds for `shouldReset`, which reads through `getUsed`.
- UsedSuggestions.Reset: a failed fetch or save, after which the source silently keeps the category's records, is not modelled; the model always removes them. The bound "smaller than the suggestion count" of UsedSuggestions.ResetIfExhausted and RandomSuggestion.RunEffect relies on the reset succeeding.
- RemoteConfig.Load: one `now` serves both the expiry test and the save stamp. The source reads `Date()` separately for each, so the two instants may differ slightly.
- `segmentBreakdownText`. It is presentation text only.
- Session.Reduce: a tick at the end of the preshow with the segment index past the last segment traps in the source. The model excludes it by the precondition `Defined` rather than modelling a crash.
- App.Reduce: the child reducers the stack runs for each element, the home child reducer, and the stack's own push/pop bookkeeping are not composed in. Only the root reducer's reactions are modelled.
- The test and preview variants of the used-suggestion service, and the preview random draw. They are stubs.
- The legacy duplicate copies of the suggestion, setup, practice, warm-up detail and app reducers. They are superseded by the `Features/` versions modelled here.
