# Pilot Finder — a Dafny model of its onboarding core and chat widgets

Pilot Finder helps founders find pilot customers. A founder submits a business name and
description. The onboarding route then:

- creates a session row with status "processing";
- asks an AI agent, in the background, to assess the business;
- parses the agent's free text into a market-viability label and a market-size label;
- stores one analysis row, plus lead rows when there are any;
- marks the session "completed", or "failed" when anything throws.

A client polls the session by id and receives the analysis and the leads only once the
session is completed. The leads come ordered by descending priority.

The front end has three stateful widgets:

- a landing-page composer with a slash-command palette;
- a chat screen that can delete or edit-and-resend messages and sends a carried-over first
  message once;
- a microphone button with a mm:ss timer.

The model is nine Dafny modules:

| file | module | models |
|---|---|---|
| `wrappers.dfy` | `Wrappers` | `Option` |
| `text.dfy` | `Text` | JavaScript `trim`, ASCII `toLowerCase`, `startsWith`, `includes` |
| `lists.dfy` | `Lists` | the "every element but index i" filter; the `File` value |
| `schema.dfy` | `Schema` | the three tables' rows, their `varchar` limits and column defaults |
| `parser.dfy` | `AgentResponse` | `parseAgentResponse` and an independent rule-table reading of it |
| `onboard.dfy` | `Onboard` | POST, the background run, GET |
| `animated_chat.dfy` | `AnimatedChat` | the composer |
| `chat_interface.dfy` | `ChatInterface` | the chat screen |
| `voice_input.dfy` | `VoiceInput` | the microphone button |

The tables are the value `Onboard.Db`. Three functions state what each handler does to it or
reads from it: `PostSpec`, `RunSpec` and `Respond`. The class `Onboard.Store` performs the same
writes step by step, and each of its methods is proved equal to its specification function.
The table invariant `Consistent` is preserved by every handler. It says:

- every row references a stored session and fits its columns;
- every stamp lies in the past;
- a completed session has an analysis.

Each widget is a class whose fields are the component's state. Each handler is a method that
states the new state; the pure parts are functions with lemmas.

Inputs the code receives from outside are parameters:

- the agent's answer is an `AgentOutcome`;
- whether each database write succeeds is a `WriteOutcome` (collected per run in `RunFaults`);
- whether the browser grants the microphone is a `MicAccess`;
- how the transcription request ends is a `TranscribeOutcome`;
- the measured textarea height is a number;
- the session id is a fresh natural number;
- time is a counter that each request or run reads once and advances.

## Model

| member | source | states |
|---|---|---|
| Onboard.PostOutcomes | pilot-finder-app/src/app/api/onboard/route.ts:6-43 | POST answers 400 exactly when the name or the description is missing or empty, and then creates nothing. It starts a session exactly when the body is readable, both fields are non-empty, the name is accepted by its `varchar(255)` column and the insert succeeds; that session is fresh, in "processing", holds the name as the column stores it and the given description, no other row is touched, and its id is returned. It answers 500, creating nothing, exactly when the body is unreadable or a valid body's insert fails or its name is rejected by the column |
| Schema.VarcharValue | pilot-finder-app/src/lib/db/schema.ts:6 | a `varchar(n)` column stores a value of at most n characters as it is; a longer one is cut to its first n characters when only spaces follow them, and is rejected otherwise |
| Onboard.LongNameOutcomes | pilot-finder-app/src/app/api/onboard/route.ts:19-26 | a 255-character name followed by a space starts a session whose name is cut to 255 characters; a 256-character name without trailing spaces is a 500 |
| Onboard.BlankNameAccepted | pilot-finder-app/src/app/api/onboard/route.ts:11 | validation tests falsiness only, so a name made of blanks starts a session |
| Onboard.PostKeepsConsistency | pilot-finder-app/src/app/api/onboard/route.ts:19-26 | POST keeps the table invariant |
| Onboard.Store.Post | pilot-finder-app/src/app/api/onboard/route.ts:6-43 | the step-by-step handler leaves the store and answers exactly as `PostSpec` says, keeping the invariant |
| Schema.NewSession | pilot-finder-app/src/lib/db/schema.ts:4-11 | an inserted session takes the status column's default "processing" when none is supplied, and both timestamps take the insert's instant |
| Onboard.FirstAnalysisOf | pilot-finder-app/src/app/api/onboard/route.ts:70-72 | the analysis found is a stored row of that session, and none is found exactly when the session has no row |
| Onboard.FirstAnalysisAfterAppend | pilot-finder-app/src/app/api/onboard/route.ts:70-72 | appending a row changes a session's first analysis only when that session had none |
| Onboard.LeadsOf | pilot-finder-app/src/app/api/onboard/route.ts:74-77 | the leads found are exactly the stored leads of that session, each as many times as it is stored, and none when no row matches |
| Onboard.SortByPriorityDesc | pilot-finder-app/src/app/api/onboard/route.ts:76 | `ORDER BY priority DESC` gives a permutation of the rows in non-increasing priority |
| Onboard.Respond | pilot-finder-app/src/app/api/onboard/route.ts:45-92 | GET is 400 exactly without an id and 404 exactly for an unknown id. A known id always gives the stored session. Analysis and leads are absent unless the session is "completed"; then they are the session's first analysis and a priority-sorted permutation of its leads |
| Onboard.CompletedHasAnalysis | pilot-finder-app/src/app/api/onboard/route.ts:69-72 | in consistent tables a completed session is always reported with its own analysis |
| Onboard.AnalysisRowFor | pilot-finder-app/src/app/api/onboard/route.ts:132-142 | each analysis field takes the parsed value when truthy, else the route's fallback ("unknown", the agent text, "See assessment for details", empty lists) |
| Onboard.LeadRowFor | pilot-finder-app/src/app/api/onboard/route.ts:147-157 | each lead field takes the parsed value when truthy, else its default ("research", "Potential Lead", "", priority 3 for an absent or zero priority) |
| Onboard.LeadPriorityOverridesColumnDefault | pilot-finder-app/src/app/api/onboard/route.ts:156 | the route always supplies a priority, so the stored value is the supplied one and a lead without a priority gets 3, not the column default 1 of `schema.ts:37` |
| Onboard.ParsedRowFits | pilot-finder-app/src/app/api/onboard/route.ts:129-142 | the row built from the parser's record always fits the analysis columns. Its labels come from the fixed vocabularies, its assessment is the agent text, its recommendations are the parser's placeholder, and its lists are empty |
| Onboard.RunFinalStatus | pilot-finder-app/src/app/api/onboard/route.ts:95-175 | starting from "processing", a run ends "completed" exactly when the agent answers and the reset, the analysis insert and the completion update all succeed. Otherwise it ends "failed" when the catch-block update succeeds, and stays "processing" when that update throws too. The timestamp is refreshed exactly when the status leaves "processing" |
| Onboard.RunWrites | pilot-finder-app/src/app/api/onboard/route.ts:100-159 | a run appends the analysis row exactly when the reset succeeded, the agent answered and the insert went through; no lead row is ever written |
| Onboard.RunIsolated | pilot-finder-app/src/app/api/onboard/route.ts:102-105 | a run changes no other session and adds no session |
| Onboard.RunKeepsSessionFields | pilot-finder-app/src/app/api/onboard/route.ts:102-173 | a run rewrites only its own session's status and `updatedAt`; its id, name, description and creation stamp stay as they were |
| Onboard.RunKeepsConsistency | pilot-finder-app/src/app/api/onboard/route.ts:95-175 | every run outcome keeps the table invariant |
| Onboard.PersistKeepsConsistency | pilot-finder-app/src/app/api/onboard/route.ts:132-165 | the analysis, lead and completion writes keep the store's consistency invariant, whichever of them fail |
| Onboard.PersistFrame | pilot-finder-app/src/app/api/onboard/route.ts:132-165 | the writes keep the clock and the set of sessions and stamp no later than the run's instant |
| Onboard.PollAfterSubmit | pilot-finder-app/src/app/api/onboard/route.ts:19-35 | right after a successful POST, a poll sees the new session in "processing" with no analysis and no leads |
| Onboard.PollAfterRun | pilot-finder-app/src/app/api/onboard/route.ts:95-175 | after the run, a poll sees "completed" exactly when everything went well, and then exactly the row the run wrote and no leads. Otherwise it sees no results |
| Onboard.SubmitRunPoll | pilot-finder-app/src/app/api/onboard/route.ts:6-175 | the whole submit, run and poll lifecycle of one submission, as in the two rows above |
| Onboard.AnalysisSurvivesLateFailure | pilot-finder-app/src/app/api/onboard/route.ts:132-173 | when marking the session completed throws after the analysis insert, the session ends "failed", the row stays stored, and GET hides it |
| Onboard.Store.Process | pilot-finder-app/src/app/api/onboard/route.ts:95-175 | the step-by-step run leaves the store exactly as `RunSpec` says and keeps the invariant |
| Onboard.Store.Persist | pilot-finder-app/src/app/api/onboard/route.ts:132-165 | the step-by-step persistence matches `PersistSpec`, including the exception it reports |
| Onboard.Store.UpdateStatus | pilot-finder-app/src/app/api/onboard/route.ts:162-165 | an update by id changes only that session's status (and stamp); an unknown id changes nothing |
| AgentResponse.ParseAgentResponse | pilot-finder-app/src/app/api/onboard/route.ts:178-222 | the labels come from {viable, oversaturated, pivot_needed, unknown} and {large, medium, small, unknown}. The assessment is the whole text, the recommendations are the placeholder, and the lists and leads are empty |
| AgentResponse.ViabilityFollowsRules | pilot-finder-app/src/app/api/onboard/route.ts:195-204 | the viability chain equals the first matching rule of an independent rule table, falling back to "unknown" |
| AgentResponse.SizeFollowsRules | pilot-finder-app/src/app/api/onboard/route.ts:207-219 | the size chain equals the first matching rule of its rule table, falling back to "unknown" |
| AgentResponse.FirstMatchPicksFirstFiring | pilot-finder-app/src/app/api/onboard/route.ts:195-204 | the first-match reading returns the verdict of the first rule that fires |
| AgentResponse.FirstMatchFallsBack | pilot-finder-app/src/app/api/onboard/route.ts:195-204 | when no rule fires, the first-match reading returns the fallback |
| AgentResponse.ParseIgnoresCase | pilot-finder-app/src/app/api/onboard/route.ts:196-216 | classification is the same for a text and its lower-cased form |
| AgentResponse.NotViableIsNeverViable | pilot-finder-app/src/app/api/onboard/route.ts:195-199 | a text saying "not viable" (which contains "viable") is never labelled viable |
| AgentResponse.OversaturatedBeatsPivot | pilot-finder-app/src/app/api/onboard/route.ts:200-203 | without "viable", mentioning both oversaturation and a pivot gives "oversaturated" |
| AgentResponse.ViableBeatsEverything | pilot-finder-app/src/app/api/onboard/route.ts:195-199 | "viable" without "not viable" wins over every later keyword |
| AgentResponse.NicheIsSmall | pilot-finder-app/src/app/api/onboard/route.ts:207-219 | "niche" without a large, medium or moderate market gives "small" |
| AgentResponse.NoKeywordsGiveUnknown | pilot-finder-app/src/app/api/onboard/route.ts:182-192 | a text without the letters v, m and n holds no keyword, so both labels stay "unknown" |
| Text.TrimEmptyIff | pilot-finder-app/src/components/ui/chat-interface.tsx:105 | `s.trim()` is empty exactly when `s` is all JavaScript whitespace |
| Text.TrimIdempotent | pilot-finder-app/src/components/ui/animated-ai-chat.tsx:264-267 | trimming twice is the same as trimming once |
| Text.TrimIsSlice | pilot-finder-app/src/components/ui/animated-ai-chat.tsx:264-267 | the trimmed text is the contiguous slice of the input that starts where the leading blanks end |
| Text.ContainsIff | pilot-finder-app/src/app/api/onboard/route.ts:196 | `includes` holds exactly when some position starts an occurrence |
| Lists.WithoutIndexSplices | pilot-finder-app/src/components/ui/animated-ai-chat.tsx:305-307 | filtering out index i equals splicing out element i, and changes nothing for an out-of-range index |
| AnimatedChat.ClampHeight | pilot-finder-app/src/components/ui/animated-ai-chat.tsx:43-49 | the new height is at least the minimum, at most the maximum whenever the maximum is at least the minimum, and the content height itself when it lies in range. Content at or below the minimum gives the minimum; content at or above the maximum gives the maximum, or the minimum when the bounds cross |
| AnimatedChat.MatchIndex | pilot-finder-app/src/components/ui/animated-ai-chat.tsx:184-186 | the highlighted suggestion is the first whose prefix starts with the text, or -1 exactly when none does |
| AnimatedChat.MatchExamples | pilot-finder-app/src/components/ui/animated-ai-chat.tsx:153-192 | "/" highlights "/find", "/p" highlights "/pivot", "/x" highlights nothing |
| AnimatedChat.NextDown | pilot-finder-app/src/components/ui/animated-ai-chat.tsx:231-235 | ArrowDown moves to the next suggestion (from -1 to the first), and from the last (or beyond) wraps to the first; from any start in [-1, n-1] it lands in [0, n-1] |
| AnimatedChat.NextUp | pilot-finder-app/src/components/ui/animated-ai-chat.tsx:236-240 | ArrowUp moves to the previous suggestion, and both 0 and -1 wrap to the last; from any start in [-1, n-1] it lands in [0, n-1] |
| AnimatedChat.ChatComposer.ValueChanged | pilot-finder-app/src/components/ui/animated-ai-chat.tsx:180-196 | after a value change the palette is shown exactly when the text starts with "/" and has no space, and then the highlight is the first matching prefix |
| AnimatedChat.ChatComposer.Change | pilot-finder-app/src/components/ui/animated-ai-chat.tsx:455-457 | typing stores the text, clamps the height, and runs the palette effect only when the text changed |
| AnimatedChat.ChatComposer.KeyDown | pilot-finder-app/src/components/ui/animated-ai-chat.tsx:229-261 | with the palette open, the arrows move the wrapped highlight, and Tab or Enter on a highlight writes "prefix " and closes it (no highlight: no change). Escape closes the palette, and any other key changes nothing; only the arrows move the highlight. With it closed, Enter without Shift sends the trimmed text exactly when it is non-blank (or turns the typing indicator on without a callback); nothing is sent while the palette is open. Attachments and height never change |
| AnimatedChat.ChatComposer.SelectCommandSuggestion | pilot-finder-app/src/components/ui/animated-ai-chat.tsx:309-316 | choosing a suggestion writes "prefix " and closes the palette, as Tab does; highlight, attachments, typing indicator and height stay |
| AnimatedChat.ChatComposer.Send | pilot-finder-app/src/components/ui/animated-ai-chat.tsx:263-282 | a non-blank text is handed to the send callback trimmed, with the attachments only when there are any. Without a callback the typing indicator turns on instead |
| AnimatedChat.ChatComposer.TypingFinished | pilot-finder-app/src/components/ui/animated-ai-chat.tsx:273-278 | the simulated reply ends with an empty text, no attachments, the minimum height and the palette closed |
| AnimatedChat.ChatComposer.FileSelect | pilot-finder-app/src/components/ui/animated-ai-chat.tsx:288-295 | picked files are appended after the existing attachments |
| AnimatedChat.ChatComposer.RemoveAttachment | pilot-finder-app/src/components/ui/animated-ai-chat.tsx:305-307 | exactly the attachment at the index is dropped and the rest keep their order |
| AnimatedChat.ChatComposer.ToggleCommandPalette | pilot-finder-app/src/components/ui/animated-ai-chat.tsx:530-532 | the command button flips the palette |
| AnimatedChat.ChatComposer.VoiceTranscribed | pilot-finder-app/src/components/ui/animated-ai-chat.tsx:318-323 | a non-blank transcription replaces the text, trimmed; when that changes the text, the palette effect re-runs: the palette opens exactly for a slash-word and then highlights its first match |
| ChatInterface.IndexOfId | pilot-finder-app/src/components/ui/chat-interface.tsx:154 | the index found holds the first message with that id, and -1 means no message has it |
| ChatInterface.TruncateAt | pilot-finder-app/src/components/ui/chat-interface.tsx:153-159 | the result is the prefix strictly before the first message with the id, holds no message with it, and is the whole list for an unknown id |
| ChatInterface.TruncateIdempotent | pilot-finder-app/src/components/ui/chat-interface.tsx:153-159 | truncating again at the same id changes nothing |
| ChatInterface.TruncateIsLongestPrefix | pilot-finder-app/src/components/ui/chat-interface.tsx:153-159 | every longer prefix contains the id, so no fewer messages are dropped than necessary |
| ChatInterface.RemoveFileAt | pilot-finder-app/src/components/ui/chat-interface.tsx:122-130 | the remaining files keep their order without the one at the index, and an empty result becomes no selection |
| ChatInterface.NoSendAfterFlag | pilot-finder-app/src/components/ui/chat-interface.tsx:88-101 | once the sent flag is set no later effect run sends |
| ChatInterface.InitialMessageSentAtMostOnce | pilot-finder-app/src/components/ui/chat-interface.tsx:88-101 | over any sequence of effect runs the initial message goes out at most once |
| ChatInterface.SendableRunSends | pilot-finder-app/src/components/ui/chat-interface.tsx:88-101 | if some run sees a non-blank message with the chat ready, the message goes out exactly once |
| ChatInterface.SendingRun | pilot-finder-app/src/components/ui/chat-interface.tsx:88-101 | if the message goes out, there is a first run that saw a non-blank message with the chat ready, and none before it did |
| ChatInterface.InitialMessageSentIff | pilot-finder-app/src/components/ui/chat-interface.tsx:88-101 | the message goes out exactly when some run sees a non-blank message with the chat ready |
| ChatInterface.ChatScreen.DeleteMessage | pilot-finder-app/src/components/ui/chat-interface.tsx:150-162 | deleting truncates the list at the message, and changes nothing without `setMessages` |
| ChatInterface.ChatScreen.SaveEditMessage | pilot-finder-app/src/components/ui/chat-interface.tsx:186-202 | with a non-blank edit and `setMessages` present, the list is truncated as by delete, editing ends, and the trimmed edit is sent; otherwise nothing changes |
| ChatInterface.ChatScreen.CancelEditMessage | pilot-finder-app/src/components/ui/chat-interface.tsx:169-172 | no message is under edit and the edit text is empty |
| ChatInterface.ChatScreen.StartEditMessage | pilot-finder-app/src/components/ui/chat-interface.tsx:164-167 | the message and its text are under edit |
| ChatInterface.ChatScreen.SelectFiles | pilot-finder-app/src/components/ui/chat-interface.tsx:118-120 | the picked file list replaces the selection; since the list object is always truthy, an empty pick is stored as an empty selection (and then sent as such by the submit handler) rather than cleared |
| ChatInterface.ChatScreen.RemoveFile | pilot-finder-app/src/components/ui/chat-interface.tsx:122-130 | the selection becomes `RemoveFileAt` of the old one |
| ChatInterface.ChatScreen.HandleSubmit | pilot-finder-app/src/components/ui/chat-interface.tsx:103-116 | it sends exactly when the input is non-blank and the chat is ready, sending the input as typed with the files, then clearing both; otherwise nothing changes |
| ChatInterface.ChatScreen.VoiceTranscribed | pilot-finder-app/src/components/ui/chat-interface.tsx:174-179 | a non-blank transcription replaces the input, trimmed |
| ChatInterface.ChatScreen.InitialMessageEffect | pilot-finder-app/src/components/ui/chat-interface.tsx:88-101 | one effect run sends the message with the initial files exactly when it is due, and sets the flag when it sends |
| VoiceInput.DigitsRoundTrip | pilot-finder-app/src/components/ui/ai-voice-input.tsx:188 | reading back the decimal digits of a number gives the number |
| VoiceInput.PadKeepsValue | pilot-finder-app/src/components/ui/ai-voice-input.tsx:188 | zero-padding to two characters keeps the value |
| VoiceInput.Field2 | pilot-finder-app/src/components/ui/ai-voice-input.tsx:188 | a padded field is all digits, at least two wide (exactly two below 100), and reads back as its number |
| VoiceInput.FormatTime | pilot-finder-app/src/components/ui/ai-voice-input.tsx:185-189 | the clock is decimal digits, a colon, then two decimal digits; it is exactly five characters below 100 minutes, and a longer clock has no leading zero |
| VoiceInput.ClockRoundTrip | pilot-finder-app/src/components/ui/ai-voice-input.tsx:185-189 | a clock face reads back as the minutes and the seconds it shows |
| VoiceInput.FormatTimeRoundTrip | pilot-finder-app/src/components/ui/ai-voice-input.tsx:185-189 | the shown minutes times 60 plus the shown seconds give back the input, and the shown seconds are below 60 |
| VoiceInput.FormatTimeInjective | pilot-finder-app/src/components/ui/ai-voice-input.tsx:185-189 | no two durations share a formatted time |
| VoiceInput.StatusText | pilot-finder-app/src/components/ui/ai-voice-input.tsx:209-214 | each text appears exactly in its case, in the priority processing, listening, denied microphone, "Click to speak" |
| VoiceInput.VoiceButton.HandleClick | pilot-finder-app/src/components/ui/ai-voice-input.tsx:191-231 | the button is disabled while permission is denied, so such a click changes nothing. Otherwise, in demo mode a click leaves the demo with the bars off; outside it a click is ignored while processing, stops a recording, or starts one. Each case states every field of the new state |
| VoiceInput.VoiceButton.StartRecording | pilot-finder-app/src/components/ui/ai-voice-input.tsx:109-165 | a granted microphone records from time 0 with the timer on, after calling `onStart`. A refused one leaves permission "denied" and calls `onError` with the microphone message |
| VoiceInput.VoiceButton.Tick | pilot-finder-app/src/components/ui/ai-voice-input.tsx:157-159 | each tick adds exactly one second |
| VoiceInput.VoiceButton.StopRecording | pilot-finder-app/src/components/ui/ai-voice-input.tsx:167-183 | stopping clears the timer, reports the elapsed time to `onStop`, and leaves recording off and processing on |
| VoiceInput.VoiceButton.FinishTranscription | pilot-finder-app/src/components/ui/ai-voice-input.tsx:76-106 | exactly one callback is made: `onTranscription` with a non-empty text, else `onError` with "No transcription received" or "Failed to transcribe audio". Processing ends and the time returns to 0 |
| VoiceInput.VoiceButton.DemoStep | pilot-finder-app/src/components/ui/ai-voice-input.tsx:57-74 | the demo animation turns the bars on or off only while the demo runs |
| VoiceInput.VoiceButton.PermissionQueried | pilot-finder-app/src/components/ui/ai-voice-input.tsx:42-55 | the stored permission is the browser's answer |
| VoiceInput.RecordingCycle | pilot-finder-app/src/components/ui/ai-voice-input.tsx:109-183 | start, n ticks, stop and transcription call `onStart`, then `onStop(n)`, then one result callback, and leave the button idle at time 0 |

## Where the code does less than one might expect

The model follows the code in each case.

- Validation: one might expect a name or description of blanks to be rejected. The code tests
  falsiness only (`route.ts:11`), so a name of blanks is accepted (`BlankNameAccepted`).
- POST success status: creating a session might be expected to answer 201 or 202. The code
  answers with the default 200 (`route.ts:31-35`). `Started` stands for that reply.
- Partial results: a failed run might be expected to leave no analysis row behind. The code
  keeps an analysis row whose later writes failed (`route.ts:132-173`), and GET hides it
  because the session is not completed (`AnalysisSurvivesLateFailure`).
- Failure is not guaranteed: a failed run might be expected always to end "failed". When the
  catch-block update itself throws, the code leaves the session in "processing"
  (`RunFinalStatus`).

## Left out

- The agent call and its prompt: `onboardingAgent.generate` is external. Its result is an
  `AgentOutcome` parameter. The business name and description only feed the prompt, so
  `Store.Process` does not take them.
- Background scheduling: the fire-and-forget start of the run and its interleaving with
  polls are not modelled. The run is a separate method applied after POST.
- GET's 500 path: the code gives 500 for a database error or a malformed uuid. Ids are
  natural numbers here, and reads do not fail.
- The analysis and lead inserts reject an over-long `varchar` value outright instead of cutting
  trailing spaces as the session insert does (`VarcharValue`). For the analysis this never
  matters, because its labels come from fixed short vocabularies (`ParsedRowFits`). Lead rows are
  never built from the agent's answer.
- Non-string JSON values in the POST body are not modelled; a field is a string or absent.
  A body that is not JSON is the `None` body (500).
- Row ids: the uuids of analysis and lead rows are never read by the core and are not
  modelled. Timestamps are a counter.
- Drizzle and Postgres: query building is not modelled. Equal-priority leads may come back in
  any order; `SortByPriorityDesc` picks one order, and `Respond` promises only sortedness and
  the permutation.
- `Text.Lower`: it folds ASCII letters only. JavaScript's `toLowerCase` also folds non-ASCII
  characters, and some of them fold into ASCII keyword letters (U+212A KELVIN SIGN becomes
  'k'). A text that spells a keyword with such a
  character is classified by the code but not by the model: "LARGE MAR\u212AET" is "large"
  in the code and "unknown" here.
- `formatFileSize` in both chat files: floating point (`Math.log`, `toFixed`).
- The random visualizer bar heights in the voice button.
- DOM plumbing: mouse tracking, click-outside closing of the palette, window resize, focus,
  the file input's reset, `recentCommand` and its timeouts, toasts, the clipboard, animation
  props, and the voice-input toggles `showVoiceInput`.
- `MediaRecorder`, `getUserMedia` and the transcription `fetch`: these become `MicAccess` and
  `TranscribeOutcome`. A second click while `getUserMedia` is pending is not modelled, because
  the start is atomic here.
- `ChatInterface.ChatScreen.HandleSubmit`: the model assumes `sendMessage` resolves. When it
  rejects, the code leaves the input and files in place; that path is not modelled.
- Rendering of messages, reasoning, tool calls, and the stop and regenerate buttons.
