# AskAI chat panel: the conversation state machine

This project models the behaviour inside the `AskAI` React component
(`src/components/ask-ai/ask-ai.tsx`). The component is a chat panel. It sends a prompt
to a selectable AI provider and keeps the conversation in the browser's `localStorage`.
The panel runs one step at a time. Its state is:

- the working flag;
- the abort controller of the request in flight;
- the ordered message history;
- the prompt text;
- the session id;
- the selected provider and the list of available providers;
- the HTML buffer and the view, which belong to the parent and which the panel sets
  through callbacks;
- the two storage keys `chatHistory` and `sessionId`.

Its events are: submit (`callAi` up to the fetch), the request's outcome (the rest of
`callAi`, through its `finally`), stop, new conversation, clear history, the load and
save effects, the provider check, and the three input setters.

Layout, one module per concern:

- `text.dfy` (module `Text`): JavaScript `trim`, using ECMAScript's WhiteSpace and
  LineTerminator sets (sections 12.2 and 12.3 of ECMA-262). Also `includes`, and the
  "looks like an HTML document" test built on it.
- `sequences.dfy` (module `Sequences`): `Array.prototype.filter` and `map`, which the
  rollback, the configured-provider list and the dropdown are built on.
- `messages.dfy` (module `Messages`): the message record and the rollback filter by id.
- `providers.dfy` (module `Providers`): the configured-provider filter, the fallback
  of the selection, the dropdown built from the `PROVIDER_OPTIONS` table, and the
  initial provider.
- `persistence.dfy` (module `Persistence`): the save, restore and clear rules for the
  two keys. A `Codec` stands for `JSON.stringify` and `JSON.parse`.
- `session.dfy` (module `Session`): the whole state as a value, one function per
  event, and lemmas that connect events.
- `component.dfy` (module `Component`): class `AskAiPanel`. It holds the same state in
  fields. Each handler updates them step by step and is proved to leave
  `State() == Session.<Event>(old(State()), …)`.

Inputs, not effects:

- The network replies are inputs. `Outcome` is the ask-ai answer and `ProviderCheck`
  is the check-env answer.
- The uuids are inputs. `AskAiPanel.Submit` requires the user message's id to be
  absent from the history. The assistant reply's id is not constrained, because only
  the user message is ever removed by id (line 285).
- `Date.now()` is an input.

On a cancellation the code also removes the optimistic user message: the
`AbortError` reaches the same `catch` block as every other failure, and the filter by
id runs before the error's name is looked at. The abort only changes the toast
(`FailureRollsBack`, `FailuresAgreeOnState`). Only `stopGeneration` aborts the
controller, so `Session.Complete` accepts the `Aborted` outcome only for a request
that was stopped. A stopped request can still end in any other outcome, a success
included, when the fetch had already settled before the abort.

Two consequences of the save rule are proved as lemmas. The rule never writes an empty
history.

- When a request fails on an empty conversation, the rolled-back message stays in
  storage. The next mount restores it (`RolledBackMessageReturnsOnReload`).
- After a new conversation, storage keeps the old messages. The next mount restores
  them under the new session id (`NewConversationReloadsOldHistory`).

Only `clearHistory` really empties storage (`ClearedConversationStaysCleared`).

## Model

| member | source | states |
|---|---|---|
| Text.TrimStart | src/components/ask-ai/ask-ai.tsx:219 | the result is a suffix of the input, everything dropped is whitespace, and the result does not start with whitespace |
| Text.TrimEnd | src/components/ask-ai/ask-ai.tsx:219 | the result is a prefix of the input, everything dropped is whitespace, and the result does not end with whitespace |
| Text.Trim | src/components/ask-ai/ask-ai.tsx:219 | `prompt.trim()` is a slice of the prompt with only whitespace around it, and it neither starts nor ends with whitespace |
| Text.TrimEmptyIff | src/components/ask-ai/ask-ai.tsx:210 | the guard `!prompt.trim()` holds exactly when the prompt is whitespace only |
| Text.Contains | src/components/ask-ai/ask-ai.tsx:273 | `s.includes(pat)` is true if and only if `pat` occurs at some index of `s` |
| Text.LooksLikeHtml | src/components/ask-ai/ask-ai.tsx:273 | a reply is treated as HTML if and only if `<!DOCTYPE html>` or `<html` occurs at some index of it |
| Text.LooksLikeHtmlInContext | src/components/ask-ai/ask-ai.tsx:273 | a reply that contains `<!DOCTYPE html>` or `<html` is still recognised with any text before or after it |
| Text.HtmlPrefixRecognised | src/components/ask-ai/ask-ai.tsx:333 | a text that begins with the doctype or with `<html` is recognised as an HTML document |
| Text.LowerCaseDoctypeNotRecognised | src/components/ask-ai/ask-ai.tsx:273 | the test is case-sensitive: `<!doctype html>` on its own is not recognised |
| Messages.RemoveById | src/components/ask-ai/ask-ai.tsx:285 | the rollback filter keeps exactly the messages whose id differs, so no message with that id is left |
| Messages.RemoveByIdDistributes | src/components/ask-ai/ask-ai.tsx:285 | the filter works message by message, so the kept messages keep their order |
| Messages.RemoveAbsentId | src/components/ask-ai/ask-ai.tsx:285 | filtering by an id that no message carries leaves the history unchanged |
| Messages.RemoveAppended | src/components/ask-ai/ask-ai.tsx:284-285 | removing a message that was appended under a fresh id gives back the earlier history |
| Providers.InitialProvider | src/components/ask-ai/ask-ai.tsx:94 | the starting selection is the prop's provider when it is non-empty, otherwise `openai` |
| Providers.Configured | src/components/ask-ai/ask-ai.tsx:141-143 | a provider is listed if and only if one of its entries has `apiKeyConfigured` |
| Providers.ConfiguredDistributes | src/components/ask-ai/ask-ai.tsx:141-143 | the configured list keeps the entries' order |
| Providers.Fallback | src/components/ask-ai/ask-ai.tsx:148-150 | the selection stays when nothing is configured or when it is configured, and otherwise becomes the first configured provider; when the list is non-empty, the result is in it |
| Providers.FilterOptions | src/components/ask-ai/ask-ai.tsx:366-367 | an option is kept if and only if its value is available |
| Providers.DropdownOptions | src/components/ask-ai/ask-ai.tsx:366-367 | the dropdown shows exactly the `PROVIDER_OPTIONS` rows whose value is available |
| Providers.FilterOptionsDistributes | src/components/ask-ai/ask-ai.tsx:366-367 | the dropdown keeps the table's order |
| Providers.SelectionCanLackAnOption | src/components/ask-ai/ask-ai.tsx:141-150 | a configured provider that the table does not list can become the selection while the dropdown shows no option for it |
| Persistence.Saved | src/components/ask-ai/ask-ai.tsx:125-132 | the history is written only when non-empty and the session id only when set; every other key is left as it was |
| Persistence.Restored | src/components/ask-ai/ask-ai.tsx:104-122 | the history and session come back together, only when both keys are present and the history parses; otherwise the history is empty and the fresh session id is installed |
| Persistence.Cleared | src/components/ask-ai/ask-ai.tsx:317-318 | both keys are removed and every other key is kept |
| Persistence.SaveThenRestore | src/components/ask-ai/ask-ai.tsx:104-132 | saving a non-empty conversation and mounting again restores that history and session |
| Persistence.EmptyHistoryKeepsStored | src/components/ask-ai/ask-ai.tsx:126-128 | an empty history never overwrites the stored one |
| Persistence.ClearedRestoresFresh | src/components/ask-ai/ask-ai.tsx:315-319 | after clearing and a save with an empty history, a mount starts with a fresh session and no history |
| Session.Mounted | src/components/ask-ai/ask-ai.tsx:90-122 | the initial state is idle with an empty prompt and the initial provider, and its history and session are those the load rule restores |
| Session.CanSubmit | src/components/ask-ai/ask-ai.tsx:210 | `callAi` goes on exactly when no request is in flight, the prompt is not whitespace only, and a session id is set |
| Session.UserMessage | src/components/ask-ai/ask-ai.tsx:215-221 | the optimistic message is a user message with the fresh id, the current session and the time given, no model or provider labels, and the prompt with only whitespace removed around it; when the guard passes, its text is never blank |
| Session.Submit | src/components/ask-ai/ask-ai.tsx:209-226 | nothing changes if and only if a request is in flight, the trimmed prompt is empty or there is no session. Otherwise: working is set, exactly one user message (trimmed prompt, current session) is appended, the prompt is cleared, and nothing else changes |
| Session.Stop | src/components/ask-ai/ask-ai.tsx:299-303 | with no controller nothing changes; otherwise only the controller is marked aborted |
| Session.Complete | src/components/ask-ai/ask-ai.tsx:248-295 | the request always ends idle with no controller. A success appends one assistant message with the reply and its labels; any failure filters out the user message by id. The HTML and view change exactly when a success looks like HTML. An abort outcome needs a stopped controller. Success is `Succeeded`: a 2xx answer with `data.ok` and a non-empty `data.response` (lines 248-257) |
| Session.NoticeFor | src/components/ask-ai/ask-ai.tsx:279-291 | the toast says "stopped" exactly on an abort and "generated" exactly on a success, naming the reported provider or else the selected one |
| Session.StartNewConversation | src/components/ask-ai/ask-ai.tsx:306-312 | empty history and prompt, history hidden, new session, and nothing else changes |
| Session.ClearHistory | src/components/ask-ai/ask-ai.tsx:315-321 | empty history, both storage keys removed, new session, and the rest is kept |
| Session.Persist | src/components/ask-ai/ask-ai.tsx:125-132 | only the storage changes, and it changes by the save rule |
| Session.CheckProviders | src/components/ask-ai/ask-ai.tsx:136-158 | a failed check changes nothing. An answer sets the available list to the configured providers and applies the fallback, so a non-empty list contains the selection |
| Session.EditPrompt | src/components/ask-ai/ask-ai.tsx:482 | only the prompt changes |
| Session.SelectProvider | src/components/ask-ai/ask-ai.tsx:362 | only the selection changes |
| Session.ToggleHistory | src/components/ask-ai/ask-ai.tsx:389 | only the visibility of the history list flips |
| Session.FailureRollsBack | src/components/ask-ai/ask-ai.tsx:281-303 | after a submit, an optional stop, and any failure (the abort error of a stopped request included), the history is exactly what it was before, the panel is idle, and the prompt stays cleared |
| Session.SuccessAppendsExchange | src/components/ask-ai/ask-ai.tsx:215-270 | a successful request adds exactly two messages: the user's, then an assistant message with the reply, in the same session |
| Session.FailuresAgreeOnState | src/components/ask-ai/ask-ai.tsx:284-291 | an abort and any other failure leave the same state |
| Session.ProviderCheckSettles | src/components/ask-ai/ask-ai.tsx:135-158 | re-running the check with the same answer after the fallback changes nothing |
| Session.RolledBackMessageReturnsOnReload | src/components/ask-ai/ask-ai.tsx:124-132 | a failed first request, stopped or not, leaves its user message in storage, so a mount restores it |
| Session.NewConversationReloadsOldHistory | src/components/ask-ai/ask-ai.tsx:305-312 | after a new conversation, storage keeps the old messages, and a mount restores them with the new session id |
| Session.ClearedConversationStaysCleared | src/components/ask-ai/ask-ai.tsx:315-321 | after clearing, a mount starts a fresh session with no history |
| Component.AskAiPanel.Mount | src/components/ask-ai/ask-ai.tsx:90-122 | the constructed fields equal `Session.Mounted` |
| Component.AskAiPanel.Submit | src/components/ask-ai/ask-ai.tsx:209-226 | the in-place updates perform `Session.Submit` and keep working set exactly while a controller exists |
| Component.AskAiPanel.Stop | src/components/ask-ai/ask-ai.tsx:299-303 | the in-place update performs `Session.Stop` |
| Component.AskAiPanel.Complete | src/components/ask-ai/ask-ai.tsx:253-295 | the in-place updates perform `Session.Complete` and return the notice `Session.NoticeFor` gives |
| Component.AskAiPanel.StartNewConversation | src/components/ask-ai/ask-ai.tsx:306-312 | the in-place updates perform `Session.StartNewConversation` |
| Component.AskAiPanel.ClearHistory | src/components/ask-ai/ask-ai.tsx:315-321 | the in-place updates perform `Session.ClearHistory` |
| Component.AskAiPanel.Persist | src/components/ask-ai/ask-ai.tsx:125-132 | the in-place updates perform `Session.Persist` |
| Component.AskAiPanel.CheckProviders | src/components/ask-ai/ask-ai.tsx:141-150 | the in-place updates perform `Session.CheckProviders` |
| Component.AskAiPanel.EditPrompt | src/components/ask-ai/ask-ai.tsx:482 | performs `Session.EditPrompt` |
| Component.AskAiPanel.SelectProvider | src/components/ask-ai/ask-ai.tsx:362 | performs `Session.SelectProvider` |
| Component.AskAiPanel.ToggleHistory | src/components/ask-ai/ask-ai.tsx:389 | performs `Session.ToggleHistory` |

## Left out

- Rendering is not modelled: the JSX, icons, CSS classes and `formatMessageContent` markup. The substring test `formatMessageContent` uses is modelled (`Text.LooksLikeHtml`).
- The progress bar is not modelled. It uses `Math.random()` and interval and timeout timers.
- Textarea auto-resize and scroll-to-bottom are not modelled. They are DOM measurements, and `onScrollToBottom` has no effect on this state.
- The `disabled` attributes of the buttons and inputs are not modelled. The handlers are modelled without them, as the functions themselves are written. For example, `callAi` reached by the Enter key does not check that providers are available.
- `fetch`, `response.json()`, `JSON.stringify` and `JSON.parse` are not modelled. Their results are inputs (`Outcome`, `ProviderCheck`) or an abstract `Codec`.
- The request body fields `templateId`, `model`, `maxTokens` and `temperature` are sent only to the backend and are not modelled.
- Toast texts and `console.error` are output only. Only the kind of toast is modelled (`NoticeFor`), not the wording of error messages.
- `uuidv4` and `Date.now()` are inputs. Only the user message's id is required to be absent from the history; the assistant reply's id is not constrained, so the history may hold duplicate ids through replies, which the rollback by the user message's id does not depend on. A new session id is not required to differ from the old one.
- React's effect scheduling, closure staleness and async interleaving are not modelled. Each handler is one atomic step, and the save effect (`Persist`) is a step of its own that the caller runs after a change.
- The parent can change `isAiWorking` on its own. This is not modelled: the working flag changes only through this panel.
- Some JavaScript values are outside the model:
  - a non-string `data.response` that is truthy, whose `.includes` would throw after the assistant message was appended;
  - a `null` entry in `env`;
  - an `env` with integer-like keys, which `Object.entries` lists first;
  - stored text that parses to something other than a message list.
- The save effect that runs in the same commit as the load effect is not modelled. On the first render, that effect writes nothing, because the history is empty and the session id is unset.
