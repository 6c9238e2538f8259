# Chat transcript store and round-trip handlers

A Dafny model of the state kept by a small chat front-end that forwards
questions to a language-model endpoint. The model covers two parts.

- **The conversation store** (`store/conversationStore.js`). The store holds
  four fields: the pending `userInput`, the `history` window of
  `[question, answer]` pairs sent with each question, the `loading` flag, and
  the `messages` transcript. The transcript starts with the greeting
  "Hi there! How can I help?". The model is the class
  `Conversation.ConversationStore`, with one method per setter. Beside it is
  a pure view: a `Snapshot` of the four fields, the mutators as `StoreCall`
  values, and their effect on a snapshot (`Apply`, `ApplyAll`).
- **The chat page's handlers** (`pages/index.js`).
  - The submit handler ignores input that `trim()` reduces to "", sets `loading`,
    appends the question, sends the request, then branches on the response.
  - The error handler appends a fixed apology and clears the flags.
  - The key handler decides whether Enter submits.
  - The history-sync effect is meant to copy the last two transcript entries
    into the history window after each round trip. As written it never runs
    again after the page is mounted, so the history window stays empty (see
    "## Findings").

  The handlers are the methods `ChatPage.HandleSubmit`, `HandleError`,
  `HandleEnter` and `SyncHistory`, acting on the store object. Each one is
  specified by a pure function: `Submit`, `ErrorCalls`, `OnKeyDown` and
  `SyncedHistory`. `Submit` is defined as the exact list of store calls the
  handler makes (`SubmitCalls`).

The network request is not performed. Its result is the parameter
`Outcome`, and the request the page would send is returned as a
`ChatRequest`. `Outcome` has four cases, in the order the code examines them:

- `NetworkFailure`: `fetch` rejects.
- `NotOk`: a response with `ok` false.
- `MalformedBody`: `response.json()` rejects or the body has no `result`.
- `Ok(error, success)`: a response whose body parses.

The two rejecting cases are not caught anywhere in the handler. The model
follows the code here, not the intended design of a fixed apology with
`loading` reset:

- After `NetworkFailure`, the question stays in the transcript and `loading`
  stays true. The input field and the send button stay disabled, so nothing
  can be submitted again (`SubmitUnanswered`). `SubmitCaught` is the
  intended variant, which reports these cases with the apology (see
  "## Findings").
- After `MalformedBody`, the same holds, except that the input has already
  been cleared.
- A refused round trip (not ok, or `result.error` equal to "Unauthorized")
  appends two entries, the question and the apology, not one.
- The `Unauthorized` branch clears the input twice: once before reading the
  body and once in the error handler.
- The store has no operation that overwrites a single transcript entry. The
  page calls `updateMessage`, which the store does not define.

The text area and the send button are disabled while `loading` is true
(`pages/index.js:218`, `pages/index.js:238`). The model says this only at UI
level: `HandleEnter`, `SubmitForm` and `ChangeInput` require `!loading`.
`HandleSubmit` itself has no such check, as in the code.

## Model

| member | source | states |
|---|---|---|
| `Conversation.ConversationStore.constructor` | store/conversationStore.js:5-20 | a fresh store has empty input, empty history, `loading` false, and a transcript that is exactly the greeting "Hi there! How can I help?" as an `apiMessage` |
| `Conversation.ConversationStore.SetUserInput` | store/conversationStore.js:22-24 | sets `userInput`; history, `loading` and transcript are unchanged |
| `Conversation.ConversationStore.SetLoading` | store/conversationStore.js:26-28 | sets `loading` and changes nothing else |
| `Conversation.ConversationStore.SetMessages` | store/conversationStore.js:30-32 | replaces the transcript wholesale and changes nothing else |
| `Conversation.ConversationStore.AddMessage` | store/conversationStore.js:34-36 | the transcript grows by exactly one, every earlier entry is kept, the new entry is last; other fields unchanged |
| `Conversation.ConversationStore.SetHistory` | store/conversationStore.js:38-40 | replaces the history window and changes nothing else |
| `Conversation.Apply` | store/conversationStore.js:22-40 | every mutator is total (no precondition, no failure); each changes only its own field; only `SetMessages` and `AddMessage` touch the transcript, and `AddMessage` only appends |
| `Conversation.ApplyAll` | store/conversationStore.js:22-40 | a sequence of calls without `SetMessages` leaves the old transcript as a prefix, extended by exactly the appended entries in order |
| `Conversation.ApplyAllConcat` | store/conversationStore.js:22-40 | making the calls of `a` and then those of `b` equals making the calls of `a + b` |
| `Conversation.AppendOnlyKeepsTranscript` | store/conversationStore.js:34-36 | without `SetMessages`, every existing entry stays at its index, the greeting at index 0 included |
| `Conversation.SetMessagesCanDropGreeting` | store/conversationStore.js:30-32 | `SetMessages` can remove the greeting, and it is the call `OnlyAppends` excludes |
| `ChatPage.TrimStartCutsWhitespace` | pages/index.js:61 | the leading part of `trim()` keeps a suffix not starting with whitespace and cuts only whitespace |
| `ChatPage.TrimEndCutsWhitespace` | pages/index.js:61 | the trailing part of `trim()` keeps a prefix not ending with whitespace and cuts only whitespace |
| `ChatPage.BlankIffAllWhitespace` | pages/index.js:61-63 | `userInput.trim() === ''` holds exactly when every character is ECMAScript whitespace (the empty string included) |
| `ChatPage.SubmitBlank` | pages/index.js:61-63 | submitting blank input leaves the whole store unchanged and sends no request |
| `ChatPage.StartEffect` | pages/index.js:65-69 | before the request, `loading` is set and the question is appended as a `userMessage`; nothing else changes |
| `ChatPage.ErrorEffect` | pages/index.js:48-55 | the error handler appends the apology `apiMessage`, sets `loading` false and clears the input; the history is unchanged |
| `ChatPage.SubmitRefused` | pages/index.js:83-95 | on a not-ok response, or on an ok one whose `result.error` is "Unauthorized", the transcript ends with the question then the apology, has grown by exactly 2, `loading` is false and the input is cleared |
| `ChatPage.SubmitAnswered` | pages/index.js:88-101 | on an ok response with any other `result.error`, the transcript ends with the question then `result.success` as an `apiMessage`, has grown by exactly 2, `loading` is false and the input is cleared |
| `ChatPage.SubmitUnanswered` | pages/index.js:72-92 | when the request or the body read rejects, only the question is appended and `loading` stays true; the input is cleared only if a response arrived |
| `ChatPage.SubmitKeepsTranscript` | pages/index.js:58-102 | on every outcome, the submit handler only appends: it never calls `SetMessages`, and every earlier entry, the greeting included, keeps its index |
| `ChatPage.OnKeyDown` | pages/index.js:105-113 | Enter without shift on non-empty input submits; Enter on empty input only suppresses the key; shift+Enter on non-empty input and every other key do nothing |
| `ChatPage.WhitespaceEnterChangesNothing` | pages/index.js:105-113 | Enter on whitespace-only input reaches the submit handler, which then leaves the store unchanged and sends nothing |
| `ChatPage.HistoryAfterRoundTrip` | pages/index.js:127-138 | after a completed round trip on a transcript holding at least the greeting, the sync sets the history to exactly the pair (question just asked, answer just shown) |
| `ChatPage.RoundEffect` | pages/index.js:58-102 | one completed round (type, submit, sync) appends the question and its answer, clears `loading` and the input, and leaves that question and answer in the history window |
| `ChatPage.SessionTranscript` | pages/index.js:58-102 | over any number of completed round trips with non-blank questions, the transcript keeps what it had and gains each question followed by its answer (two entries per round), `loading` ends false, and the history holds the latest exchange |
| `ChatPage.SubmitKeepsHistory` | pages/index.js:58-102 | the submit handler never changes the history window, whatever the outcome |
| `ChatPage.StaleHistory` | pages/index.js:127-138 | as the code runs (no sync after a round), any number of rounds leaves the history window as it was |
| `ChatPage.HistoryNeverSent` | pages/index.js:75-81 | as the code runs, from a fresh store the history stays empty and every later question is sent with `history: []` |
| `ChatPage.StaleHistoryExample` | pages/index.js:127-138 | ask "a", get "b", ask "c": the code sends "c" with an empty history; with a sync after each round it would send the pair ("a", "b") |
| `ChatPage.CaughtSubmitSettles` | pages/index.js:48-102 | with rejections reported like refusals, every non-blank submission appends the question then the answer or the apology, clears `loading` and the input, and keeps the history |
| `ChatPage.GreetingStaysFirst` | store/conversationStore.js:8-13 | from a fresh store, after any number of completed round trips the greeting is still at index 0 and the transcript holds 1 + 2·rounds entries, both as the code runs (`SessionAsWritten`) and with a sync after each round (`Session`) |
| `Conversation.ApplyAllIgnoresHistory` | store/conversationStore.js:22-40 | no mutator reads the history window: the same calls from two states that differ only in history lead to states that differ only in history |
| `ChatPage.AsWrittenAgrees` | pages/index.js:58-138 | running the sync after each round or not changes only the history window: transcript, `loading` and input evolve alike |
| `ChatPage.SessionTranscriptAsWritten` | pages/index.js:58-102 | as the code runs, over any number of completed round trips the transcript keeps what it had and gains each question followed by its answer (two entries per round), `loading` ends false and the input is cleared |
| `ChatPage.IsWhitespace` | pages/index.js:61 | no contract; the code points `trim()` strips (ECMAScript WhiteSpace and LineTerminator); used by `BlankIffAllWhitespace` |
| `ChatPage.TrimStart` | pages/index.js:61 | no contract; the leading half of `trim()`; its properties are `TrimStartCutsWhitespace` |
| `ChatPage.TrimEnd` | pages/index.js:61 | no contract; the trailing half of `trim()`; its properties are `TrimEndCutsWhitespace` |
| `ChatPage.Trim` | pages/index.js:61 | no contract; `userInput.trim()` as `TrimEnd(TrimStart(s))` |
| `ChatPage.IsBlank` | pages/index.js:61 | no contract; `trim() === ''`; characterised by `BlankIffAllWhitespace` |
| `ChatPage.Request` | pages/index.js:72-81 | no contract; the POST body `{question, history}` from the input and history as they stand, or none for blank input; stated about by `HandleSubmit`, `HistoryNeverSent` and `StaleHistoryExample` |
| `ChatPage.ErrorCalls` | pages/index.js:48-55 | no contract; the error handler's three store calls in order; their effect is `ErrorEffect` |
| `ChatPage.SubmitCalls` | pages/index.js:58-102 | no contract; the exact store calls the submit handler makes for each outcome; its properties are `SubmitBlank`, `SubmitRefused`, `SubmitAnswered`, `SubmitUnanswered`, `SubmitKeepsTranscript` and `SubmitKeepsHistory` |
| `ChatPage.Submit` | pages/index.js:58-102 | no contract; the state those calls leave; the same lemmas state it per outcome, and `HandleSubmit` is proved equal to it |
| `ChatPage.SyncedHistory` | pages/index.js:128-137 | no contract; the history the effect body leaves; stated about by `SyncHistory` and `HistoryAfterRoundTrip` |
| `ChatPage.Round` | pages/index.js:58-138 | no contract; one round with the sync run afterwards, the intended behaviour; its effect is `RoundEffect` |
| `ChatPage.Session` | pages/index.js:58-138 | no contract; intended rounds in sequence; stated about by `SessionTranscript` and `GreetingStaysFirst` |
| `ChatPage.RoundAsWritten` | pages/index.js:58-138 | no contract; one round as the code runs it, without the sync; stated about by `StaleHistory` and `StaleHistoryExample` |
| `ChatPage.SessionAsWritten` | pages/index.js:58-138 | no contract; as-written rounds in sequence; stated about by `StaleHistory`, `HistoryNeverSent`, `AsWrittenAgrees`, `SessionTranscriptAsWritten` and `GreetingStaysFirst` |
| `ChatPage.SubmitCallsCaught` | pages/index.js:48-102 | no contract; the submit handler's calls with rejections reported like refusals (the intended variant); stated about by `CaughtSubmitSettles` |
| `ChatPage.SubmitCaught` | pages/index.js:48-102 | no contract; the state those calls leave; its properties are `CaughtSubmitSettles` |
| `ChatPage.HandleError` | pages/index.js:48-55 | appends the apology, clears `loading` and the input, and keeps the history; the new state is that of the error handler's calls |
| `ChatPage.HandleSubmit` | pages/index.js:58-102 | the store ends in `Submit(old state, outcome)`; the request sent is none for blank input, otherwise the question as typed and the history as it was |
| `ChatPage.HandleEnter` | pages/index.js:105-113 | requires the text area to be enabled (`!loading`); the action is `OnKeyDown`'s decision, and the store changes only when it submits |
| `ChatPage.SubmitForm` | pages/index.js:216-240 | a form submission is possible only while the button is enabled (`!loading`), and it runs the submit handler to its end |
| `ChatPage.ChangeInput` | pages/index.js:217-233 | typing is possible only while the text area is enabled, and it sets the input and nothing else |
| `ChatPage.SyncHistory` | pages/index.js:127-138 | with at least 3 entries, the history becomes the single pair of the texts of the last two entries; with fewer it is left untouched; nothing else changes |

## Left out

- The `root` back-reference of the store, the root store, the context provider and the app wrapper (`store/rootStore.js`, `store/rootProvider.js`, `pages/_app.js`) only wire one store into the page. They hold no logic.
- MobX observability (`makeAutoObservable`, `observer`) is not modelled. The store is a plain mutable object and re-rendering is not represented.
- The server endpoints `pages/api/chat.js`, `pages/api/stream.js` and `pages/api/langchain.js` are not part of this model. They are network relays, timers and a third-party client.
- The `EventSource` subscription and the streamed-token merge (`pages/index.js:28-45`, `pages/index.js:115-124`) are not modelled. They call `updateMessage`, which the store does not define, so the code gives them no behaviour to model.
- Rendering, auto-scroll, focus, styling, and the text area's 512-character `maxLength` are not modelled. `ChangeInput` accepts a string of any length.
- `fetch` and `response.json()` become the `Outcome` parameter. Absent `error` or `success` fields are modelled as strings. An absent `error` behaves like any string other than "Unauthorized". An absent `success` would show `undefined`, which the model does not represent.
- When React runs the history-sync effect is not modelled in general. `SyncHistory` is an operation that can be called after any step. `Round` calls it once after each completed submission, which is the intended behaviour. `RoundAsWritten` never calls it, which is what the code does (see "## Findings").
- ChatPage.RoundEffect: its history conjunct assumes the sync runs after every round, which the code as written never does; `StaleHistory` states what the code does.
- ChatPage.SessionTranscript: its history conjunct assumes the sync runs after every round, which the code as written never does; `HistoryNeverSent` states what the code does, and `SessionTranscriptAsWritten` carries the other conjuncts to the code as written.
- Interleaving across the handler's `await` points is not modelled. `HandleSubmit` runs to its end in one step, and `HandleEnter` runs it to its end although the page does not await it.
- Strings are sequences of Unicode scalar values rather than UTF-16 code units. A lone surrogate in the input cannot be represented.

## Findings

| source | as written | input that shows it | evidently intended | confidence | as-written member | corrected member |
|---|---|---|---|---|---|---|
| pages/index.js:127-138 | the sync effect lists `conversationStore.messages` as its dependency; `addMessage` pushes onto that same array and nothing calls `setMessages`, so after mount (one entry, below 3) the effect never runs again and `history` stays `[]` | from a fresh store, ask "a", get `Ok("", "b")`, then ask "c": the request body carries `history: []` | the request for "c" carries the pair `["a", "b"]` | medium, not executed | `ChatPage.StaleHistoryExample` (with `ChatPage.HistoryNeverSent`) | `ChatPage.RoundEffect` (about `ChatPage.Round`, also used by `ChatPage.SessionTranscript`) |
| pages/index.js:72-92 | a rejecting `fetch` or `response.json()` is not caught, so the handler stops after appending the question and `loading` stays true; the input and the button stay disabled | non-blank input with outcome `NetworkFailure` | the apology is appended and `loading` and the input are reset, as for a refused request | high, not executed | `ChatPage.SubmitUnanswered` | `ChatPage.CaughtSubmitSettles` |
