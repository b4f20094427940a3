# my-gpt chat page: retry wrapper and submit handler in Dafny

This project models the logic of the single chat page in `my-gpt/src/App.tsx`.
The page forwards a question to a language-model provider and shows the
conversation. It has three parts:

- **`fetchWithRetry`** (`Retry` module, `retry.dfy`). This is a bounded retry
  state machine. It calls a fallible operation. If the call fails with an error
  whose `response.status` is 429 and the retry budget is positive, it waits
  `delay`, then tries again with one retry less and twice the delay. Any other
  failure, or a failure with no budget left, is re-thrown unchanged. The
  operation is a *script*: element `i` is how call `i` settles (`Ok(v)` or
  `Err(failure)`). The function returns a `Trace`: the final outcome, the number
  of calls, and the delays it waited, in order. `IsRetryTrace` states the
  promised behaviour as an independent relation. `RetryTraceUnique` shows that
  the relation fixes the trace, and `FetchLoop` is the same machine written as a
  loop with a bounded counter.
- **`handleSubmit`** (`Chat` module, `chat.dfy`). This is a transition over the
  component state `(question, chat, loading, error)`:
  - A blank question (after JavaScript `trim`) does nothing.
  - Otherwise the handler clears the error, sets loading, appends the raw,
    untrimmed question as a user turn, and clears the text box (`Begin`).
  - When the wrapped provider call settles, it appends the answer as a bot turn,
    or shows the fixed text "Error fetching response, please try again later."
    Loading always ends false (`Finish`).
  - `Submit` takes the settled outcome. `HandleSubmit` takes the provider
    script and runs the wrapper with the page's defaults: 3 retries, 1000 ms.
  - `SubmitDisabled` is the submit button's `disabled` expression.
  - `Run` folds a sequence of user events (typing, submitting) over the state.
    It is used to state session invariants: the conversation only grows, the
    page is never left loading, and every bot turn follows a user turn.
- **`String.prototype.trim`** (`JsString` module, `js_string.dfy`). Both blank tests
  (`App.tsx:20` and `:120`) go through `trim`. It strips the ECMAScript WhiteSpace and
  LineTerminator code points from both ends of a string, and the model does the
  same with two index scans.

The button's `disabled` expression (`App.tsx:120`) trims the question, so
whitespace-only input also disables it; `SubmitDisabled` follows it.

## Model

| member | source | states |
|---|---|---|
| JsString.LeadingEnd | my-gpt/src/App.tsx:20 | the forward scan of `trim` stops at the first kept character; everything it skipped is whitespace or a line terminator |
| JsString.TrailingStart | my-gpt/src/App.tsx:20 | the backward scan of `trim` stops just past the last kept character; everything it skipped is whitespace or a line terminator |
| JsString.Trim | my-gpt/src/App.tsx:20 | `question.trim()` is a contiguous slice of the question with only trimmable characters around it; it neither starts nor ends with one; it is empty exactly when every character is trimmable |
| Retry.FetchWithRetry | my-gpt/src/App.tsx:40-54 | the run meets `IsRetryTrace`: every call but the last failed with 429; the last call's outcome is returned, or its error re-thrown, unchanged; a 429 on the last call means the budget ran out; at most `retries + 1` calls; the i-th wait is `delay * 2^i` |
| Retry.BackoffStep | my-gpt/src/App.tsx:49-50 | waiting `delay` and then recursing with `delay * 2` gives the doubling schedule one wait longer |
| Retry.RetryTraceUnique | my-gpt/src/App.tsx:40-54 | the promised behaviour determines the trace: any trace meeting it is the wrapper's |
| Retry.FetchLoop | my-gpt/src/App.tsx:40-54 | the wrapper as a loop with a counter meets the same relation and yields the same trace as the recursion |
| Retry.FirstCallSucceeds | my-gpt/src/App.tsx:45-46 | if the first call resolves, its value is returned after one call and no wait, whatever the budget |
| Retry.OtherFailurePropagates | my-gpt/src/App.tsx:47-52 | a failure that is not a 429 is re-thrown unchanged after one call and no wait, whatever the budget |
| Retry.AlwaysRateLimited | my-gpt/src/App.tsx:48-52 | when every call is a 429, budget `r` makes exactly `r + 1` calls, re-throws the last error, and waits `d, 2d, ..., 2^(r-1) d` (none when `r` is 0) |
| Retry.RateLimitedThenOk | my-gpt/src/App.tsx:45-50 | `k <= r` 429s followed by a success return that value after `k + 1` calls; the waits are `d * 2^i` and add up to `d * (2^k - 1)` |
| Retry.WaitsDouble | my-gpt/src/App.tsx:49-50 | each wait is twice the one before |
| Retry.TotalWaitOfRun | my-gpt/src/App.tsx:49-50 | whatever the outcomes, a run of `c` calls waits `d * (2^(c-1) - 1)` in all |
| Retry.BackoffTotal | my-gpt/src/App.tsx:49-50 | `n` doubling waits from `d` add up to `d * (2^n - 1)` |
| Retry.TwoRateLimitsThenOk | my-gpt/src/App.tsx:40-54 | with the default budget and delay, two 429s and then a success make three calls, with waits of 1000 and 2000 |
| Retry.DefaultBudgetExhausted | my-gpt/src/App.tsx:42-52 | with the default budget, 429 on every call makes four calls, re-throws the last error, and waits 1000, 2000, 4000 |
| Chat.SubmitDisabled | my-gpt/src/App.tsx:120 | the button is disabled exactly when loading, or when every character of the question is whitespace or a line terminator |
| Chat.Submit | my-gpt/src/App.tsx:18-38 | blank question: state unchanged. Otherwise the text box ends empty and loading ends false. On success the chat is `old ++ [user q, bot answer]` and the error is cleared; on failure it is `old ++ [user q]` and the error is the fixed text |
| Chat.HandleSubmit | my-gpt/src/App.tsx:18-38 | blank question: no provider call and no change. Otherwise 1 to 4 calls, each asking the raw question; every call but the last was a 429; the last call is a 429 only when all four calls were made; the final state is what the last call's outcome makes of the submit |
| Chat.Repeat | my-gpt/src/App.tsx:30 | each call of `() => getAnswer(question)` asks the same captured question |
| Chat.UserTurnRecordedBeforeFetch | my-gpt/src/App.tsx:22-27 | before the provider is asked, the error is cleared, loading is on, the text box is empty, and the raw question is the last turn; that conversation is a prefix of the final one, whatever the outcome |
| Chat.SubmitNoOpIffBlank | my-gpt/src/App.tsx:20-27 | submit leaves the state unchanged exactly when the question is blank |
| Chat.EnabledIffSubmitActs | my-gpt/src/App.tsx:120 | with no request in flight, the button is enabled exactly when submitting would change the state |
| Chat.SubmitIgnoresLoading | my-gpt/src/App.tsx:18-38 | the handler does not read `loading`; only the disabled button keeps a second submit out |
| Chat.SubmitKeepsWellFormed | my-gpt/src/App.tsx:26-33 | if every bot turn follows a user turn before a submit, the same holds after it |
| Chat.AppendKeepsWellFormed | my-gpt/src/App.tsx:26-31 | appending a user turn, optionally followed by its bot answer, keeps every bot turn right after a user turn |
| Chat.RecoversFromRateLimitBurst | my-gpt/src/App.tsx:29-31 | at most three 429s followed by an answer: `k + 1` calls, the chat gains the user and bot turns, no error, not loading |
| Chat.PersistentRateLimitShowsError | my-gpt/src/App.tsx:29-36 | 429 on every call: four calls, the chat gains only the user turn, the fixed error is shown, not loading |
| Chat.HelloRoundTrip | my-gpt/src/App.tsx:18-38 | on a fresh page, "Hello" answered with "Hi there" leaves `[user Hello, bot Hi there]`, loading false, no error |
| Chat.ConversationOnlyGrows | my-gpt/src/App.tsx:18-38 | over any sequence of typing and submits, the earlier conversation is a prefix of the later one |
| Chat.NeverLeftLoading | my-gpt/src/App.tsx:23-36 | starting from not loading, after any sequence of events run to completion the page is not loading |
| Chat.RunKeepsWellFormed | my-gpt/src/App.tsx:26-31 | over any sequence of events, every bot turn directly follows a user turn |

## Left out

- Rendering and styling (`App.tsx:56-131`): presentation only. The text box's
  `onChange` (line 115) is kept as the `Edit` event. The `disabled` expression
  (line 120) is kept as `SubmitDisabled`.
- The auto-scroll effect (`App.tsx:12-16`): a DOM side effect.
- `e.preventDefault()` (line 19) and `console.error` (line 34): side effects
  with no bearing on the state.
- Timers and `await`: waits are recorded in `Trace.waits`, not performed.
  `Run` runs each event to completion, so there are no interleavings:
  - a second submit while one is in flight is not modelled;
  - typing while a request is pending is not modelled;
  - React's batching of state updates is not modelled.
- `my-gpt/src/Langchain.ts` (`getAnswer`) is not part of this model. The
  provider is the script of outcomes that the retry wrapper and
  `HandleSubmit` take as input. In the real wiring, `getAnswer` catches its
  own errors and resolves to `undefined`. A 429 therefore never reaches
  `fetchWithRetry`, and a failed call would add a bot turn with no text.
- Retry.FetchWithRetry: requires the script to cover every call the run may
  make (`MaxCalls(retries)`); a provider that never settles is not modelled.
- Retry.FetchWithRetry: `retries` is an integer (a negative budget acts like
  zero, as `retries > 0` does). `delay` is a natural number. JavaScript's
  fractional, NaN and infinite numbers are not modelled, and neither is
  `delay * 2` overflowing to `Infinity`.
- Retry.Failure: thrown values are objects with an optional `response`.
  Throwing `null` or `undefined` is not modelled; there, reading
  `err.response` throws a `TypeError` of its own.
- Chat.Message: the bot text is a string. A provider `content` that is not a
  string is not modelled.
