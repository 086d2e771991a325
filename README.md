# ENGLISHVERSE PRO: the AI doubt request path

ENGLISHVERSE PRO is a single-page React app for exam preparation. Its one piece
of real logic is the "AI doubt" request in `src/App.jsx`. A student types a
question. `askAI` sends it to a generative-language endpoint through
`fetchWithRetry`, which retries failures with exponential backoff. The result
is shown as an answer, a fallback or an error message. This project models
that path in Dafny and proves how it behaves.

- `wrappers.dfy` (module `Wrappers`): `Option`, for the links of an optional chain.
- `retry.dfy` (module `Retry`): `fetchWithRetry`. The network is a sequence of
  attempt outcomes, `Ok(body)`, `NotOk` or `Throw(err)`. Call i gets the i-th
  outcome. Each `setTimeout` pause is recorded as its delay. `FetchWithRetry`
  is the loop, written with its `delay` variable and its early exits. It is
  proved equal to the function `FetchRun`. The lemmas about `FetchRun` fix the
  call count, the pauses and the result for every outcome sequence.
- `js_text.dfy` (module `JsText`): `String.prototype.trim`, with the exact
  ECMAScript whitespace and line-terminator set. The lemma `TrimEmptyIffBlank`
  shows that `!s.trim()` holds exactly for blank strings.
- `doubt_lab.dfy` (module `DoubtLab`): `askAI`. The class `DoubtSolver` holds
  the state hooks `doubtInput`, `aiDoubtResponse` and `isGenerating`. The ghost
  field `updates` records every state the hooks are set to, in order. `AskAI`
  takes the settled result of `fetchWithRetry` as a parameter and returns the
  prompt it sent, or `None` when it sent nothing. `Settle` gives the response
  that ends up displayed. `SendDisabled` is the send button's guard.

Some behaviours of the code are easy to misread, and the model keeps each one:

- When the last attempt gets a non-ok response, `fetchWithRetry` still pauses
  before it throws its generic error. The default budget of 5 therefore gives
  five pauses: 1, 2, 4, 8 and 16 s.
- When the last attempt throws, `fetchWithRetry` rethrows that attempt's own
  error, not its generic error. `askAI` shows the same message for both.
- `response.json()` is awaited inside the `try`. A body that fails to parse is
  therefore caught like a failed `fetch`. It is modelled as a `Throw` outcome.
- If the body parses to JSON `null`, reading `data.candidates` throws a
  `TypeError` inside `askAI`'s `try`. The error message is shown, not the
  fallback (`ResponseBody.Null`).

Some members are plain definitions with no contract of their own. Other
members' contracts state their properties, so they have no row below:

- `DoubtLab.AnswerText` is the optional chain
  `candidates?.[0]?.content?.parts?.[0]?.text` (src/App.jsx:83). Its
  properties are in `SettleCases`, `FirstOkDecides` and `FirstOkNullShowsError`.
- `DoubtLab.Prompt` is the prompt template literal (src/App.jsx:68-69). It
  appears in the contract of `DoubtSolver.AskAI`.
- `JsText.IsWhitespace` is ECMAScript's WhiteSpace and LineTerminator set. It
  appears in the contracts of `SkipLeading`, `SkipTrailing`, `Trim` and
  `TrimEmptyIffBlank`.
- `JsText.TrimmedFrom(s, k, r)` says that r is the slice of s starting at
  index k, that r neither starts nor ends with whitespace, and that s holds
  only whitespace before and after it. It is the contract of `Trim`.
- `Retry.Pow2`, `Retry.Backoff` and `Retry.Attempts` are 2^k, 1000·2^k and
  max(maxRetries, 0). Their properties are in `Schedule`, `BackoffDoubles` and
  `RunExplained`.

## Model

| member | source | states |
|---|---|---|
| `Retry.FetchWithRetry` | src/App.jsx:48-61 | The loop, started with delay 1000 and run against the scripted outcomes, yields exactly the run `FetchRun` describes: the result, the number of calls and the list of pauses |
| `Retry.Schedule` | src/App.jsx:49-58 | The first k pauses have length k, and the j-th of them is 1000·2^j ms |
| `Retry.BackoffDoubles` | src/App.jsx:57-58 | Each pause lasts twice as long as the one before |
| `Retry.RunExplained` | src/App.jsx:48-61 | Every run makes at most `maxRetries` calls, and its pauses follow the 1000·2^k schedule. A returned body is the first ok response, with one pause per earlier attempt. A rethrown error is the last attempt's own error, with no pause after it. The generic "AI Connectivity Failed." error follows every allowed call, each one paused after and the last one non-ok. With no budget it follows no call at all |
| `Retry.FirstOkReturned` | src/App.jsx:50-57 | If attempt i is the first ok one, its body is returned after i+1 calls and i pauses, whatever the earlier attempts did |
| `Retry.LastThrowRethrown` | src/App.jsx:54-56 | If no attempt is ok and the last one throws, that error is rethrown unchanged after `maxRetries` calls and `maxRetries`-1 pauses |
| `Retry.ExhaustedFails` | src/App.jsx:50-60 | If no attempt is ok and the last one (if any) is non-ok, all `max(maxRetries,0)` calls are made, each followed by a pause, and the generic error is thrown. A non-ok response never throws by itself |
| `Retry.EveryAttemptUnavailable` | src/App.jsx:48-60 | Five non-ok responses under the default budget give five calls, pauses of [1000, 2000, 4000, 8000, 16000] and the generic error |
| `JsText.SkipLeading` | src/App.jsx:64 | The result is the index of the first non-whitespace character at or after index i, or the length of s when there is none. Everything skipped is whitespace |
| `JsText.SkipTrailing` | src/App.jsx:64 | Working back from index e towards k, the result is the index just after the last non-whitespace character, or k when there is none. Everything skipped is whitespace |
| `JsText.Trim` | src/App.jsx:64 | `s.trim()` is the slice of s left once its leading and trailing whitespace are dropped. Only whitespace is dropped, and the result neither starts nor ends with whitespace |
| `JsText.TrimmedUnique` | src/App.jsx:64 | Only one string can be trimmed out of a given s, so the contract of `Trim` determines `s.trim()` uniquely |
| `JsText.TrimEmptyIffBlank` | src/App.jsx:64 | `s.trim()` is empty exactly when every character of s is whitespace |
| `DoubtLab.OrFallback` | src/App.jsx:83 | `text \|\| fallback` is never empty. It is the text when the text is present and non-empty, and otherwise the fixed fallback string |
| `DoubtLab.Settle` | src/App.jsx:83-85 | The displayed response after a request is never empty, so the answer panel (line 270) always appears |
| `DoubtLab.SettleCases` | src/App.jsx:71-85 | The response is one of three values. It is the nested `candidates[0].content.parts[0].text` when that is present and non-empty. It is the fallback when the body lacks that text or it is empty. It is the error message when `fetchWithRetry` throws (either kind of error) or the body is null |
| `DoubtLab.NoAnswerShowsError` | src/App.jsx:50-85 | If no attempt gets an ok response, the error message is displayed, for any retry budget |
| `DoubtLab.FirstOkDecides` | src/App.jsx:53-83 | The first ok response alone decides the displayed answer: its text, or else the fallback |
| `DoubtLab.FirstOkNullShowsError` | src/App.jsx:53-85 | If the first ok response has a JSON null body, the error message is displayed, because reading `data.candidates` throws inside the `try` |
| `DoubtLab.SendDisabled` | src/App.jsx:264 | The send button is disabled exactly while a request is generating or the question is blank |
| `DoubtLab.DoubtSolver.constructor` | src/App.jsx:41-43 | The hooks start as an empty question, an empty response and not generating |
| `DoubtLab.DoubtSolver.EditDoubt` | src/App.jsx:258 | Editing the textarea replaces the question and nothing else |
| `DoubtLab.DoubtSolver.SetIsGenerating` | src/App.jsx:43 | Sets the generating flag and nothing else, recording the new state |
| `DoubtLab.DoubtSolver.SetAiDoubtResponse` | src/App.jsx:42 | Sets the displayed response and nothing else, recording the new state |
| `DoubtLab.DoubtSolver.AskAI` | src/App.jsx:63-89 | A blank question sends no request and changes no state. Otherwise the prompt (the tutor preamble followed by the question) is sent. The state first becomes generating, then the previous response is cleared, then the settled response is shown, and finally generating is switched off on every path. The question itself is never changed |
| `DoubtLab.DoubtSolver.Generate` | src/App.jsx:65-88 | The four state updates of a non-blank request, in that order, and the prompt sent |

## Left out

- The JSX tree, styling and icons (lines 2-28 and 98-324) are presentation only.
- The navigation state `activeSection`, `sidebarOpen` and `activeLabTool` consists of plain setter calls.
- The real `fetch`, `response.json()`, `setTimeout`, the endpoint URL and the API key are I/O. They are replaced by the outcome sequence and the list of recorded delays. The outcome sequence must hold an entry for every attempt the budget allows (`maxRetries <= |outcomes|`).
- The JSON request payload and the system-instruction text (lines 74-81) are a fixed literal. Only the prompt text is modelled, as the preamble followed by the question.
- Overlapping `askAI` calls, whose async continuations race on shared state, are concurrency. One sequential invocation is modelled.
- The two awaits run at different times. `AskAI` receives the already settled result of `fetchWithRetry`, so the retry run and the state updates are linked by the lemmas `NoAnswerShowsError`, `FirstOkDecides` and `FirstOkNullShowsError`, not by one method. Every `fetch` and `json()` call is taken to settle. The source sets no timeout, so a call that never settles would leave `isGenerating` true and the send button disabled for good. The model does not represent that state.
- React may batch consecutive setter calls into one render: the entry pair (src/App.jsx:65-66) and the exit pair (line 83 or 85, then line 87). `updates` records every setter call separately, so it also holds states that may never be rendered.
- Retry.FetchWithRetry: `delay` is an unbounded integer. A JavaScript number doubles exactly up to 2^53, which is far beyond any realistic budget. Browsers and Node also treat a `setTimeout` delay above 2^31−1 ms as about 1 ms, and pause index 22 (4,194,304,000 ms) is already past that. So for `maxRetries >= 23`, a recorded pause is the argument passed to `setTimeout`, not the time actually waited. `askAI` always uses the default budget of 5, so it is unaffected. A non-integer or non-numeric `maxRetries` is not modelled.
- DoubtLab.AnswerText: the answer text is taken to be a string or absent. A non-string value at that path, whose truthiness follows other rules, is not modelled. A null array element is treated like an element whose fields are all absent, which behaves the same way.
- JsText.IsWhitespace: the Zs category is fixed as of Unicode 15.
