# gpt-nagger, modelled in Dafny

gpt-nagger is a single script, `src/gpt-nagger.ts`, that keeps its user on task. It repeats one step, waiting 30 seconds after each step finishes, so steps start 30 seconds plus one step's duration apart. The step captures the screen and sends the screenshot to a vision chat model. The request carries a system instruction, the user's goal and the last few reprimands. The model is told to answer exactly "Good boy" when the user is doing well. Any other answer, even an empty one, is synthesised to speech and played. A non-empty one is also kept as one of the last three nags. Those nags are replayed to the model on later steps. The first Ctrl-C asks the loop to stop; a second one exits with status 1.

This project models that logic in seven modules:

- `Js` covers the JavaScript operations the script relies on:
  - `null`;
  - falsy slots and `Array.prototype.filter(Boolean)` (`Compact`);
  - `join('\n')` (`Join`) and the line split that undoes it (`Split`).
- `Config` resolves settings of the form `process.env.X || default`. The nag interval is the fixed 30000 ms.
- `History` holds the record of a nag (`INag`) and the push-then-`slice(-3)` update (`Record`). It also describes, over any run, which nags remain.
- `Prompt` builds the user prompt text, the chat message list and the content parts of the user turn.
- `Sentinel` is the reply test `/GOOD\sBOY/i.test(reply)`: an unanchored, case-insensitive search.
- `NagStep` models `performNag`. The calls it makes are recorded as a sequence of effects, and the chat model's reply is an input. It returns `null` or the reply, together with the screenshot's data URI.
- `Loop` models the `main` loop and the SIGINT handler in two forms:
  - a transition system (`OnSigint`, `Iterate`, `Run`) with its invariant and lemmas;
  - a class, `Nagger`, whose methods update its fields in place and are proved to follow that transition system.

  The outside world of one pass through the loop is a `Round`: the screenshot's base64 payload, the reply, the relative-time label, the clock reading, and how many SIGINTs arrive during the nag and during the sleep.

Where the code behaves differently from what its prompt text and names suggest, the model follows the code:

- **Exactly one white-space character.** The reply counts as the all-clear only when exactly one white-space character separates "good" from "boy". "Good  boy" with two spaces is a reprimand. See `Sentinel.SeparatorIsOneSpace`.
- **A SIGINT during the sleep is never seen by the loop.** The handler calls `clearTimeout` on the pending timer, so the promise `main` awaits never resolves: `main` never returns and the flag test after the sleep is never reached. The model calls this phase `Stalled`. What the process does next is left out (see below).
- **"Good boy" anywhere suppresses the nag.** The test is unanchored, so a reprimand that contains "good boy", even inside a sentence, is taken for the all-clear and is neither spoken nor kept. See `Sentinel.UnanchoredMatch`.

## Model

| member | source | states |
|---|---|---|
| Config.Setting | src/gpt-nagger.ts:23-27 | `env[key] \|\| fallback`: an environment value wins when it is set and non-empty. When it is unset or empty, the fallback is used. A non-empty fallback never yields an empty setting. |
| Config.Load | src/gpt-nagger.ts:23-27 | The five settings, each `process.env.X \|\| default`, with the two default files inside the parent of the script's directory. Its contract is given by `Config.Setting`, `Config.DefaultsWhenUnset` and `Config.EmptyIsUnset`. |
| Config.CaptureCommand | src/gpt-nagger.ts:95 | The capture command followed by one space and the image path. `Config.DefaultsWhenUnset` states its default value. |
| Config.PlayCommand | src/gpt-nagger.ts:155 | The play command followed by one space and the speech path. `Config.DefaultsWhenUnset` states its default value. |
| Config.DefaultsWhenUnset | src/gpt-nagger.ts:23-27 | With an empty environment the goal is "write scripts". Capture runs `screencapture -x <root>/screenshot.png` and playback runs `afplay <root>/speech.mp3`. |
| Config.EmptyIsUnset | src/gpt-nagger.ts:23-27 | Setting any variable to the empty string gives the same configuration as leaving it unset. |
| History.KeepLast | src/gpt-nagger.ts:58-60 | The result is the last `n` elements when the list is longer than `n`, and the whole list otherwise. It is always a suffix of the input. |
| History.Record | src/gpt-nagger.ts:55-61 | The history after one nag. Its contract is given by `History.RecordSpec`, `History.RecordKeepsSpoken` and `History.RecordIsFired`. |
| History.RecordSpec | src/gpt-nagger.ts:55-61 | With a `null` or empty text, the history is unchanged. Otherwise the new record `(date, text, screenshot)` is last. The length is `min(3, n + 1)`, and the records before it are the newest of the old ones, in their old order. |
| History.RecordKeepsSpoken | src/gpt-nagger.ts:56-57 | If every kept record has non-empty text before an update, that still holds after it. |
| History.KeepLastConcat | src/gpt-nagger.ts:58-60 | Cutting to the last `n` and then appending and cutting again is the same as one cut of the whole concatenation. |
| History.Fired | src/gpt-nagger.ts:55-57 | Lists the records that the pushes of a run of nag results produce: at most one per result, and none with empty text. |
| History.FiredAppend | src/gpt-nagger.ts:55-57 | Records fired over two stretches of results are those of the first stretch followed by those of the second. |
| History.RecordIsFired | src/gpt-nagger.ts:55-61 | Recording one result equals keeping the last three of the history plus the records that result fires. |
| History.RecordAll | src/gpt-nagger.ts:50-61 | The history after recording a sequence of results in turn. Its contract is given by `History.RecordAllKeepsRecent`. |
| History.RecordAllKeepsRecent | src/gpt-nagger.ts:50-61 | After any sequence of results, the history is the last three of the starting history followed by every record that fired, in firing order. |
| Js.StrSlotFilter | src/gpt-nagger.ts:80-92 | A string element survives `filter(Boolean)` exactly when it is non-empty, and it survives unchanged. |
| Js.AndThenFilter | src/gpt-nagger.ts:87-88 | An `n && y` element with a number `n` is dropped by `filter(Boolean)` when `n` is 0, and is filtered as `y` is otherwise. |
| Js.Compact | src/gpt-nagger.ts:92 | `filter(Boolean)`. Its contract is given by `Js.CompactAppend` and `Js.CompactAllTruthy`, and for the prompt by `Prompt.PromptLinesShape` and `Prompt.UserContentShape`. |
| Js.CompactAppend | src/gpt-nagger.ts:92 | Filtering a concatenation equals concatenating the filtered parts, so order is kept. |
| Js.CompactAllTruthy | src/gpt-nagger.ts:92 | When every element is truthy, filtering drops nothing and changes nothing. |
| Js.Join | src/gpt-nagger.ts:93 | `join('\n')`. Its contract is given by `Js.SplitJoin`: splitting at newlines undoes it. |
| Js.SplitJoin | src/gpt-nagger.ts:93 | Lines without newlines, joined with `'\n'`, split back into exactly the same lines. |
| Prompt.PromptSlots | src/gpt-nagger.ts:80-91 | The seven-element array literal before filtering. Its contract is given by `Prompt.PromptLinesShape`. |
| Prompt.PromptLines | src/gpt-nagger.ts:80-92 | The prompt lines that survive `filter(Boolean)`. Its contract is given by `Prompt.PromptLinesShape` and `Prompt.PromptLinesUnbroken`. |
| Prompt.UserPrompt | src/gpt-nagger.ts:80-93 | The prompt text. Its contract is given by `Prompt.UserPromptLines`. |
| Prompt.PromptLinesShape | src/gpt-nagger.ts:80-92 | With no history the prompt has these six lines: "I am trying to <goal>.", "Here is my screen.", "Look at it …", the forbidden-activities line, the "Good boy" line and the reprimand line. With history it has seven: the CURRENT/PREVIOUS screens line, "Look at them …" and the drifting-off line, in their order. |
| Prompt.FixedLinesUnbroken | src/gpt-nagger.ts:83-90 | None of the fixed prompt lines contains a line break. |
| Prompt.PromptLinesUnbroken | src/gpt-nagger.ts:80-92 | When the goal has no line break, no prompt line has one. |
| Prompt.UserPromptLines | src/gpt-nagger.ts:80-93 | When the goal has no line break, splitting the prompt text at newlines gives back exactly the surviving lines. That is 6 lines without history and 7 with it, and the first is "I am trying to <goal>.". |
| Prompt.WithText | src/gpt-nagger.ts:107-108 | `filter(nag => !!nag.text)` keeps exactly the records with non-empty text. It never adds one and never makes the list longer. |
| Prompt.WithTextAppend | src/gpt-nagger.ts:107-108 | The filter keeps history order: filtering a concatenation is filtering each part and concatenating the results. |
| Prompt.WithTextSingle | src/gpt-nagger.ts:107-108 | A single record passes exactly when its text is non-empty, and passes unchanged. So, with `Prompt.WithTextAppend`, each record with text appears once, in history order. |
| Prompt.WithTextAllSpoken | src/gpt-nagger.ts:107-108 | The filter passes a history of spoken records through unchanged. |
| Prompt.Replayed | src/gpt-nagger.ts:110-114 | The assistant turn `"[" + ago + "] " + text` for one past nag. `Prompt.RequestReplaysHistory` places it in the request. |
| Prompt.Replays | src/gpt-nagger.ts:107-115 | One assistant turn per record with text, in history order, each reading `"[" + ago + "] " + text`. |
| Prompt.UserContent | src/gpt-nagger.ts:118-132 | The content parts of the user turn. Its contract is given by `Prompt.UserContentShape`. |
| Prompt.Request | src/gpt-nagger.ts:102-134 | The message list of the chat request. Its contract is given by `Prompt.RequestShape` and `Prompt.RequestReplaysHistory`. |
| Prompt.UserContentShape | src/gpt-nagger.ts:118-132 | The user turn opens with the current screenshot and ends with the prompt text. Between them is the newest past nag's screenshot exactly when there is history, so there are 2 or 3 parts. |
| Prompt.RequestShape | src/gpt-nagger.ts:102-134 | The system instruction comes first and one user turn with the screens and the prompt comes last. Between them is one assistant turn per past nag with text, in order. The length is that count plus 2. |
| Prompt.RequestReplaysHistory | src/gpt-nagger.ts:107-115 | For a history of spoken records, every record is replayed at position `k + 1`, and the request is two messages longer than the history. |
| Sentinel.SearchFrom | src/gpt-nagger.ts:143 | The search from `from` succeeds exactly when some start index at or after `from` matches "good", one white-space character and "boy", in either letter case. |
| Sentinel.Test | src/gpt-nagger.ts:143 | The regular-expression test succeeds exactly when the pattern matches at some index of the reply. |
| Sentinel.AllClearRecognised | src/gpt-nagger.ts:143 | "Good boy", "GOOD BOY", "good boy" and "Good\tboy" all pass the test. |
| Sentinel.SeparatorIsOneSpace | src/gpt-nagger.ts:143 | "Goodboy", "Good  boy" and "Good-boy" do not pass: the separator must be exactly one white-space character. |
| Sentinel.UnanchoredMatch | src/gpt-nagger.ts:143 | Any text with "good boy" anywhere in it passes, whatever surrounds it. |
| Sentinel.MatchExtends | src/gpt-nagger.ts:143 | A reply that passes still passes with text added before or after it. |
| NagStep.EncodeImage | src/gpt-nagger.ts:160-164 | The data URI is `data:image/png;base64,` followed by the payload. |
| NagStep.EncodeImageRoundTrip | src/gpt-nagger.ts:160-164 | Decoding the data URI gives back the payload. |
| NagStep.PerformNag | src/gpt-nagger.ts:73-158 | One nag: its calls, in order, and what it returns. Its contract is given by `NagStep.PerformNagSpec`, `NagStep.NagResult` and `NagStep.SpeaksUnlessAllClear`. |
| NagStep.Messages | src/gpt-nagger.ts:100-135 | The messages a chat call sends: `Prompt.Request` applied to the inputs the call records. `NagStep.PerformNagSpec` ties it to the nag's goal, history, label and screenshot. |
| NagStep.PerformNagSpec | src/gpt-nagger.ts:95-157 | A nag first runs the capture command and then asks the vision model with the request built from the goal, history, label and this screenshot. An all-clear reply returns `null` and nothing more happens. Any other reply is synthesised with tts-1/nova, written to the speech file, played, and returned unchanged, in that order. The screenshot returned decodes to the payload captured. |
| NagStep.NagResult | src/gpt-nagger.ts:143-157 | The text returned is `null` exactly when the reply passes the test, and the reply otherwise. The screenshot returned is the data URI of the capture. |
| NagStep.SpeaksUnlessAllClear | src/gpt-nagger.ts:143-155 | A nag makes exactly one speech request when the reply is not the all-clear, and none when it is. |
| Loop.OnSigint | src/gpt-nagger.ts:40-48 | The effect of one SIGINT on the loop state. Its contract is given by `Loop.DeliverSpec`, and `Loop.Nagger.Sigint` is proved to implement it. |
| Loop.Deliver | src/gpt-nagger.ts:40-48 | The state after `k` SIGINTs. Its contract is given by `Loop.DeliverSpec`. |
| Loop.DeliverSpec | src/gpt-nagger.ts:40-48 | For a running process with the flag clear, the first SIGINT sets the flag (stranding a sleep), and a second or later one exits with status 1. No signal changes the history or the calls made. |
| Loop.Iterate | src/gpt-nagger.ts:52-70 | One pass through the loop body. Its contract is given by `Loop.IterateSpec`, `Loop.IterateKeepsInv`, `Loop.IterateRecords` and `Loop.QuietIterate`. |
| Loop.Run | src/gpt-nagger.ts:50-70 | The loop over a world of rounds. Its contract is given by `Loop.RunKeepsInv`, `Loop.RunHistory`, `Loop.QuietRun` and `Loop.NoNagAfterSignal`, and `Loop.Nagger.MainLoop` is proved to implement it. |
| Loop.IterateSpec | src/gpt-nagger.ts:52-70 | Two signals during a nag exit before the result is recorded. One signal lets the result be recorded and then leaves the loop without sleeping. Otherwise the result is recorded and the loop sleeps 30000 ms: it goes on when no signal comes, is stranded by one, and exits with status 1 on two. |
| Loop.IterateKeepsInv | src/gpt-nagger.ts:52-70 | One pass keeps the invariant: at most three records, all with text; the flag clear while running or sleeping, and set once stranded or broken out. |
| Loop.RunKeepsInv | src/gpt-nagger.ts:50-70 | The invariant holds after any number of passes and any signals. In particular the history never exceeds three records. |
| Loop.NoNagAfterSignal | src/gpt-nagger.ts:52-69 | Once a signal arrives in a pass, no further nag is started. |
| Loop.IterateRecords | src/gpt-nagger.ts:55-61 | A pass changes the history exactly as recording its own nag's result would, unless two signals ended the process first. |
| Loop.RunHistory | src/gpt-nagger.ts:50-70 | Whatever the signals, the history at the end is the last three records fired by some prefix of the passes, in firing order. |
| Loop.RecordedIsRecordAll | src/gpt-nagger.ts:50-61 | The history after the first `k` rounds is the history that recording their results in turn with `History.Record` leaves, so `History.RecordAllKeepsRecent` applies to the loop. |
| Loop.EmptyReplySpokenNotKept | src/gpt-nagger.ts:55-57 | An empty reply in a quiet round is spoken (one more speech request) but is not kept (the history is unchanged), because it does not pass the all-clear test at line 143 but is falsy at line 56. |
| Loop.QuietRun | src/gpt-nagger.ts:52-70 | Without signals the loop keeps running. Its history is the last three records fired over all passes, and it has spoken once per reply that was not the all-clear. |
| Loop.QuietIterate | src/gpt-nagger.ts:52-70 | A pass without signals leaves the loop running and adds one speech request exactly when the reply is not the all-clear. |
| Loop.GoodBoyEveryRound | src/gpt-nagger.ts:52-70 | When every reply is "Good boy", the history stays empty and nothing is ever spoken. |
| Loop.SameReprimandEveryRound | src/gpt-nagger.ts:55-61 | When the same reprimand comes back in at least three quiet passes, the history ends with three records of it, dated by the last three passes, and it was spoken once per pass. |
| Loop.Nagger.constructor | src/gpt-nagger.ts:37-50 | The flag starts clear with an empty history and no calls made. |
| Loop.Nagger.Sigint | src/gpt-nagger.ts:40-48 | The handler updates the fields as `OnSigint` says. |
| Loop.Nagger.DeliverSignals | src/gpt-nagger.ts:40-48 | `k` invocations of the handler leave the state `Deliver` gives. |
| Loop.Nagger.RecordNag | src/gpt-nagger.ts:55-61 | The in-place push and `slice(-3)` leave the history `Record` gives. |
| Loop.Nagger.MainLoop | src/gpt-nagger.ts:52-70 | The loop leaves the fields in the state `Run` gives for the same world, so every lemma about `Run` holds for it. |

## Left out

- The OpenAI chat-completion and speech calls are external network calls. The chat reply is an input of each round, and the calls appear only as effects in the log. An effect records the model, voice and input of each call.
- The chat effect records the inputs its message list is built from: the goal, the history, the label and the screenshot. `NagStep.Messages` gives the list itself through `Prompt.Request`.
- A reply whose content is `null` is not modelled. The reply is always a string.
- Running the capture and playback commands with `exec`, and writing the speech file, are process and file I/O. They appear only as effects (`Exec`, `WriteSpeech`).
- Reading the screenshot file (src/gpt-nagger.ts:161) is not modelled, not even as an effect. The file's base64 payload is an input of each round.
- Base64 encoding of the screenshot is a library call. The payload is an opaque string, and only the data URI prefix is modelled.
- `Moment().fromNow()` depends on the clock and a library. The label is an opaque string per round, the same for every replayed nag of that round. It is computed from the current moment, not from the record's date, and the model claims no link to the date.
- `new Date()` is an integer clock reading per round.
- Timers, `process.on('SIGINT')` registration, the promise chain and the `catch` that exits with status 1 are left out. Errors thrown by the external calls are not modelled.
- What the runtime does once the loop is stranded (`Stalled`) or has left `main` (`Broken`) is left out.
- Signals that arrive while a nag is running are delivered together when the nag returns. A second SIGINT in the middle of a nag would exit before the remaining calls of that nag. The model still logs those calls and only then exits with status 1.
- `env` is `process.env` after `dotenv.config()` has merged the `.env` file into it (variables already set win). That merge is not modelled. Console logging has no effect on the modelled state.
- `root + "/screenshot.png"` and `root + "/speech.mp3"` stand for what `path.resolve` returns, a normalised absolute path. The two differ for the filesystem root, where `path.resolve` gives `/screenshot.png` and the concatenation `//screenshot.png`.
- Strings are sequences of Unicode scalar values (Dafny's `char`), not of UTF-16 code units as in JavaScript. A character outside the Basic Multilingual Plane is one `char` here but two code units there, and a lone surrogate cannot be represented. This does not change `Sentinel.Test`: every character the pattern can match (the letters of good and boy and the `\s` set) is a single code unit that is not a surrogate.
- The letter folding of the `i` flag is modelled for the ASCII letters of the pattern only. Under that flag without `u`, no other character folds onto them.
- The loop runs over a finite sequence of rounds. An unbounded run is every finite prefix of it.
- Js.Compact: its own contract states only the length bound. What it keeps and in which order is stated by `Js.CompactAppend`, `Js.CompactAllTruthy` and the prompt lemmas.
