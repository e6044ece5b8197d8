# IM order-lookup dialog: a verified model

This project models the deterministic core of a small customer-service chat
bot. The bot comes in two forms: an HTTP service (`api.py`) and a console
program (`im_bot.py`). Both drive a three-state dialog per session:
`waiting_intent` → `waiting_order_id` → `done`. A message containing one of the
intent keywords 查订单 / 订单 / 查询 / 工单 / 售后 asks for an order. The order id is
then taken from the user's text with the regular expression `\b(\d{4,12})\b`.
Replies that are not fixed texts come from a local language model. Here that
model is an arbitrary function `generate: string -> string` passed in as a
parameter. Because any such function is allowed, every routing result is
proved for every generator.

Modules, one file each:

- `Wrappers`: the `Option` type (Python's `None`).
- `Chars`: the character classes involved:
  - `\d` and `\w`, approximated as described below, and the complete `str.isspace()` set;
  - ASCII lower-casing.
- `Text`:
  - substring containment (`k in msg`);
  - `str.strip()`, as two trims with their specification;
  - `str.lower()`.
- `OrderId`: `extract_order_id`, in two forms:
  - a model of the regex engine's search: try each start left to right, check `\b`, take digits greedily (at most 12), then backtrack until `\b` holds;
  - an independent description: the leftmost run of 4 to 12 digits whose neighbours are not word characters.

  The lemmas prove the two agree.
- `Dialog`: the machine itself.
  - The session record and its invariant: an order id is present exactly in `done`, and it is 4–12 digits.
  - `Step`, one turn of `handle_message` as a function of the session, the message and the generator.
  - `Converse`, a sequence of turns.
- `Api`: the service's mutable state.
  - `Session` is a class whose `state` and `orderId` fields `HandleMessage` updates in place.
  - `SessionStore` holds `SESSIONS` as a `map<string, Session>`. A ghost map `contents` records what each session currently holds.
  - `GetSession`, `Chat` (`POST /chat`) and `Reset` (`POST /reset/{id}`) are methods on the store.
- `Cli`: the console loop.
  - `Iteration` is one pass of the loop body: the exit guard and the three state branches.
  - `Run` is `main`: the banner, then the loop over a sequence of input lines.
  - `CliStep` and `CliRun` are the specification functions for `Iteration` and `Run`.

`Iteration` takes the session as a value and returns the next one. `Run`
holds it in a local variable that it reassigns each iteration. `main`
assigns into its local dict in place instead, but nothing else refers to
that dict, so reassigning the whole value has the same effect.

## Model

| member | source | states |
|---|---|---|
| `Chars.DigitIsWord` | api.py:46 | every `\d` character is a `\w` character, so a digit next to a digit is never a boundary |
| `Chars.LowerChar` | im_bot.py:41 | upper-case ASCII letters move down by 32, every other character is unchanged, and no result is upper-case |
| `Chars.LowerCharEqual` | im_bot.py:41 | two characters lower alike exactly when they are equal or the same ASCII letter in the two cases |
| `Text.Lower` | im_bot.py:41 | lowering keeps the length, turns each ASCII capital into its small letter, leaves every other character as it is, and leaves no ASCII capital behind |
| `Text.LowerIdempotent` | im_bot.py:41 | lowering twice equals lowering once |
| `Text.LowerEqual` | im_bot.py:41 | two strings lower to the same string exactly when they have the same length and agree at every position up to ASCII letter case |
| `Text.ContainsSpec` | api.py:58 | (about `Text.Contains`, which models `pat in text`) `pat in text` holds exactly when `pat` occurs at some index of `text` |
| `Text.ContainsTransitive` | api.py:58 | a text containing `b` contains everything `b` contains |
| `Text.TrimStartSpec` | api.py:97 | left trimming keeps a suffix, drops only whitespace, and the result does not start with whitespace |
| `Text.TrimEndSpec` | api.py:97 | right trimming keeps a prefix, drops only whitespace, and the result does not end with whitespace |
| `Text.StrippedAfterTrims` | api.py:97 | trimming the left end and then the right end leaves a piece of `s` framed only by whitespace |
| `Text.StripSpec` | api.py:97 | (about `Text.Strip`, which models `str.strip()`) `strip()` cuts whitespace, and only whitespace, from both ends, and the result neither starts nor ends with whitespace |
| `Text.SameStrip` | api.py:97 | two whitespace-framed pieces of the same string that do not start or end with whitespace are equal |
| `Text.StripUnique` | api.py:97 | any string with the properties `StripSpec` states is `strip()`'s result |
| `Text.StripKeeps` | api.py:97 | a string with no whitespace at either end is left as it is |
| `Text.StripIdempotent` | api.py:97 | stripping twice equals stripping once |
| `OrderId.RunEndUnique` | api.py:46 | two candidate runs that start at the same index end at the same index |
| `OrderId.InsideRunNoEdge` | api.py:46 | inside a digit run there is no place where a candidate may start or end |
| `OrderId.RunHasBoundaries` | api.py:46 | a candidate run has `\b` at both ends |
| `OrderId.BacktrackFinds` | api.py:46 | backtracking from `len` digits ends at the longest length in [4, len] that is followed by a non-word character or the end, and fails if there is none |
| `OrderId.MatchAtIsRun` | api.py:46 | the pattern matches at `i` exactly when a candidate run starts at `i`, and the match covers that whole run |
| `OrderId.SearchFromLeftmost` | api.py:46 | (about `OrderId.SearchFrom`, which models the regex engine's search loop) `re.search` from `i` returns the leftmost candidate run at or after `i`, and returns nothing only when there is no such run |
| `OrderId.ExtractOrderId` | api.py:45-47 | whatever is returned is a string of 4 to 12 digits |
| `OrderId.ExtractOrderIdSpec` | api.py:45-47 | the result is `None` exactly when the text has no candidate run; otherwise it is the text of the leftmost candidate run |
| `OrderId.ExtractLeftmost` | api.py:45-47 | conversely, the leftmost candidate run is what gets returned |
| `OrderId.BadRunRejected` | api.py:46 | for a maximal digit run that is shorter than 4, longer than 12, or next to a letter, an underscore or a CJK character, no candidate starts inside it |
| `OrderId.WholeNumberExtracted` | im_bot.py:29-31 | a message that is a bare number of 4–12 digits is returned whole |
| `OrderId.ExtractBareNumber` | api.py:45-47 | `"123456"` yields `"123456"` |
| `OrderId.ExtractAfterPunctuation` | api.py:45-47 | `"订单号：20240315"` yields `"20240315"`, because the fullwidth colon is not a word character |
| `OrderId.ExtractGluedToIdeograph` | api.py:46 | `"订单123456"` yields `None`, because `单` is a word character |
| `OrderId.ExtractGluedToLengthMark` | api.py:46 | `"オーダー1234"` yields `None`, because the length mark `ー` is a word character |
| `OrderId.ExtractTooLong` | api.py:46 | a 13-digit number yields `None` |
| `OrderId.ExtractNoDigits` | api.py:47 | `"abc"` yields `None` |
| `Dialog.StateOf` | api.py:55-83 | the state read from a stored string has that string as its name, and is `Other` exactly when the string is none of the three named states |
| `Dialog.StateNameRoundTrip` | api.py:55-83 | a state and its stored string carry the same information |
| `Dialog.HasIntentSpec` | api.py:58 | (about `Dialog.HasIntent`, which models `any(k in user_msg for k in ...)`) the intent test holds exactly when one of the five keywords occurs somewhere in the message |
| `Dialog.IntentWithoutRedundantKeyword` | api.py:58 | `查订单` contains `订单`, so the four other keywords decide the intent test alone |
| `Dialog.Step` | api.py:54-83 | after every turn the state is one of the three named ones, and a consistent session stays consistent (an order id is held exactly in `done`, and it is 4–12 digits) |
| `Dialog.GeneratorOnlyWhenMoving` | api.py:54-83 | any two generators give the same next session, and a turn that leaves the session as it was gives the same reply |
| `Dialog.ConverseConsistent` | api.py:51-83 | from a consistent session, any sequence of turns ends consistent, with one reply per message |
| `Dialog.ConverseIgnoresGenerator` | api.py:54-83 | the session reached by a sequence of turns does not depend on the generator |
| `Dialog.AskTurn` | api.py:57-60 | a new session given "我想查订单" moves to `waiting_order_id` and answers with the generator's request for an id |
| `Dialog.NonNumberTurn` | api.py:64-67 | in `waiting_order_id`, "abc" leaves the session unchanged and answers with the fixed "not an order id" text |
| `Dialog.OrderIdTurn` | api.py:64-72 | in `waiting_order_id`, "123456" moves to `done` with that id recorded |
| `Dialog.OrderLookupScenario` | api.py:54-83 | the three turns in a row end in `done` with id "123456", for every generator |
| `Api.Session.constructor` | api.py:51 | a new session is `{waiting_intent, None}` |
| `Api.Session.HandleMessage` | api.py:54-83 | the new fields and the reply are `Step`'s. Per branch: <br>- `waiting_intent` + keyword: goes to `waiting_order_id` with the generator's reply <br>- `waiting_intent` without a keyword: unchanged, fixed guidance text <br>- `waiting_order_id` + extracted id: goes to `done` with the id <br>- `waiting_order_id` without an id: unchanged, fixed "not an order id" text <br>- `done` + keyword: back to `waiting_order_id` with the id cleared <br>- `done` without a keyword: unchanged, fixed "flow ended" text <br>- any other state: reset to `{waiting_intent, None}` |
| `Api.SessionStore.constructor` | api.py:20 | the store starts empty |
| `Api.SessionStore.GetSession` | api.py:49-52 | an unseen key gets a fresh `{waiting_intent, None}` session; a known key returns its stored session with the store unchanged; no other key changes |
| `Api.SessionStore.Advance` | api.py:96-97 | one `handle_message` on the session stored under a key advances that entry by `Step`, and no other session changes |
| `Api.SessionStore.Chat` | api.py:93-123 | the session under the key (created if missing) moves by `Step` on the stripped message. The response reports the key, the post-step state name, the post-step order id and the reply. Other keys are untouched. A known key keeps its session object, an unknown key gains a fresh one, and no other entry of the map changes. The store invariant holds. |
| `Api.ChatKeepsSessionObject` | api.py:49-52 | the session object `get_session` returned is still the one stored under its key after a `/chat` call on any key, and it holds what the store records for that key |
| `Api.SessionStore.Reset` | api.py:125-128 | the key is removed; every other key is untouched; an absent key is no error; the response is `{session_id, reset: true}` |
| `Api.ResetTwice` | api.py:125-128 | resetting twice leaves the store as resetting once: the key is gone from both the map of session objects and the recorded contents, every other key keeps its own session object, and both calls report success |
| `Api.OrderLookup` | api.py:93-123 | on a fresh service, "我想查订单" then "123456" report `waiting_order_id` and then `done` with id "123456" |
| `Cli.ExitCommandSpec` | im_bot.py:41 | (about `Cli.IsExitCommand`, which models `user.lower() in ("exit", "quit")`) the stripped line stops the loop exactly when it is `exit` or `quit` with each letter in either case |
| `Cli.CliStep` | im_bot.py:40-76 | one iteration keeps the state among the three named ones, and keeps the session invariant |
| `Cli.Iteration` | im_bot.py:40-76 | the loop body computes exactly `CliStep`'s session, printed lines and go-on flag |
| `Cli.CliStepBranches` | im_bot.py:40-76 | `exit`/`quit` stops without touching the session. The three state branches: <br>- `waiting_intent` moves only on a keyword <br>- `waiting_order_id` moves to `done` only when an id is extracted <br>- `done` always prints the "flow ended" line first, and on a keyword also clears the id, asks for a new one and returns to `waiting_order_id` <br>Any other state prints nothing and changes nothing. |
| `Cli.SameMachine` | im_bot.py:45-76 | on a non-exit line in a named state, the console bot moves the session exactly as `handle_message` does on the stripped line. Outside `done` it prints the same reply. In `done` it prints the "flow ended" line, followed by `handle_message`'s reply when a keyword is present. |
| `Cli.CliRunConsistent` | im_bot.py:34-76 | from a consistent session in a named state, every run of the loop stays consistent and in a named state |
| `Cli.CliStepIgnoresGenerator` | im_bot.py:46-67 | one iteration's next session, go-on flag and number of printed lines do not depend on the generator |
| `Cli.CliRunIgnoresGenerator` | im_bot.py:39-76 | the sessions the loop reaches, and whether it has stopped, do not depend on the generator |
| `Cli.NothingReadAfterExit` | im_bot.py:41-43 | after `exit`/`quit`, further input lines change nothing |
| `Cli.Run` | im_bot.py:33-76 | `main` prints the banner and then `CliRun`'s lines, ends in `CliRun`'s session, and reports whether it stopped on `exit`/`quit`. The final session is consistent and in a named state. |

## Left out

- `ollama_generate` (HTTP through `urllib`, JSON, the 60-second timeout, temperature 0.2) is the parameter `generate`. It is any function from prompt to text. The real one turns every failure into a text starting with `[ERROR]` instead of raising, so it is total like the parameter. The real generator samples at temperature 0.2, so the same prompt can get different replies. A fixed `generate` always gives the same reply to the same prompt, so two `ConfirmPrompt("123456")` turns in one run get identical replies here. No proved routing property depends on this, because the next session never depends on a reply.
- The FastAPI and pydantic plumbing (`app`, `ChatReq`, `/health`) is not modelled. It holds no logic.
- The JSONL log and the latency measurement in `/chat` are not modelled. They are file I/O and wall-clock time, and a failed log write is swallowed without affecting the reply. `latency_ms` is therefore absent from `ChatResponse`.
- `bench.py` is not part of this model. It is a concurrent HTTP load driver with floating-point statistics.
- Concurrency is not modelled. `SESSIONS` is a plain dict with no locking, and the model runs one request at a time.
- Console I/O: input lines are a sequence and printed lines are a sequence of strings, each without the newline `print` adds. The `你：` prompt that `input` shows is not modelled.
- Dialog.State: `Other(name)` can also be built with one of the three named strings, e.g. `Other("done")`, and `HandleMessage` would reset such a session where Python would take the `done` branch. No operation creates such a value: `SessionStore.Valid()` requires every stored state to be one of the three named ones, and `StateOf` never returns `Other` for those names.
- Cli.Run: when input runs out, the loop simply ends. Python's `input` would raise `EOFError` and end the program with a traceback.
- Chars.IsDigit and Chars.IsLetter cover only the listed characters:
  - `\d` covers ASCII, Arabic-Indic, Devanagari, Bengali, Thai and fullwidth digits;
  - the other word characters are, as Unicode 15.0 assigns them: ASCII and Latin-1 letters; the basic Greek (U+0391–U+03C9 without U+03A2) and Cyrillic (U+0410–U+044F) alphabets; `々〆〇` and the other CJK-symbol alphanumerics (U+3005–3007, U+3021–3029, U+3031–3035, U+3038–303C); hiragana and katakana with their iteration and length marks (U+3041–3096, U+309D–309F, U+30A1–30FA, U+30FC–30FF); the CJK unified, extension and compatibility ideographs (U+3400–4DBF, U+4E00–9FFF, U+F900–FAD9 as assigned, U+20000–U+323AF as assigned); Hangul syllables (U+AC00–D7A3); fullwidth Latin; and halfwidth katakana and Hangul (U+FF66–FFDC as assigned). Every character in these sets is `\w` in Python too, so the model differs from Python only on characters outside them, such as Greek and Cyrillic letters beyond the basic alphabets, other scripts, and Hangul jamo.

  Python's `\d` and `\w` use the full Unicode tables, so a character outside these sets is treated here as neither a digit nor a word character. `Chars.IsSpace` is the complete set `str.isspace()` accepts.
- Text.Lower lowers ASCII letters only. For the one use of `lower()` (comparison with `exit` and `quit`), this gives the same answer as Python. No other character lowers to a single ASCII letter among those, and `İ` lowers to two characters.
