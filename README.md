# Telegram document bot: entitlement ledger, mode router and summariser

This project models the core of a Telegram bot. The bot converts and summarises documents.

The bot keeps two in-memory maps:
- `user_access` maps a user to whether their one free use is spent and how many paid uses remain.
- `user_state` maps a chat to the mode the user picked from the menu.

Each inbound update goes through the webhook once. The webhook tries these branches in a fixed order:
1. the administrator's `/credit USER_ID COUNT` command;
2. `/me`;
3. `/start`;
4. the five menu labels;
5. content that fits the chat's mode;
6. a fallback reply.

A capability (PDF to Word, PDF/Word/text summary, OCR) runs only after `check_access` allows it. `register_use` always follows a run, with the source `check_access` chose.

Modules:
- `Ledger` (ledger.dfy): the ledger's records.
  - `CheckAccess` is `check_access`.
  - `Consume` is what `register_use` does to one record.
  - `Grant` is what `/credit` does to the map.
  - `Units` counts the uses a record still admits. It is the reference measure the lemmas use.
- `App` (app.dfy): the webhook.
  - `Classify` is the order of the branches.
  - `AccessAfter`, `ModeAfter`, `EventsOf` and `RepliesOf` say what each branch does.
  - The class `Bot` holds both maps and a ghost trace. The trace records capability runs and `register_use` calls.
  - The methods of `Bot` mirror the source's in-place updates (`setdefault`, `+=`, `-= 1`, field assignment). Each method is proved against those functions.
  - Replies are reply kinds, not the Persian texts.
- `Summary` (summary.dfy): `simple_summarize` as a pure function, with lemmas.
- `PyStrings` (py_strings.dfy): the Python string operations the code relies on: `strip()`, `split()`, `startswith()`, and `isspace()` over Python's own list of whitespace code points.
- `Wrappers` (wrappers.dfy): `Option`.

Behaviour the model follows as written:
- `/credit` accepts zero and negative counts. The ledger stays non-negative only under a `count >= 0` precondition.
- `/me` and `/credit` are prefix matches. For example, `/menu` is answered as `/me`.
- `register_use`'s docstring (app.py:294-296) says it is called after every successful use. The webhook calls it after every admitted attempt, whatever the capability produced (app.py:148-149, 170-171, 181-182, 192-193, 213-214). The model follows the call sites: `Bot.Gate` spends the unit once access is allowed and the capability has been invoked.

## Model

| member | source | states |
|---|---|---|
| Ledger.CheckAccess | app.py:274-290 | A use is allowed iff the user has a unit left. The source is FREE iff the free use is unspent, PAID iff it is spent and the paid balance is positive, and none iff denied. An unseen user reads as `{False, 0}`. |
| Ledger.Lookup | app.py:279 | `user_access.get(user, default)`: the stored record when there is one, and `{False, 0}` for an unseen user. |
| Ledger.Consume | app.py:297-302 | A FREE use marks the free use spent. PAID removes a credit only above zero. A `None` source leaves the record unchanged. Units never grow, and a non-negative balance stays non-negative. |
| Ledger.Grant | app.py:69-73 | The target gains exactly `count` paid uses on top of its old balance (0 if absent) and has its free use marked spent. The key set grows by the target only. Every other entry is unchanged. |
| Ledger.UnseenUserIsFree | app.py:279-283 | A user with no record gets `(True, FREE)`. |
| Ledger.FreePreferred | app.py:281-283 | While `free_used` is false the answer is FREE, whatever the paid balance. |
| Ledger.PaidOrDenied | app.py:285-290 | Once the free use is spent: PAID iff `paid_remaining > 0`, otherwise `(False, None)`. |
| Ledger.ConsumeSpendsOneUnit | app.py:293-302 | Spending the source `check_access` chose uses up exactly one unit. |
| Ledger.ConsumeFreeIdempotent | app.py:299-300 | A FREE use leaves the paid balance alone, and applying it twice equals applying it once. |
| Ledger.ConsumePaidFloor | app.py:301-302 | A PAID use decrements by exactly one above zero and is a no-op at or below zero. |
| Ledger.AfterFreeUse | app.py:279-300 | After the free use is spent, the next check is PAID if credits remain and denied otherwise. |
| Ledger.GrantWithdrawsFreeUse | app.py:69-73 | After a grant, the target's next use is never FREE. It is allowed iff the new balance is positive. |
| Ledger.LedgerStaysNonNegative | app.py:69-73 | `register_use` with any source, and a grant of a non-negative count, keep every balance at least zero. |
| PyStrings.TrimStart | modules/summary.py:24 | The result is a suffix of the input. Everything removed is whitespace, and the result does not start with whitespace. |
| PyStrings.TrimEnd | modules/summary.py:24 | The result is a prefix of the input. Everything removed is whitespace, and the result does not end with whitespace. |
| PyStrings.Strip | modules/summary.py:24 | The result has no whitespace at either end and is no longer than the input. |
| PyStrings.StripStripped | modules/summary.py:29 | `strip()` leaves a string without surrounding whitespace unchanged. |
| PyStrings.StripKeepsLeadingChar | modules/summary.py:24 | A string whose first character is not whitespace keeps that character after `strip()`. |
| PyStrings.IsSpace | app.py:54 | Python's `str.isspace()` code points. Blank, tab, line feed and carriage return are whitespace. Digits, ASCII letters, `/` and `-` are not. |
| PyStrings.StartsWith | app.py:49 | `s.startswith(prefix)` holds iff `prefix` is a prefix of `s`. A non-empty prefix then fixes the first character. |
| PyStrings.Words | app.py:54 | Every token of `split()` is non-empty and contains no whitespace. There are no tokens iff the text is all whitespace. |
| PyStrings.WordsSkipsSpace | app.py:54 | A leading whitespace character does not change `split()`. |
| PyStrings.WordsOne | app.py:54 | A run of non-whitespace characters splits into itself. |
| PyStrings.WordsCons | app.py:54 | A word, any single whitespace character and a rest split into the word followed by the rest's tokens. With `WordsSkipsSpace` and `WordsOne` this pins `split()` down for runs of any whitespace. |
| PyStrings.WordsOfThree | app.py:54-55 | Three words separated by any whitespace characters split into exactly those three tokens. |
| Summary.Split | modules/summary.py:29 | `split("\n\n")` yields at least one piece, and the first piece is a prefix of the input. |
| Summary.JoinSplit | modules/summary.py:29-36 | Joining the pieces of a split with `"\n\n"` gives back the input. |
| Summary.Join | modules/summary.py:36 | `"\n\n".join(ps)`. This is a definition with no contract of its own. Its partners are `JoinSplit`, `SplitJoin` and `JoinLength`. |
| Summary.JoinLength | modules/summary.py:36 | A join is as long as its pieces plus one two-character separator between each two. |
| Summary.SplitPiecesNoSep | modules/summary.py:29 | No piece of a split contains `"\n\n"`. |
| Summary.SplitJoin | modules/summary.py:29-36 | Splitting the join of clean paragraphs (non-empty, stripped, without `"\n\n"`) gives back the paragraphs. |
| Summary.Paragraphs | modules/summary.py:29 | The comprehension keeps at most as many items as there are pieces. Each item is non-empty and stripped. |
| Summary.ParagraphsClean | modules/summary.py:29 | Paragraphs drawn from pieces without `"\n\n"` are clean. |
| Summary.ParagraphsOfClean | modules/summary.py:29 | The comprehension leaves a list of clean paragraphs unchanged. |
| Summary.Truncate | modules/summary.py:25-26 | The result is a prefix of the text. For `max_chars >= 0` its length is `min(len, max_chars)`. A negative `max_chars` drops that many characters from the end, as Python's slice does. |
| Summary.TruncateIsPrefix | modules/summary.py:25-26 | For `max_chars >= 0`, truncation keeps exactly the first `max_chars` characters. |
| Summary.Text | modules/summary.py:24-26 | The stripped, truncated text is a prefix of the stripped input. For `max_chars >= 0` it is exactly `min(len, max_chars)` long. |
| Summary.Selected | modules/summary.py:29-35 | `paragraphs[:6]`: at most six paragraphs, each clean. |
| Summary.Summarize | modules/summary.py:18-38 | `simple_summarize`: never longer than the stripped, truncated text. It has no whitespace at either end whenever paragraphs were found. |
| Summary.NoParagraphsOnlyWhenEmpty | modules/summary.py:31-32 | No paragraph survives iff the stripped, truncated text is empty, so the fallback branch returns the empty string. |
| Summary.SummarizeLength | modules/summary.py:24-36 | The summary is never longer than the stripped, truncated text. For `max_chars >= 0` it is never longer than `max_chars`. |
| Summary.SummarizeParagraphs | modules/summary.py:29-36 | The summary is empty iff the text is. Otherwise it splits back into the first 1 to 6 non-blank stripped pieces of the text, in order, each clean. The summary itself is stripped. |
| Summary.SummaryJoinsSelected | modules/summary.py:35-36 | A non-empty summary is the `"\n\n"`-join of the selected paragraphs. |
| Summary.SummarizeDependsOnPrefix | modules/summary.py:24-26 | Two inputs whose stripped texts agree on their first `max_chars` characters have the same summary. |
| Summary.SummarizeFixedPoint | modules/summary.py:24-36 | A stripped text within `max_chars` that is empty, or splits into 1 to 6 clean paragraphs, is its own summary. |
| Summary.SummarizeIdempotent | modules/summary.py:18-38 | For `max_chars >= 0`, summarising a summary with the same `max_chars` returns it unchanged. |
| Summary.SummarizeAtDefault | modules/summary.py:18 | At the default `max_chars` of 2000, which every summary in the bot uses, the summary fits in 2000 characters and is its own summary. |
| App.MenuMode | app.py:98-137 | A text selects a mode iff it is one of the five exact labels, and the mode selected is never `None`. The body is the label-to-mode table. |
| App.UserId | app.py:45-46 | `from.get("id", chat_id)`: the sender when the message names one, otherwise the chat. |
| App.ModeOf | app.py:139 | `user_state.get(chat_id)`: the stored mode, or `None` for a chat never seen. |
| App.CommandsDistinct | app.py:49-98 | `/start` and the menu labels are never taken for `/credit` or `/me`, and no label is `/start`. The branch order therefore does not hide them. |
| App.CreditRoute | app.py:49-67 | Refused iff the sender is not the administrator. Malformed iff there are not exactly three tokens. A grant iff both arguments parse, carrying the parsed target and count. Non-numeric otherwise. |
| App.ContentRoute | app.py:139-237 | A capability runs iff the message carries what the chat's mode asks for: text not starting with `/` for the text summary, a PDF for PDF to Word, PDF summary or OCR, a docx for the Word summary. It is that mode's capability, on the text or the file id. Every other case is one of the reply-only branches. |
| App.Classify | app.py:36-237 | A message is a credit command iff its text starts with `/credit`. It shows the status iff it starts with `/me` and is not a credit command. It is `/start` iff it is exactly `/start`, and a selection iff it is a label (with the label's mode). Any other message goes to mode dispatch, and a capability runs iff the message is not a command and fits the mode. |
| App.AccessAfter | app.py:49-237 | The ledger after a branch. Only a grant or a capability run touches it. A run never adds to its user's units and leaves every other user's record as it was. |
| App.ModeAfter | app.py:92-137 | The modes after a branch. Only the message's own chat can change, and only `/start` or a label changes anything. |
| App.EventsOf | app.py:142-215 | Events are recorded iff a capability route is allowed by `check_access`. Then there are exactly two: the route's capability, then `register_use` with the chosen, never-`None`, source. |
| App.RepliesOf | app.py:49-237 | At most two replies. A capability route answers the no-access notice iff access is denied. When allowed, only PDF to Word adds the "converting" notice. |
| App.RejectedCreditChangesNothing | app.py:49-67 | A `/credit` from a non-administrator, with a token count other than 3, or with an unparsable argument changes neither map and runs nothing. |
| App.AcceptedCreditGrants | app.py:69-79 | An accepted `/credit` applies exactly the grant of the parsed count to the parsed target, changes no mode and runs nothing. |
| App.CommandsKeepLedger | app.py:81-137 | `/me`, `/start` and the labels never touch the ledger or run anything. `/start` sets the chat's mode to `None`, and a label sets its mode. `/me` changes no mode and reports the user's record, or `{False, 0}` for an unseen user. |
| App.DispatchSpendsOnlyOnAdmittedAttempts | app.py:139-237 | Mode dispatch never changes a mode. When the content fits and `check_access` allows it, the mode's capability runs once, `register_use` follows with the chosen source, and the ledger changes accordingly. Otherwise nothing runs and the ledger is unchanged. |
| App.AdmittedAttemptSpendsOneUnit | app.py:143-149 | An admitted attempt spends exactly one unit of its user's entitlement and leaves every other user's record alone. |
| App.ModeIsSticky | app.py:92-139 | Only `/start` and a label change a mode. Every other message leaves every chat's mode as it was. |
| App.StepKeepsNonNegative | app.py:72 | No message makes a balance negative unless the administrator grants a negative count. |
| App.SampleGrantWords | app.py:54 | The text `/credit 77 1` is a credit command that splits into its three tokens. |
| App.SampleGrantRoute | app.py:49-73 | `/credit 77 1` from the administrator is a grant of one credit to user 77. |
| App.Bot.constructor | app.py:20-27 | The bot starts with both maps empty and the configured administrator and parser. |
| App.Bot.RegisterUse | app.py:293-302 | The user's record is created with `{False, 0}` if missing, then spent by `source`. No other entry changes, and the call is recorded in the trace. |
| App.Bot.Gate | app.py:143-149 | If `check_access` denies, the reply is the no-access notice and nothing changes. Otherwise the capability runs and then `register_use` with the chosen source. |
| App.Bot.AddCredit | app.py:69-73 | `setdefault` with `{True, 0}`, `+= count` and `free_used = True` leave the ledger equal to the grant. |
| App.Bot.Credit | app.py:49-79 | The `/credit` branch changes the ledger and replies exactly as its route prescribes. |
| App.Bot.Dispatch | app.py:139-237 | The mode-dispatch branches change the ledger and trace and reply exactly as the content route under the chat's mode prescribes. |
| App.Bot.Handle | app.py:42-137 | Each message leaves the ledger, modes, trace and replies as its classification prescribes. |
| App.Bot.Webhook | app.py:36-237 | No message: nothing changes. A message: the new ledger, modes, trace and replies are `AccessAfter`, `ModeAfter`, old trace plus `EventsOf`, and `RepliesOf` of its classification under the chat's current mode. |

## Left out

- The HTTP transport is not modelled: FastAPI, the `home` route, and `send_message`, `send_main_menu` and `send_no_access_message`. Replies are reply kinds.
- The capabilities `handle_pdf_to_word`, `handle_summary_pdf`, `handle_summary_word`, `handle_summary_text` and `handle_ocr_pdf` are opaque events in the ghost trace. They download files, call PDF, docx and OCR libraries, and report their own failures. They always return normally.
- modules/pdf_to_word.py and modules/ocr_cleaner.py are not part of this model.
- Environment reads are not modelled. `ADMIN_ID` is a constructor parameter, and the bot token is not needed.
- Python's `int()` is abstract: a parser `string -> Option<int>` fixed at construction, with `None` where `int()` raises `ValueError`.
- Concurrency is not modelled. Each update is one sequential step. The source has no lock between `check_access` and `register_use` across the `await`, and the model claims nothing about interleaved updates.
- Malformed updates are not modelled. A missing `chat.id` or `file_id` raises `KeyError` in the source. A message always has a chat id and a document always has a file id. A missing `mime_type` is the empty string, as in the source.
- The model assumes every `send_*` call returns. In the source each is a `requests.post` with no timeout, which can raise or hang part-way through a step, and the step then ends in a state the atomic `Bot.Webhook` does not show:
  - `/start` sends the menu before resetting the mode (app.py:93-94), so a failed send leaves the mode unchanged;
  - PDF to Word sends its notice before `handle_pdf_to_word` and `register_use` (app.py:166-171), so neither runs;
  - `/credit` applies the grant before confirming it (app.py:69-78), so the grant stands and the reply is lost.
- `message` versus `edited_message` is not modelled: the update's message is given as an `Option`.
- Summary.SummarizeLength: the `max_chars` bound is stated for `max_chars >= 0` only. For a negative `max_chars`, Python's slice keeps `len + max_chars` characters, and the lemma's first clause still bounds the summary by that text.
- Summary.SummarizeIdempotent: stated for `max_chars >= 0` only. With a negative `max_chars` every call drops characters from the end again, so a summary is not a fixed point.
- App.StepKeepsNonNegative: requires a non-negative `/credit` count, because the source accepts negative counts.
- PyStrings.Strip: whitespace is a fixed list of code points, Python's `str.isspace()` set. No Unicode database is consulted.
