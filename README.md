# Recharge kiosk: task store, form disclosure and PIX ledger

This project models the three pieces of the recharge kiosk that hold logic of their own.

- **Task store** (`app.py`). The in-memory `tasks` table maps task ids to `{status, message}` records.
  - `/recarregar` refuses a request that lacks a required key. Otherwise it adds a `pending` record and starts a worker.
  - The worker `run_recharge_task` overwrites that record with `completed` or `failed`. The outcome of the browser automation is an input.
  - `/status/<task_id>` reads a record back, or answers 404.
- **Form disclosure** (`static/js/script.js`).
  - `updateFieldsVisibility` decides which field groups are shown. It depends on the payment method and on the trimmed name, card and value.
  - `show`, `hide` and `resetForm` toggle the `is-enter` and `is-hidden` classes on page elements.
- **PIX ledger** (`automation/google_sheets.py`).
  - `adicionar_recarga_txt` appends `nome,valor,cartao` lines to `recargas.txt`.
  - `adicionar_recarga` reads them back and writes one spreadsheet row per line at `len(col_values(1)) + 1`.
  - The tab it writes to is the first one titled with today's or yesterday's date; a new one is created when none exists.

Files:

- `Wrappers.dfy`: `Option` and `Result`.
- `PyText.dfy` and `JsText.dfy`: the Python and JavaScript string operations the code relies on.
- `TaskTracker.dfy`, `FormView.dfy` and `Ledger.dfy`: the three pieces.
- `EndToEnd.dfy`: one property that spans the form and the ledger.

Stateful code is modelled as classes:

- `TaskStore` holds the `tasks` map and the workers started but not yet run.
- `Page` holds each element's class set.
- `LedgerFile` holds the text file.
- `Worksheet` and `Spreadsheet` hold the tabs.

Each method is proved against a specification function. Pure decisions and codecs are functions, with lemmas relating them.

Facts about the code that the model keeps:

- The local ledger line is written only when the recharge went through and `forma_pagamento == "PIX"` (`app.py:46`).
- The endpoint that starts a recharge is `/recarregar` (`app.py:77`).
- Request values are read as text; JSON numbers are outside the model (see below).

## Model

| member | source | states |
|---|---|---|
| TaskTracker.AllPresent | app.py:80 | true exactly when every listed key is in the request |
| TaskTracker.MissingKeyIsRefused | app.py:80-81 | lacking any one of `forma_pagamento`, `numero_cartao`, `valor` makes the key check fail, whatever else the request holds |
| TaskTracker.SuccessMessage | app.py:52 | the success message holds the fixed prefix, then `valor`, then the fixed middle, then `numero_cartao`, then the fixed suffix, each at its exact offset, and nothing else |
| TaskTracker.Finished | app.py:38-59 | the worker's record is never `pending`. It is `completed` exactly when the recharge went through, with the success message for the request's amount and card. A refusal gives the fixed failure message; a crash gives the fixed prefix followed by the exception text |
| TaskTracker.Lookup | app.py:105-111 | code 200 exactly for a known id, which gets its stored record unchanged. Any other id gets 404 with the `failed` / "Tarefa não encontrada." record |
| TaskTracker.Field | app.py:31-34 | `form_data.get(k)` as the f-strings render it: the value, or `None` for an absent key |
| TaskTracker.TaskStore.constructor | app.py:20 | the table starts empty and no worker has been started; the store invariant holds |
| TaskTracker.TaskStore.Status | app.py:105-111 | code 200 exactly for a known id, with its stored record; any other id gets the 404 not-found record |
| TaskTracker.TaskStore.Recarregar | app.py:77-96 | a request lacking a required key gets the 400 reply, and the table and workers are unchanged. Otherwise the fresh id alone is added, `pending` with "Recarga em processamento...", one worker is started for it, and the reply is 202 with that id. Every existing record is kept and the store invariant is preserved |
| TaskTracker.TaskStore.RunRechargeTask | app.py:23-59 | the worker runs only for a task whose record is still the `pending` one; that record alone becomes the finished record and the worker is removed, so records already settled stay as they are and the store invariant is preserved. The ledger append is attempted exactly when the recharge went through and the method is the case-sensitive "PIX". When attempted and not raising it adds exactly the encoded line; otherwise the file is untouched |
| TaskTracker.TaskStore.StartAndSettle | app.py:77-111 | one request's life: `/recarregar` answers 202 with the new id, `/status` then answers the pending record, and after its worker it answers 200 with the `completed` or `failed` record; every other id answers as before |
| TaskTracker.RemoveJobKeepsInvariant | app.py:38-59 | settling a queued task and removing its worker keeps the store invariant: each pending task has exactly one worker left, and no settled task has one |
| TaskTracker.QueuedTaskIsPending | app.py:105-111 | while its worker has not run, a started task answers 200 with the pending record |
| TaskTracker.SettledTaskHasNoJob | app.py:38-59 | a `completed` or `failed` record has no worker left, so it is never written twice |
| FormView.ValueAccepted | static/js/script.js:72-73 | `valorValue.length > 0 && parseFloat(valorValue.replace(",", ".")) > 0`; the lemmas under `JsText` and `CommaValueAccepted` state which texts it accepts |
| FormView.FieldsVisibility | static/js/script.js:56-113 | an unknown payment method hides every group, and submit is shown only with the card and value groups and a non-blank trimmed value; `FieldsVisibilityMeaning` states the full decision |
| FormView.Cascade | static/js/script.js:62-112 | the name group is shown exactly for PIX. The card group is shown for DINHEIRO, or for PIX with a filled name. The value group is shown exactly when the card group is and the card matches. Submit is shown exactly when the value group is and the value is accepted |
| FormView.FieldsVisibilityMeaning | static/js/script.js:56-113 | on the raw inputs, any method other than PIX or DINHEIRO hides all four groups, and DINHEIRO hides the name and shows the card. Under PIX the card group appears exactly when the name has a non-white-space character. The value group needs the trimmed card to be 4 to 6 ASCII digits; submit needs the trimmed value to be accepted |
| FormView.CommaDecimalValueUnlocksSubmit | static/js/script.js:72-74 | PIX with name "Ana", card "1234" and value "10,50" shows all four groups |
| FormView.CommaValueAccepted | static/js/script.js:72-73 | "10,50" is non-empty and reads as positive once its comma becomes a point |
| FormView.TypedValueIsTrimmed | static/js/script.js:60 | `trim()` leaves "10,50" as it is |
| FormView.CommaBecomesPoint | static/js/script.js:72 | `"10,50".replace(",", ".")` is "10.50" |
| FormView.PointFiftyPositive | static/js/script.js:72-73 | `parseFloat("10.50") > 0` |
| FormView.CardDigits | static/js/script.js:69 | "1234" is unchanged by `trim()` and matches `^\d{4,6}$` |
| FormView.FourDigits | static/js/script.js:69 | "1234" matches `^\d{4,6}$` |
| FormView.Shown | static/js/script.js:27-30 | after `show` the element has `is-enter`, not `is-hidden`, and every other class it had |
| FormView.Hidden | static/js/script.js:35-36 | after `hide` the element has `is-hidden`, not `is-enter`, and every other class it had |
| FormView.DisplayedKeepsOtherClasses | static/js/script.js:27-37 | after `show` the element has `is-enter` and not `is-hidden`; after `hide`, the reverse. Every other class is kept either way |
| FormView.LastToggleWins | static/js/script.js:27-37 | two successive `show`/`hide` calls on an element leave what the second alone leaves |
| FormView.ResetContainersEffect | static/js/script.js:216-219 | the form container is shown and the loading, success and error containers hidden; groups are untouched |
| FormView.ResetGroupsEffect | static/js/script.js:221-225 | the payment-method group is shown and the four dependent groups hidden; containers are untouched |
| FormView.ResetClasses | static/js/script.js:212-226 | the nine `show`/`hide` calls of `resetForm` in order; `ResetShowsOnlyFormAndChoice` states their effect |
| FormView.ResetShowsOnlyFormAndChoice | static/js/script.js:212-226 | after `resetForm`, exactly the form container and the payment-method group are shown, every other element is hidden, and all other classes are kept |
| FormView.DisclosedChangesOnlyGroups | static/js/script.js:56-113 | the disclosure touches only the name, card, value and submit groups, each shown or hidden as decided |
| FormView.DiscloseIsIdempotent | static/js/script.js:116-132 | running the disclosure twice with the same decision leaves what running it once leaves |
| FormView.Page.constructor | static/js/script.js:2-24 | the page starts with the given class lists and values, not busy |
| FormView.Page.Show | static/js/script.js:27-30 | the element gets the shown class list; nothing else on the page changes |
| FormView.Page.Hide | static/js/script.js:32-53 | a missing element changes nothing and runs no callback. Otherwise the element gets the hidden class list. A callback runs at once exactly when `is-enter` was absent, and on `transitionend` when it was present |
| FormView.Page.HideGroup | static/js/script.js:32-37 | `hide` without a callback: the element gets the hidden class list and nothing else changes |
| FormView.Page.UpdateFieldsVisibility | static/js/script.js:56-113 | the four dependent groups end as `FieldsVisibility` decides for the current values; every other element, the values and `aria-busy` are untouched |
| FormView.Page.Disclose | static/js/script.js:62-112 | the nested `show`/`hide` branches leave exactly the class lists of the cascade's decision |
| FormView.Page.ResetForm | static/js/script.js:212-226 | `aria-busy` is cleared, the values are the defaults, and the class lists are those of the nine reset calls in order |
| JsText.TrimStart | static/js/script.js:58-60 | a suffix of the input that does not start with ECMAScript white space, all of whose removed characters are white space |
| JsText.TrimEnd | static/js/script.js:58-60 | a prefix of the input that does not end with white space, all of whose removed characters are white space |
| JsText.Trim | static/js/script.js:58-60 | the input is the result with a run of white space before it and one after it; the result neither starts nor ends with white space, and is empty exactly when the input is all white space |
| JsText.BetweenSpaces | static/js/script.js:58-60 | removing a white-space prefix and then a white-space suffix leaves a slice with white space on both sides of it |
| JsText.DigitRun | static/js/script.js:69 | the length of the leading run of ASCII digits: every character before it is a digit, the one at it is not |
| JsText.MatchesCardPattern | static/js/script.js:69 | `/^\d{4,6}$/` matches exactly when the text is 4 to 6 characters long and all of them are ASCII digits |
| JsText.IndexOf | static/js/script.js:72 | the first position holding the character |
| JsText.ReplaceFirst | static/js/script.js:72 | `replace` with a string pattern changes only the first occurrence, or nothing when there is none |
| JsText.ReadsPositive | static/js/script.js:72-73 | `parseFloat(text) > 0`: after leading white space, a `-` sign never reads positive; otherwise `Infinity` or a numeric prefix with a non-zero mantissa digit does |
| JsText.EmptyNotPositive | static/js/script.js:73 | the empty value is not accepted as positive |
| JsText.NegativeNotPositive | static/js/script.js:73 | a value starting with `-` is never positive |
| JsText.LeadingNonZeroDigitsArePositive | static/js/script.js:72-73 | text starting with a digit run that is not all zeros, ended by the text's end or a non-digit, reads as positive |
| Ledger.EncodeRecord | automation/google_sheets.py:204 | the written text ends in a newline and is one whole file line when no field holds a newline; `DecodeEncodedRecord` proves `DecodeLine` reads it back |
| Ledger.DecodeLine | automation/google_sheets.py:194-195 | the unpacking succeeds exactly when the line, newlines removed, has two commas. The fields then hold no comma and rejoin to that line; otherwise the error counts the parts |
| Ledger.DecodeEncodedRecord | automation/google_sheets.py:194-195 | round trip: a written line decodes back to the same three fields whenever no field holds a comma or a newline |
| Ledger.StripFinalNewline | automation/google_sheets.py:194 | removing newlines from a newline-free text plus `\n` gives the text back |
| Ledger.CommaInFieldBreaksDecode | automation/google_sheets.py:195 | a comma inside any field makes the line split into three parts plus one per such comma, so the unpacking raises |
| Ledger.EncodedCommas | automation/google_sheets.py:204 | a written line has the fields' commas plus the two separators |
| Ledger.DecodedValueUnchangedByReplace | automation/google_sheets.py:195-196 | a decoded `valor` has no comma, so `replace(",", ".")` leaves it unchanged |
| Ledger.LedgerFile.constructor | automation/google_sheets.py:202 | the file exists or not, with the given contents (empty when absent) |
| Ledger.LedgerFile.AppendRecord | automation/google_sheets.py:201-207 | afterwards the file exists and holds the old contents followed by exactly the encoded line, whether it existed before or not |
| Ledger.AppendedRecordIsLastLine | automation/google_sheets.py:192 | appending a record to contents that end in a newline makes file iteration yield the old lines and then exactly the new line |
| Ledger.RowFromLine | automation/google_sheets.py:194-196 | a row is produced exactly when the line unpacks into three fields and the amount is a Python float literal. The row holds the upper-cased name, the amount unchanged by `replace(",", ".")`, and the card. Otherwise the unpacking error, with the number of parts, or the `float()` error on the amount is raised |
| Ledger.RowOfEncodedRecord | automation/google_sheets.py:194-204 | a written line with comma- and newline-free fields and a float amount becomes the row of those fields, the name upper-cased |
| Ledger.DropTrailingEmpty | automation/google_sheets.py:193 | the column never ends in an empty cell and is no longer than before |
| Ledger.DropTrailingEmptyDropsOnlyEmpty | automation/google_sheets.py:193 | what is left is a prefix of the column, and every dropped cell was empty |
| Ledger.SetCell | automation/google_sheets.py:196 | after a cell is written, column A never ends in an empty cell |
| Ledger.SetCellReads | automation/google_sheets.py:196 | after cell A`r` is written, it reads the value and every other cell reads as before |
| Ledger.SetNextCell | automation/google_sheets.py:193-196 | writing just below column A lengthens it by the value, or leaves it unchanged when the value is empty |
| Ledger.RowsOf | automation/google_sheets.py:192-196 | one row result per file line, in order |
| Ledger.RowsOfAppend | automation/google_sheets.py:192-196 | the row results of two runs of lines are those of each, in order |
| Ledger.ReplayRows | automation/google_sheets.py:192-197 | at most one row write per line |
| Ledger.ReplayStopsAtFirstError | automation/google_sheets.py:192-197 | the loop ends without error exactly when every line was written. Otherwise it raises the first failing line's error, and each earlier line wrote its own row |
| Ledger.ReplayAppend | automation/google_sheets.py:192-197 | copying `a + b` is copying `a`, then, unless that raised, copying `b` from where `a` left column A |
| Ledger.ReplayFromRow | automation/google_sheets.py:193-196 | a parsing line is written just below column A, and the rest continue from there |
| Ledger.ReplayWritesConsecutiveRows | automation/google_sheets.py:191-196 | with every name non-empty, each line in order becomes one row. The rows are consecutive from just below column A's last cell, and column A grows by the names |
| Ledger.EmptyNameRowIsOverwritten | automation/google_sheets.py:193-196 | after a line with an empty name, the next line is written to the same row |
| Ledger.CommaRecordStopsReplay | automation/google_sheets.py:192-204 | once a record with a comma in a field is appended, copying the file writes only the rows of the lines before it and then raises, with the unpacking error at that line when no earlier line raised |
| Ledger.ReplayTwiceWritesEveryRowTwice | automation/google_sheets.py:191-197 | not idempotent: a second copy writes every row again, each one below its first copy by the number of lines |
| Ledger.Worksheet.constructor | automation/google_sheets.py:31 | a new tab with the given title, an empty column A and no writes |
| Ledger.Worksheet.UpdateRow | automation/google_sheets.py:196 | column A becomes that of the cell write, and the write is logged last |
| Ledger.Worksheet.WriteHeader | automation/google_sheets.py:35-48 | a new tab's column A holds the title and the first header, and the header row was written to row 2 |
| Ledger.IsCurrentTitle | automation/google_sheets.py:25 | a title is current when it is today's or yesterday's date string |
| Ledger.FirstCurrentTab | automation/google_sheets.py:24-27 | the first index whose title is today's or yesterday's, with none before it, or none when no title matches |
| Ledger.CreatedTabIsFoundNext | automation/google_sheets.py:29-31 | once a tab titled today has been added, the next lookup that day finds it |
| Ledger.Spreadsheet.constructor | automation/google_sheets.py:20 | the spreadsheet holds the given tabs |
| Ledger.Spreadsheet.Titles | automation/google_sheets.py:24 | the tab titles in order |
| Ledger.Spreadsheet.FindCurrentTab | automation/google_sheets.py:24-27 | the search loop returns the first current tab |
| Ledger.Spreadsheet.GetOrCreateSheet | automation/google_sheets.py:17-31 | returns the first current tab and leaves the tabs alone. When no tab is current, it adds one new tab, titled today, last, with its header written |
| Ledger.WriteNextRow | automation/google_sheets.py:193-196 | one loop pass writes the line's row at `len(col_values(1)) + 1`, consistent with the replay of the remaining lines |
| Ledger.CopyRows | automation/google_sheets.py:192-197 | the loop leaves column A and the write log as the replay of the lines says, and raises that replay's error if any |
| Ledger.CopyFileRows | automation/google_sheets.py:191-197 | a missing file raises and writes nothing; an existing one is copied line by line |
| Ledger.AdicionarRecarga | automation/google_sheets.py:186-199 | for a method that is not "PIX" after `upper()`, nothing is written. For PIX the current tab is fetched, or created titled today with its header. Its column A and write log become those of replaying the file's lines after what it held, up to the first line that raises, whose error is returned; a missing file raises and writes nothing. Every other tab is unchanged |
| PyText.CountAppend | automation/google_sheets.py:195 | counts of a character add up over concatenation |
| PyText.CountZero | automation/google_sheets.py:195 | the count is zero exactly when the character is absent |
| PyText.Split | automation/google_sheets.py:195 | one more piece than separators, no piece holds the separator, and the pieces rejoin to the input |
| PyText.SplitAfterField | automation/google_sheets.py:195 | a separator-free prefix followed by the separator becomes the first piece |
| PyText.SplitNoSeparator | automation/google_sheets.py:195 | a separator-free text splits into itself |
| PyText.ReplaceChar | automation/google_sheets.py:196 | every occurrence is replaced and nothing else changes |
| PyText.RemoveChar | automation/google_sheets.py:194 | no occurrence is left, the length drops by their number, and a text without it is unchanged |
| PyText.RemoveCharAppend | automation/google_sheets.py:194 | deleting the character from a concatenation deletes it from each piece, keeping every other character in order |
| PyText.IsPyFloat | automation/google_sheets.py:196 | the texts `float()` accepts: after surrounding white space and an optional sign, `inf`, `infinity` or `nan` in any case, or a decimal literal with digits (underscores only between digits), at most one point and an optional exponent |
| PyText.Upper | automation/google_sheets.py:196 | the upper-cased name is empty exactly when the name is, and at most twice as long |
| PyText.Lines | automation/google_sheets.py:192 | no more lines than characters |
| PyText.LinesPartitionFile | automation/google_sheets.py:192 | the lines rejoin to the file, and every line but the last ends in its newline |
| PyText.LinesAppendLine | automation/google_sheets.py:192 | appending one whole line after a newline adds exactly that line to the iteration |
| EndToEnd.CommaAmountPassesFormButBreaksLedger | automation/google_sheets.py:192-204 | the form accepts the amount "10,50" and shows submit, but its ledger line splits into four parts, so every later copy of the ledger writes only the rows before it and raises, with the four-part unpacking error when no earlier line raised |
| EndToEnd.CommaAmountStopsSync | automation/google_sheets.py:192-204 | appending the line of ("Ana", "10,50", "1234") to the ledger makes every later copy raise at or before it |
| EndToEnd.CommaAmountLineSplitsInFour | automation/google_sheets.py:195 | the line of ("Ana", "10,50", "1234") fails to unpack with four parts |

## Left out

- Browser automation: `fazer_recarga` and `imprimir_comprovante` (Selenium) are not part of this model. Their effect on the task store is the `Outcome` and `ledgerRaises` inputs of `RunRechargeTask`.
- `fazer_recarga` catches every `Exception` and returns `False` (`automation/actions.py:69-71`), so the `Crashed` outcome can only come from elsewhere in the worker's `try`; it is kept because the worker handles it.
- `imprimir_comprovante` polls `while len(all_windows) <= 1` with no bound (`automation/actions.py:132-134`). If no print window opens, the worker never returns and its task stays `pending` for good. The model's worker always returns, so `RunRechargeTask` does not capture this hang.
- Sheets API errors: `gc.open`, `add_worksheet`, the layout calls, `col_values` and `update` (`automation/google_sheets.py:20-196`) can raise, and the model's tab and row operations never do. Such an exception would leave a new tab without its header, or rows already written in place. The tab is created with `rows=1000` (`automation/google_sheets.py:31`), so a write below row 1000 would raise; the model's column has no size bound.
- Threads and timers: threads, Flask routing, JSON encoding, logging and `webbrowser`. Each worker runs as one atomic call and concurrent workers are not interleaved. The shared-driver race is not modelled.
- `uuid4`: it is a fresh-id parameter with the precondition that the id is not yet a key.
- Request values: every value is a string, and an absent key renders as `None`. JSON numbers, `null`, nested values, and a body that is not a JSON object (`get_json` returning `None`) are not modelled.
- `TaskTracker.TaskStore.RunRechargeTask`: when the ledger append raises, the file is taken as unchanged. A partial write before the exception is not modelled.
- Floating point: `parseFloat` and `float()` are modelled as exact decimal readings. Rounding, overflow to infinity and underflow to zero are not modelled. The amount written to column B is the text `float()` accepts, not the binary float.
- Character classes:
  - Python's `upper()` is modelled for ASCII and Latin-1 letters only.
  - `float()` accepts ASCII digits only.
  - File iteration splits at `\n` only; universal-newline translation of `\r` is not modelled.
- `PyText.Upper`: the contract states only length bounds and emptiness; the character mapping is given by the body.
- `Ledger.ReplayRows`: the contract states only the bound on writes. What the replay does is stated by the lemmas beside it.
- `Ledger.CopyRows`: each line's row result is computed, in file order, before the loop rather than inside it. Parsing is pure, so the rows written and the error raised are the same. The interleaving of reads and writes is not modelled.
- Sheet layout: cell formats, merges, colours, borders, the summary labels and formula, and the `batchUpdate` column widths (`automation/google_sheets.py:33-182`) are not modelled. Only what lands in column A is kept: the title and the header row. The console messages of `adicionar_recarga` are not modelled either.
- Dates: `datetime.now()` and `strftime` are not modelled; today's and yesterday's titles are parameters. The concurrent creation of two tabs is not modelled.
- Script events:
  - The event listeners, `fetch`, the status polling with `setInterval`, `setTimeout`, and the `transitionend` handler (`static/js/script.js:115-210`) are not modelled. `Hide` only reports when the callback would run.
  - `startLoading`, `showSuccess` and `showError` are not modelled.
  - `form.reset()` restores a `defaults` value given to the page.
- Missing elements: every element the script looks up is assumed present (`Page.Valid`). `show` on a missing element would throw, and that is not modelled.
