# WhatsApp Web message dispatcher — a Dafny model

The program reads contact rows from the first worksheet of a Google spreadsheet and,
for each row whose follow-up date lies in an operator-given range, drives WhatsApp Web
in Chrome: it searches for the contact, types a multi-line message and sends it, then
stamps the row's status cell (column 15) with `"Message Sent at <timestamp>"`. A row
whose status cell already holds exactly `"Message Sent"` is skipped.

This project models that core. The worksheet is an in-memory table of cells and the
browser is a log of keystrokes.

- `wrappers.dfy` — `Option`.
- `dates.dfy` — parsed dates as (year, month, day), the inclusive range test, and an
  order-preserving numbering with 31 slots per month that the comparison is proved to
  agree with.
- `lines.dfy` — `message.split('\n')` and `'\n'.join(...)`, proved to be inverse to each
  other.
- `keystrokes.dfy` — the keys sent: the search sequence, the compose sequence, and lemmas
  about the shape of the compose sequence.
- `sending.dfy` — one call of `send_whatsapp_message` as a function on (cells, keystrokes):
  the exact-match gate, the UI failure cases and the one-cell write-back.
- `rowloop.dfy` — `main`'s row loop as a function, with reference definitions of which rows
  it dispatches. Lemmas tie the loop's final cells, keystrokes and way of ending to those
  definitions.
- `automation.dfy` — the imperative program. `Worksheet` and `Browser` are classes updated
  in place. `SendWhatsAppMessage` and `Run` are methods with the source's loops, proved to
  match `Sending.Dispatch` and `RowLoop.Main`.

Foreign inputs become parameters:
- date parsing (`datetime.strptime(_, "%d/%m/%Y")`) is a function `parse: string -> Option<Date>`;
- the operator's two answers are strings, and the message file is an `Option<string>` (None when it cannot be read);
- the rows `get_all_values()` returns are a `seq<seq<string>>`;
- whether the search box or the message box fails to appear is a map from row index to `Failure`;
- `datetime.now()` is a function from row index to the timestamp string.

## Model

| member | source | states |
|---|---|---|
| Dates.LessEq | Whatsapp-Web-Automation.py:103 | datetime `<=` on two strptime results, as a lexicographic comparison of (year, month, day); on well-formed dates it agrees with the 31-slots-per-month numbering |
| Dates.InRange | Whatsapp-Web-Automation.py:103 | `from_date <= date <= to_date`, both ends inclusive; a date passes only when the range is non-empty, and on well-formed dates exactly when its number lies between the bounds' numbers |
| Dates.LessEqIsOrdinalOrder | Whatsapp-Web-Automation.py:103 | on well-formed dates, the (year, month, day) comparison used for `from_date <= date <= to_date` holds exactly when their numbers (31 slots per month, 12 months per year) compare the same way |
| Dates.LessEqTotalOrder | Whatsapp-Web-Automation.py:103 | the date comparison is reflexive, total, antisymmetric and transitive |
| Dates.InRangeBounds | Whatsapp-Web-Automation.py:103 | both bounds of a non-empty range are inside it; a date strictly before `from_date` or strictly after `to_date` is outside |
| Lines.Split | Whatsapp-Web-Automation.py:44 | `message.split('\n')` returns at least one piece, and no piece contains a newline |
| Lines.JoinSplit | Whatsapp-Web-Automation.py:44-46 | joining the split lines with `'\n'` gives back the message |
| Lines.SplitJoin | Whatsapp-Web-Automation.py:44 | splitting a join of newline-free lines gives back those lines |
| Lines.SplitLength | Whatsapp-Web-Automation.py:44 | the split has one more line than the message has newlines |
| Keystrokes.SearchKeys | Whatsapp-Web-Automation.py:34-38 | the search sequence is exactly four keys: CTRL+a, DELETE, `Text(contact)`, ENTER, and the contact is the only text typed |
| Keystrokes.ComposeKeys | Whatsapp-Web-Automation.py:44-47 | the compose sequence has two keys per line of `message.split('\n')` plus the final ENTER, which is its last key |
| Keystrokes.ComposeLines | Whatsapp-Web-Automation.py:44-46 | the per-line loop sends two keys per line |
| Keystrokes.ComposeLinesAt | Whatsapp-Web-Automation.py:44-46 | key 2k is line k's text and key 2k+1 is SHIFT+ENTER |
| Keystrokes.ComposeLinesCounts | Whatsapp-Web-Automation.py:44-46 | the per-line loop types exactly the lines, sends one SHIFT+ENTER per line and no plain ENTER |
| Keystrokes.ComposeShape | Whatsapp-Web-Automation.py:44-47 | the compose trace has (newlines + 1) SHIFT+ENTERs and exactly one plain ENTER, which is its last key; its typed texts are `message.split('\n')`, and joined with `'\n'` they give back the message |
| Sending.AlreadySent | Whatsapp-Web-Automation.py:26-27 | the gate holds exactly when cell (row, 15) is present and equals `"Message Sent"`; an empty cell never holds it |
| Sending.DispatchKeys | Whatsapp-Web-Automation.py:31-47 | a closed gate sends nothing; any keys sent start with the search sequence; anything beyond it comes only when both boxes appeared and is exactly the compose sequence |
| Sending.Dispatch | Whatsapp-Web-Automation.py:21-60 | one call of `send_whatsapp_message` on (cells, trace): the trace is only appended to (its cell effect is stated by GateSkips, SuccessWritesOneCell and FailureWritesNothing) |
| Sending.GateSkips | Whatsapp-Web-Automation.py:26-29 | a status cell equal to `"Message Sent"` means no keystrokes and no write |
| Sending.StampDoesNotCloseGate | Whatsapp-Web-Automation.py:26-52 | the gate is exact equality, so the marker the program writes (`"Message Sent at " + ts`) never closes it |
| Sending.RedispatchSendsAgain | Whatsapp-Web-Automation.py:21-52 | dispatching a row again after a successful dispatch sends the whole search-and-compose sequence a second time |
| Sending.SuccessWritesOneCell | Whatsapp-Web-Automation.py:51-52 | on success the status cell (row, 15) becomes `"Message Sent at " + ts`, and every other cell keeps its value or stays empty |
| Sending.FailureWritesNothing | Whatsapp-Web-Automation.py:33-60 | when the search box or the message box never appears, the sheet is unchanged |
| Sending.DispatchTrace | Whatsapp-Web-Automation.py:31-47 | the trace only grows. A closed gate or a missing search box adds nothing. A missing message box adds exactly [CTRL+a, DELETE, contact, ENTER]. Success adds that search sequence first, then exactly `ComposeKeys(message)`: its lines are the message's split, each followed by SHIFT+ENTER, and its single plain ENTER comes last |
| RowLoop.Classify | Whatsapp-Web-Automation.py:91-103 | a row raises exactly when it has fewer than four cells or a non-empty date that does not parse; it is dispatched only with contact `row[3]`, a non-empty date, and that date in range |
| RowLoop.RunFrom | Whatsapp-Web-Automation.py:90-104 | the loop from row index i either completes or stops with InvalidRow at a row index in i..\|data\|; its cells and keystrokes are stated by RunCells and RunKeys |
| RowLoop.Main | Whatsapp-Web-Automation.py:69-104 | `main` after the sheet is open: it ends with InvalidRange exactly when a bound does not parse, with MessageUnreadable exactly when the bounds parse and the file cannot be read |
| RowLoop.PlanTargets | Whatsapp-Web-Automation.py:89-92 | every dispatched row index i is in 2..\|data\|; its row `data[i-1]` has at least four cells, and the contact passed is `data[i-1][3]` |
| RowLoop.PlanIncreasing | Whatsapp-Web-Automation.py:90 | rows are dispatched in strictly increasing index order, so each at most once |
| RowLoop.PlanIsSendsFrom | Whatsapp-Web-Automation.py:90-104 | a row is dispatched exactly when no earlier row raised, it has four cells, its date is non-empty, parses, and lies in the range |
| RowLoop.RunCells | Whatsapp-Web-Automation.py:89-104 | after the loop, each dispatched row that had an open gate and no UI failure holds `"Message Sent at " + now(i)` in (i, 15); every other cell is as before |
| RowLoop.RunKeys | Whatsapp-Web-Automation.py:89-104 | the loop's keystrokes are the dispatched rows' sequences in row order, each gate read from the sheet as it was before the loop |
| RowLoop.RunExit | Whatsapp-Web-Automation.py:90-109 | the loop completes exactly when no row raises; when one does, the run ends at the first such row |
| RowLoop.EmptyDateNeverDispatched | Whatsapp-Web-Automation.py:95-100 | a row with an empty date cell is never dispatched |
| RowLoop.DateFilterInclusive | Whatsapp-Web-Automation.py:102-104 | a reached row whose date parses is dispatched iff `from_date <= date <= to_date`, both ends inclusive |
| RowLoop.NothingAfterBadRow | Whatsapp-Web-Automation.py:90-109 | after a row with fewer than four cells or a non-empty date that does not parse, no later row is dispatched |
| RowLoop.EarlyExitTouchesNothing | Whatsapp-Web-Automation.py:69-81 | an unparsable range bound or an unreadable message file ends the run before any keystroke or write, and the exit says which |
| Automation.Worksheet.CellValue | Whatsapp-Web-Automation.py:26 | reading a cell gives its value, or None when it is empty |
| Automation.Worksheet.UpdateCell | Whatsapp-Web-Automation.py:52 | writing a cell changes that cell only |
| Automation.Browser.Launch | Whatsapp-Web-Automation.py:81-84 | the session opens; no keys are sent |
| Automation.Browser.SendKeys | Whatsapp-Web-Automation.py:34-47 | each `send_keys` appends one key to the trace |
| Automation.Browser.Quit | Whatsapp-Web-Automation.py:111-115 | the session closes and no key is sent |
| Automation.ComposeMessage | Whatsapp-Web-Automation.py:44-47 | the method's per-line loop appends exactly `Keystrokes.ComposeKeys(message)` to the trace and leaves the session as it was |
| Automation.SendWhatsAppMessage | Whatsapp-Web-Automation.py:21-60 | the method, with its per-line loop, leaves the cells and the trace as `Sending.Dispatch` says, and the session untouched |
| Automation.Run | Whatsapp-Web-Automation.py:62-115 | the method, with its row loop, leaves the cells and the trace as `RowLoop.Main` says and returns its exit. The browser is left untouched on an early exit, and closed otherwise, including after a bad row |

## Left out

- Selenium: XPath locators, `WebDriverWait`'s 30-second timeout and `send_keys` mechanics. A wait that times out is a per-row `Failure` input; each `send_keys` call is one `Key`.
- Any other exception inside `send_whatsapp_message` (a failing cell read or `update_cell`, a stale element) is not modelled. Only the two missing-box cases are, and both are caught and leave the sheet unchanged.
- `time.sleep` pacing (5 and 20 seconds) and the QR-code pause: waits with nothing to state.
- Google credentials, `client.open` and `get_worksheet(0)`. A missing spreadsheet makes the run end having done nothing; the model starts from an open worksheet. The grid size limits of `update_cell` are not modelled: the sheet is a map of cells.
- Run: the rows come in as a parameter. That `get_all_values()` returns a snapshot of the live sheet's cells is not modelled.
- `datetime.strptime`'s character-level parsing is not modelled: the parser is a parameter. So is `datetime.now().strftime(...)`: the timestamp of row i is `now(i)`.
- Failures of `webdriver.Chrome()`, `driver.get(...)` and `get_all_values()` (lines 81, 84, 89) are not modelled. In the program, a failure at line 81 leaves no driver, so nothing is quit; a failure at line 84 or 89 skips every row and then quits. In the model, `Browser.Launch` cannot fail and the row loop is always reached once the range and the message are in hand.
- `input()` prompts and their `.strip()`, and reading `message.txt`: the answers and the file's contents are parameters.
- Logging to `log.txt` and the console is not modelled. This includes the extra read of column 3 at line 28, which only feeds a log line.
