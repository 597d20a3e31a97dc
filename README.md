# A chat money-tracker ledger, modelled in Dafny

The system is a chat bot that keeps a household ledger in two worksheets:
- **Settings** holds `[key, value]` rows:
  - `Fixed:<item>`: a monthly fixed cost;
  - `Income:<year>/<month>:<item>`: an income of that month;
  - `Budget:<year>/<month>`: that month's spending limit.
- **Expenses** holds `[timestamp, item, amount, category, note]` rows under a header row.

A chat line is handled in three steps:
1. Five parsers (`utils.py`) recognise the line.
2. `handle_message` picks the first parser that answers.
3. `GoogleSheetService` appends or updates rows, or reports a month.

The report shows:
- salary and bonus;
- fixed and daily spending;
- the budget limit and what is left of it;
- what is saved.

This project models that core and proves what each operation promises.

The modules follow the program:
- `Text`: the Python string and integer operations the code relies on. These are `isspace`, `strip`, `startswith`, `in`, `replace`, `split(...)[-1]`, `str()`, `int()`, `repr()` and `f"{n:02d}"`.
- `Parsers`: the five parsers of `utils.py`.
  - Each anchored regular expression is stated declaratively, as "some decomposition of the text exists".
  - The parser is proved to answer exactly for those texts, with the groups of every decomposition.
  - So the answer does not depend on how the regular-expression engine backtracks.
- `Keys`: the Settings keys, month strings and timestamps. The lemmas show that each of them selects exactly its own month or item.
- `Tables`: a worksheet as rows of cells. It covers `find`, `update_cell(row, 2, …)` and the find-then-update-or-append pattern (`Upsert`).
- `Ledger`: what the worksheets mean.
  - The two loops of `get_remaining_budget` are written as folds (`SettingsFrom`, `ScanExpenses`).
  - `Summarize` is the report as a function of the two worksheets.
  - The lemmas say how each write moves a later report.
- `Sheets`: the class `SheetService` (`GoogleSheetService`).
  - The worksheets are `seq` fields that the methods update.
  - The two query loops are methods proved against the folds.
  - The replies are a datatype, with their chat texts.
- `Bot`: `handle_message` as the pure first-match `Dispatch` over the parser answers. The class `BotService` runs the chosen operation.
- `Wrappers`: `Option` and `Result`.

The clock (`datetime.now()`) is a `Clock` parameter, whose month is a `CalendarMonth` from 1 to 12 as `datetime` gives it. Whether `connect()` would succeed is a `canConnect` parameter.

Where the code's behaviour is easy to misread, the model follows the code:
- An Expenses row of the target month with fewer than three cells makes `row[2]` raise `IndexError`. `except ValueError` does not catch it, so the whole query fails (`MissingAmountCell`). The row is not skipped.
- A Settings value that is not an integer on a counted row ends the query. It is not skipped.
- `handle_message` answers `None` to every text no parser claims. The help text is produced elsewhere (app.py, which is not part of this model).

## Model

| member | source | states |
|---|---|---|
| Text.NatToString | services.py:40 | `str(n)` is a non-empty run of ASCII digits whose value is `n`, without a leading zero |
| Text.ParseInt | services.py:127 | `int(val)` on a cell: the value of an optional sign and a run of ASCII digits, and `None` (the ValueError) for anything else |
| Text.ParseIntAccepts | services.py:127 | `int(s)` answers exactly for an optional sign followed by a non-empty digit run, and is negative only after a minus |
| Text.Pad2 | services.py:108 | `f"{n:02d}"` has at least two digits, its value is `n`, and from 10 on it is `str(n)` |
| Text.ParseIntOfIntToString | services.py:127 | `int(str(x)) == x` for every integer |
| Text.NatToStringInjective | services.py:50 | different numbers give different `str` texts |
| Text.Pad2Injective | services.py:108 | different numbers give different `{:02d}` texts |
| Text.TrailingDigits | utils.py:11 | the count of digits that end the text: all of them are digits, and the character before them is not |
| Text.Strip | utils.py:13 | `strip()` neither starts nor ends with whitespace, and is no longer than its input |
| Text.StripSplit | utils.py:13 | what `strip()` keeps is a slice of the input with only whitespace on either side |
| Text.StripPadded | utils.py:13 | whitespace added at either end does not survive `strip()` |
| Text.StripTrimmed | utils.py:13 | `strip()` leaves a text that neither starts nor ends with whitespace unchanged |
| Text.StripNoNewline | utils.py:13 | `strip()` introduces no newline |
| Text.RemoveAllAbsent | services.py:129 | `replace(pat, '')` leaves a text without `pat` unchanged |
| Text.RemoveAll | services.py:129 | `replace(pat, '')` removes every occurrence found from the left and never lengthens the text |
| Text.LastSegment | services.py:134 | `split(sep)[-1]` is the suffix after the last separator (all of the text when there is none) and holds no separator |
| Text.LastSegmentAfter | services.py:134 | after a separator, `split(sep)[-1]` is the last segment of what follows it: all of it when it holds no separator |
| Text.LastSegmentWhole | services.py:134 | a text without the separator is its own last segment |
| Text.ReprChar | services.py:191 | how `repr` writes one character: backslash-escaped exactly when it is the quote, a backslash or an ASCII control character, itself otherwise |
| Text.ReprBody | services.py:191 | the escaped characters between the quotes are never fewer than the text's |
| Text.Repr | services.py:191 | `repr(s)`: in double quotes exactly when `s` holds a single quote and no double quote, in single quotes otherwise |
| Text.ReprBodyPlain | services.py:191 | a text with nothing to escape appears unchanged between the quotes |
| Text.ReprDoubleQuoted | services.py:191 | a text with a single quote, no double quote and nothing to escape is written in double quotes |
| Text.ReprSingleQuoted | services.py:191 | a text without a single quote and with nothing to escape is written in single quotes |
| Parsers.Stop | utils.py:11 | `$` matches at the end, or just before one final newline |
| Parsers.SplitBodyAgrees | utils.py:11-14 | peeling the trailing digits answers exactly for the bodies `\s+(.+?)\s+(\d+)` matches, with the stripped item and amount of every match |
| Parsers.ItemAmountAgrees | utils.py:11-14 | the same, for the whole text after the keyword |
| Parsers.ParseItemAmount | utils.py:11-15 | answers exactly when `kw\s+(.+?)\s+(\d+)$` matches; the answer is the stripped item and the digits' value of any match; an answer means the text starts with the keyword |
| Parsers.ParseExpenseMessage | utils.py:3-16 | `parse_expense_message`: `(item, amount)` exactly for texts that match `^支出\s+(.+?)\s+(\d+)$`, else `None` |
| Parsers.ParseIncome | utils.py:18-27 | `parse_income`: the same for `收入` |
| Parsers.ParseFixedExpense | utils.py:29-38 | `parse_fixed_expense`: the same for `固定` |
| Parsers.BodyRoundTrip | utils.py:11-15 | the body `" " + item + " " + str(n)` splits back into `(item, n)` |
| Parsers.ItemAmountRoundTrip | utils.py:11-15 | `kw + " " + item + " " + str(n)` parses back to `(item, n)` for a non-empty item without a newline or surrounding whitespace |
| Parsers.ParsersRoundTrip | utils.py:3-38 | the round trip for each of the expense, income and fixed-cost parsers |
| Parsers.FinalNewlineIgnored | utils.py:3-66 | appending one newline changes no answer of the expense, income, fixed-cost and budget-limit parsers; the query parser ignores it too except after the bare `統計`, which then is no query |
| Parsers.ItemAmountFinalNewline | utils.py:11 | `$` before a final newline: an appended newline changes no item-and-amount answer |
| Parsers.LimitFinalNewline | utils.py:63 | an appended newline changes no budget-limit answer |
| Parsers.QueryMatchNewline | utils.py:47 | an appended newline does not change whether the month pattern matches with the year at a given place |
| Parsers.QueryFinalNewline | utils.py:47-55 | an appended newline keeps every month query; `統計` with a newline fails the `text == "統計"` test and is no query |
| Parsers.LimitAgrees | utils.py:63-65 | peeling the trailing digits answers exactly for the bodies `\s+(\d+)` matches, with their value |
| Parsers.ParseBudgetLimit | utils.py:57-66 | `parse_budget_limit`: `int(digits)` exactly for texts that match `^預算\s+(\d+)$` (0 included), else `None` |
| Parsers.LimitRoundTrip | utils.py:63-65 | `預算 + " " + str(n)` parses back to `n` |
| Parsers.ParseBudgetQuery | utils.py:40-55 | `parse_budget_query`: `(year, month)` exactly for texts that match `^統計\s+(\d{4})/(\d{1,2})$`, with their digits' values; `None` (current month) exactly for `統計`; `False` otherwise |
| Parsers.QueryOfDigits | utils.py:47-49 | `統計 <4 digits>/<1 or 2 digits>` reads as the values of those digits |
| Parsers.QueryRoundTrip | utils.py:47-49 | `統計 <year>/<month>` written with `str` parses back, for a four-digit year and a month below 100 |
| Parsers.NatToStringWidth | utils.py:47 | how many digits `str(n)` has, for the widths a query accepts |
| Parsers.AnswerStartsWithKeyword | utils.py:3-66 | a parser that answers has seen its own keyword's first character at the start of the text |
| Parsers.AtMostOneParserAnswers | utils.py:3-66 | at most one of the five parsers answers any text |
| Parsers.ExpenseWithSpacesInItem | utils.py:11-15 | `支出 a 1 2` gives `("a 1", 2)`: the item may hold spaces and digits |
| Parsers.ExpenseWithBlankItem | utils.py:11-13 | `支出` and three spaces and `5` gives `("", 5)`: the stripped item can be empty |
| Parsers.SignedAmountRejected | utils.py:11 | `支出 午餐 -5` is not an expense |
| Parsers.DecimalAmountRejected | utils.py:11 | `支出 午餐 1.5` is not an expense |
| Parsers.MissingItemRejected | utils.py:11 | `支出 100` is not an expense |
| Parsers.QueryMonthUnchecked | utils.py:47-49 | `統計 2026/13` gives `(2026, 13)`: the month is not range-checked |
| Parsers.QueryBareKeyword | utils.py:47-55 | `統計` asks for the current month, `統計 ` for nothing |
| Parsers.QueryNeedsSpace | utils.py:47 | `統計2026/1` is not a query |
| Parsers.BudgetZero | utils.py:63-65 | `預算 0` parses to 0 |
| Keys.MonthKey | services.py:50 | `f"{year}/{month}"`: the month as Settings keys name it |
| Keys.MonthPrefix | services.py:108 | `f"{year}-{month:02d}"`: what the timestamps of a month begin with |
| Keys.FixedKey | services.py:65 | `f"Fixed:{item}"` |
| Keys.IncomeKey | services.py:51 | `f"Income:{month_key}:{item}"` |
| Keys.BudgetKey | services.py:83 | `f"Budget:{month_key}"` |
| Keys.Timestamp | services.py:38 | `strftime("%Y-%m-%d %H:%M:%S")` of the clock reading |
| Keys.DayAndTime | services.py:38 | `strftime("-%d %H:%M:%S")`: day and time after the month, starting with `-` |
| Keys.IncomePrefix | services.py:131 | `f"Income:{month_key}:"`: what every income key of the month begins with |
| Keys.FixedName | services.py:129 | `key.replace('Fixed:', '')`: the name a fixed cost is listed under |
| Keys.IncomeName | services.py:134 | `key.split(":")[-1]`: the name an income is counted and listed under |
| Keys.IncomePrefixSelectsMonth | services.py:131 | the income key of a month starts with the income prefix of that month and of no other (so month 1 never picks up month 12) |
| Keys.BudgetKeySelectsMonth | services.py:142 | two months' budget keys are equal exactly when the months are |
| Keys.TimestampSelectsMonth | services.py:156 | a timestamp starts with the `YYYY-MM` prefix of its own month and of no other |
| Keys.MonthPrefixSelects | services.py:108 | a month prefix followed by a non-digit starts with the prefix of its own month and of no other |
| Keys.KeyKindsDisjoint | services.py:126-142 | no key is both a fixed-cost key, an income key of some month and a budget key |
| Keys.FixedNameOfKey | services.py:129 | a fixed cost is listed under its own name unless the name contains `Fixed:` |
| Keys.IncomeNameOfKey | services.py:134 | an income is listed under what follows its item's last colon, never under part of the month: its own name when the item holds no colon |
| Tables.FindKey | services.py:66 | `find` gives the first row whose first cell is the key, and nothing exactly when no row has it |
| Tables.SetSecondCell | services.py:68 | `update_cell(row, 2, v)` sets the second cell, keeps the key and every later cell |
| Tables.Upsert | services.py:65-72 | the key's first row gets the new second cell and every other row stays, or `[key, value]` is appended after the unchanged rows when no row has the key |
| Tables.UpsertKeyRows | services.py:66-72 | an upsert never files a key twice: once if it was filed at most once, as often as before otherwise |
| Tables.UpsertThenFind | services.py:66-72 | after an upsert, `find` gives a row whose value is the new one |
| Tables.FindKeyFirst | services.py:66 | the first row with the key is the one `find` gives |
| Tables.UpsertIdempotent | services.py:66-72 | repeating an upsert with the same value changes nothing |
| Tables.UpsertOverwrites | services.py:66-72 | of two upserts of one key, the last value wins |
| Tables.UpsertOtherKey | services.py:66-72 | an upsert leaves the rows of every other key as many as before |
| Ledger.SettingsConcat | services.py:122-144 | the Settings loop over two blocks goes on from where the first ended; a failure in the first ends the query |
| Ledger.ItemText | services.py:130-139 | `f"{item_name}({amount})"`: how a fixed cost or a bonus is listed |
| Ledger.CountFixed | services.py:127-130 | a fixed cost adds its amount to the fixed total and lists its name |
| Ledger.SettingsStep | services.py:122-144 | one turn of the Settings loop; its outcomes are stated by Ledger.StepOutcome |
| Ledger.CountIncome | services.py:131-141 | an income goes to exactly one of salary and bonus: with 獎金 in its name to the bonus total and the bonus list, salary untouched; otherwise to salary, bonus untouched; fixed costs and limit untouched |
| Ledger.StepOutcome | services.py:123-144 | one turn of the Settings loop (`SettingsStep`): fails with that row's value exactly when the row is counted and its value is no integer; a skipped row changes nothing |
| Ledger.ScanSettings | services.py:115-144 | the Settings loop from zero totals |
| Ledger.SettingsFailure | services.py:122-144 | the Settings loop fails exactly when some counted row holds a value that is no integer |
| Ledger.Category | services.py:159 | `row[3]` when the row has it, else `""` |
| Ledger.Records | services.py:153 | `all_expenses[1:]`: every Expenses row but the header |
| Ledger.ExpenseAmount | services.py:154-165 | one Expenses row fails exactly when it is of the month and shorter than three cells; a row of the month with a readable amount outside the 獎金 category (a 3-cell row has category `""`) counts exactly that amount, and every other row counts 0 |
| Ledger.ScanExpenses | services.py:150-165 | the month's spending summed over the rows, the first failure ending it |
| Ledger.ExpensesFailure | services.py:153-165 | the Expenses loop fails exactly when some row of the month is too short to hold an amount |
| Ledger.Report | services.py:167-174 | the report of a month: saved is salary less fixed and daily (no bonus), spendable is limit less daily under a limit and 0 otherwise |
| Ledger.Summarize | services.py:96-174 | a query succeeds exactly when both passes do, with a balanced report of the asked month whose daily spending is the Expenses pass's sum and whose salary, bonus, fixed costs and limit are the Settings pass's totals; a Settings failure is the query's failure |
| Ledger.Spend | services.py:163-173 | spending more keeps the report balanced, raises daily spending by the amount and lowers what is saved by it, lowers what is left to spend under a limit, and keeps the limit, incomes, fixed costs and month |
| Ledger.Credit | services.py:137-141 | one more income keeps the report balanced: with 獎金 in its name it raises only the bonus total and list, salary and what is saved unchanged; otherwise it raises salary and what is saved by the amount; what is left to spend, limit, fixed costs and month never change |
| Ledger.ExpensesConcat | services.py:153-165 | the month's spending over two blocks is the sum of both; the first failure ends the query |
| Ledger.ExpenseRow | services.py:38-39 | the row `add_expense` appends: timestamp, item, amount, 支出 and an empty note |
| Ledger.IncomeRow | services.py:49-54 | the row `add_income` appends: the clock month's income key and the amount |
| Ledger.SetFixed | services.py:65-72 | Settings after `add_fixed_expense`: an upsert of the item's `Fixed:` key |
| Ledger.SetBudget | services.py:81-92 | Settings after `set_budget_limit`: an upsert of the clock month's `Budget:` key |
| Ledger.ExpenseRowCells | services.py:38-39 | the row `add_expense` appends has five cells: the timestamp, the item, the amount as digits, the 支出 category and an empty note |
| Ledger.CategoryRowAmount | services.py:155-163 | a 支出 row with a readable amount counts that amount in the month its timestamp starts with, and nothing in any other |
| Ledger.ExpenseRowCounted | services.py:153-163 | a recorded expense counts its amount in its timestamp's month and nothing in any other |
| Ledger.AppendSpending | services.py:153 | an appended Expenses row adds what it counts to the month's spending; on an empty sheet it becomes the header and adds nothing |
| Ledger.AppendSummary | services.py:150-174 | an appended row that counts `a` raises the daily total and lowers what is saved and what is left to spend by `a`, unless it lands in the header's place |
| Ledger.RecordExpenseEffect | services.py:32-42 | after `add_expense` the clock month's report spends the amount more, and every other month's report is unchanged; on an empty sheet no report changes |
| Ledger.RecordIncomeEffect | services.py:44-57 | after `add_income` a query of the clock's month counts the amount under the item's name, and other months read the same |
| Ledger.IncomeListedByItem | services.py:131-141 | an income counts as bonus, listed with its amount, exactly when the name after its item's last colon contains 獎金, else as salary |
| Ledger.IncomeSummaryEffect | services.py:131-174 | an income listed as salary raises salary and savings by its amount; one listed as bonus only raises the bonus total, never what is saved or spendable; the name is what follows the item's last colon |
| Ledger.ReplaceIgnored | services.py:122-144 | replacing a row the loop skips by another such row does not change a query |
| Ledger.LimitCarried | services.py:142-144 | rows without the month's budget key leave the budget limit as it was |
| Ledger.LastBudgetRowWins | services.py:142-144 | the limit reported is the number on the last row with the month's budget key |
| Ledger.NoBudgetRowNoLimit | services.py:120 | without a budget row for the month the limit is 0 |
| Ledger.UnreadableValueFails | services.py:123-144 | a counted Settings row whose value is not an integer fails the whole query, while a short row is skipped |
| Ledger.SetBudgetEffect | services.py:76-94 | after `set_budget_limit` the clock month's query reports the new limit and everything else as before |
| Ledger.ReplaceLimitRow | services.py:86-88 | setting the value of the month's only budget row changes that month's query in its limit alone |
| Ledger.BudgetRowStep | services.py:142-144 | the month's budget row sets the limit to its number and touches nothing else |
| Ledger.SetBudgetOtherMonths | services.py:76-94 | setting one month's budget leaves every other month's query as it was |
| Ledger.StepKeepsShift | services.py:126-144 | every loop step keeps a difference in the fixed total, and fails for both or for neither |
| Ledger.ShiftCarried | services.py:122-144 | the whole Settings loop keeps such a difference |
| Ledger.AddFixedEffect | services.py:59-74 | `add_fixed_expense` of a new item lists it, with its amount, after the fixed costs of every month |
| Ledger.UpdateFixedEffect | services.py:66-69 | `add_fixed_expense` of a filed item moves every month's fixed total from the old amount to the new one, and keeps incomes and limit |
| Ledger.FixedRowReplaced | services.py:66-69 | giving one fixed-cost row a new amount keeps a succeeding query succeeding and shifts its fixed total by the difference, all else alike |
| Ledger.KeysOneToOne | services.py:65-83 | equal fixed-cost keys name equal items; equal budget keys name equal months |
| Ledger.RecordIncomeKeepsKeys | services.py:44-57 | `add_income` keeps every budget month and fixed-cost item on at most one row |
| Ledger.SetFixedKeepsKeys | services.py:59-74 | `add_fixed_expense` keeps every budget month and fixed-cost item on at most one row |
| Ledger.SetBudgetKeepsKeys | services.py:76-94 | `set_budget_limit` keeps every budget month and fixed-cost item on at most one row |
| Sheets.ReplyKinds | services.py:34-191 | a reply's first character tells its kind: ✅ exactly for a confirmed write, ❌ exactly for a failed query, 💰 exactly for a report |
| Sheets.FailureText | services.py:190-191 | `str(e)` of the two exceptions a query can raise, an unreadable value shown through `repr` cut after 200 characters (`%.200R`) |
| Sheets.FailureTextCut | services.py:191 | a value of 199 characters or more shows exactly 200 characters of its `repr`, with no closing quote |
| Sheets.FailureTextQuotes | services.py:190-191 | `it's` is shown in double quotes and `abc` in single quotes |
| Sheets.ReportText | services.py:169-187 | the report text, budget lines only under a limit and the bonus line only when a bonus was listed |
| Sheets.TargetMonth | services.py:102-106 | the asked year and month when both are given, else the clock's |
| Sheets.Join | services.py:169 | `', '.join(items)` |
| Sheets.FixedDetail | services.py:169 | the listed fixed costs joined by `, `, or 無 when there are none |
| Sheets.BonusDetail | services.py:170 | the bonus line, only when a bonus was listed |
| Sheets.BudgetInfo | services.py:173-174 | the limit and what is left to spend, only under a limit |
| Sheets.ReplyText | services.py:34-92 | the chat text of every reply: connection failure, the six confirmations, the report and the query failure |
| Sheets.SheetService.constructor | services.py:9-13 | a new service is not connected and holds the worksheets as given |
| Sheets.SheetService.SheetReady | services.py:26-30 | connects on first use and stays connected; ready exactly when connected; no worksheet changes |
| Sheets.SheetService.AddExpense | services.py:32-42 | without a connection it touches nothing and answers unavailable; otherwise it appends the stamped expense row to Expenses alone and confirms it |
| Sheets.SheetService.AddIncome | services.py:44-57 | appends the income row filed under the clock's month to Settings alone and confirms it with the month, or touches nothing without a connection; keeps keys filed once |
| Sheets.SheetService.AddFixedExpense | services.py:59-74 | updates the item's row, or appends one, and answers updated or added accordingly, or touches nothing without a connection; keeps keys filed once |
| Sheets.SheetService.SetBudgetLimit | services.py:76-94 | updates the clock month's budget row, or appends one, and answers updated or set with the month, or touches nothing without a connection; keeps keys filed once |
| Sheets.SheetService.SettingsPass | services.py:122-144 | the Settings loop computes the fold `ScanSettings`, stopping at the first unreadable value |
| Sheets.SheetService.ExpensesPass | services.py:150-165 | the Expenses loop after the header computes the fold `ScanExpenses`, stopping at the first short row of the month |
| Sheets.SheetService.GetRemainingBudget | services.py:96-191 | reports the target (or clock's) month as `Summarize` does, or the failure that ended the query, or unavailable; no worksheet changes |
| Bot.DispatchByParser | services.py:197-230 | the command is the answer of whichever parser answers (none for `預算 0`), and nothing when no parser answers |
| Bot.Dispatch | services.py:197-230 | the first-match chain: no command exactly when no parser answers or the text is a zero budget limit |
| Bot.Perform | services.py:199-228 | what a command does: nothing but Unavailable without a connection; at most one worksheet written; a query writes none and answers a report or a failure; every write is confirmed |
| Bot.BotService.constructor | services.py:194-195 | the bot holds the given sheet service |
| Bot.BotService.HandleMessage | services.py:197-230 | a message no parser claims answers `None` and changes nothing; otherwise the worksheets and reply are those of the chosen operation |
| Bot.BotService.Execute | services.py:199-228 | each command runs its sheet-service operation, with that operation's effect and reply |
| Bot.ExpenseMessageSpends | services.py:225-228 | `支出 <item> <n>` is recorded and confirmed, and this month's report then spends `n` more (unchanged when the Expenses sheet was empty) |
| Bot.ExpenseCommandSpends | services.py:32-42 | an expense command on a connected service confirms and spends its amount in this month's report, or leaves it as it was on an empty sheet |
| Bot.IncomeMessageCounted | services.py:210-213 | `收入 <item> <n>` is confirmed with this month's key, and this month's report credits `n` as salary, or as bonus only when the name after the last colon contains 獎金 |
| Bot.IncomeCommandCounted | services.py:44-57 | an income command credits this month's report with its amount under the name after the item's last colon |
| Bot.BudgetMessageSets | services.py:199-201 | `預算 <n>` with `n > 0` sets this month's limit to `n`, all else unchanged; `預算 0` is no command |
| Bot.FixedMessageAdds | services.py:204-207 | `固定 <item> <n>` for a new item adds it with its amount to every month's fixed costs |
| Bot.QueryMessagesReport | services.py:216-222 | `統計` reports the clock's month and `統計 <yyyy>/<m>` the named one, and neither changes a worksheet |

## Left out

- app.py (the Discord client and its event handlers, the hourly reminder loop, the help text, tokens and environment variables) is not part of this model. It is transport and concurrency.
- gspread and oauth2client are not modelled: credentials, `GOOGLE_SHEET_ID`, `open_by_key` and `worksheet`. The worksheets are `seq` fields, and `connect()` is the boolean `canConnect`.
- Write failures after connecting (`❌ 寫入失敗`, `❌ 設定失敗`) are left out, because a failing sheet call is outside the model. Every write succeeds once connected.
- Exception texts other than the two a query can raise are not modelled.
- Sheets.FailureText and Text.Repr escape the quote, the backslash and ASCII control characters as CPython's `repr` does. Non-ASCII characters that Python deems unprintable (such as U+00A0) are escaped by `repr` but passed through by the model.
- `datetime.now()` is the `Clock` parameter. `get_remaining_budget` reads the clock only when no month is given, and each write reads it once, so one reading per operation is exact.
- Tables.FindKey: gspread's `find` searches every cell of the sheet. The model searches only the first column, because the keys the code writes are there.
- Text.ParseInt: Python's `int()` also accepts surrounding whitespace, underscores and non-ASCII digits. The model accepts an optional sign and ASCII digits only.
- Text.ParseInt has no limit on length. CPython refuses to convert a text of more than 4300 digits. There, `int()` raises ValueError: the parsers then raise out of `handle_message`, a Settings value fails the query, and an Expenses amount is skipped. The model reads every such number.
- Text.ParseIntOfIntToString, Parsers.ItemAmountRoundTrip, Parsers.ParsersRoundTrip and Parsers.LimitRoundTrip hold for every number in the model. In CPython they hold only for numbers of at most 4300 digits.
- Amounts are kept in the sheets as their decimal text, and a cell reads back the text that was written. Google Sheets stores a number written by `append_row` or `update_cell` as a double and `get_all_values()` returns its formatted text, so an amount of more than about 15 digits does not read back as written. The write-then-query lemmas (Ledger.RecordExpenseEffect, Ledger.AddFixedEffect, Ledger.UpdateFixedEffect, Ledger.SetBudgetEffect and the Bot message lemmas) rest on the exact read-back.
- Parsers.ParseItemAmount, Parsers.ParseBudgetLimit and Parsers.ParseBudgetQuery take `\d` as an ASCII digit. Python's `\d` on `str` also matches other Unicode decimal digits.
- Keys.Timestamp writes the year with `str(year)`. `%Y` pads years below 1000 differently on some platforms.
- `get_all_values()` pads short rows with empty cells up to the widest row. The model takes the rows as given; with padding, a short expense row would reach `int('')` and be skipped rather than fail, and a one-cell `Fixed:`, `Income:` or `Budget:` row of Settings would reach `int('')` and fail the query rather than be skipped.
- Ledger.SetBudgetEffect is stated for a Settings sheet with at most one budget row for the month and a query that succeeds. `SetBudgetKeepsKeys` shows that the writes keep that first condition.
- Bot.BudgetMessageSets carries the same two conditions, because it rests on Ledger.SetBudgetEffect. With a second budget row for the month, or with a query that already fails, the message's effect on the report is not stated.
- Ledger.UpdateFixedEffect states how the totals move but not how the listed item text changes. It is stated only for a query that succeeds before the update; when the item's old value is no integer, every query fails before and may succeed after, and that case is not stated.
- Parsers.QueryRoundTrip is stated for four-digit years and months below 100, the only ones the pattern can read back.
- Concurrent writers racing on the find-then-update-or-append pattern are not modelled. Each operation runs alone.
- The report text is modelled (`ReportText`) but only its first character is proved about (`ReplyKinds`). The figures it shows are the proved part.
