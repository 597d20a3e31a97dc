/**
 * `GoogleSheetService` (services.py:8-191): the Settings and Expenses
 * worksheets held as tables of cell strings, the connection it opens once on
 * first use, and its five operations with the replies they send back.
 */
module Sheets {
  import opened Wrappers
  import opened Text
  import opened Keys
  import opened Tables
  import opened Ledger

  /** What an operation answers, before it is written out as chat text. */
  datatype Reply =
    | Unavailable
    | ExpenseRecorded(item: string, amount: nat)
    | IncomeRecorded(item: string, amount: nat, monthKey: string)
    | FixedUpdated(item: string, amount: nat)
    | FixedAdded(item: string, amount: nat)
    | BudgetUpdated(month: nat, amount: nat)
    | BudgetSet(month: nat, amount: nat)
    | BudgetReport(summary: Summary)
    | QueryFailed(failure: Failure)

  /** The reply to a query: the report, or the failure that ended it. */
  function Answer(r: Result<Summary, Failure>): Reply {
    match r
    case Ok(s) => BudgetReport(s)
    case Err(f) => QueryFailed(f)
  }

  /** `year, month` when both are given, else the clock's month. */
  function TargetMonth(now: Clock, target: Option<(nat, nat)>): (nat, nat) {
    match target
    case Some(ym) => ym
    case None => (now.year, now.month)
  }

  // ---------------------------------------------------------------------
  // Reply texts

  const Rule: string := "-------------------\n"

  /** `', '.join(items)`. */
  function Join(items: seq<string>, sep: string): string
    decreases |items|
  {
    if items == [] then []
    else if |items| == 1 then items[0]
    else Join(items[..|items| - 1], sep) + sep + items[|items| - 1]
  }

  const NotAnIntegerText: string := "invalid literal for int() with base 10: "

  /** How many characters of the value's `repr` the message keeps (`%.200R`). */
  const ReprShown: nat := 200

  /**
   * `str(e)` of the exception that ended a query: for an unreadable value,
   * Python's message ends with `repr` of the value, cut after its first
   * 200 characters.
   */
  function FailureText(f: Failure): string {
    match f
    case NotAnInteger(v) =>
      var q := Repr(v);
      NotAnIntegerText + (if |q| <= ReprShown then q else q[..ReprShown])
    case MissingAmountCell => "list index out of range"
  }

  /** A value of 199 characters or more is shown cut: the message holds 200 characters of its `repr`. */
  lemma {:induction false} FailureTextCut(v: string)
    requires |v| >= ReprShown - 1
    ensures FailureText(NotAnInteger(v)) == NotAnIntegerText + Repr(v)[..ReprShown]
    ensures |FailureText(NotAnInteger(v))| == |NotAnIntegerText| + ReprShown
  {
  }

  /** A value with a single quote in it is shown in double quotes, as `repr` does. */
  lemma {:induction false} FailureTextQuotes(a: string, b: string)
    requires a == "it's" && b == "abc"
    ensures FailureText(NotAnInteger(a)) == NotAnIntegerText + "\"" + a + "\""
    ensures FailureText(NotAnInteger(b)) == NotAnIntegerText + "'" + b + "'"
  {
    assert a[2] == '\'' && '"' !in a;
    ReprDoubleQuoted(a);
    ReprSingleQuoted(b);
  }

  /** The two budget lines, shown only when a limit is set. */
  function BudgetInfo(s: Summary): string {
    if s.budgetLimit > 0 then
      "\n預算上限: " + IntToString(s.budgetLimit) + " \n還可以花: " + IntToString(s.spendable) + " "
    else ""
  }

  /** The bonus line, shown only when a bonus was recorded. */
  function BonusDetail(s: Summary): string {
    if s.bonusItems != [] then "\n  • 額外收入: " + IntToString(s.bonusTotal) else ""
  }

  /** The fixed costs, listed, or 無 when there are none. */
  function FixedDetail(s: Summary): string {
    if s.fixedItems != [] then Join(s.fixedItems, ", ") else "無"
  }

  /** The monthly report. */
  function ReportText(s: Summary): string {
    "💰 " + NatToString(s.month) + "月\n"
    + BudgetInfo(s) + "\n"
    + Rule
    + "收入:\n"
    + "  • 月薪: " + IntToString(s.salary) + BonusDetail(s) + "\n"
    + "支出:\n"
    + "  • 固定: " + IntToString(s.fixedTotal) + " (" + FixedDetail(s) + ")\n"
    + "  • 日常: " + IntToString(s.daily) + "\n"
    + Rule
    + "多存: " + IntToString(s.remaining) + "\n"
  }

  /** The chat text of a reply. */
  function ReplyText(r: Reply): string {
    match r
    case Unavailable => "無法連接至 Google Sheet"
    case ExpenseRecorded(item, amount) => "✅ 已記錄支出: **" + item + "** " + NatToString(amount) + "元"
    case IncomeRecorded(item, amount, monthKey) =>
      "✅ 已記錄收入: **" + item + "** " + NatToString(amount) + "元 (" + monthKey + ")"
    case FixedUpdated(item, amount) => "✅ 已更新固定支出: **" + item + "** " + NatToString(amount) + "元"
    case FixedAdded(item, amount) => "✅ 已新增固定支出: **" + item + "** " + NatToString(amount) + "元"
    case BudgetUpdated(month, amount) =>
      "✅ 已更新" + NatToString(month) + "月預算上限: **" + NatToString(amount) + "** 元"
    case BudgetSet(month, amount) =>
      "✅ 已設定" + NatToString(month) + "月預算上限: **" + NatToString(amount) + "** 元"
    case BudgetReport(s) => ReportText(s)
    case QueryFailed(f) => "❌ 查詢失敗: " + FailureText(f)
  }

  /** A reply that confirms a write. */
  predicate Confirms(r: Reply) {
    r.ExpenseRecorded? || r.IncomeRecorded? || r.FixedUpdated? || r.FixedAdded? || r.BudgetUpdated? || r.BudgetSet?
  }

  /**
   * The first character of a reply tells its kind: ✅ exactly for a
   * confirmed write, ❌ exactly for a failed query, 💰 exactly for a report.
   */
  lemma {:induction false} ReplyKinds(r: Reply)
    ensures ReplyText(r) != []
    ensures ReplyText(r)[0] == '✅' <==> Confirms(r)
    ensures ReplyText(r)[0] == '❌' <==> r.QueryFailed?
    ensures ReplyText(r)[0] == '💰' <==> r.BudgetReport?
  {
    match r
    case BudgetReport(s) =>
      assert ReportText(s)[0] == '💰';
    case _ =>
  }

  // ---------------------------------------------------------------------
  // The service

  class SheetService {
    /** Whether a client is open (`self.client` is set). */
    var connected: bool
    /** The Settings worksheet. */
    var settings: seq<Row>
    /** The Expenses worksheet, header row first. */
    var expenses: seq<Row>

    /** A service over the two worksheets as they stand, not yet connected. */
    constructor (settings0: seq<Row>, expenses0: seq<Row>)
      ensures !connected && settings == settings0 && expenses == expenses0
    {
      connected := false;
      settings := settings0;
      expenses := expenses0;
    }

    /**
     * `get_sheet_ready`: connect on first use and keep the client.
     * `canConnect` is whether `connect()` would succeed now.
     */
    method SheetReady(canConnect: bool) returns (ready: bool)
      modifies this
      ensures connected == (old(connected) || canConnect) && ready == connected
      ensures settings == old(settings) && expenses == old(expenses)
    {
      if !connected {
        connected := canConnect;
      }
      ready := connected;
    }

    /** `add_expense`: append the expense, stamped with the clock, to Expenses. */
    method AddExpense(canConnect: bool, now: Clock, item: string, amount: nat) returns (reply: Reply)
      modifies this
      ensures connected == (old(connected) || canConnect) && settings == old(settings)
      ensures expenses == if connected then old(expenses) + [ExpenseRow(now, item, amount)] else old(expenses)
      ensures reply == if connected then ExpenseRecorded(item, amount) else Unavailable
    {
      var ready := SheetReady(canConnect);
      if !ready {
        return Unavailable;
      }
      expenses := expenses + [ExpenseRow(now, item, amount)];
      reply := ExpenseRecorded(item, amount);
    }

    /** `add_income`: append the income, filed under the clock's month, to Settings. */
    method AddIncome(canConnect: bool, now: Clock, item: string, amount: nat) returns (reply: Reply)
      modifies this
      ensures connected == (old(connected) || canConnect) && expenses == old(expenses)
      ensures settings == if connected then old(settings) + [IncomeRow(now, item, amount)] else old(settings)
      ensures reply == if connected then IncomeRecorded(item, amount, MonthKey(now.year, now.month)) else Unavailable
      ensures old(KeyedOnce(settings)) ==> KeyedOnce(settings)
    {
      var ready := SheetReady(canConnect);
      if !ready {
        return Unavailable;
      }
      var monthKey := MonthKey(now.year, now.month);
      var row := [IncomeKey(monthKey, item), NatToString(amount)];
      if KeyedOnce(settings) {
        RecordIncomeKeepsKeys(settings, now, item, amount);
      }
      settings := settings + [row];
      reply := IncomeRecorded(item, amount, monthKey);
    }

    /** `add_fixed_expense`: set the item's amount on its row, or add a row for it. */
    method AddFixedExpense(canConnect: bool, item: string, amount: nat) returns (reply: Reply)
      modifies this
      ensures connected == (old(connected) || canConnect) && expenses == old(expenses)
      ensures settings == if connected then SetFixed(old(settings), item, amount) else old(settings)
      ensures reply ==
        if !connected then Unavailable
        else if FindKey(old(settings), FixedKey(item)).Some? then FixedUpdated(item, amount)
        else FixedAdded(item, amount)
      ensures old(KeyedOnce(settings)) ==> KeyedOnce(settings)
    {
      var ready := SheetReady(canConnect);
      if !ready {
        return Unavailable;
      }
      var key := FixedKey(item);
      var cell := FindKey(settings, key);
      if KeyedOnce(settings) {
        SetFixedKeepsKeys(settings, item, amount);
      }
      if cell.Some? {
        settings := settings[cell.value := SetSecondCell(settings[cell.value], NatToString(amount))];
        reply := FixedUpdated(item, amount);
      } else {
        settings := settings + [[key, NatToString(amount)]];
        reply := FixedAdded(item, amount);
      }
    }

    /** `set_budget_limit`: set the clock's month's limit on its row, or add a row for it. */
    method SetBudgetLimit(canConnect: bool, now: Clock, amount: nat) returns (reply: Reply)
      modifies this
      ensures connected == (old(connected) || canConnect) && expenses == old(expenses)
      ensures settings == if connected then SetBudget(old(settings), now, amount) else old(settings)
      ensures reply ==
        if !connected then Unavailable
        else if FindKey(old(settings), BudgetKey(MonthKey(now.year, now.month))).Some? then BudgetUpdated(now.month, amount)
        else BudgetSet(now.month, amount)
      ensures old(KeyedOnce(settings)) ==> KeyedOnce(settings)
    {
      var ready := SheetReady(canConnect);
      if !ready {
        return Unavailable;
      }
      var key := BudgetKey(MonthKey(now.year, now.month));
      var cell := FindKey(settings, key);
      if KeyedOnce(settings) {
        SetBudgetKeepsKeys(settings, now, amount);
      }
      if cell.Some? {
        settings := settings[cell.value := SetSecondCell(settings[cell.value], NatToString(amount))];
        reply := BudgetUpdated(now.month, amount);
      } else {
        settings := settings + [[key, NatToString(amount)]];
        reply := BudgetSet(now.month, amount);
      }
    }

    /** The Settings loop of `get_remaining_budget` (services.py:122-144). */
    method SettingsPass(monthKey: string) returns (r: Result<Totals, Failure>)
      ensures r == ScanSettings(settings, monthKey)
    {
      var totals := NoTotals;
      var i := 0;
      while i < |settings|
        invariant 0 <= i <= |settings|
        invariant ScanSettings(settings[..i], monthKey) == Ok(totals)
      {
        SettingsNext(settings, i, monthKey);
        var step := SettingsStep(totals, settings[i], monthKey);
        if step.Err? {
          SettingsStop(settings, i, monthKey);
          return step;
        }
        totals := step.value;
        i := i + 1;
      }
      assert settings[..i] == settings;
      r := Ok(totals);
    }

    /** The Expenses loop of `get_remaining_budget` (services.py:150-165), header skipped. */
    method ExpensesPass(monthPrefix: string) returns (r: Result<int, Failure>)
      ensures r == ScanExpenses(Records(expenses), monthPrefix)
    {
      var rows := Records(expenses);
      var total := 0;
      var j := 0;
      while j < |rows|
        invariant 0 <= j <= |rows|
        invariant ScanExpenses(rows[..j], monthPrefix) == Ok(total)
      {
        var row := rows[j];
        assert rows[..j + 1][..j] == rows[..j];
        if row != [] && StartsWith(row[0], monthPrefix) {
          if |row| < 3 {
            ExpensesStop(rows, j, monthPrefix);
            return Err(MissingAmountCell);
          }
          var amount := ParseInt(row[2]);
          if amount.Some? {
            var category := if |row| > 3 then row[3] else "";
            if category != BonusMarker {
              total := total + amount.value;
            }
          }
        }
        j := j + 1;
      }
      assert rows[..j] == rows;
      r := Ok(total);
    }

    /** `get_remaining_budget`: the report of the target month, or why it could not be made. */
    method GetRemainingBudget(canConnect: bool, now: Clock, target: Option<(nat, nat)>) returns (reply: Reply)
      modifies this
      ensures connected == (old(connected) || canConnect)
      ensures settings == old(settings) && expenses == old(expenses)
      ensures reply ==
        if !connected then Unavailable
        else
          var (year, month) := TargetMonth(now, target);
          Answer(Summarize(settings, expenses, year, month))
    {
      var ready := SheetReady(canConnect);
      if !ready {
        return Unavailable;
      }
      var (year, month) := TargetMonth(now, target);
      var totals := SettingsPass(MonthKey(year, month));
      if totals.Err? {
        return QueryFailed(totals.error);
      }
      var daily := ExpensesPass(MonthPrefix(year, month));
      if daily.Err? {
        return QueryFailed(daily.error);
      }
      reply := BudgetReport(Report(totals.value, daily.value, month));
    }
  }

  // ---------------------------------------------------------------------
  // What the loops and the writes rely on

  /** A failure at row `i` of Settings is the failure of the whole pass. */
  lemma {:induction false} SettingsStop(rows: seq<Row>, i: nat, monthKey: string)
    requires i < |rows| && ScanSettings(rows[..i + 1], monthKey).Err?
    ensures ScanSettings(rows, monthKey) == ScanSettings(rows[..i + 1], monthKey)
  {
    assert rows == rows[..i + 1] + rows[i + 1..];
    SettingsConcat(NoTotals, rows[..i + 1], rows[i + 1..], monthKey);
  }

  /** The Settings pass over one more row takes one more step. */
  lemma {:induction false} SettingsNext(rows: seq<Row>, i: nat, monthKey: string)
    requires i < |rows|
    ensures ScanSettings(rows[..i + 1], monthKey) ==
      match ScanSettings(rows[..i], monthKey)
      case Err(f) => Err(f)
      case Ok(t) => SettingsStep(t, rows[i], monthKey)
  {
    assert rows[..i + 1][..i] == rows[..i];
  }

  /** A failure at row `j` of Expenses is the failure of the whole pass. */
  lemma {:induction false} ExpensesStop(rows: seq<Row>, j: nat, monthPrefix: string)
    requires j < |rows| && ScanExpenses(rows[..j + 1], monthPrefix).Err?
    ensures ScanExpenses(rows, monthPrefix) == ScanExpenses(rows[..j + 1], monthPrefix)
  {
    assert rows == rows[..j + 1] + rows[j + 1..];
    ExpensesConcat(rows[..j + 1], rows[j + 1..], monthPrefix);
  }
}
