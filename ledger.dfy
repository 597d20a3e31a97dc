/**
 * What the ledger's two worksheets mean. A query reads the Settings rows
 * once, top to bottom, collecting fixed costs, the month's incomes and its
 * budget limit, then reads the Expenses rows after the header, adding up the
 * month's spending (services.py:96-191). `SettingsFrom` and `ScanExpenses`
 * are those two loops as folds; the writes of the other operations are the
 * rows they append or update, and the lemmas say how each write moves what
 * a later query reports.
 */
module Ledger {
  import opened Wrappers
  import opened Text
  import opened Keys
  import opened Tables

  /** The category cell every recorded expense carries. */
  const ExpenseCategory: string := "支出"

  /** The running totals of the Settings pass. */
  datatype Totals = Totals(
    fixedTotal: int, fixedItems: seq<string>,
    salary: int,
    bonusTotal: int, bonusItems: seq<string>,
    budgetLimit: int)

  const NoTotals: Totals := Totals(0, [], 0, 0, [], 0)

  /** The exception that ends a query. */
  datatype Failure =
    | NotAnInteger(text: string)  // `int(val)` of a Settings value raises ValueError
    | MissingAmountCell           // `row[2]` of a short expense row of the month raises IndexError

  /** `f"{item_name}({amount})"`: how an item is listed in the report. */
  function ItemText(name: string, amount: int): string {
    name + "(" + IntToString(amount) + ")"
  }

  /** A fixed cost of `amount` counted under `name`. */
  function CountFixed(t: Totals, name: string, amount: int): Totals {
    t.(fixedTotal := t.fixedTotal + amount, fixedItems := t.fixedItems + [ItemText(name, amount)])
  }

  /**
   * An income of `amount` under `name`: a bonus when the name says so,
   * salary otherwise. It goes to exactly one of the two, and fixed costs and
   * the budget limit are untouched.
   */
  function CountIncome(t: Totals, name: string, amount: int): (r: Totals)
    ensures r.salary + r.bonusTotal == t.salary + t.bonusTotal + amount
    ensures r.salary == t.salary || r.bonusTotal == t.bonusTotal
    ensures Contains(name, BonusMarker) <==> |r.bonusItems| == |t.bonusItems| + 1
    ensures r.fixedTotal == t.fixedTotal && r.fixedItems == t.fixedItems && r.budgetLimit == t.budgetLimit
    ensures Contains(name, BonusMarker) ==>
      r.salary == t.salary && r.bonusTotal == t.bonusTotal + amount && r.bonusItems == t.bonusItems + [ItemText(name, amount)]
    ensures !Contains(name, BonusMarker) ==>
      r.salary == t.salary + amount && r.bonusTotal == t.bonusTotal && r.bonusItems == t.bonusItems
  {
    if Contains(name, BonusMarker) then
      t.(bonusTotal := t.bonusTotal + amount, bonusItems := t.bonusItems + [ItemText(name, amount)])
    else
      t.(salary := t.salary + amount)
  }

  /** One turn of the Settings loop for the month `monthKey`. */
  function SettingsStep(t: Totals, row: Row, monthKey: string): Result<Totals, Failure> {
    if |row| < 2 then Ok(t)
    else if StartsWith(row[0], FixedTag) then
      match ParseInt(row[1])
      case None => Err(NotAnInteger(row[1]))
      case Some(a) => Ok(CountFixed(t, FixedName(row[0]), a))
    else if StartsWith(row[0], IncomePrefix(monthKey)) then
      match ParseInt(row[1])
      case None => Err(NotAnInteger(row[1]))
      case Some(a) => Ok(CountIncome(t, IncomeName(row[0]), a))
    else if row[0] == BudgetKey(monthKey) then
      match ParseInt(row[1])
      case None => Err(NotAnInteger(row[1]))
      case Some(a) => Ok(t.(budgetLimit := a))
    else Ok(t)
  }

  /** The Settings loop over `rows`, started from the totals `t`. */
  function SettingsFrom(t: Totals, rows: seq<Row>, monthKey: string): Result<Totals, Failure>
    decreases |rows|
  {
    if rows == [] then Ok(t)
    else
      match SettingsFrom(t, rows[..|rows| - 1], monthKey)
      case Err(f) => Err(f)
      case Ok(u) => SettingsStep(u, rows[|rows| - 1], monthKey)
  }

  /** The Settings pass of a query for the month `monthKey`. */
  function ScanSettings(rows: seq<Row>, monthKey: string): Result<Totals, Failure> {
    SettingsFrom(NoTotals, rows, monthKey)
  }

  /** `row[3] if len(row) > 3 else ""`. */
  function Category(row: Row): string {
    if |row| > 3 then row[3] else ""
  }

  /**
   * What one Expenses row adds to the spending of the month whose
   * timestamps start with `monthPrefix`: nothing for a row of another month,
   * an unreadable amount or a 獎金 category; a short row of the month fails.
   */
  function ExpenseAmount(row: Row, monthPrefix: string): (r: Result<int, Failure>)
    ensures r.Err? <==> row != [] && StartsWith(row[0], monthPrefix) && |row| < 3
    ensures r.Err? ==> r.error == MissingAmountCell
    ensures r.Ok? && r.value != 0 ==>
      row != [] && StartsWith(row[0], monthPrefix) && |row| >= 3 && Category(row) != BonusMarker &&
      ParseInt(row[2]) == Some(r.value)
    ensures (row != [] && StartsWith(row[0], monthPrefix) && |row| >= 3 && Category(row) != BonusMarker
             && ParseInt(row[2]).Some?) ==> r == Ok(ParseInt(row[2]).value)
  {
    if row == [] || !StartsWith(row[0], monthPrefix) then Ok(0)
    else if |row| < 3 then Err(MissingAmountCell)
    else
      match ParseInt(row[2])
      case None => Ok(0)
      case Some(a) => Ok(if Category(row) != BonusMarker then a else 0)
  }

  /** The Expenses loop: the month's spending over `rows`. */
  function ScanExpenses(rows: seq<Row>, monthPrefix: string): Result<int, Failure>
    decreases |rows|
  {
    if rows == [] then Ok(0)
    else
      match ScanExpenses(rows[..|rows| - 1], monthPrefix)
      case Err(f) => Err(f)
      case Ok(s) =>
        match ExpenseAmount(rows[|rows| - 1], monthPrefix)
        case Err(f) => Err(f)
        case Ok(a) => Ok(s + a)
  }

  /** `all_expenses[1:]`: every row but the header. */
  function Records(expenses: seq<Row>): seq<Row> {
    if expenses == [] then [] else expenses[1..]
  }

  /** Everything the budget report shows. */
  datatype Summary = Summary(
    month: nat,
    salary: int, bonusTotal: int, bonusItems: seq<string>,
    fixedTotal: int, fixedItems: seq<string>,
    daily: int,
    budgetLimit: int, spendable: int,
    remaining: int)

  /**
   * How the report's derived figures follow from the others: what is saved
   * is salary less fixed and daily spending (a bonus never enters it), and
   * what is left to spend is the limit less daily spending, or 0 without a
   * limit.
   */
  predicate Balanced(s: Summary) {
    && s.remaining == s.salary - s.fixedTotal - s.daily
    && s.spendable == (if s.budgetLimit > 0 then s.budgetLimit - s.daily else 0)
  }

  /** The report of a month from its Settings totals and its spending. */
  function Report(t: Totals, daily: int, month: nat): (r: Summary)
    ensures Balanced(r) && r.month == month && r.daily == daily
  {
    Summary(month, t.salary, t.bonusTotal, t.bonusItems, t.fixedTotal, t.fixedItems, daily,
            t.budgetLimit, if t.budgetLimit > 0 then t.budgetLimit - daily else 0,
            t.salary - t.fixedTotal - daily)
  }

  /**
   * What a query for `year`/`month` reports over the two worksheets: a
   * balanced report of that month when both passes succeed, else the first
   * pass's failure.
   */
  function Summarize(settings: seq<Row>, expenses: seq<Row>, year: nat, month: nat): (r: Result<Summary, Failure>)
    ensures r.Ok? <==>
      ScanSettings(settings, MonthKey(year, month)).Ok? && ScanExpenses(Records(expenses), MonthPrefix(year, month)).Ok?
    ensures r.Ok? ==> Balanced(r.value) && r.value.month == month
    ensures r.Ok? ==>
      var t := ScanSettings(settings, MonthKey(year, month)).value;
      && r.value.daily == ScanExpenses(Records(expenses), MonthPrefix(year, month)).value
      && r.value.salary == t.salary && r.value.bonusTotal == t.bonusTotal && r.value.bonusItems == t.bonusItems
      && r.value.fixedTotal == t.fixedTotal && r.value.fixedItems == t.fixedItems
      && r.value.budgetLimit == t.budgetLimit
    ensures ScanSettings(settings, MonthKey(year, month)).Err? ==> r == Err(ScanSettings(settings, MonthKey(year, month)).error)
  {
    match ScanSettings(settings, MonthKey(year, month))
    case Err(f) => Err(f)
    case Ok(t) =>
      match ScanExpenses(Records(expenses), MonthPrefix(year, month))
      case Err(f) => Err(f)
      case Ok(d) => Ok(Report(t, d, month))
  }

  // ---------------------------------------------------------------------
  // The rows the write operations add

  /** `[date, item, amount, "支出", ""]`: the row `add_expense` appends to Expenses. */
  function ExpenseRow(c: Clock, item: string, amount: nat): Row {
    ExpenseCells(Timestamp(c), item, NatToString(amount))
  }

  /** An Expenses row of the 支出 category with an empty note. */
  function ExpenseCells(timestamp: string, item: string, digits: string): Row {
    [timestamp, item, digits, ExpenseCategory, ""]
  }

  /** `[key, amount]` under `Income:{month}:{item}`: the row `add_income` appends to Settings. */
  function IncomeRow(c: Clock, item: string, amount: nat): Row {
    [IncomeKey(MonthKey(c.year, c.month), item), NatToString(amount)]
  }

  /** Settings after `add_fixed_expense`. */
  function SetFixed(settings: seq<Row>, item: string, amount: nat): seq<Row> {
    Upsert(settings, FixedKey(item), NatToString(amount))
  }

  /** Settings after `set_budget_limit` at clock reading `c`. */
  function SetBudget(settings: seq<Row>, c: Clock, amount: nat): seq<Row> {
    Upsert(settings, BudgetKey(MonthKey(c.year, c.month)), NatToString(amount))
  }

  /** The report after spending `amount` more in its month; it stays balanced. */
  function Spend(s: Summary, amount: int): (r: Summary)
    ensures Balanced(s) ==> Balanced(r)
    ensures r.daily == s.daily + amount && r.remaining == s.remaining - amount
    ensures s.budgetLimit > 0 ==> r.spendable == s.spendable - amount
    ensures r.month == s.month && r.budgetLimit == s.budgetLimit
    ensures r.salary == s.salary && r.bonusTotal == s.bonusTotal && r.bonusItems == s.bonusItems
    ensures r.fixedTotal == s.fixedTotal && r.fixedItems == s.fixedItems
  {
    s.(daily := s.daily + amount,
       spendable := if s.budgetLimit > 0 then s.spendable - amount else 0,
       remaining := s.remaining - amount)
  }

  // ---------------------------------------------------------------------
  // The two loops as folds

  /**
   * The Settings loop over two blocks of rows is the loop over the second
   * block started from where the first one ended; a failure in the first
   * block ends the query there.
   */
  lemma {:induction false} SettingsConcat(t: Totals, a: seq<Row>, b: seq<Row>, monthKey: string)
    ensures SettingsFrom(t, a + b, monthKey) ==
      match SettingsFrom(t, a, monthKey)
      case Err(f) => Err(f)
      case Ok(u) => SettingsFrom(u, b, monthKey)
    decreases |b|
  {
    if b == [] {
      assert a + b == a;
    } else {
      var init := b[..|b| - 1];
      assert (a + b)[..|a + b| - 1] == a + init;
      assert (a + b)[|a + b| - 1] == b[|b| - 1];
      SettingsConcat(t, a, init, monthKey);
    }
  }

  /**
   * Spending over two blocks of rows is the sum of the spending over each;
   * the first failure, in row order, ends the query.
   */
  lemma {:induction false} ExpensesConcat(a: seq<Row>, b: seq<Row>, monthPrefix: string)
    ensures ScanExpenses(a + b, monthPrefix) ==
      match ScanExpenses(a, monthPrefix)
      case Err(f) => Err(f)
      case Ok(x) =>
        match ScanExpenses(b, monthPrefix)
        case Err(f) => Err(f)
        case Ok(y) => Ok(x + y)
    decreases |b|
  {
    if b == [] {
      assert a + b == a;
    } else {
      var init := b[..|b| - 1];
      assert (a + b)[..|a + b| - 1] == a + init;
      assert (a + b)[|a + b| - 1] == b[|b| - 1];
      ExpensesConcat(a, init, monthPrefix);
    }
  }

  /**
   * One turn of the Settings loop fails exactly on a row it counts whose
   * value is not an integer, with that value; a row it skips leaves the
   * totals as they were.
   */
  lemma {:induction false} StepOutcome(t: Totals, row: Row, monthKey: string)
    ensures SettingsStep(t, row, monthKey).Err? <==> !Ignored(row, monthKey) && ParseInt(row[1]).None?
    ensures SettingsStep(t, row, monthKey).Err? ==> SettingsStep(t, row, monthKey).error == NotAnInteger(row[1])
    ensures Ignored(row, monthKey) ==> SettingsStep(t, row, monthKey) == Ok(t)
  {
  }

  /**
   * The Settings loop fails exactly when some row it counts holds a value
   * that is not an integer; rows it skips never make it fail.
   */
  lemma {:induction false} SettingsFailure(t: Totals, rows: seq<Row>, monthKey: string)
    ensures SettingsFrom(t, rows, monthKey).Err? <==>
      exists i | 0 <= i < |rows| :: !Ignored(rows[i], monthKey) && ParseInt(rows[i][1]).None?
    decreases |rows|
  {
    if rows != [] {
      var init := rows[..|rows| - 1];
      SettingsFailure(t, init, monthKey);
      assert forall i | 0 <= i < |init| :: init[i] == rows[i];
      match SettingsFrom(t, init, monthKey)
      case Err(f) =>
      case Ok(u) => StepOutcome(u, rows[|rows| - 1], monthKey);
    }
  }

  /** The Expenses loop fails exactly when some row of the month is too short to hold an amount. */
  lemma {:induction false} ExpensesFailure(rows: seq<Row>, monthPrefix: string)
    ensures ScanExpenses(rows, monthPrefix).Err? <==>
      exists i | 0 <= i < |rows| :: ExpenseAmount(rows[i], monthPrefix).Err?
    decreases |rows|
  {
    if rows != [] {
      var init := rows[..|rows| - 1];
      ExpensesFailure(init, monthPrefix);
      assert forall i | 0 <= i < |init| :: init[i] == rows[i];
    }
  }

  // ---------------------------------------------------------------------
  // add_expense

  /**
   * A recorded expense counts its full amount in the month of its timestamp
   * and nothing in any other month.
   */
  lemma {:induction false} ExpenseRowCounted(c: Clock, item: string, amount: nat, year: nat, month: nat)
    ensures ExpenseAmount(ExpenseRow(c, item, amount), MonthPrefix(year, month)) ==
      Ok(if year == c.year && month == c.month then amount else 0)
  {
    var row := ExpenseRow(c, item, amount);
    ExpenseRowCells(c, item, amount);
    TimestampSelectsMonth(c, year, month);
    ParseIntOfIntToString(amount);
    CategoryRowAmount(row, MonthPrefix(year, month), amount);
  }

  /** The cells of a recorded expense. */
  lemma {:induction false} ExpenseRowCells(c: Clock, item: string, amount: nat)
    ensures var row := ExpenseRow(c, item, amount);
      |row| == 5 && row[0] == Timestamp(c) && row[1] == item && row[2] == NatToString(amount)
      && Category(row) == ExpenseCategory && row[4] == ""
  {
    ExpenseCellsAt(Timestamp(c), item, NatToString(amount));
  }

  lemma {:induction false} ExpenseCellsAt(ts: string, item: string, digits: string)
    ensures var row := ExpenseCells(ts, item, digits);
      |row| == 5 && row[0] == ts && row[1] == item && row[2] == digits
      && Category(row) == ExpenseCategory && row[4] == ""
  {
  }

  /** A row of the expense category counts its readable amount in its own month only. */
  lemma {:induction false} CategoryRowAmount(row: Row, monthPrefix: string, amount: int)
    requires |row| >= 4 && row[3] == ExpenseCategory && ParseInt(row[2]) == Some(amount)
    ensures ExpenseAmount(row, monthPrefix) == Ok(if StartsWith(row[0], monthPrefix) then amount else 0)
  {
    assert Category(row) != BonusMarker by {
      assert Category(row) == ExpenseCategory && ExpenseCategory[0] != BonusMarker[0];
    }
  }

  /**
   * Appending a row to Expenses adds what that row counts to the month's
   * spending, unless the sheet was empty: then the row becomes the header
   * and is never counted.
   */
  lemma {:induction false} AppendSpending(expenses: seq<Row>, row: Row, amount: int, monthPrefix: string)
    requires ExpenseAmount(row, monthPrefix) == Ok(amount)
    ensures ScanExpenses(Records(expenses + [row]), monthPrefix) ==
      if expenses == [] then ScanExpenses(Records(expenses), monthPrefix)
      else
        match ScanExpenses(Records(expenses), monthPrefix)
        case Err(f) => Err(f)
        case Ok(d) => Ok(d + amount)
  {
    if expenses == [] {
      assert Records(expenses + [row]) == [] == Records(expenses);
    } else {
      assert Records(expenses + [row]) == Records(expenses) + [row];
      ExpensesConcat(Records(expenses), [row], monthPrefix);
      assert [row][..0] == [];
    }
  }

  /**
   * After `add_expense` the report of the clock's month shows the amount as
   * more daily spending, less left to spend and less saved, and the report
   * of every other month is unchanged. On an empty Expenses sheet the row
   * becomes the header and no report changes.
   */
  lemma {:induction false} RecordExpenseEffect(settings: seq<Row>, expenses: seq<Row>, c: Clock,
                                               item: string, amount: nat, year: nat, month: nat)
    ensures Summarize(settings, expenses + [ExpenseRow(c, item, amount)], year, month) ==
      if expenses != [] && year == c.year && month == c.month then
        match Summarize(settings, expenses, year, month)
        case Err(f) => Err(f)
        case Ok(s) => Ok(Spend(s, amount))
      else Summarize(settings, expenses, year, month)
  {
    var row := ExpenseRow(c, item, amount);
    ExpenseRowCounted(c, item, amount, year, month);
    if year == c.year && month == c.month {
      AppendSummary(settings, expenses, row, amount, year, month);
    } else {
      AppendSummary(settings, expenses, row, 0, year, month);
    }
  }

  /**
   * Appending a row that counts `amount` in the month spends that much more
   * in its report, unless the row lands in the header's place.
   */
  lemma {:induction false} AppendSummary(settings: seq<Row>, expenses: seq<Row>, row: Row, amount: int,
                                         year: nat, month: nat)
    requires ExpenseAmount(row, MonthPrefix(year, month)) == Ok(amount)
    ensures Summarize(settings, expenses + [row], year, month) ==
      if expenses == [] then Summarize(settings, expenses, year, month)
      else
        match Summarize(settings, expenses, year, month)
        case Err(f) => Err(f)
        case Ok(s) => Ok(Spend(s, amount))
    ensures amount == 0 ==> Summarize(settings, expenses + [row], year, month) == Summarize(settings, expenses, year, month)
  {
    var mp := MonthPrefix(year, month);
    AppendSpending(expenses, row, amount, mp);
    if expenses != [] {
      match ScanSettings(settings, MonthKey(year, month))
      case Err(f) =>
      case Ok(t) =>
        match ScanExpenses(Records(expenses), mp)
        case Err(f) =>
        case Ok(d) =>
          ReportOfSpending(t, d, month, amount);
          assert Summarize(settings, expenses + [row], year, month) == Ok(Report(t, d + amount, month));
    }
  }

  /** How spending more moves a report. */
  lemma {:induction false} ReportOfSpending(t: Totals, daily: int, month: nat, amount: int)
    ensures Report(t, daily + amount, month) == Spend(Report(t, daily, month), amount)
  {
  }

  // ---------------------------------------------------------------------
  // add_income

  /**
   * After `add_income` a query of the clock's month counts the amount as
   * income under the item's name (a bonus when the name says 獎金, salary
   * otherwise), and a query of any other month reads the same as before.
   */
  lemma {:induction false} RecordIncomeEffect(settings: seq<Row>, c: Clock, item: string, amount: nat,
                                              year: nat, month: nat)
    ensures ScanSettings(settings + [IncomeRow(c, item, amount)], MonthKey(year, month)) ==
      match ScanSettings(settings, MonthKey(year, month))
      case Err(f) => Err(f)
      case Ok(t) =>
        Ok(if year == c.year && month == c.month
           then CountIncome(t, IncomeName(IncomeKey(MonthKey(c.year, c.month), item)), amount)
           else t)
  {
    var row := IncomeRow(c, item, amount);
    var mk := MonthKey(year, month);
    assert (settings + [row])[..|settings|] == settings;
    KeyKindsDisjoint(item, MonthKey(c.year, c.month), mk);
    IncomePrefixSelectsMonth(year, month, c.year, c.month, item);
    ParseIntOfIntToString(amount);
  }

  /**
   * A recorded income is classified and listed by what follows the last
   * colon of its item (all of the item when it has none): a bonus exactly
   * when that name contains 獎金, salary otherwise.
   */
  lemma {:induction false} IncomeListedByItem(c: Clock, item: string, amount: nat)
    ensures var name := LastSegment(item, ':');
      CountIncome(NoTotals, IncomeName(IncomeRow(c, item, amount)[0]), amount) ==
      if Contains(name, BonusMarker) then NoTotals.(bonusTotal := amount, bonusItems := [ItemText(name, amount)])
      else NoTotals.(salary := amount)
    ensures ':' !in item ==> IncomeName(IncomeRow(c, item, amount)[0]) == item
  {
    var key := IncomeRow(c, item, amount)[0];
    IncomeNameOfKey(MonthKey(c.year, c.month), item);
    assert IncomeName(key) == LastSegment(item, ':');
  }

  /**
   * The report after one more income under `item`: a bonus is added to the
   * bonus total and listed; a salary is added to the salary and to what is
   * saved. Neither touches what is left to spend.
   */
  function Credit(s: Summary, item: string, amount: int): (r: Summary)
    ensures Balanced(s) ==> Balanced(r)
    ensures r.spendable == s.spendable && r.daily == s.daily
    ensures r.salary + r.bonusTotal == s.salary + s.bonusTotal + amount
    ensures Contains(item, BonusMarker) ==>
      && r.salary == s.salary && r.remaining == s.remaining
      && r.bonusTotal == s.bonusTotal + amount && r.bonusItems == s.bonusItems + [ItemText(item, amount)]
    ensures !Contains(item, BonusMarker) ==>
      && r.salary == s.salary + amount && r.remaining == s.remaining + amount
      && r.bonusTotal == s.bonusTotal && r.bonusItems == s.bonusItems
    ensures r.month == s.month && r.budgetLimit == s.budgetLimit
    ensures r.fixedTotal == s.fixedTotal && r.fixedItems == s.fixedItems
  {
    if Contains(item, BonusMarker)
    then s.(bonusTotal := s.bonusTotal + amount, bonusItems := s.bonusItems + [ItemText(item, amount)])
    else s.(salary := s.salary + amount, remaining := s.remaining + amount)
  }

  /**
   * In the report of the clock's month, a salary income raises the salary
   * and what is saved by its amount; a bonus raises only the bonus total and
   * is listed, and never reaches what is saved or what is left to spend.
   * Which of the two it is, and the name it is listed under, is decided by
   * what follows the last colon of the item.
   */
  lemma {:induction false} IncomeSummaryEffect(settings: seq<Row>, expenses: seq<Row>, c: Clock,
                                               item: string, amount: nat)
    ensures Summarize(settings + [IncomeRow(c, item, amount)], expenses, c.year, c.month) ==
      match Summarize(settings, expenses, c.year, c.month)
      case Err(f) => Err(f)
      case Ok(s) =>
        Ok(Credit(s, LastSegment(item, ':'), amount))
  {
    var mk := MonthKey(c.year, c.month);
    var name := LastSegment(item, ':');
    RecordIncomeEffect(settings, c, item, amount, c.year, c.month);
    assert IncomeName(IncomeKey(mk, item)) == name by {
      IncomeNameOfKey(mk, item);
    }
    match ScanSettings(settings, mk)
    case Err(f) =>
    case Ok(t) =>
      match ScanExpenses(Records(expenses), MonthPrefix(c.year, c.month))
      case Err(f) =>
      case Ok(d) => ReportOfIncome(t, d, c.month, name, amount);
  }

  /** How counting one more income moves a report. */
  lemma {:induction false} ReportOfIncome(t: Totals, daily: int, month: nat, item: string, amount: int)
    ensures Report(CountIncome(t, item, amount), daily, month) == Credit(Report(t, daily, month), item, amount)
  {
  }

  // ---------------------------------------------------------------------
  // Rows that a step passes over

  /** A row the Settings pass of `monthKey` skips without reading its value. */
  predicate Ignored(row: Row, monthKey: string) {
    |row| < 2 ||
    (!StartsWith(row[0], FixedTag) && !StartsWith(row[0], IncomePrefix(monthKey)) && row[0] != BudgetKey(monthKey))
  }

  /** Replacing a skipped row by another skipped row does not change a query. */
  lemma {:induction false} ReplaceIgnored(t: Totals, rows: seq<Row>, i: nat, row: Row, monthKey: string)
    requires i < |rows| && Ignored(rows[i], monthKey) && Ignored(row, monthKey)
    ensures SettingsFrom(t, rows[i := row], monthKey) == SettingsFrom(t, rows, monthKey)
  {
    var pre, post := rows[..i], rows[i + 1..];
    assert rows == pre + [rows[i]] + post;
    assert rows[i := row] == pre + [row] + post;
    SettingsConcat(t, pre + [rows[i]], post, monthKey);
    SettingsConcat(t, pre + [row], post, monthKey);
    SettingsConcat(t, pre, [rows[i]], monthKey);
    SettingsConcat(t, pre, [row], monthKey);
  }

  // ---------------------------------------------------------------------
  // set_budget_limit

  /**
   * The budget limit a query reports is the number on the last row filed
   * under the month's budget key: earlier rows are overwritten by it.
   */
  lemma {:induction false} LastBudgetRowWins(rows: seq<Row>, i: nat, a: int, monthKey: string)
    requires i < |rows| && HasKey(rows[i], BudgetKey(monthKey))
    requires |rows[i]| >= 2 && ParseInt(rows[i][1]) == Some(a)
    requires forall j | i < j < |rows| :: !HasKey(rows[j], BudgetKey(monthKey))
    requires ScanSettings(rows, monthKey).Ok?
    ensures ScanSettings(rows, monthKey).value.budgetLimit == a
  {
    var pre, post := rows[..i], rows[i + 1..];
    assert rows == pre + [rows[i]] + post;
    assert forall j | 0 <= j < |post| :: !HasKey(post[j], BudgetKey(monthKey)) by {
      assert forall j | 0 <= j < |post| :: post[j] == rows[i + 1 + j];
    }
    SettingsAround(NoTotals, pre, rows[i], post, monthKey);
    var u := SettingsFrom(NoTotals, pre, monthKey).value;
    BudgetRowStep(u, rows[i], monthKey);
    var w := SettingsStep(u, rows[i], monthKey).value;
    assert w.(budgetLimit := a) == w;
    LimitCarried(w, a, post, monthKey);
  }

  /** Without a budget row for the month a query reports the limit 0. */
  lemma {:induction false} NoBudgetRowNoLimit(rows: seq<Row>, monthKey: string)
    requires forall j | 0 <= j < |rows| :: !HasKey(rows[j], BudgetKey(monthKey))
    requires ScanSettings(rows, monthKey).Ok?
    ensures ScanSettings(rows, monthKey).value.budgetLimit == 0
  {
    assert NoTotals.(budgetLimit := 0) == NoTotals;
    LimitCarried(NoTotals, 0, rows, monthKey);
  }

  /**
   * A row the query counts (a fixed cost, an income of the month or the
   * month's budget) whose value is not an integer fails the whole query:
   * unlike a short row, it is not skipped.
   */
  lemma {:induction false} UnreadableValueFails(rows: seq<Row>, i: nat, monthKey: string)
    requires i < |rows| && !Ignored(rows[i], monthKey) && ParseInt(rows[i][1]).None?
    ensures ScanSettings(rows, monthKey).Err?
  {
    var pre, post := rows[..i], rows[i + 1..];
    assert rows == pre + [rows[i]] + post;
    SettingsAround(NoTotals, pre, rows[i], post, monthKey);
  }

  /** A step that does not read the month's budget row sets the limit the same way it finds it. */
  lemma {:induction false} StepKeepsLimit(t: Totals, x: int, row: Row, monthKey: string)
    requires !HasKey(row, BudgetKey(monthKey))
    ensures SettingsStep(t.(budgetLimit := x), row, monthKey) ==
      match SettingsStep(t, row, monthKey)
      case Err(f) => Err(f)
      case Ok(u) => Ok(u.(budgetLimit := x))
  {
    var t2 := t.(budgetLimit := x);
    if |row| >= 2 {
      match ParseInt(row[1])
      case None =>
      case Some(a) =>
        var name := FixedName(row[0]);
        assert CountFixed(t2, name, a) == CountFixed(t, name, a).(budgetLimit := x);
        var income := IncomeName(row[0]);
        assert CountIncome(t2, income, a) == CountIncome(t, income, a).(budgetLimit := x);
    }
  }

  /** Rows without the month's budget key carry a budget limit through unchanged. */
  lemma {:induction false} LimitCarried(t: Totals, x: int, rows: seq<Row>, monthKey: string)
    requires forall i | 0 <= i < |rows| :: !HasKey(rows[i], BudgetKey(monthKey))
    ensures SettingsFrom(t.(budgetLimit := x), rows, monthKey) ==
      match SettingsFrom(t, rows, monthKey)
      case Err(f) => Err(f)
      case Ok(u) => Ok(u.(budgetLimit := x))
    decreases |rows|
  {
    if rows != [] {
      LimitCarried(t, x, rows[..|rows| - 1], monthKey);
      match SettingsFrom(t, rows[..|rows| - 1], monthKey)
      case Err(f) =>
      case Ok(u) => StepKeepsLimit(u, x, rows[|rows| - 1], monthKey);
    }
  }

  /**
   * After `set_budget_limit` a query of the clock's month reports the new
   * limit and everything else as before, provided the month had at most one
   * budget row (which `set_budget_limit` itself maintains, see
   * `Tables.UpsertKeyRows`) and its query succeeded.
   */
  lemma {:induction false} SetBudgetEffect(settings: seq<Row>, c: Clock, amount: nat)
    requires KeyRows(settings, BudgetKey(MonthKey(c.year, c.month))) <= 1
    requires ScanSettings(settings, MonthKey(c.year, c.month)).Ok?
    ensures ScanSettings(SetBudget(settings, c, amount), MonthKey(c.year, c.month)) ==
      Ok(ScanSettings(settings, MonthKey(c.year, c.month)).value.(budgetLimit := amount))
  {
    var mk := MonthKey(c.year, c.month);
    var key := BudgetKey(mk);
    var v := NatToString(amount);
    ParseIntOfIntToString(amount);
    match FindKey(settings, key)
    case None =>
      KeyKindsDisjoint("", mk, mk);
      SettingsConcat(NoTotals, settings, [[key, v]], mk);
      assert [[key, v]][..0] == [];
      LimitCarried(NoTotals, 0, settings, mk);
    case Some(i) =>
      OnlyKeyRow(settings, i, key);
      ReplaceLimitRow(settings, i, v, amount, mk);
  }

  /**
   * Setting the second cell of the only budget row of `monthKey` to a
   * number changes that month's query in its limit alone.
   */
  lemma {:induction false} ReplaceLimitRow(settings: seq<Row>, i: nat, v: string, amount: int, monthKey: string)
    requires i < |settings| && HasKey(settings[i], BudgetKey(monthKey)) && ParseInt(v) == Some(amount)
    requires forall j | 0 <= j < |settings| && j != i :: !HasKey(settings[j], BudgetKey(monthKey))
    requires ScanSettings(settings, monthKey).Ok?
    ensures ScanSettings(settings[i := SetSecondCell(settings[i], v)], monthKey) ==
      Ok(ScanSettings(settings, monthKey).value.(budgetLimit := amount))
  {
    var pre, post := settings[..i], settings[i + 1..];
    var row := SetSecondCell(settings[i], v);
    assert settings == pre + [settings[i]] + post;
    assert settings[i := row] == pre + [row] + post;
    assert forall j | 0 <= j < |post| :: !HasKey(post[j], BudgetKey(monthKey)) by {
      assert forall j | 0 <= j < |post| :: post[j] == settings[i + 1 + j];
    }
    SettingsAround(NoTotals, pre, settings[i], post, monthKey);
    SettingsAround(NoTotals, pre, row, post, monthKey);
    var u := SettingsFrom(NoTotals, pre, monthKey).value;
    BudgetRowStep(u, settings[i], monthKey);
    BudgetRowStep(u, row, monthKey);
    var x := SettingsStep(u, settings[i], monthKey).value.budgetLimit;
    LimitCarried(u, x, post, monthKey);
    LimitCarried(u, amount, post, monthKey);
  }

  /** The Settings loop over the rows around one row `r`. */
  lemma {:induction false} SettingsAround(t: Totals, pre: seq<Row>, r: Row, post: seq<Row>, monthKey: string)
    ensures SettingsFrom(t, pre + [r] + post, monthKey) ==
      match SettingsFrom(t, pre, monthKey)
      case Err(f) => Err(f)
      case Ok(u) =>
        match SettingsStep(u, r, monthKey)
        case Err(f) => Err(f)
        case Ok(w) => SettingsFrom(w, post, monthKey)
  {
    SettingsConcat(t, pre + [r], post, monthKey);
    SettingsConcat(t, pre, [r], monthKey);
    match SettingsFrom(t, pre, monthKey)
    case Err(f) =>
    case Ok(u) =>
      assert [r][..0] == [];
  }

  /** The month's budget row sets the limit to its number, and touches nothing else. */
  lemma {:induction false} BudgetRowStep(t: Totals, r: Row, monthKey: string)
    requires HasKey(r, BudgetKey(monthKey))
    ensures SettingsStep(t, r, monthKey) ==
      if |r| < 2 then Ok(t)
      else
        match ParseInt(r[1])
        case None => Err(NotAnInteger(r[1]))
        case Some(a) => Ok(t.(budgetLimit := a))
  {
    KeyKindsDisjoint("", monthKey, monthKey);
  }

  /** When a key is filed at most once, no row other than the one at `i` is filed under it. */
  lemma {:induction false} OnlyKeyRow(rows: seq<Row>, i: nat, key: string)
    requires i < |rows| && HasKey(rows[i], key) && KeyRows(rows, key) <= 1
    ensures forall j | 0 <= j < |rows| && j != i :: !HasKey(rows[j], key)
    decreases |rows|
  {
    var n := |rows|;
    if i < n - 1 {
      KeyRowsPositive(rows[..n - 1], i, key);
      OnlyKeyRow(rows[..n - 1], i, key);
      assert forall j | 0 <= j < n - 1 :: rows[..n - 1][j] == rows[j];
    } else {
      forall j | 0 <= j < n - 1
        ensures !HasKey(rows[j], key)
      {
        if HasKey(rows[j], key) {
          KeyRowsPositive(rows[..n - 1], j, key);
        }
      }
    }
  }

  /** Setting the budget of the clock's month leaves the query of every other month as it was. */
  lemma {:induction false} SetBudgetOtherMonths(settings: seq<Row>, c: Clock, amount: nat, year: nat, month: nat)
    requires year != c.year || month != c.month
    ensures ScanSettings(SetBudget(settings, c, amount), MonthKey(year, month)) ==
      ScanSettings(settings, MonthKey(year, month))
  {
    var mk, own := MonthKey(year, month), MonthKey(c.year, c.month);
    var key := BudgetKey(own);
    var v := NatToString(amount);
    KeyKindsDisjoint("", own, mk);
    BudgetKeySelectsMonth(c.year, c.month, year, month);
    match FindKey(settings, key)
    case None =>
      SettingsConcat(NoTotals, settings, [[key, v]], mk);
      assert [[key, v]][..0] == [];
    case Some(i) =>
      ReplaceIgnored(NoTotals, settings, i, SetSecondCell(settings[i], v), mk);
  }

  // ---------------------------------------------------------------------
  // add_fixed_expense

  /** Whether `t2` is `t1` with `delta` more fixed cost and every income and limit alike. */
  predicate FixedShifted(t1: Totals, t2: Totals, delta: int) {
    t2.fixedTotal == t1.fixedTotal + delta &&
    t2.salary == t1.salary && t2.bonusTotal == t1.bonusTotal && t2.bonusItems == t1.bonusItems &&
    t2.budgetLimit == t1.budgetLimit
  }

  /** Every step keeps a fixed-cost shift between two runs, and fails in both or in neither. */
  lemma {:induction false} StepKeepsShift(t1: Totals, t2: Totals, delta: int, row: Row, monthKey: string)
    requires FixedShifted(t1, t2, delta)
    ensures SettingsStep(t1, row, monthKey).Ok? == SettingsStep(t2, row, monthKey).Ok?
    ensures SettingsStep(t1, row, monthKey).Ok? ==>
      FixedShifted(SettingsStep(t1, row, monthKey).value, SettingsStep(t2, row, monthKey).value, delta)
  {
  }

  /** The Settings pass keeps a fixed-cost shift from start to end. */
  lemma {:induction false} ShiftCarried(t1: Totals, t2: Totals, delta: int, rows: seq<Row>, monthKey: string)
    requires FixedShifted(t1, t2, delta)
    ensures SettingsFrom(t1, rows, monthKey).Ok? == SettingsFrom(t2, rows, monthKey).Ok?
    ensures SettingsFrom(t1, rows, monthKey).Ok? ==>
      FixedShifted(SettingsFrom(t1, rows, monthKey).value, SettingsFrom(t2, rows, monthKey).value, delta)
    decreases |rows|
  {
    if rows != [] {
      var init := rows[..|rows| - 1];
      ShiftCarried(t1, t2, delta, init, monthKey);
      if SettingsFrom(t1, init, monthKey).Ok? {
        StepKeepsShift(SettingsFrom(t1, init, monthKey).value, SettingsFrom(t2, init, monthKey).value,
                       delta, rows[|rows| - 1], monthKey);
      }
    }
  }

  /**
   * `add_fixed_expense` of a new item: every month's query lists the item
   * with its amount after the fixed costs it listed before.
   */
  lemma {:induction false} AddFixedEffect(settings: seq<Row>, item: string, amount: nat, monthKey: string)
    requires FindKey(settings, FixedKey(item)).None?
    ensures ScanSettings(SetFixed(settings, item, amount), monthKey) ==
      match ScanSettings(settings, monthKey)
      case Err(f) => Err(f)
      case Ok(t) => Ok(CountFixed(t, FixedName(FixedKey(item)), amount))
  {
    var row: Row := [FixedKey(item), NatToString(amount)];
    SettingsConcat(NoTotals, settings, [row], monthKey);
    assert [row][..0] == [];
    assert row[0][..|FixedTag|] == FixedTag;
    ParseIntOfIntToString(amount);
  }

  /** The amount a fixed-cost row adds to a query: nothing when it has no value cell. */
  function FixedValue(row: Row): Option<int> {
    if |row| < 2 then Some(0) else ParseInt(row[1])
  }

  /**
   * `add_fixed_expense` of an item already filed: a query that succeeded
   * before succeeds again in every month, its fixed total moves from the
   * old amount to the new one, and its incomes and budget limit stay.
   */
  lemma {:induction false} UpdateFixedEffect(settings: seq<Row>, item: string, amount: nat, monthKey: string)
    requires FindKey(settings, FixedKey(item)).Some?
    requires ScanSettings(settings, monthKey).Ok?
    ensures var i := FindKey(settings, FixedKey(item)).value;
      FixedValue(settings[i]).Some? &&
      ScanSettings(SetFixed(settings, item, amount), monthKey).Ok? &&
      FixedShifted(ScanSettings(settings, monthKey).value,
                   ScanSettings(SetFixed(settings, item, amount), monthKey).value,
                   amount - FixedValue(settings[i]).value)
  {
    var key := FixedKey(item);
    var i := FindKey(settings, key).value;
    var v := NatToString(amount);
    var pre, post := settings[..i], settings[i + 1..];
    assert settings == pre + [settings[i]] + post;
    assert SetFixed(settings, item, amount) == pre + [SetSecondCell(settings[i], v)] + post;
    assert StartsWith(settings[i][0], FixedTag) by {
      assert settings[i][0] == key;
    }
    ParseIntOfIntToString(amount);
    FixedRowReplaced(pre, settings[i], v, amount, post, monthKey);
  }

  /** Giving one fixed-cost row among others a new amount shifts the fixed total by the difference. */
  lemma {:induction false} FixedRowReplaced(pre: seq<Row>, r: Row, v: string, amount: int, post: seq<Row>,
                                            monthKey: string)
    requires |r| > 0 && StartsWith(r[0], FixedTag) && ParseInt(v) == Some(amount)
    requires SettingsFrom(NoTotals, pre + [r] + post, monthKey).Ok?
    ensures FixedValue(r).Some?
    ensures SettingsFrom(NoTotals, pre + [SetSecondCell(r, v)] + post, monthKey).Ok?
    ensures FixedShifted(SettingsFrom(NoTotals, pre + [r] + post, monthKey).value,
                         SettingsFrom(NoTotals, pre + [SetSecondCell(r, v)] + post, monthKey).value,
                         amount - FixedValue(r).value)
  {
    var r2 := SetSecondCell(r, v);
    SettingsAround(NoTotals, pre, r, post, monthKey);
    SettingsAround(NoTotals, pre, r2, post, monthKey);
    var u := SettingsFrom(NoTotals, pre, monthKey).value;
    FixedRowShift(u, r, v, amount, monthKey);
    ShiftCarried(SettingsStep(u, r, monthKey).value, SettingsStep(u, r2, monthKey).value,
                 amount - FixedValue(r).value, post, monthKey);
  }

  /** Giving a fixed-cost row a new amount shifts what its step adds by the difference. */
  lemma {:induction false} FixedRowShift(t: Totals, r: Row, v: string, amount: int, monthKey: string)
    requires |r| > 0 && StartsWith(r[0], FixedTag) && ParseInt(v) == Some(amount)
    requires SettingsStep(t, r, monthKey).Ok?
    ensures FixedValue(r).Some?
    ensures SettingsStep(t, SetSecondCell(r, v), monthKey).Ok?
    ensures FixedShifted(SettingsStep(t, r, monthKey).value, SettingsStep(t, SetSecondCell(r, v), monthKey).value,
                         amount - FixedValue(r).value)
  {
  }

  // ---------------------------------------------------------------------
  // Each budget month and each fixed-cost item on one row

  /**
   * Every budget month and every fixed-cost item is filed on at most one
   * Settings row, so `find` sees the only row there is.
   */
  ghost predicate KeyedOnce(settings: seq<Row>) {
    (forall mk :: KeyRows(settings, BudgetKey(mk)) <= 1) &&
    (forall item :: KeyRows(settings, FixedKey(item)) <= 1)
  }

  /** Two fixed-cost keys, or two budget keys, are equal only for equal names. */
  lemma {:induction false} KeysOneToOne(a: string, b: string)
    ensures FixedKey(a) == FixedKey(b) ==> a == b
    ensures BudgetKey(a) == BudgetKey(b) ==> a == b
  {
    assert FixedKey(a)[|FixedTag|..] == a && FixedKey(b)[|FixedTag|..] == b;
    assert BudgetKey(a)[|BudgetTag|..] == a && BudgetKey(b)[|BudgetTag|..] == b;
  }

  /** `add_income` files no budget month and no fixed cost. */
  lemma {:induction false} RecordIncomeKeepsKeys(settings: seq<Row>, c: Clock, item: string, amount: nat)
    requires KeyedOnce(settings)
    ensures KeyedOnce(settings + [IncomeRow(c, item, amount)])
  {
    var row := IncomeRow(c, item, amount);
    var own := MonthKey(c.year, c.month);
    forall mk
      ensures KeyRows(settings + [row], BudgetKey(mk)) <= 1
    {
      KeyKindsDisjoint(item, own, mk);
      KeyRowsAppend(settings, row, BudgetKey(mk));
    }
    forall fixed
      ensures KeyRows(settings + [row], FixedKey(fixed)) <= 1
    {
      KeyKindsDisjoint(item, own, own);
      KeyRowsAppend(settings, row, FixedKey(fixed));
    }
  }

  /** `add_fixed_expense` keeps every key on at most one row. */
  lemma {:induction false} SetFixedKeepsKeys(settings: seq<Row>, item: string, amount: nat)
    requires KeyedOnce(settings)
    ensures KeyedOnce(SetFixed(settings, item, amount))
  {
    var key, v := FixedKey(item), NatToString(amount);
    forall mk
      ensures KeyRows(SetFixed(settings, item, amount), BudgetKey(mk)) <= 1
    {
      KeyKindsDisjoint(item, mk, mk);
      UpsertOtherKey(settings, key, v, BudgetKey(mk));
    }
    forall other
      ensures KeyRows(SetFixed(settings, item, amount), FixedKey(other)) <= 1
    {
      KeysOneToOne(other, item);
      if other == item {
        UpsertKeyRows(settings, key, v);
      } else {
        UpsertOtherKey(settings, key, v, FixedKey(other));
      }
    }
  }

  /** `set_budget_limit` keeps every key on at most one row. */
  lemma {:induction false} SetBudgetKeepsKeys(settings: seq<Row>, c: Clock, amount: nat)
    requires KeyedOnce(settings)
    ensures KeyedOnce(SetBudget(settings, c, amount))
  {
    var own := MonthKey(c.year, c.month);
    var key, v := BudgetKey(own), NatToString(amount);
    forall mk
      ensures KeyRows(SetBudget(settings, c, amount), BudgetKey(mk)) <= 1
    {
      KeysOneToOne(mk, own);
      if mk == own {
        UpsertKeyRows(settings, key, v);
      } else {
        UpsertOtherKey(settings, key, v, BudgetKey(mk));
      }
    }
    forall item
      ensures KeyRows(SetBudget(settings, c, amount), FixedKey(item)) <= 1
    {
      KeyKindsDisjoint(item, own, own);
      UpsertOtherKey(settings, key, v, FixedKey(item));
    }
  }
}
