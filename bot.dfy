/**
 * `DiscordBotService.handle_message` (services.py:193-230): which of the
 * five parsers claims a chat message, and what the sheet service does with
 * it. The lemmas at the end follow a message from its text to the report a
 * later query shows.
 */
module Bot {
  import opened Wrappers
  import opened Text
  import opened Keys
  import opened Tables
  import opened Ledger
  import opened Parsers
  import opened Sheets

  /** The operation a chat message asks for. */
  datatype Command =
    | SetLimit(amount: nat)
    | FixedCost(item: string, amount: nat)
    | Income(item: string, amount: nat)
    | Query(target: Option<(nat, nat)>)
    | Expense(item: string, amount: nat)
    | NoCommand

  /**
   * The parsers in `handle_message`'s order, the first that answers winning.
   * A budget limit of zero is falsy in Python and falls through, so a
   * message asks for nothing exactly when no parser answers it or it is
   * `預算 0`.
   */
  function Dispatch(text: string): (r: Command)
    ensures r.NoCommand? <==> ParsersAnswering(text) == 0 || ParseBudgetLimit(text) == Some(0)
  {
    AtMostOneParserAnswers(text);
    var limit := ParseBudgetLimit(text);
    if limit.Some? && limit.value != 0 then SetLimit(limit.value)
    else if ParseFixedExpense(text).Some? then
      FixedCost(ParseFixedExpense(text).value.0, ParseFixedExpense(text).value.1)
    else if ParseIncome(text).Some? then
      Income(ParseIncome(text).value.0, ParseIncome(text).value.1)
    else
      match ParseBudgetQuery(text)
      case MonthQuery(y, m) => Query(Some((y, m)))
      case CurrentMonth => Query(None)
      case NotAQuery =>
        if ParseExpenseMessage(text).Some? then
          Expense(ParseExpenseMessage(text).value.0, ParseExpenseMessage(text).value.1)
        else NoCommand
  }

  /**
   * The priority order never decides anything: since at most one parser
   * answers a message, the command is the answer of whichever parser
   * answers, and there is none exactly when no parser answers or the budget
   * limit is zero.
   */
  lemma {:induction false} DispatchByParser(text: string)
    ensures ParseBudgetLimit(text).Some? ==>
      Dispatch(text) == if ParseBudgetLimit(text).value == 0 then NoCommand else SetLimit(ParseBudgetLimit(text).value)
    ensures ParseFixedExpense(text).Some? ==>
      Dispatch(text) == FixedCost(ParseFixedExpense(text).value.0, ParseFixedExpense(text).value.1)
    ensures ParseIncome(text).Some? ==>
      Dispatch(text) == Income(ParseIncome(text).value.0, ParseIncome(text).value.1)
    ensures ParseBudgetQuery(text).MonthQuery? ==>
      Dispatch(text) == Query(Some((ParseBudgetQuery(text).year, ParseBudgetQuery(text).month)))
    ensures ParseBudgetQuery(text).CurrentMonth? ==> Dispatch(text) == Query(None)
    ensures ParseExpenseMessage(text).Some? ==>
      Dispatch(text) == Expense(ParseExpenseMessage(text).value.0, ParseExpenseMessage(text).value.1)
    ensures ParsersAnswering(text) == 0 ==> Dispatch(text) == NoCommand
  {
    AtMostOneParserAnswers(text);
  }

  /**
   * What a command does to the two worksheets and what it answers, given
   * whether the sheet service is connected.
   */
  function Perform(cmd: Command, ready: bool, now: Clock, settings: seq<Row>, expenses: seq<Row>)
    : (r: (seq<Row>, seq<Row>, Reply))
    requires !cmd.NoCommand?
    ensures !ready ==> r == (settings, expenses, Unavailable)
    ensures r.0 == settings || r.1 == expenses
    ensures cmd.Query? ==> r.0 == settings && r.1 == expenses && (r.2.BudgetReport? || r.2.QueryFailed? || !ready)
    ensures ready && !cmd.Query? ==> Confirms(r.2)
  {
    if !ready then (settings, expenses, Unavailable)
    else
      match cmd
      case SetLimit(a) =>
        var found := FindKey(settings, BudgetKey(MonthKey(now.year, now.month))).Some?;
        (SetBudget(settings, now, a), expenses, if found then BudgetUpdated(now.month, a) else BudgetSet(now.month, a))
      case FixedCost(item, a) =>
        var found := FindKey(settings, FixedKey(item)).Some?;
        (SetFixed(settings, item, a), expenses, if found then FixedUpdated(item, a) else FixedAdded(item, a))
      case Income(item, a) =>
        (settings + [IncomeRow(now, item, a)], expenses, IncomeRecorded(item, a, MonthKey(now.year, now.month)))
      case Query(target) =>
        var (year, month) := TargetMonth(now, target);
        (settings, expenses, Answer(Summarize(settings, expenses, year, month)))
      case Expense(item, a) =>
        (settings, expenses + [ExpenseRow(now, item, a)], ExpenseRecorded(item, a))
  }

  class BotService {
    const sheets: SheetService

    constructor (sheets: SheetService)
      ensures this.sheets == sheets
    {
      this.sheets := sheets;
    }

    /**
     * `handle_message`: hand the message to the operation its parser names,
     * or answer nothing (and touch nothing) when no parser claims it.
     */
    method HandleMessage(text: string, canConnect: bool, now: Clock) returns (reply: Option<Reply>)
      modifies sheets
      ensures Dispatch(text).NoCommand? ==> reply.None? && unchanged(sheets)
      ensures !Dispatch(text).NoCommand? ==>
        sheets.connected == (old(sheets.connected) || canConnect) && reply.Some? &&
        (sheets.settings, sheets.expenses, reply.value) ==
          Perform(Dispatch(text), sheets.connected, now, old(sheets.settings), old(sheets.expenses))
      ensures old(KeyedOnce(sheets.settings)) ==> KeyedOnce(sheets.settings)
    {
      reply := Execute(Dispatch(text), canConnect, now);
    }

    /** The branch of `handle_message` that runs the operation `cmd`. */
    method Execute(cmd: Command, canConnect: bool, now: Clock) returns (reply: Option<Reply>)
      modifies sheets
      ensures cmd.NoCommand? ==> reply.None? && unchanged(sheets)
      ensures !cmd.NoCommand? ==>
        sheets.connected == (old(sheets.connected) || canConnect) && reply.Some? &&
        (sheets.settings, sheets.expenses, reply.value) ==
          Perform(cmd, sheets.connected, now, old(sheets.settings), old(sheets.expenses))
      ensures old(KeyedOnce(sheets.settings)) ==> KeyedOnce(sheets.settings)
    {
      match cmd
      case SetLimit(amount) =>
        var r := sheets.SetBudgetLimit(canConnect, now, amount);
        reply := Some(r);
      case FixedCost(item, amount) =>
        var r := sheets.AddFixedExpense(canConnect, item, amount);
        reply := Some(r);
      case Income(item, amount) =>
        var r := sheets.AddIncome(canConnect, now, item, amount);
        reply := Some(r);
      case Query(target) =>
        var r := sheets.GetRemainingBudget(canConnect, now, target);
        reply := Some(r);
      case Expense(item, amount) =>
        var r := sheets.AddExpense(canConnect, now, item, amount);
        reply := Some(r);
      case NoCommand =>
        reply := None;
    }
  }

  // ---------------------------------------------------------------------
  // From a message to the report

  /** The item conditions under which a command written back as text reads the same. */
  predicate PlainItem(item: string) {
    item != [] && NoNewline(item) && !IsSpace(item[0]) && !IsSpace(item[|item| - 1])
  }

  /**
   * `支出 <item> <n>` on a connected service is recorded and confirmed, and
   * this month's report then shows `n` more daily spending, `n` less to
   * spend and `n` less saved. On an empty Expenses sheet the row becomes
   * the header and the report stays as it was.
   */
  lemma {:induction false} ExpenseMessageSpends(settings: seq<Row>, expenses: seq<Row>, now: Clock, item: string, n: nat)
    requires PlainItem(item)
    ensures var text := ExpenseKeyword + " " + item + " " + NatToString(n);
      Dispatch(text) == Expense(item, n) &&
      var (s2, e2, r) := Perform(Dispatch(text), true, now, settings, expenses);
      r == ExpenseRecorded(item, n) &&
      Summarize(s2, e2, now.year, now.month) ==
        if expenses == [] then Summarize(settings, expenses, now.year, now.month)
        else
          match Summarize(settings, expenses, now.year, now.month)
          case Err(f) => Err(f)
          case Ok(s) => Ok(Spend(s, n))
  {
    var text := ExpenseKeyword + " " + item + " " + NatToString(n);
    assert Dispatch(text) == Expense(item, n) by {
      ParsersRoundTrip(item, n);
      DispatchByParser(text);
    }
    ExpenseCommandSpends(Dispatch(text), settings, expenses, now, item, n);
  }

  /** The effect of the expense command `ExpenseMessageSpends` is about. */
  lemma {:induction false} ExpenseCommandSpends(cmd: Command, settings: seq<Row>, expenses: seq<Row>, now: Clock,
                                                item: string, n: nat)
    requires cmd == Expense(item, n)
    ensures var (s2, e2, r) := Perform(cmd, true, now, settings, expenses);
      r == ExpenseRecorded(item, n) &&
      Summarize(s2, e2, now.year, now.month) ==
        if expenses == [] then Summarize(settings, expenses, now.year, now.month)
        else
          match Summarize(settings, expenses, now.year, now.month)
          case Err(f) => Err(f)
          case Ok(s) => Ok(Spend(s, n))
  {
    RecordExpenseEffect(settings, expenses, now, item, n, now.year, now.month);
  }

  /**
   * `收入 <item> <n>` is recorded and confirmed with this month's key. This
   * month's report then counts `n` under the name after the item's last
   * colon: as salary, raising what is saved, or, when that name contains
   * 獎金, as a listed bonus that never reaches what is saved or spendable.
   */
  lemma {:induction false} IncomeMessageCounted(settings: seq<Row>, expenses: seq<Row>, now: Clock, item: string, n: nat)
    requires PlainItem(item)
    ensures var text := IncomeKeyword + " " + item + " " + NatToString(n);
      Dispatch(text) == Income(item, n) &&
      var (s2, e2, r) := Perform(Dispatch(text), true, now, settings, expenses);
      r == IncomeRecorded(item, n, MonthKey(now.year, now.month)) && e2 == expenses &&
      Summarize(s2, e2, now.year, now.month) ==
        match Summarize(settings, expenses, now.year, now.month)
        case Err(f) => Err(f)
        case Ok(s) => Ok(Credit(s, LastSegment(item, ':'), n))
  {
    var text := IncomeKeyword + " " + item + " " + NatToString(n);
    assert Dispatch(text) == Income(item, n) by {
      ParsersRoundTrip(item, n);
      DispatchByParser(text);
    }
    IncomeCommandCounted(Dispatch(text), settings, expenses, now, item, n);
  }

  /** The effect of the income command `IncomeMessageCounted` is about. */
  lemma {:induction false} IncomeCommandCounted(cmd: Command, settings: seq<Row>, expenses: seq<Row>, now: Clock,
                                                item: string, n: nat)
    requires cmd == Income(item, n)
    ensures var (s2, e2, r) := Perform(cmd, true, now, settings, expenses);
      r == IncomeRecorded(item, n, MonthKey(now.year, now.month)) && e2 == expenses &&
      Summarize(s2, e2, now.year, now.month) ==
        match Summarize(settings, expenses, now.year, now.month)
        case Err(f) => Err(f)
        case Ok(s) => Ok(Credit(s, LastSegment(item, ':'), n))
  {
    IncomeSummaryEffect(settings, expenses, now, item, n);
  }

  /**
   * `預算 <n>` with `n > 0` makes this month's report show the limit `n`,
   * everything else unchanged; `預算 0` is no command at all.
   */
  lemma {:induction false} BudgetMessageSets(settings: seq<Row>, expenses: seq<Row>, now: Clock, n: nat)
    requires KeyedOnce(settings) && ScanSettings(settings, MonthKey(now.year, now.month)).Ok?
    ensures var text := BudgetKeyword + " " + NatToString(n);
      if n == 0 then Dispatch(text) == NoCommand
      else
        Dispatch(text) == SetLimit(n) &&
        var (s2, e2, r) := Perform(Dispatch(text), true, now, settings, expenses);
        e2 == expenses &&
        ScanSettings(s2, MonthKey(now.year, now.month)) ==
          Ok(ScanSettings(settings, MonthKey(now.year, now.month)).value.(budgetLimit := n))
  {
    var text := BudgetKeyword + " " + NatToString(n);
    assert Dispatch(text) == if n == 0 then NoCommand else SetLimit(n) by {
      LimitRoundTrip(n);
      DispatchByParser(text);
    }
    if n != 0 {
      SetBudgetEffect(settings, now, n);
    }
  }

  /**
   * `固定 <item> <n>` for an item not yet filed adds it, with its amount, to
   * the fixed costs of every month's report.
   */
  lemma {:induction false} FixedMessageAdds(settings: seq<Row>, expenses: seq<Row>, now: Clock, item: string, n: nat,
                                            monthKey: string)
    requires PlainItem(item) && FindKey(settings, FixedKey(item)).None?
    ensures var text := FixedKeyword + " " + item + " " + NatToString(n);
      Dispatch(text) == FixedCost(item, n) &&
      var (s2, e2, r) := Perform(Dispatch(text), true, now, settings, expenses);
      r == FixedAdded(item, n) && e2 == expenses &&
      ScanSettings(s2, monthKey) ==
        match ScanSettings(settings, monthKey)
        case Err(f) => Err(f)
        case Ok(t) => Ok(CountFixed(t, FixedName(FixedKey(item)), n))
  {
    var text := FixedKeyword + " " + item + " " + NatToString(n);
    assert Dispatch(text) == FixedCost(item, n) by {
      ParsersRoundTrip(item, n);
      DispatchByParser(text);
    }
    AddFixedEffect(settings, item, n, monthKey);
  }

  /**
   * `統計` reports the clock's month and `統計 <yyyy>/<m>` the named one,
   * and neither changes a worksheet.
   */
  lemma {:induction false} QueryMessagesReport(settings: seq<Row>, expenses: seq<Row>, now: Clock, year: nat, month: nat)
    requires 1000 <= year < 10000 && month < 100
    ensures Dispatch(QueryKeyword) == Query(None) &&
      Perform(Dispatch(QueryKeyword), true, now, settings, expenses) ==
      (settings, expenses, Answer(Summarize(settings, expenses, now.year, now.month)))
    ensures var text := QueryKeyword + " " + NatToString(year) + "/" + NatToString(month);
      Dispatch(text) == Query(Some((year, month))) &&
      Perform(Dispatch(text), true, now, settings, expenses) ==
      (settings, expenses, Answer(Summarize(settings, expenses, year, month)))
  {
    assert Dispatch(QueryKeyword) == Query(None) by {
      DispatchByParser(QueryKeyword);
    }
    var text := QueryKeyword + " " + NatToString(year) + "/" + NatToString(month);
    assert Dispatch(text) == Query(Some((year, month))) by {
      QueryRoundTrip(year, month);
      DispatchByParser(text);
    }
  }
}
