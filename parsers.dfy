/**
 * The five chat-command parsers of utils.py. Each is one anchored Python
 * regular expression; the model states, for each, the set of strings the
 * expression matches as an explicit decomposition of the text (a `...Match`
 * predicate), and proves that the parser answers exactly for those strings,
 * with the groups of any such decomposition.
 *
 * Python's `$` matches at the very end or just before one final newline;
 * `.` matches anything but a newline; `\s` is `Text.IsSpace`; `\d` is taken
 * to be an ASCII digit.
 */
module Parsers {
  import opened Wrappers
  import opened Text

  const ExpenseKeyword: string := "支出"
  const IncomeKeyword: string := "收入"
  const FixedKeyword: string := "固定"
  const QueryKeyword: string := "統計"
  const BudgetKeyword: string := "預算"

  /** Where `$` can match: before a final newline if there is one, else at the end. */
  function Stop(text: string): (e: nat)
    ensures e <= |text|
    ensures e < |text| ==> e == |text| - 1 && text[e] == '\n'
  {
    if |text| > 0 && text[|text| - 1] == '\n' then |text| - 1 else |text|
  }

  // ---------------------------------------------------------------------
  // `^kw\s+(.+?)\s+(\d+)$` (expense, income, fixed cost)

  /** The text after the keyword, up to where `$` matches. */
  function Body(kw: string, text: string): string
    requires |kw| <= Stop(text)
  {
    text[|kw|..Stop(text)]
  }

  /**
   * One way of reading `body` as `\s+(.+?)\s+(\d+)`: the item group is
   * `body[i..j]` and the amount group is `body[k..]`.
   */
  predicate BodyMatch(body: string, i: int, j: int, k: int) {
    0 < i < j < k < |body|
    && AllSpace(body[..i])
    && NoNewline(body[i..j])
    && AllSpace(body[j..k])
    && AllDigits(body[k..])
  }

  /** One way of reading `text` as `^kw\s+(.+?)\s+(\d+)$`, the groups placed as in `BodyMatch`. */
  predicate ItemAmountMatch(kw: string, text: string, i: int, j: int, k: int) {
    |kw| <= Stop(text) && text[..|kw|] == kw && BodyMatch(Body(kw, text), i, j, k)
  }

  /** Whether `gap` can be read as `\s+(.+?)\s+`. */
  predicate GapOk(gap: string) {
    && |gap| >= 2
    && IsSpace(gap[0])
    && IsSpace(gap[|gap| - 1])
    && if Strip(gap) == [] then exists p | 1 <= p < |gap| - 1 :: gap[p] != '\n'
       else NoNewline(Strip(gap))
  }

  /** The answer when the amount is taken to start at `k`: a gap must precede it. */
  function SplitAt(body: string, k: nat): Option<(string, nat)>
    requires k <= |body| && AllDigits(body[k..])
  {
    if k < |body| && GapOk(body[..k]) then Some((Strip(body[..k]), DigitsValue(body[k..]))) else None
  }

  /** The computation on the body: peel the trailing digits, then check what lies before them. */
  function SplitBody(body: string): Option<(string, nat)> {
    var n := TrailingDigits(body);
    var k: nat := |body| - n;
    SplitAt(body, k)
  }

  /** A gap of whitespace only splits around any character other than a newline. */
  lemma {:induction false} BlankGapWitness(gap: string, p: int) returns (a: int, b: int)
    requires AllSpace(gap) && 1 <= p < |gap| - 1 && gap[p] != '\n'
    ensures 1 <= a < b < |gap|
    ensures AllSpace(gap[..a]) && NoNewline(gap[a..b]) && AllSpace(gap[b..])
    ensures Strip(gap[a..b]) == Strip(gap)
  {
    a, b := p, p + 1;
    assert gap[..p] + gap[p..p + 1] + gap[p + 1..] == gap;
    StripPadded(gap[..p], gap[p..p + 1], gap[p + 1..]);
  }

  /** A gap with something left after stripping splits around what is left. */
  lemma {:induction false} FilledGapWitness(gap: string) returns (a: int, b: int)
    requires |gap| >= 2 && IsSpace(gap[0]) && IsSpace(gap[|gap| - 1])
    requires Strip(gap) != [] && NoNewline(Strip(gap))
    ensures 1 <= a < b < |gap|
    ensures AllSpace(gap[..a]) && NoNewline(gap[a..b]) && AllSpace(gap[b..])
    ensures Strip(gap[a..b]) == Strip(gap)
  {
    var core := Strip(gap);
    var s := StripSplit(gap);
    a, b := s, s + |core|;
    assert gap[a..b] == core;
    assert 1 <= a by {
      assert gap[a] == core[0];
    }
    assert b < |gap| by {
      assert gap[b - 1] == core[|core| - 1];
    }
    StripTrimmed(core);
  }

  /** A gap splits into leading whitespace, an item and trailing whitespace. */
  lemma {:induction false} GapWitness(gap: string) returns (a: int, b: int)
    requires GapOk(gap)
    ensures 1 <= a < b < |gap|
    ensures AllSpace(gap[..a]) && NoNewline(gap[a..b]) && AllSpace(gap[b..])
    ensures Strip(gap[a..b]) == Strip(gap)
  {
    if Strip(gap) == [] {
      var s := StripSplit(gap);
      assert AllSpace(gap) by {
        assert forall q | s <= q < |gap| :: gap[q] == gap[s..][q - s];
      }
      var p :| 1 <= p < |gap| - 1 && gap[p] != '\n';
      a, b := BlankGapWitness(gap, p);
    } else {
      a, b := FilledGapWitness(gap);
    }
  }

  /** In a match the amount group is the whole run of trailing digits: whitespace precedes it. */
  lemma {:induction false} MatchDigits(body: string, i: int, j: int, k: int)
    requires BodyMatch(body, i, j, k)
    ensures TrailingDigits(body) == |body| - k
  {
    assert IsSpace(body[j..k][k - 1 - j]);
    assert forall q | k <= q < |body| :: body[q] == body[k..][q - k];
    TrailingDigitsIs(body, |body| - k);
  }

  /** In a match what precedes the amount is a gap, and strips to the stripped item. */
  lemma {:induction false} MatchGap(body: string, i: int, j: int, k: int)
    requires BodyMatch(body, i, j, k)
    ensures GapOk(body[..k]) && Strip(body[..k]) == Strip(body[i..j])
  {
    var w1, item, w2 := body[..i], body[i..j], body[j..k];
    var gap := body[..k];
    assert gap == w1 + item + w2;
    StripPadded(w1, item, w2);
    assert IsSpace(gap[0]) by { assert gap[0] == w1[0]; }
    assert IsSpace(gap[|gap| - 1]) by { assert gap[|gap| - 1] == w2[|w2| - 1]; }
    if Strip(item) == [] {
      assert gap[i] == item[0];
    } else {
      StripNoNewline(item);
    }
  }

  /** The computation's answer once the trailing digits start at `k` behind a gap. */
  lemma {:induction false} SplitBodyIs(body: string, k: nat)
    requires k < |body| && |body| - TrailingDigits(body) == k && GapOk(body[..k])
    ensures SplitBody(body) == Some((Strip(body[..k]), DigitsValue(body[k..])))
  {
    var at := SplitAt(body, k);
    assert at == Some((Strip(body[..k]), DigitsValue(body[k..])));
    assert SplitBody(body) == at;
  }

  lemma {:induction false} MatchGivesSplit(body: string, i: int, j: int, k: int)
    requires BodyMatch(body, i, j, k)
    ensures SplitBody(body) == Some((Strip(body[i..j]), DigitsValue(body[k..])))
  {
    MatchDigits(body, i, j, k);
    MatchGap(body, i, j, k);
    SplitBodyIs(body, k);
  }

  lemma {:induction false} SplitGivesMatch(body: string) returns (i: int, j: int, k: int)
    requires SplitBody(body).Some?
    ensures BodyMatch(body, i, j, k)
  {
    k := |body| - TrailingDigits(body);
    var gap := body[..k];
    var a, b := GapWitness(gap);
    i, j := a, b;
    assert body[..i] == gap[..a];
    assert body[i..j] == gap[a..b];
    assert body[j..k] == gap[b..];
  }

  /** The computation answers exactly for the bodies the expression matches, with their groups. */
  lemma {:induction false} SplitBodyAgrees(body: string)
    ensures SplitBody(body).Some? <==> exists i, j, k :: BodyMatch(body, i, j, k)
    ensures forall i, j, k {:trigger BodyMatch(body, i, j, k)} | BodyMatch(body, i, j, k) ::
      SplitBody(body) == Some((Strip(body[i..j]), DigitsValue(body[k..])))
  {
    if SplitBody(body).Some? {
      var i, j, k := SplitGivesMatch(body);
    }
    forall i, j, k | BodyMatch(body, i, j, k)
      ensures SplitBody(body) == Some((Strip(body[i..j]), DigitsValue(body[k..])))
    {
      MatchGivesSplit(body, i, j, k);
    }
  }

  /** Lifts `SplitBodyAgrees` from the body to the whole text. */
  lemma {:induction false} ItemAmountAgrees(kw: string, text: string)
    requires |kw| <= Stop(text) && text[..|kw|] == kw
    ensures SplitBody(Body(kw, text)).Some? <==> exists i, j, k :: ItemAmountMatch(kw, text, i, j, k)
    ensures forall i, j, k {:trigger ItemAmountMatch(kw, text, i, j, k)} | ItemAmountMatch(kw, text, i, j, k) ::
      SplitBody(Body(kw, text)) == Some((Strip(Body(kw, text)[i..j]), DigitsValue(Body(kw, text)[k..])))
  {
    var body := Body(kw, text);
    SplitBodyAgrees(body);
    if SplitBody(body).Some? {
      var i, j, k := SplitGivesMatch(body);
      assert ItemAmountMatch(kw, text, i, j, k);
    }
  }

  /**
   * `re.match(kw + r"\s+(.+?)\s+(\d+)$", text)` followed by
   * `(group(1).strip(), int(group(2)))`, or `None` when it does not match.
   * Every way the expression can match gives the same pair, so the pair does
   * not depend on which one the backtracking engine settles on.
   */
  function ParseItemAmount(kw: string, text: string): (r: Option<(string, nat)>)
    ensures r.Some? <==> exists i, j, k :: ItemAmountMatch(kw, text, i, j, k)
    ensures forall i, j, k {:trigger ItemAmountMatch(kw, text, i, j, k)} | ItemAmountMatch(kw, text, i, j, k) ::
      r == Some((Strip(Body(kw, text)[i..j]), DigitsValue(Body(kw, text)[k..])))
    ensures r.Some? ==> StartsWith(text, kw)
  {
    if |kw| <= Stop(text) && text[..|kw|] == kw then
      ItemAmountAgrees(kw, text);
      SplitBody(Body(kw, text))
    else None
  }

  /** `parse_expense_message`: `支出 <item> <amount>`. */
  function ParseExpenseMessage(text: string): (r: Option<(string, nat)>)
    ensures r.Some? <==> exists i, j, k :: ItemAmountMatch(ExpenseKeyword, text, i, j, k)
    ensures forall i, j, k {:trigger ItemAmountMatch(ExpenseKeyword, text, i, j, k)} | ItemAmountMatch(ExpenseKeyword, text, i, j, k) ::
      r == Some((Strip(Body(ExpenseKeyword, text)[i..j]), DigitsValue(Body(ExpenseKeyword, text)[k..])))
  {
    ParseItemAmount(ExpenseKeyword, text)
  }

  /** `parse_income`: `收入 <item> <amount>`. */
  function ParseIncome(text: string): (r: Option<(string, nat)>)
    ensures r.Some? <==> exists i, j, k :: ItemAmountMatch(IncomeKeyword, text, i, j, k)
    ensures forall i, j, k {:trigger ItemAmountMatch(IncomeKeyword, text, i, j, k)} | ItemAmountMatch(IncomeKeyword, text, i, j, k) ::
      r == Some((Strip(Body(IncomeKeyword, text)[i..j]), DigitsValue(Body(IncomeKeyword, text)[k..])))
  {
    ParseItemAmount(IncomeKeyword, text)
  }

  /** `parse_fixed_expense`: `固定 <item> <amount>`. */
  function ParseFixedExpense(text: string): (r: Option<(string, nat)>)
    ensures r.Some? <==> exists i, j, k :: ItemAmountMatch(FixedKeyword, text, i, j, k)
    ensures forall i, j, k {:trigger ItemAmountMatch(FixedKeyword, text, i, j, k)} | ItemAmountMatch(FixedKeyword, text, i, j, k) ::
      r == Some((Strip(Body(FixedKeyword, text)[i..j]), DigitsValue(Body(FixedKeyword, text)[k..])))
  {
    ParseItemAmount(FixedKeyword, text)
  }

  /** The body `" " + item + " " + str(n)` splits back into the item and the amount. */
  lemma {:induction false} BodyRoundTrip(item: string, n: nat)
    requires item != [] && NoNewline(item)
    requires !IsSpace(item[0]) && !IsSpace(item[|item| - 1])
    ensures SplitBody(" " + item + " " + NatToString(n)) == Some((item, n))
  {
    var digits := NatToString(n);
    var body := " " + item + " " + digits;
    var i, j := 1, 1 + |item|;
    var k := j + 1;
    assert body[..i] == " ";
    assert body[i..j] == item;
    assert body[j..k] == " ";
    assert body[k..] == digits;
    MatchGivesSplit(body, i, j, k);
    StripTrimmed(item);
  }

  /**
   * Writing a command back as `kw + " " + item + " " + str(n)` and parsing it
   * gives the item and the amount back, for an item without a newline that
   * neither starts nor ends with whitespace.
   */
  lemma {:induction false} ItemAmountRoundTrip(kw: string, item: string, n: nat)
    requires item != [] && NoNewline(item)
    requires !IsSpace(item[0]) && !IsSpace(item[|item| - 1])
    ensures ParseItemAmount(kw, kw + " " + item + " " + NatToString(n)) == Some((item, n))
  {
    var digits := NatToString(n);
    var body := " " + item + " " + digits;
    var text := kw + " " + item + " " + digits;
    assert text == kw + body;
    assert text[|text| - 1] == digits[|digits| - 1];
    assert text[..|kw|] == kw;
    assert Body(kw, text) == body;
    BodyRoundTrip(item, n);
  }

  /** The round trip for the three item-and-amount commands. */
  lemma {:induction false} ParsersRoundTrip(item: string, n: nat)
    requires item != [] && NoNewline(item)
    requires !IsSpace(item[0]) && !IsSpace(item[|item| - 1])
    ensures ParseExpenseMessage(ExpenseKeyword + " " + item + " " + NatToString(n)) == Some((item, n))
    ensures ParseIncome(IncomeKeyword + " " + item + " " + NatToString(n)) == Some((item, n))
    ensures ParseFixedExpense(FixedKeyword + " " + item + " " + NatToString(n)) == Some((item, n))
  {
    ItemAmountRoundTrip(ExpenseKeyword, item, n);
    ItemAmountRoundTrip(IncomeKeyword, item, n);
    ItemAmountRoundTrip(FixedKeyword, item, n);
  }

  /** `$` also matches before one final newline, so appending one changes no item-and-amount answer. */
  lemma {:induction false} ItemAmountFinalNewline(kw: string, text: string)
    requires text == [] || text[|text| - 1] != '\n'
    ensures ParseItemAmount(kw, text + "\n") == ParseItemAmount(kw, text)
  {
    var t := text + "\n";
    assert Stop(t) == |text| == Stop(text);
    if |kw| <= |text| {
      assert t[..|kw|] == text[..|kw|];
      assert Body(kw, t) == Body(kw, text);
      if text[..|kw|] == kw {
        assert ParseItemAmount(kw, t) == SplitBody(Body(kw, t));
        assert ParseItemAmount(kw, text) == SplitBody(Body(kw, text));
      }
    }
  }

  // ---------------------------------------------------------------------
  // `^預算\s+(\d+)$` (budget ceiling)

  /** One way of reading `text` as `^預算\s+(\d+)$`, the group being `Body(BudgetKeyword, text)[k..]`. */
  predicate LimitMatch(text: string, k: int) {
    && |BudgetKeyword| <= Stop(text)
    && text[..|BudgetKeyword|] == BudgetKeyword
    && 0 < k < |Body(BudgetKeyword, text)|
    && AllSpace(Body(BudgetKeyword, text)[..k])
    && AllDigits(Body(BudgetKeyword, text)[k..])
  }

  /** The computation on the body: peel the trailing digits, then check that only whitespace precedes them. */
  function SplitLimitBody(body: string): Option<nat> {
    var k := |body| - TrailingDigits(body);
    if 0 < k < |body| && AllSpace(body[..k]) then Some(DigitsValue(body[k..])) else None
  }

  lemma {:induction false} LimitAgrees(text: string)
    requires |BudgetKeyword| <= Stop(text) && text[..|BudgetKeyword|] == BudgetKeyword
    ensures SplitLimitBody(Body(BudgetKeyword, text)).Some? <==> exists k :: LimitMatch(text, k)
    ensures forall k {:trigger LimitMatch(text, k)} | LimitMatch(text, k) ::
      SplitLimitBody(Body(BudgetKeyword, text)) == Some(DigitsValue(Body(BudgetKeyword, text)[k..]))
  {
    var body := Body(BudgetKeyword, text);
    if SplitLimitBody(body).Some? {
      assert LimitMatch(text, |body| - TrailingDigits(body));
    }
    forall k | LimitMatch(text, k) ensures SplitLimitBody(body) == Some(DigitsValue(body[k..])) {
      assert IsSpace(body[..k][k - 1]);
      assert forall q | k <= q < |body| :: body[q] == body[k..][q - k];
      TrailingDigitsIs(body, |body| - k);
    }
  }

  /** `parse_budget_limit`: `int(digits)` for `預算 <digits>` (zero included), else `None`. */
  function ParseBudgetLimit(text: string): (r: Option<nat>)
    ensures r.Some? <==> exists k :: LimitMatch(text, k)
    ensures forall k {:trigger LimitMatch(text, k)} | LimitMatch(text, k) ::
      r == Some(DigitsValue(Body(BudgetKeyword, text)[k..]))
    ensures r.Some? ==> StartsWith(text, BudgetKeyword)
  {
    if |BudgetKeyword| <= Stop(text) && text[..|BudgetKeyword|] == BudgetKeyword then
      LimitAgrees(text);
      SplitLimitBody(Body(BudgetKeyword, text))
    else None
  }

  /** `預算 <n>` written with `str(n)` parses back to `n`. */
  lemma {:induction false} LimitRoundTrip(n: nat)
    ensures ParseBudgetLimit(BudgetKeyword + " " + NatToString(n)) == Some(n)
  {
    var digits := NatToString(n);
    var text := BudgetKeyword + " " + digits;
    assert text[|text| - 1] == digits[|digits| - 1];
    assert text[..|BudgetKeyword|] == BudgetKeyword;
    assert Body(BudgetKeyword, text) == " " + digits;
    assert (" " + digits)[..1] == " " && (" " + digits)[1..] == digits;
    assert LimitMatch(text, 1);
  }

  // ---------------------------------------------------------------------
  // `^統計\s+(\d{4})/(\d{1,2})$` or exactly `統計` (monthly summary)

  /**
   * The three answers of `parse_budget_query`: a `(year, month)` tuple, `None`
   * (the current month) and `False` (not a query).
   */
  datatype QueryResult = MonthQuery(year: nat, month: nat) | CurrentMonth | NotAQuery

  /** One way of reading `text` as `^統計\s+(\d{4})/(\d{1,2})$`, the year starting at `k`. */
  predicate QueryMatch(text: string, k: int) {
    |QueryKeyword| < k && k + 5 < Stop(text) <= k + 7
    && text[..|QueryKeyword|] == QueryKeyword
    && AllSpace(text[|QueryKeyword|..k])
    && AllDigits(text[k..k + 4])
    && text[k + 4] == '/'
    && AllDigits(text[k + 5..Stop(text)])
  }

  /**
   * `parse_budget_query`: `(int(year), int(month))` for `統計 <yyyy>/<m>` or
   * `統計 <yyyy>/<mm>` (the month is not range-checked), `None` for exactly
   * `統計`, `False` for everything else.
   */
  function ParseBudgetQuery(text: string): (r: QueryResult)
    ensures r.MonthQuery? <==> exists k :: QueryMatch(text, k)
    ensures forall k {:trigger QueryMatch(text, k)} | QueryMatch(text, k) ::
      r == MonthQuery(DigitsValue(text[k..k + 4]), DigitsValue(text[k + 5..Stop(text)]))
    ensures r.CurrentMonth? <==> text == QueryKeyword
    ensures r.MonthQuery? ==> StartsWith(text, QueryKeyword)
  {
    var e := Stop(text);
    if QueryMatch(text, e - 7) then MonthQuery(DigitsValue(text[e - 7..e - 3]), DigitsValue(text[e - 2..e]))
    else if QueryMatch(text, e - 6) then MonthQuery(DigitsValue(text[e - 6..e - 2]), DigitsValue(text[e - 1..e]))
    else if text == QueryKeyword then CurrentMonth
    else NotAQuery
  }

  /** `統計 <yyyy>/<m>` and `統計 <yyyy>/<mm>` read as the year and month their digits spell. */
  lemma {:induction false} QueryOfDigits(y: string, m: string)
    requires |y| == 4 && AllDigits(y) && 1 <= |m| <= 2 && AllDigits(m)
    ensures ParseBudgetQuery(QueryKeyword + " " + y + "/" + m) == MonthQuery(DigitsValue(y), DigitsValue(m))
  {
    var text := QueryKeyword + " " + y + "/" + m;
    assert text[|text| - 1] == m[|m| - 1];
    assert text[..2] == QueryKeyword && text[2..3] == " ";
    assert Stop(text) == |text|;
    assert text[3..7] == y && text[7] == '/' && text[8..|text|] == m;
    assert QueryMatch(text, 3);
  }

  /** `統計 <yyyy>/<m>` written with `str` parses back to its year and month, for a four-digit year. */
  lemma {:induction false} QueryRoundTrip(year: nat, month: nat)
    requires 1000 <= year < 10000 && month < 100
    ensures ParseBudgetQuery(QueryKeyword + " " + NatToString(year) + "/" + NatToString(month)) == MonthQuery(year, month)
  {
    NatToStringWidth(year);
    NatToStringWidth(month);
    QueryOfDigits(NatToString(year), NatToString(month));
  }

  /** How many digits `str(n)` has, for the widths a query uses. */
  lemma {:induction false} NatToStringWidth(n: nat)
    ensures n < 10 ==> |NatToString(n)| == 1
    ensures 10 <= n < 100 ==> |NatToString(n)| == 2
    ensures 100 <= n < 1000 ==> |NatToString(n)| == 3
    ensures 1000 <= n < 10000 ==> |NatToString(n)| == 4
  {
    if n >= 10 {
      NatToStringWidth(n / 10);
    }
  }

  /** The budget-limit pattern also ignores one appended newline. */
  lemma {:induction false} LimitFinalNewline(text: string)
    requires text == [] || text[|text| - 1] != '\n'
    ensures ParseBudgetLimit(text + "\n") == ParseBudgetLimit(text)
  {
    var t := text + "\n";
    assert Stop(t) == |text| == Stop(text);
    if |BudgetKeyword| <= |text| {
      assert t[..|BudgetKeyword|] == text[..|BudgetKeyword|];
      assert Body(BudgetKeyword, t) == Body(BudgetKeyword, text);
    }
  }

  /**
   * The month pattern ignores one appended newline, but the bare keyword is
   * compared as a whole string: `統計` followed by a newline is no query.
   */
  lemma {:induction false} QueryFinalNewline(text: string)
    requires text == [] || text[|text| - 1] != '\n'
    ensures ParseBudgetQuery(text + "\n") == if text == QueryKeyword then NotAQuery else ParseBudgetQuery(text)
  {
    var t := text + "\n";
    var e: int := Stop(t);
    assert e == |text| == Stop(text);
    assert t != QueryKeyword by {
      assert t[|t| - 1] == '\n';
    }
    QueryMatchNewline(text, e - 7);
    QueryMatchNewline(text, e - 6);
    if e >= 7 {
      assert t[e - 7..e - 3] == text[e - 7..e - 3] && t[e - 2..e] == text[e - 2..e];
    }
    if e >= 6 {
      assert t[e - 6..e - 2] == text[e - 6..e - 2] && t[e - 1..e] == text[e - 1..e];
    }
  }

  /** Whether the month pattern matches with the year at `k` does not see one appended newline. */
  lemma {:induction false} QueryMatchNewline(text: string, k: int)
    requires text == [] || text[|text| - 1] != '\n'
    ensures QueryMatch(text + "\n", k) == QueryMatch(text, k)
  {
    var t := text + "\n";
    var e := Stop(t);
    assert e == |text| == Stop(text);
    if |QueryKeyword| < k && k + 5 < e {
      assert t[..|QueryKeyword|] == text[..|QueryKeyword|];
      assert t[|QueryKeyword|..k] == text[|QueryKeyword|..k];
      assert t[k..k + 4] == text[k..k + 4];
      assert t[k + 4] == text[k + 4];
      assert t[k + 5..e] == text[k + 5..e];
    }
  }

  /**
   * `$` matches before one final newline, so appending one changes no
   * answer of the item-and-amount parsers or of the budget-limit parser;
   * the query parser ignores it too, except after the bare keyword.
   */
  lemma {:induction false} FinalNewlineIgnored(text: string)
    requires text == [] || text[|text| - 1] != '\n'
    ensures ParseExpenseMessage(text + "\n") == ParseExpenseMessage(text)
    ensures ParseIncome(text + "\n") == ParseIncome(text)
    ensures ParseFixedExpense(text + "\n") == ParseFixedExpense(text)
    ensures ParseBudgetLimit(text + "\n") == ParseBudgetLimit(text)
    ensures ParseBudgetQuery(text + "\n") == if text == QueryKeyword then NotAQuery else ParseBudgetQuery(text)
  {
    ItemAmountFinalNewline(ExpenseKeyword, text);
    ItemAmountFinalNewline(IncomeKeyword, text);
    ItemAmountFinalNewline(FixedKeyword, text);
    LimitFinalNewline(text);
    QueryFinalNewline(text);
  }

  // ---------------------------------------------------------------------
  // How the parsers relate

  /** Each parser that answers has seen its own keyword at the start of the text. */
  lemma {:induction false} AnswerStartsWithKeyword(text: string)
    ensures ParseExpenseMessage(text).Some? ==> |text| > 0 && text[0] == ExpenseKeyword[0]
    ensures ParseIncome(text).Some? ==> |text| > 0 && text[0] == IncomeKeyword[0]
    ensures ParseFixedExpense(text).Some? ==> |text| > 0 && text[0] == FixedKeyword[0]
    ensures ParseBudgetLimit(text).Some? ==> |text| > 0 && text[0] == BudgetKeyword[0]
    ensures !ParseBudgetQuery(text).NotAQuery? ==> |text| > 0 && text[0] == QueryKeyword[0]
  {
    if |text| >= 2 {
      assert text[..2][0] == text[0];
    }
  }

  /** How many of the five parsers answer `text` (a query answers unless it says "not a query"). */
  function ParsersAnswering(text: string): nat {
    (if ParseBudgetLimit(text).Some? then 1 else 0)
    + (if ParseFixedExpense(text).Some? then 1 else 0)
    + (if ParseIncome(text).Some? then 1 else 0)
    + (if !ParseBudgetQuery(text).NotAQuery? then 1 else 0)
    + (if ParseExpenseMessage(text).Some? then 1 else 0)
  }

  /** The five keywords start with five different characters, so at most one parser answers. */
  lemma {:induction false} AtMostOneParserAnswers(text: string)
    ensures ParsersAnswering(text) <= 1
  {
    AnswerStartsWithKeyword(text);
  }

  // ---------------------------------------------------------------------
  // Worked examples

  /** The item may contain spaces and digits; the amount is the last run of digits. */
  lemma {:induction false} ExpenseWithSpacesInItem()
    ensures ParseExpenseMessage("支出 a 1 2") == Some(("a 1", 2))
  {
    var text := ExpenseKeyword + " " + "a 1" + " " + NatToString(2);
    assert text == "支出 a 1 2" by {
      assert NatToString(2) == "2";
    }
    assert ParseItemAmount(ExpenseKeyword, text) == Some(("a 1", 2)) by {
      ItemAmountRoundTrip(ExpenseKeyword, "a 1", 2);
    }
  }

  /** A blank item matches (`.` takes a space) and strips to the empty name. */
  lemma {:induction false} ExpenseWithBlankItem(text: string)
    requires text == "支出   5"
    ensures ParseExpenseMessage(text) == Some(("", 5))
  {
    assert text[..2] == ExpenseKeyword;
    var body := Body(ExpenseKeyword, text);
    assert body == "   5";
    assert BodyMatch(body, 1, 2, 3) by {
      assert body[..1] == " " && body[1..2] == " " && body[2..3] == " " && body[3..] == "5";
    }
    MatchGivesSplit(body, 1, 2, 3);
    assert Strip(body[1..2]) == [] by {
      assert body[1..2] == [] + body[1..2] + [];
      StripPadded([], body[1..2], []);
    }
    assert DigitsValue(body[3..]) == 5 by {
      assert body[3..] == "5" && "5"[..0] == [];
    }
  }

  /** A signed amount is not an amount. */
  lemma {:induction false} SignedAmountRejected(text: string)
    requires text == "支出 午餐 -5"
    ensures ParseExpenseMessage(text) == None
  {
    assert text[..2] == ExpenseKeyword;
    var body := Body(ExpenseKeyword, text);
    assert |body| == 6 && body[5] == '5' && body[4] == '-';
    TrailingDigitsIs(body, 1);
    assert body[..5][4] == '-';
  }

  /** A decimal amount is not an amount. */
  lemma {:induction false} DecimalAmountRejected(text: string)
    requires text == "支出 午餐 1.5"
    ensures ParseExpenseMessage(text) == None
  {
    assert text[..2] == ExpenseKeyword;
    var body := Body(ExpenseKeyword, text);
    assert |body| == 7 && body[6] == '5' && body[5] == '.';
    TrailingDigitsIs(body, 1);
    assert body[..6][5] == '.';
  }

  /** An item is required between the keyword and the amount. */
  lemma {:induction false} MissingItemRejected(text: string)
    requires text == "支出 100"
    ensures ParseExpenseMessage(text) == None
  {
    assert text[..2] == ExpenseKeyword;
    var body := Body(ExpenseKeyword, text);
    assert body == " 100";
    TrailingDigitsIs(body, 3);
  }

  /** The month is not range-checked. */
  lemma {:induction false} QueryMonthUnchecked()
    ensures ParseBudgetQuery(QueryKeyword + " " + "2026" + "/" + "13") == MonthQuery(2026, 13)
  {
    var year, month := "2026", "13";
    QueryOfDigits(year, month);
    assert DigitsValue(year) == 2026 by {
      assert year[..3] == "202" && "202"[..2] == "20" && "20"[..1] == "2" && "2"[..0] == [];
    }
    assert DigitsValue(month) == 13 by {
      assert month[..1] == "1" && "1"[..0] == [];
    }
  }

  /** The bare keyword asks for the current month; with a space after it, it asks for nothing. */
  lemma {:induction false} QueryBareKeyword(text: string)
    requires text == "統計 "
    ensures ParseBudgetQuery(QueryKeyword) == CurrentMonth
    ensures ParseBudgetQuery(text) == NotAQuery
  {
    assert text != QueryKeyword;
  }

  /** The space after the keyword is required. */
  lemma {:induction false} QueryNeedsSpace(text: string)
    requires text == "統計2026/1"
    ensures ParseBudgetQuery(text) == NotAQuery
  {
    assert Stop(text) == |text|;
    assert !QueryMatch(text, 2);
    assert text != QueryKeyword;
  }

  /** A zero ceiling is parsed (the caller then ignores it). */
  lemma {:induction false} BudgetZero()
    ensures ParseBudgetLimit("預算 0") == Some(0)
  {
    var text := "預算 0";
    assert text[..2] == BudgetKeyword;
    assert Body(BudgetKeyword, text) == " 0";
    assert LimitMatch(text, 1);
    assert Body(BudgetKeyword, text)[1..] == "0";
    assert "0"[..0] == [];
  }
}
