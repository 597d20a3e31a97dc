/**
 * The keys the ledger writes into the first column of the Settings sheet,
 * the month strings it files and finds rows under, and the timestamp an
 * expense row carries. Every one of them is a plain f-string of
 * services.py; the lemmas show that they pick out exactly the month or
 * item they were built from.
 */
module Keys {
  import opened Text

  const FixedTag: string := "Fixed:"
  const IncomeTag: string := "Income:"
  const BudgetTag: string := "Budget:"

  /** An income whose item name contains this word is a bonus, not salary. */
  const BonusMarker: string := "獎金"

  /** `f"{year}/{month}"`: how Settings keys name a month. */
  function MonthKey(year: nat, month: nat): string {
    NatToString(year) + "/" + NatToString(month)
  }

  /** `f"{year}-{month:02d}"`: how expense timestamps of a month begin. */
  function MonthPrefix(year: nat, month: nat): string {
    NatToString(year) + "-" + Pad2(month)
  }

  /** `f"Fixed:{item}"`. */
  function FixedKey(item: string): string {
    FixedTag + item
  }

  /** `f"Income:{month_key}:"`: what every income key of a month starts with. */
  function IncomePrefix(monthKey: string): string {
    IncomeTag + monthKey + ":"
  }

  /** `f"Income:{month_key}:{item}"`. */
  function IncomeKey(monthKey: string, item: string): string {
    IncomePrefix(monthKey) + item
  }

  /** `f"Budget:{month_key}"`. */
  function BudgetKey(monthKey: string): string {
    BudgetTag + monthKey
  }

  /** `key.replace('Fixed:', '')`: the item name a fixed-cost key is listed under. */
  function FixedName(key: string): string {
    RemoveAll(key, FixedTag)
  }

  /** `key.split(":")[-1]`: the item name an income key is listed under. */
  function IncomeName(key: string): string {
    LastSegment(key, ':')
  }

  /** A calendar month, as `datetime` numbers them. */
  type CalendarMonth = m: nat | 1 <= m <= 12 witness 1

  /** The wall-clock reading `datetime.now()` supplies. */
  datatype Clock = Clock(year: nat, month: CalendarMonth, day: nat, hour: nat, minute: nat, second: nat)

  /**
   * `now.strftime("%Y-%m-%d %H:%M:%S")`. The year is written without
   * padding, as the C library's `strftime` does.
   */
  function Timestamp(c: Clock): string {
    MonthPrefix(c.year, c.month) + DayAndTime(c)
  }

  /** `now.strftime("-%d %H:%M:%S")`: what a timestamp adds to its month. */
  function DayAndTime(c: Clock): (r: string)
    ensures r != [] && r[0] == '-'
  {
    "-" + Pad2(c.day) + " " + Pad2(c.hour) + ":" + Pad2(c.minute) + ":" + Pad2(c.second)
  }

  // ---------------------------------------------------------------------
  // Keys select exactly their own month and item

  /** An income key is found by the prefix of its own month and of no other. */
  lemma {:induction false} IncomePrefixSelectsMonth(y1: nat, m1: nat, y2: nat, m2: nat, item: string)
    ensures StartsWith(IncomeKey(MonthKey(y2, m2), item), IncomePrefix(MonthKey(y1, m1)))
        <==> y1 == y2 && m1 == m2
  {
    var a, b := NatToString(y1), NatToString(y2);
    var c, d := NatToString(m1), NatToString(m2);
    DigitFieldsSelect(a, c, b, d, item);
    if a == b && c == d {
      NatToStringInjective(y1, y2);
      NatToStringInjective(m1, m2);
    }
  }

  /** The income prefix of `<a>/<c>` begins the income key of `<b>/<d>` only when the digit fields agree. */
  lemma {:induction false} DigitFieldsSelect(a: string, c: string, b: string, d: string, item: string)
    requires AllDigits(a) && AllDigits(b) && AllDigits(c) && AllDigits(d)
    ensures StartsWith(IncomeKey(b + "/" + d, item), IncomePrefix(a + "/" + c)) <==> a == b && c == d
  {
    var tail1, tail2 := c + [':'], d + [':'] + item;
    var key, prefix := IncomeKey(b + "/" + d, item), IncomePrefix(a + "/" + c);
    assert key == IncomeTag + (b + ['/'] + tail2);
    assert prefix == IncomeTag + (a + ['/'] + tail1);
    StartsWithDrop(IncomeTag, b + ['/'] + tail2, a + ['/'] + tail1);
    if StartsWith(b + ['/'] + tail2, a + ['/'] + tail1) {
      DigitFieldPrefix(a, '/', tail1, b, tail2);
      assert tail2 == d + [':'] + item && tail1 == c + [':'] + [];
      DigitFieldPrefix(c, ':', [], d, item);
    }
    if a == b && c == d {
      assert b + ['/'] + tail2 == (a + ['/'] + tail1) + item;
    }
  }

  /** Budget keys of two months are equal only for the same month. */
  lemma {:induction false} BudgetKeySelectsMonth(y1: nat, m1: nat, y2: nat, m2: nat)
    ensures BudgetKey(MonthKey(y1, m1)) == BudgetKey(MonthKey(y2, m2)) <==> y1 == y2 && m1 == m2
  {
    var a, b := NatToString(y1), NatToString(y2);
    var c, d := NatToString(m1), NatToString(m2);
    if BudgetKey(MonthKey(y1, m1)) == BudgetKey(MonthKey(y2, m2)) {
      assert MonthKey(y1, m1) == BudgetKey(MonthKey(y1, m1))[|BudgetTag|..];
      assert MonthKey(y2, m2) == BudgetKey(MonthKey(y2, m2))[|BudgetTag|..];
      assert MonthKey(y1, m1) == a + ['/'] + c && MonthKey(y2, m2) == b + ['/'] + d;
      DigitFieldPrefix(a, '/', c, b, d);
      NatToStringInjective(y1, y2);
      assert c == MonthKey(y1, m1)[|a| + 1..] && d == MonthKey(y2, m2)[|b| + 1..];
      NatToStringInjective(m1, m2);
    }
  }

  /** A timestamp lies in the month whose prefix it starts with, and in no other. */
  lemma {:induction false} TimestampSelectsMonth(c: Clock, y: nat, m: nat)
    ensures StartsWith(Timestamp(c), MonthPrefix(y, m)) <==> y == c.year && m == c.month
  {
    MonthPrefixSelects(c.year, c.month, DayAndTime(c), y, m);
  }

  /** What follows a month prefix without a digit leaves the month readable from the prefix. */
  lemma {:induction false} MonthPrefixSelects(year: nat, month: nat, rest: string, y: nat, m: nat)
    requires month < 100 && rest != [] && !IsDigit(rest[0])
    ensures StartsWith(MonthPrefix(year, month) + rest, MonthPrefix(y, m)) <==> y == year && m == month
  {
    var a, b := NatToString(y), NatToString(year);
    var p, q := Pad2(m), Pad2(month);
    var text := MonthPrefix(year, month) + rest;
    if StartsWith(text, MonthPrefix(y, m)) {
      assert StartsWith(b + ['-'] + (q + rest), a + ['-'] + p) by {
        assert text == b + ['-'] + (q + rest);
        assert MonthPrefix(y, m) == a + ['-'] + p;
      }
      DigitFieldPrefix(a, '-', p, b, q + rest);
      NatToStringInjective(y, year);
      assert p == q by {
        Pad2Length(month);
        TwoDigitPrefix(p, q, rest);
      }
      Pad2Injective(m, month);
    }
  }

  /** The three kinds of key start with different letters, so no key is of two kinds. */
  lemma {:induction false} KeyKindsDisjoint(item: string, monthKey: string, other: string)
    ensures !StartsWith(FixedKey(item), IncomePrefix(other)) && FixedKey(item) != BudgetKey(other)
    ensures !StartsWith(IncomeKey(monthKey, item), FixedTag) && IncomeKey(monthKey, item) != BudgetKey(other)
    ensures !StartsWith(BudgetKey(monthKey), FixedTag) && !StartsWith(BudgetKey(monthKey), IncomePrefix(other))
  {
    assert FixedKey(item)[0] == 'F';
    assert IncomeKey(monthKey, item)[0] == 'I' && IncomePrefix(other)[0] == 'I';
    assert BudgetKey(monthKey)[0] == 'B' && BudgetKey(other)[0] == 'B';
  }

  /** A fixed-cost item is listed under its own name unless the name itself contains `Fixed:`. */
  lemma {:induction false} FixedNameOfKey(item: string)
    requires !Contains(item, FixedTag)
    ensures FixedName(FixedKey(item)) == item
  {
    RemoveAllLeading(FixedTag, item);
    RemoveAllAbsent(item, FixedTag);
  }

  /**
   * An income is listed under what follows the last colon of its item: its
   * own name when the name holds no colon. The month it is filed under never
   * leaks into the name.
   */
  lemma {:induction false} IncomeNameOfKey(monthKey: string, item: string)
    ensures IncomeName(IncomeKey(monthKey, item)) == LastSegment(item, ':')
    ensures ':' !in item ==> IncomeName(IncomeKey(monthKey, item)) == item
  {
    assert IncomeKey(monthKey, item) == IncomeTag + monthKey + [':'] + item;
    LastSegmentAfter(IncomeTag + monthKey, ':', item);
  }
}
