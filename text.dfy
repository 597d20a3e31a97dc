/**
 * The handful of Python string and integer operations the ledger relies on:
 * the whitespace class shared by `\s` and `str.strip()`, decimal digits,
 * `str(n)`, `int(s)`, `s.strip()`, `s.replace(pat, "")`, `s.split(sep)[-1]`
 * and `pat in s`.
 */
module Text {
  import opened Wrappers

  /**
   * Python's `str.isspace()`. The `\s` class of a str regular expression and
   * the argument-less `str.strip()` both use exactly this set.
   */
  predicate IsSpace(c: char) {
    if c <= ' ' then c == ' ' || ('\t' <= c <= '\r') || '\U{1C}' <= c
    else '\U{85}' <= c && IsWideSpace(c)
  }

  /** The whitespace characters of `IsSpace` beyond ASCII. */
  predicate IsWideSpace(c: char) {
    c == '\U{85}' || c == '\U{A0}' || c == '\U{1680}'
    || ('\U{2000}' <= c <= '\U{200A}') || c == '\U{2028}' || c == '\U{2029}'
    || c == '\U{202F}' || c == '\U{205F}' || c == '\U{3000}'
  }

  /** An ASCII decimal digit (the model's `\d`). */
  predicate IsDigit(c: char) {
    '0' <= c <= '9'
  }

  predicate AllSpace(s: string) {
    forall i | 0 <= i < |s| :: IsSpace(s[i])
  }

  predicate AllDigits(s: string) {
    forall i | 0 <= i < |s| :: IsDigit(s[i])
  }

  /** What a run of regular-expression `.` may span: anything but a newline. */
  predicate NoNewline(s: string) {
    forall i | 0 <= i < |s| :: s[i] != '\n'
  }

  /** Python's `s.startswith(prefix)`. */
  predicate StartsWith(s: string, prefix: string) {
    |prefix| <= |s| && s[..|prefix|] == prefix
  }

  /** Python's `pat in s`. */
  predicate Contains(s: string, pat: string)
    decreases |s|
  {
    StartsWith(s, pat) || (|s| > 0 && Contains(s[1..], pat))
  }

  // ---------------------------------------------------------------------
  // Decimal numbers

  function DigitValue(c: char): nat
    requires IsDigit(c)
  {
    c as int - '0' as int
  }

  function DigitChar(d: nat): char
    requires d < 10
  {
    ('0' as int + d) as char
  }

  /** The value of a run of decimal digits, leading zeros allowed. */
  function DigitsValue(s: string): nat
    requires AllDigits(s)
    decreases |s|
  {
    if s == [] then 0 else 10 * DigitsValue(s[..|s| - 1]) + DigitValue(s[|s| - 1])
  }

  /** Python's `str(n)` (and `f"{n}"`) for a non-negative integer. */
  function NatToString(n: nat): (s: string)
    ensures |s| >= 1 && AllDigits(s) && DigitsValue(s) == n
    ensures s[0] == '0' ==> s == "0"
    decreases n
  {
    if n < 10 then [DigitChar(n)]
    else
      var p := NatToString(n / 10);
      assert (p + [DigitChar(n % 10)])[..|p|] == p;
      p + [DigitChar(n % 10)]
  }

  /** Python's `str(x)` for any integer. */
  function IntToString(x: int): string {
    if x < 0 then "-" + NatToString(-x) else NatToString(x)
  }

  /** Python's `f"{n:02d}"` for a non-negative integer. */
  function Pad2(n: nat): (s: string)
    ensures |s| >= 2 && AllDigits(s) && DigitsValue(s) == n
    ensures n >= 10 ==> s == NatToString(n)
  {
    if n < 10 then "0" + NatToString(n) else NatToString(n)
  }

  /**
   * Python's `int(s)`, restricted to an optional sign followed by ASCII
   * digits; `None` stands for the ValueError it raises otherwise.
   */
  function ParseInt(s: string): Option<int> {
    if |s| > 1 && (s[0] == '+' || s[0] == '-') && AllDigits(s[1..]) then
      var magnitude: int := DigitsValue(s[1..]);
      Some(if s[0] == '-' then -magnitude else magnitude)
    else if |s| > 0 && AllDigits(s) then Some(DigitsValue(s))
    else None
  }

  /**
   * `int(s)` reads exactly the texts made of an optional sign and a
   * non-empty run of digits, and a value is negative only after a minus.
   */
  lemma {:induction false} ParseIntAccepts(s: string)
    ensures ParseInt(s).Some? <==>
      (|s| > 0 && AllDigits(s)) || (|s| > 1 && (s[0] == '+' || s[0] == '-') && AllDigits(s[1..]))
    ensures ParseInt(s).Some? && s[0] != '-' ==> ParseInt(s).value >= 0
    ensures ParseInt(s).Some? && s[0] == '-' ==> ParseInt(s).value <= 0
  {
  }

  /** `int(str(x)) == x`: a value written to a sheet cell reads back unchanged. */
  lemma {:induction false} ParseIntOfIntToString(x: int)
    ensures ParseInt(IntToString(x)) == Some(x)
    ensures x >= 0 ==> ParseInt(NatToString(x)) == Some(x)
  {
    if x < 0 {
      var t := NatToString(-x);
      assert ("-" + t)[1..] == t;
    }
  }

  /** `str(n)` is one-to-one: the digits determine the number. */
  lemma {:induction false} NatToStringInjective(a: nat, b: nat)
    requires NatToString(a) == NatToString(b)
    ensures a == b
  {
    assert DigitsValue(NatToString(a)) == DigitsValue(NatToString(b));
  }

  /** `f"{n:02d}"` is one-to-one as well. */
  lemma {:induction false} Pad2Injective(a: nat, b: nat)
    requires Pad2(a) == Pad2(b)
    ensures a == b
  {
    assert DigitsValue(Pad2(a)) == DigitsValue(Pad2(b));
  }

  /** Below 100, `f"{n:02d}"` has exactly two digits. */
  lemma {:induction false} Pad2Length(n: nat)
    requires n < 100
    ensures |Pad2(n)| == 2
  {
    if n >= 10 {
      assert NatToString(n) == NatToString(n / 10) + [DigitChar(n % 10)];
    }
  }

  /** The number of digits that start `s`. */
  function LeadingDigits(s: string): (n: nat)
    ensures n <= |s|
    ensures AllDigits(s[..n])
    ensures n < |s| ==> !IsDigit(s[n])
    decreases |s|
  {
    if s != [] && IsDigit(s[0]) then
      var n := 1 + LeadingDigits(s[1..]);
      assert forall i | 1 <= i < n :: s[..n][i] == s[1..][..n - 1][i - 1];
      n
    else 0
  }

  /** A run of digits at the start of `t` is no longer than its leading digits. */
  lemma {:induction false} LeadingDigitsBound(s: string, t: string)
    requires AllDigits(s) && StartsWith(t, s)
    ensures |s| <= LeadingDigits(t)
    decreases |s|
  {
    if s != [] {
      assert t[0] == s[0];
      assert StartsWith(t[1..], s[1..]) by {
        assert t[1..][..|s| - 1] == t[..|s|][1..];
      }
      assert AllDigits(s[1..]) by {
        assert forall i | 0 <= i < |s| - 1 :: s[1..][i] == s[i + 1];
      }
      LeadingDigitsBound(s[1..], t[1..]);
    }
  }

  /** The leading digits of `a + x` are `a` when `x` starts with something else. */
  lemma {:induction false} LeadingDigitsOf(a: string, x: string)
    requires AllDigits(a) && (x == [] || !IsDigit(x[0]))
    ensures LeadingDigits(a + x) == |a|
  {
    LeadingDigitsBound(a, a + x);
    assert (a + x)[..|a|] == a;
    if |a| < |a + x| {
      assert (a + x)[|a|] == x[0];
    }
  }

  /**
   * When `a + x` begins `b + y`, with `a` and `b` runs of digits and `x`, `y`
   * starting with a non-digit, the two runs are the same: a field delimited by
   * a separator cannot be mistaken for a longer or shorter one.
   */
  lemma {:induction false} DigitRunPrefix(a: string, x: string, b: string, y: string)
    requires AllDigits(a) && x != [] && !IsDigit(x[0])
    requires AllDigits(b) && y != [] && !IsDigit(y[0])
    requires StartsWith(b + y, a + x)
    ensures a == b
  {
    LeadingDigitsOf(b, y);
    LeadingDigitsBound(a, b + y);
    assert (b + y)[..|a|] == (a + x)[..|a|] == a;
    assert (b + y)[|a|] == x[0];
    assert (b + y)[..|b|] == b;
  }

  /**
   * A digit field followed by a separator that is not a digit begins another
   * such field only if the fields are equal; what follows is then compared.
   */
  lemma {:induction false} DigitFieldPrefix(a: string, sep: char, x: string, b: string, y: string)
    requires AllDigits(a) && AllDigits(b) && !IsDigit(sep)
    requires StartsWith(b + [sep] + y, a + [sep] + x)
    ensures a == b && StartsWith(y, x)
  {
    assert b + [sep] + y == b + ([sep] + y);
    assert a + [sep] + x == a + ([sep] + x);
    DigitRunPrefix(a, [sep] + x, b, [sep] + y);
    StartsWithDrop(a + [sep], y, x);
  }

  /** A digit field of at least two digits that begins a two-digit field and a non-digit is that field. */
  lemma {:induction false} TwoDigitPrefix(p: string, q: string, rest: string)
    requires AllDigits(p) && |p| >= 2 && AllDigits(q) && |q| == 2
    requires rest != [] && !IsDigit(rest[0])
    requires StartsWith(q + rest, p)
    ensures p == q
  {
    LeadingDigitsOf(q, rest);
    LeadingDigitsBound(p, q + rest);
    assert (q + rest)[..2] == q;
  }

  /** A common head can be dropped from both sides of `startswith`. */
  lemma {:induction false} StartsWithDrop(p: string, t: string, s: string)
    ensures StartsWith(p + t, p + s) <==> StartsWith(t, s)
  {
    if |s| <= |t| {
      assert (p + t)[..|p + s|] == p + t[..|s|];
      assert (p + t[..|s|])[|p|..] == t[..|s|];
      assert (p + s)[|p|..] == s;
    }
  }

  // ---------------------------------------------------------------------
  // strip, replace, split

  /** The number of digits that end `s`. */
  function TrailingDigits(s: string): (n: nat)
    ensures n <= |s|
    ensures AllDigits(s[|s| - n..])
    ensures n < |s| ==> !IsDigit(s[|s| - n - 1])
    decreases |s|
  {
    if s == [] || !IsDigit(s[|s| - 1]) then 0
    else
      var init := s[..|s| - 1];
      var m := TrailingDigits(init);
      assert s[|s| - (1 + m)..] == init[|init| - m..] + [s[|s| - 1]];
      1 + m
  }

  /** The run of trailing digits is determined by where the digits stop. */
  lemma {:induction false} TrailingDigitsIs(s: string, n: nat)
    requires n <= |s|
    requires forall i | |s| - n <= i < |s| :: IsDigit(s[i])
    requires n < |s| ==> !IsDigit(s[|s| - n - 1])
    ensures TrailingDigits(s) == n
    decreases n
  {
    if n > 0 {
      var init := s[..|s| - 1];
      assert forall i | |init| - (n - 1) <= i < |init| :: init[i] == s[i];
      TrailingDigitsIs(init, n - 1);
    }
  }

  /** The number of whitespace characters that begin `s`. */
  function LeadingSpaces(s: string): (n: nat)
    ensures n <= |s|
    ensures forall i | 0 <= i < n :: IsSpace(s[i])
    ensures n < |s| ==> !IsSpace(s[n])
    decreases |s|
  {
    if s == [] || !IsSpace(s[0]) then 0
    else
      var m := LeadingSpaces(s[1..]);
      assert forall i | 1 <= i < 1 + m :: s[i] == s[1..][i - 1];
      1 + m
  }

  /** The number of whitespace characters that end `s`. */
  function TrailingSpaces(s: string): (n: nat)
    ensures n <= |s|
    ensures forall i | |s| - n <= i < |s| :: IsSpace(s[i])
    ensures n < |s| ==> !IsSpace(s[|s| - n - 1])
    decreases |s|
  {
    if s == [] || !IsSpace(s[|s| - 1]) then 0 else 1 + TrailingSpaces(s[..|s| - 1])
  }

  /** The leading run of whitespace is determined by where the whitespace stops. */
  lemma {:induction false} LeadingSpacesIs(s: string, n: nat)
    requires n <= |s|
    requires forall i | 0 <= i < n :: IsSpace(s[i])
    requires n < |s| ==> !IsSpace(s[n])
    ensures LeadingSpaces(s) == n
    decreases n
  {
    if n > 0 {
      assert forall i | 0 <= i < n - 1 :: s[1..][i] == s[i + 1];
      LeadingSpacesIs(s[1..], n - 1);
    }
  }

  /** The trailing run of whitespace is determined by where the whitespace stops. */
  lemma {:induction false} TrailingSpacesIs(s: string, n: nat)
    requires n <= |s|
    requires forall i | |s| - n <= i < |s| :: IsSpace(s[i])
    requires n < |s| ==> !IsSpace(s[|s| - n - 1])
    ensures TrailingSpaces(s) == n
    decreases n
  {
    if n > 0 {
      var init := s[..|s| - 1];
      assert forall i | |init| - (n - 1) <= i < |init| :: init[i] == s[i];
      TrailingSpacesIs(init, n - 1);
    }
  }

  /** Python's `s.lstrip()`: `s` without its leading whitespace. */
  function StripLeft(s: string): (r: string)
    ensures r == [] || !IsSpace(r[0])
  {
    s[LeadingSpaces(s)..]
  }

  /** Python's `s.rstrip()`: `s` without its trailing whitespace. */
  function StripRight(s: string): (r: string)
    ensures r == [] || !IsSpace(r[|r| - 1])
  {
    s[..|s| - TrailingSpaces(s)]
  }

  /** Python's `s.strip()`: the leading and trailing whitespace removed. */
  function Strip(s: string): (r: string)
    ensures |r| <= |s|
    ensures r == [] || (!IsSpace(r[0]) && !IsSpace(r[|r| - 1]))
  {
    StripRight(StripLeft(s))
  }

  /** What `strip()` keeps is a slice of `s` with only whitespace around it. */
  lemma {:induction false} StripSplit(s: string) returns (a: nat)
    ensures a + |Strip(s)| <= |s|
    ensures s[a..a + |Strip(s)|] == Strip(s)
    ensures AllSpace(s[..a]) && AllSpace(s[a + |Strip(s)|..])
  {
    a := LeadingSpaces(s);
    var l := s[a..];
    var b := |l| - TrailingSpaces(l);
    assert Strip(s) == s[a..a + b] by {
      assert Strip(s) == l[..b];
    }
    LeadingSpacesAll(s);
    TrailingSpacesAll(l);
    assert s[a + b..] == l[b..];
  }

  lemma {:induction false} LeadingSpacesAll(s: string)
    ensures AllSpace(s[..LeadingSpaces(s)])
  {
    var n := LeadingSpaces(s);
    assert forall i | 0 <= i < n :: s[..n][i] == s[i];
  }

  lemma {:induction false} TrailingSpacesAll(s: string)
    ensures AllSpace(s[|s| - TrailingSpaces(s)..])
  {
    var tail := s[|s| - TrailingSpaces(s)..];
    assert forall i | 0 <= i < |tail| :: tail[i] == s[|s| - TrailingSpaces(s) + i];
  }

  lemma {:induction false} StripLeftPadded(w: string, y: string)
    requires AllSpace(w)
    ensures StripLeft(w + y) == StripLeft(y)
  {
    var n := LeadingSpaces(y);
    assert forall i | |w| <= i < |w| + n :: (w + y)[i] == y[i - |w|];
    LeadingSpacesIs(w + y, |w| + n);
    assert (w + y)[|w| + n..] == y[n..];
  }

  lemma {:induction false} StripRightPadded(y: string, w: string)
    requires AllSpace(w)
    ensures StripRight(y + w) == StripRight(y)
  {
    var n := TrailingSpaces(y);
    assert forall i | |y| - n <= i < |y| :: (y + w)[i] == y[i];
    TrailingSpacesIs(y + w, n + |w|);
    assert (y + w)[..|y| - n] == y[..|y| - n];
  }

  /** Text after a non-space character is kept by `lstrip()`. */
  lemma {:induction false} StripLeftAppend(x: string, w: string)
    ensures StripLeft(x + w) == if AllSpace(x) then StripLeft(w) else StripLeft(x) + w
  {
    if AllSpace(x) {
      StripLeftPadded(x, w);
    } else {
      var n := LeadingSpaces(x);
      assert n < |x|;
      assert forall i | 0 <= i <= n :: (x + w)[i] == x[i];
      LeadingSpacesIs(x + w, n);
      assert (x + w)[n..] == x[n..] + w;
    }
  }

  /** Whitespace added at either end does not survive `strip()`. */
  lemma {:induction false} StripPadded(w1: string, x: string, w2: string)
    requires AllSpace(w1) && AllSpace(w2)
    ensures Strip(w1 + x + w2) == Strip(x)
  {
    assert w1 + x + w2 == w1 + (x + w2);
    StripLeftPadded(w1, x + w2);
    StripLeftAppend(x, w2);
    if AllSpace(x) {
      StripLeftPadded(w2, []);
      assert w2 + [] == w2;
      StripLeftPadded(x, []);
      assert x + [] == x;
    } else {
      StripRightPadded(StripLeft(x), w2);
    }
  }

  /** `strip()` leaves a string that neither starts nor ends with whitespace as it is. */
  lemma {:induction false} StripTrimmed(x: string)
    requires x == [] || (!IsSpace(x[0]) && !IsSpace(x[|x| - 1]))
    ensures Strip(x) == x
  {
    LeadingSpacesIs(x, 0);
    TrailingSpacesIs(x, 0);
  }

  /** `strip()` only removes characters, so it introduces no newline. */
  lemma {:induction false} StripNoNewline(x: string)
    requires NoNewline(x)
    ensures NoNewline(Strip(x))
  {
    var a := StripSplit(x);
    assert forall i | 0 <= i < |Strip(x)| :: Strip(x)[i] == x[a + i];
  }

  /**
   * Python's `s.replace(pat, "")`: every occurrence of `pat`, found from the
   * left without overlap, removed.
   */
  function RemoveAll(s: string, pat: string): (r: string)
    requires pat != []
    ensures |r| <= |s|
    decreases |s|
  {
    if s == [] then []
    else if StartsWith(s, pat) then RemoveAll(s[|pat|..], pat)
    else [s[0]] + RemoveAll(s[1..], pat)
  }

  /** Removing a pattern that does not occur changes nothing. */
  lemma {:induction false} RemoveAllAbsent(s: string, pat: string)
    requires pat != [] && !Contains(s, pat)
    ensures RemoveAll(s, pat) == s
    decreases |s|
  {
    if s != [] {
      RemoveAllAbsent(s[1..], pat);
      assert [s[0]] + s[1..] == s;
    }
  }

  /** Removing a pattern from `pat + x` removes the leading copy and goes on with `x`. */
  lemma {:induction false} RemoveAllLeading(pat: string, x: string)
    requires pat != []
    ensures RemoveAll(pat + x, pat) == RemoveAll(x, pat)
  {
    assert (pat + x)[..|pat|] == pat;
    assert (pat + x)[|pat|..] == x;
  }

  /**
   * Python's `s.split(sep)[-1]`: what follows the last `sep`, or all of `s`
   * when there is none.
   */
  function LastSegment(s: string, sep: char): (r: string)
    ensures sep !in r
    ensures |r| <= |s| && r == s[|s| - |r|..]
    ensures |r| < |s| ==> s[|s| - |r| - 1] == sep
    decreases |s|
  {
    if s == [] || s[|s| - 1] == sep then []
    else
      var p := LastSegment(s[..|s| - 1], sep);
      assert s[..|s| - 1][|s| - 1 - |p|..] + [s[|s| - 1]] == s[|s| - 1 - |p|..];
      p + [s[|s| - 1]]
  }

  /**
   * What follows the last separator of `p + [sep] + item` lies inside
   * `item`; when `item` holds no separator, it is all of `item`.
   */
  lemma {:induction false} LastSegmentAfter(p: string, sep: char, item: string)
    ensures LastSegment(p + [sep] + item, sep) == LastSegment(item, sep)
    ensures sep !in item ==> LastSegment(p + [sep] + item, sep) == item
    decreases |item|
  {
    var s := p + [sep] + item;
    if item == [] {
      assert s[|s| - 1] == sep;
    } else if item[|item| - 1] == sep {
      assert s[|s| - 1] == sep;
    } else {
      var init := item[..|item| - 1];
      assert s[..|s| - 1] == p + [sep] + init;
      assert s[|s| - 1] == item[|item| - 1];
      LastSegmentAfter(p, sep, init);
    }
    if sep !in item {
      LastSegmentWhole(item, sep);
    }
  }

  /** A text without the separator is its own last segment. */
  lemma {:induction false} LastSegmentWhole(s: string, sep: char)
    requires sep !in s
    ensures LastSegment(s, sep) == s
  {
    var r := LastSegment(s, sep);
    assert s[|s| - |r|..] == s;
  }

  // ---------------------------------------------------------------------
  // repr

  /** A lower-case hexadecimal digit. */
  function HexDigit(d: nat): char
    requires d < 16
  {
    if d < 10 then DigitChar(d) else ('a' as int + d - 10) as char
  }

  /** A character `repr` writes as an escape: backslash, the quote, or an ASCII control character. */
  predicate NeedsEscape(c: char, quote: char) {
    c == quote || c == '\\' || c < ' ' || c == '\U{7F}'
  }

  /** How `repr` writes one character inside quotes `quote`. */
  function ReprChar(c: char, quote: char): (r: string)
    ensures !NeedsEscape(c, quote) <==> r == [c]
    ensures NeedsEscape(c, quote) ==> |r| >= 2 && r[0] == '\\'
  {
    if c == quote || c == '\\' then ['\\', c]
    else if c == '\t' then "\\t"
    else if c == '\n' then "\\n"
    else if c == '\r' then "\\r"
    else if c < ' ' || c == '\U{7F}' then ['\\', 'x', HexDigit(c as int / 16), HexDigit(c as int % 16)]
    else [c]
  }

  /** The characters of `s` as `repr` writes them between the quotes. */
  function ReprBody(s: string, quote: char): (r: string)
    ensures |r| >= |s|
    decreases |s|
  {
    if s == [] then [] else ReprBody(s[..|s| - 1], quote) + ReprChar(s[|s| - 1], quote)
  }

  /**
   * Python's `repr(s)` for a string: single quotes, or double quotes when
   * `s` holds a single quote and no double quote.
   */
  function Repr(s: string): (r: string)
    ensures |r| >= |s| + 2 && r[0] == r[|r| - 1]
    ensures r[0] == '"' <==> '\'' in s && '"' !in s
    ensures r[0] == '"' || r[0] == '\''
  {
    var quote := if '\'' in s && '"' !in s then '"' else '\'';
    [quote] + ReprBody(s, quote) + [quote]
  }

  /** A text with nothing to escape is written unchanged between the quotes. */
  lemma {:induction false} ReprBodyPlain(s: string, quote: char)
    requires forall i | 0 <= i < |s| :: !NeedsEscape(s[i], quote)
    ensures ReprBody(s, quote) == s
    decreases |s|
  {
    if s != [] {
      ReprBodyPlain(s[..|s| - 1], quote);
      assert s[..|s| - 1] + [s[|s| - 1]] == s;
    }
  }

  /**
   * `repr` of a text that holds a single quote and no double quote, no
   * backslash and no control character, is the text in double quotes.
   */
  lemma {:induction false} ReprDoubleQuoted(s: string)
    requires '\'' in s && '"' !in s
    requires forall i | 0 <= i < |s| :: s[i] != '\\' && ' ' <= s[i] && s[i] != '\U{7F}'
    ensures Repr(s) == "\"" + s + "\""
  {
    ReprBodyPlain(s, '"');
  }

  /** Otherwise a text with nothing to escape is written in single quotes. */
  lemma {:induction false} ReprSingleQuoted(s: string)
    requires '\'' !in s
    requires forall i | 0 <= i < |s| :: s[i] != '\\' && ' ' <= s[i] && s[i] != '\U{7F}'
    ensures Repr(s) == "'" + s + "'"
  {
    ReprBodyPlain(s, '\'');
  }
}
