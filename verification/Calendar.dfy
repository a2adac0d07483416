/**
 Dates and the period texts the ledger is keyed by: a month as YYYY-MM, a day as
 YYYY-MM-DD. Pruning compares such texts as strings, so their order must be that of the
 dates they stand for.
 */
module Calendar {
  import opened Sequences

  datatype CivilDate = CivilDate(year: nat, month: nat, day: nat)

  type Date = d: CivilDate | d.year < 10000 && 1 <= d.month <= 12 && 1 <= d.day <= 31
    witness CivilDate(0, 1, 1)

  predicate Before(a: Date, b: Date) {
    a.year < b.year || (a.year == b.year && (a.month < b.month || (a.month == b.month && a.day < b.day)))
  }

  predicate NotBefore(a: Date, b: Date) {
    a == b || Before(b, a)
  }

  predicate SameMonth(a: Date, b: Date) {
    a.year == b.year && a.month == b.month
  }

  predicate EarlierMonth(a: Date, b: Date) {
    a.year < b.year || (a.year == b.year && a.month < b.month)
  }

  // ------------------------------------------------------------------ digits

  function Digit(n: nat): char
    requires n < 10
  {
    "0123456789"[n]
  }

  /** The tens and the units of a number below a hundred. */
  function Tens(n: nat): nat
    requires n < 100
  {
    if n < 10 then 0 else if n < 20 then 1 else if n < 30 then 2 else if n < 40 then 3 else if n < 50 then 4
    else if n < 60 then 5 else if n < 70 then 6 else if n < 80 then 7 else if n < 90 then 8 else 9
  }

  function TwoDigits(n: nat): string
    requires n < 100
  {
    [Digit(Tens(n)), Digit(n - 10 * Tens(n))]
  }

  function Hundreds(n: nat): nat {
    if n < 100 then 0 else 1 + Hundreds(n - 100)
  }

  lemma HundredsSplits(n: nat)
    ensures 100 * Hundreds(n) <= n < 100 * Hundreds(n) + 100
  {
  }

  function FourDigits(n: nat): string
    requires n < 10000
  {
    HundredsSplits(n);
    TwoDigits(Hundreds(n)) + TwoDigits(n - 100 * Hundreds(n))
  }

  function MonthText(d: Date): string {
    FourDigits(d.year) + "-" + TwoDigits(d.month)
  }

  function DayText(d: Date): string {
    MonthText(d) + "-" + TwoDigits(d.day)
  }

  // ------------------------------------------------------------------ text order

  predicate TextBefore(a: string, b: string) {
    if b == "" then false
    else if a == "" then true
    else a[0] < b[0] || (a[0] == b[0] && TextBefore(a[1..], b[1..]))
  }

  /** Texts of equal-length beginnings compare by these first. */
  lemma {:induction false} ComparedBlockwise(x: string, y: string, u: string, v: string)
    requires |x| == |y|
    ensures TextBefore(x + u, y + v) <==> TextBefore(x, y) || (x == y && TextBefore(u, v))
  {
    if x == "" {
      assert x + u == u && y + v == v;
    } else {
      ComparedBlockwise(x[1..], y[1..], u, v);
      HeadAndTail(x, u);
      HeadAndTail(y, v);
      assert x == y <==> x[0] == y[0] && x[1..] == y[1..] by {
        assert x == [x[0]] + x[1..] && y == [y[0]] + y[1..];
      }
    }
  }

  lemma TwoDigitsOrder(a: nat, b: nat)
    requires a < 100 && b < 100
    ensures TextBefore(TwoDigits(a), TwoDigits(b)) <==> a < b
    ensures TwoDigits(a) == TwoDigits(b) <==> a == b
  {
    DigitOrder(Tens(a), Tens(b));
    DigitOrder(a - 10 * Tens(a), b - 10 * Tens(b));
    TextOfTwo(Digit(Tens(a)), Digit(a - 10 * Tens(a)), Digit(Tens(b)), Digit(b - 10 * Tens(b)));
  }

  lemma DigitOrder(a: nat, b: nat)
    requires a < 10 && b < 10
    ensures Digit(a) < Digit(b) <==> a < b
    ensures Digit(a) == Digit(b) <==> a == b
  {
  }

  lemma TextOfTwo(a: char, b: char, c: char, d: char)
    ensures TextBefore([a, b], [c, d]) <==> a < c || (a == c && b < d)
    ensures [a, b] == [c, d] <==> a == c && b == d
  {
    assert [a, b][1..] == [b] && [c, d][1..] == [d];
    assert !TextBefore([b][1..], [d][1..]);
    assert TextBefore([b], [d]) <==> b < d;
    assert [a, b] == [c, d] ==> [a, b][0] == [c, d][0] && [a, b][1] == [c, d][1];
  }

  lemma PairsOrder(a: nat, b: nat, c: nat, d: nat)
    requires a < 100 && b < 100 && c < 100 && d < 100
    ensures TextBefore(TwoDigits(a) + TwoDigits(c), TwoDigits(b) + TwoDigits(d)) <==> a < b || (a == b && c < d)
    ensures TwoDigits(a) + TwoDigits(c) == TwoDigits(b) + TwoDigits(d) <==> a == b && c == d
  {
    var x, y, u, v := TwoDigits(a), TwoDigits(b), TwoDigits(c), TwoDigits(d);
    TwoDigitsOrder(a, b);
    TwoDigitsOrder(c, d);
    ComparedBlockwise(x, y, u, v);
    SplitEqual(x, y, u, v);
  }

  lemma HundredsFirst(h: nat, r: nat, k: nat, s: nat)
    requires r < 100 && s < 100
    ensures 100 * h + r < 100 * k + s <==> h < k || (h == k && r < s)
    ensures 100 * h + r == 100 * k + s <==> h == k && r == s
  {
  }

  lemma FourDigitsSplit(n: nat) returns (h: nat, r: nat)
    requires n < 10000
    ensures h < 100 && r < 100 && n == 100 * h + r
    ensures FourDigits(n) == TwoDigits(h) + TwoDigits(r) && |FourDigits(n)| == 4
  {
    HundredsSplits(n);
    h, r := Hundreds(n), n - 100 * Hundreds(n);
  }

  lemma FourDigitsOrder(a: nat, b: nat)
    requires a < 10000 && b < 10000
    ensures |FourDigits(a)| == 4 && |FourDigits(b)| == 4
    ensures TextBefore(FourDigits(a), FourDigits(b)) <==> a < b
    ensures FourDigits(a) == FourDigits(b) <==> a == b
  {
    var h, r := FourDigitsSplit(a);
    var k, s := FourDigitsSplit(b);
    PairsOrder(h, k, r, s);
    HundredsFirst(h, r, k, s);
  }

  lemma SplitEqual(x: string, y: string, u: string, v: string)
    requires |x| == |y|
    ensures x + u == y + v <==> x == y && u == v
  {
    assert (x + u)[..|x|] == x && (y + v)[..|y|] == y;
    assert (x + u)[|x|..] == u && (y + v)[|y|..] == v;
  }

  /** Month texts compare and coincide as the months do. */
  lemma MonthTextOrder(a: Date, b: Date)
    ensures |MonthText(a)| == 7
    ensures TextBefore(MonthText(a), MonthText(b)) <==> EarlierMonth(a, b)
    ensures MonthText(a) == MonthText(b) <==> SameMonth(a, b)
  {
    var x, y := FourDigits(a.year), FourDigits(b.year);
    FourDigitsOrder(a.year, b.year);
    FourDigitsOrder(a.year, a.year);
    TwoDigitsOrder(a.month, b.month);
    Associative(x, "-", TwoDigits(a.month));
    Associative(y, "-", TwoDigits(b.month));
    ComparedBlockwise(x, y, "-" + TwoDigits(a.month), "-" + TwoDigits(b.month));
    ComparedBlockwise("-", "-", TwoDigits(a.month), TwoDigits(b.month));
    SplitEqual(x, y, "-" + TwoDigits(a.month), "-" + TwoDigits(b.month));
    SplitEqual("-", "-", TwoDigits(a.month), TwoDigits(b.month));
    TextNotBeforeItself("-");
  }

  lemma TextNotBeforeItself(s: string)
    ensures !TextBefore(s, s)
  {
  }

  /** Day texts compare and coincide as the dates do, begin with their month's text, and are
      never a month's text. */
  lemma DayTextOrder(a: Date, b: Date)
    ensures |DayText(a)| == 10 && DayText(a)[..7] == MonthText(a)
    ensures TextBefore(DayText(a), DayText(b)) <==> Before(a, b)
    ensures DayText(a) == DayText(b) <==> a == b
    ensures DayText(a) != MonthText(b)
  {
    var x, y := MonthText(a), MonthText(b);
    MonthTextOrder(a, b);
    MonthTextOrder(b, a);
    TwoDigitsOrder(a.day, b.day);
    Associative(x, "-", TwoDigits(a.day));
    Associative(y, "-", TwoDigits(b.day));
    ComparedBlockwise(x, y, "-" + TwoDigits(a.day), "-" + TwoDigits(b.day));
    ComparedBlockwise("-", "-", TwoDigits(a.day), TwoDigits(b.day));
    SplitEqual(x, y, "-" + TwoDigits(a.day), "-" + TwoDigits(b.day));
    SplitEqual("-", "-", TwoDigits(a.day), TwoDigits(b.day));
    TextNotBeforeItself("-");
    assert DayText(a)[..7] == x;
  }

  // ------------------------------------------------------------------ reading back

  /** The number that decimal digits stand for. */
  function NumberOf(digits: string): int {
    if digits == "" then 0
    else 10 * NumberOf(digits[..|digits| - 1]) + (digits[|digits| - 1] as int - '0' as int)
  }

  lemma DigitReads(n: nat)
    requires n < 10
    ensures Digit(n) as int == '0' as int + n
  {
  }

  lemma TwoDigitsRead(n: nat, before: string)
    requires n < 100
    ensures |TwoDigits(n)| == 2 && NumberOf(before + TwoDigits(n)) == 100 * NumberOf(before) + n
  {
    var s := before + TwoDigits(n);
    var once := s[..|s| - 1];
    assert once[..|once| - 1] == before;
    DigitReads(Tens(n));
    DigitReads(n - 10 * Tens(n));
  }

  /** The texts are the numbers of the date, in decimal: four digits of the year, two of the
      month and two of the day, with hyphens between. */
  lemma TextsReadBack(d: Date)
    ensures |MonthText(d)| == 7 && |DayText(d)| == 10
    ensures MonthText(d)[4] == '-' && DayText(d)[4] == '-' && DayText(d)[7] == '-'
    ensures NumberOf(MonthText(d)[..4]) == d.year && NumberOf(MonthText(d)[5..]) == d.month
    ensures DayText(d)[..7] == MonthText(d) && NumberOf(DayText(d)[8..]) == d.day
  {
    var h, r := FourDigitsSplit(d.year);
    TwoDigitsRead(h, "");
    TwoDigitsRead(r, TwoDigits(h));
    TwoDigitsRead(d.month, "");
    TwoDigitsRead(d.day, "");
    assert "" + TwoDigits(h) == TwoDigits(h) && "" + TwoDigits(d.month) == TwoDigits(d.month);
    assert "" + TwoDigits(d.day) == TwoDigits(d.day);
    assert MonthText(d)[..4] == FourDigits(d.year) && MonthText(d)[5..] == TwoDigits(d.month);
    assert DayText(d)[..7] == MonthText(d) && DayText(d)[8..] == TwoDigits(d.day);
  }
}
