/**
 The budget ledger (src/db.rs): one row per provider, key alias and period, raised by every
 logged request in one transaction for its month and its day, summed by the budget check,
 and pruned by age. Money is in exact reals.
 */
module Ledger {
  import opened Wrappers
  import opened Calendar

  datatype Row = Row(provider: string, alias: string, period: string, total: real)

  /** One logged request: what it cost, and the date its transaction was written on. */
  datatype Charge = Charge(provider: string, alias: string, on: Date, cost: real)

  datatype Budget = Budget(monthlyCap: Option<real>, dailyCap: Option<real>, maxRpm: Option<nat>)

  // ------------------------------------------------------------------ the table

  predicate KeyedBy(r: Row, provider: string, alias: string, period: string) {
    r.provider == provider && r.alias == alias && r.period == period
  }

  /** Insert a row, or add to the one that has its key. */
  function Upsert(rows: seq<Row>, provider: string, alias: string, period: string, cost: real): seq<Row> {
    if rows == [] then [Row(provider, alias, period, cost)]
    else if KeyedBy(rows[0], provider, alias, period) then [rows[0].(total := rows[0].total + cost)] + rows[1..]
    else [rows[0]] + Upsert(rows[1..], provider, alias, period, cost)
  }

  /** The row counts towards a provider's, or one of its keys', usage in a period. */
  predicate Counts(r: Row, provider: string, alias: Option<string>, period: string) {
    r.provider == provider && r.period == period && (alias.None? || r.alias == alias.value)
  }

  function Usage(rows: seq<Row>, provider: string, alias: Option<string>, period: string): real {
    if rows == [] then 0.0
    else (if Counts(rows[0], provider, alias, period) then rows[0].total else 0.0)
         + Usage(rows[1..], provider, alias, period)
  }

  predicate NonNegative(rows: seq<Row>) {
    forall i :: 0 <= i < |rows| ==> rows[i].total >= 0.0
  }

  predicate HasKey(rows: seq<Row>, provider: string, alias: string, period: string) {
    rows != [] && (KeyedBy(rows[0], provider, alias, period) || HasKey(rows[1..], provider, alias, period))
  }

  /** The table's unique constraint. */
  predicate UniqueKeys(rows: seq<Row>) {
    rows != [] ==> !HasKey(rows[1..], rows[0].provider, rows[0].alias, rows[0].period) && UniqueKeys(rows[1..])
  }

  /** Both rows of a charge. */
  function Post(rows: seq<Row>, c: Charge): seq<Row> {
    Upsert(Upsert(rows, c.provider, c.alias, MonthText(c.on), c.cost), c.provider, c.alias, DayText(c.on), c.cost)
  }

  function PostAll(charges: seq<Charge>): seq<Row> {
    if charges == [] then [] else Post(PostAll(charges[..|charges| - 1]), charges[|charges| - 1])
  }

  predicate Outlived(r: Row, cutoff: Date) {
    || (|r.period| == 10 && TextBefore(r.period, DayText(cutoff)))
    || (|r.period| == 7 && TextBefore(r.period, MonthText(cutoff)))
  }

  function Without(rows: seq<Row>, drop: Row -> bool): seq<Row> {
    if rows == [] then []
    else (if drop(rows[0]) then [] else [rows[0]]) + Without(rows[1..], drop)
  }

  function Prune(rows: seq<Row>, cutoff: Date): seq<Row> {
    Without(rows, (r: Row) => Outlived(r, cutoff))
  }

  /** The budget check; the month and the day are read off the clock separately. */
  function WithinBudget(rows: seq<Row>, provider: string, alias: Option<string>, budget: Budget,
                        projected: real, month: Date, day: Date): bool {
    && (budget.monthlyCap.Some? ==> Usage(rows, provider, alias, MonthText(month)) + projected <= budget.monthlyCap.value)
    && (budget.dailyCap.Some? ==> Usage(rows, provider, alias, DayText(day)) + projected <= budget.dailyCap.value)
  }

  // ------------------------------------------------------------------ conservation

  lemma {:induction false} UpsertAdds(rows: seq<Row>, p: string, a: string, period: string, cost: real,
                                      provider: string, alias: Option<string>, other: string)
    ensures Usage(Upsert(rows, p, a, period, cost), provider, alias, other) ==
            Usage(rows, provider, alias, other) + if Counts(Row(p, a, period, cost), provider, alias, other) then cost else 0.0
  {
    var after := Upsert(rows, p, a, period, cost);
    if rows == [] {
      assert after[1..] == [];
    } else if KeyedBy(rows[0], p, a, period) {
      assert after[1..] == rows[1..];
    } else {
      UpsertAdds(rows[1..], p, a, period, cost, provider, alias, other);
      assert after[1..] == Upsert(rows[1..], p, a, period, cost);
    }
  }

  lemma {:induction false} UpsertHasKey(rows: seq<Row>, p: string, a: string, period: string, cost: real,
                                        q: string, b: string, other: string)
    ensures HasKey(Upsert(rows, p, a, period, cost), q, b, other) <==>
            HasKey(rows, q, b, other) || (q == p && b == a && other == period)
  {
    var after := Upsert(rows, p, a, period, cost);
    if rows == [] {
      assert after[1..] == [];
    } else if KeyedBy(rows[0], p, a, period) {
      assert after[1..] == rows[1..];
    } else {
      UpsertHasKey(rows[1..], p, a, period, cost, q, b, other);
      assert after[1..] == Upsert(rows[1..], p, a, period, cost);
    }
  }

  lemma {:induction false} UpsertKeeps(rows: seq<Row>, p: string, a: string, period: string, cost: real)
    requires UniqueKeys(rows) && NonNegative(rows) && cost >= 0.0
    ensures UniqueKeys(Upsert(rows, p, a, period, cost)) && NonNegative(Upsert(rows, p, a, period, cost))
  {
    if rows != [] {
      var r, after := rows[0], Upsert(rows, p, a, period, cost);
      if KeyedBy(r, p, a, period) {
        assert after[1..] == rows[1..];
      } else {
        UpsertKeeps(rows[1..], p, a, period, cost);
        UpsertHasKey(rows[1..], p, a, period, cost, r.provider, r.alias, r.period);
        assert after[1..] == Upsert(rows[1..], p, a, period, cost);
      }
    }
  }

  lemma {:induction false} AbsentKeyHasNoUsage(rows: seq<Row>, provider: string, alias: string, period: string)
    requires !HasKey(rows, provider, alias, period)
    ensures Usage(rows, provider, Some(alias), period) == 0.0
  {
    if rows != [] {
      AbsentKeyHasNoUsage(rows[1..], provider, alias, period);
    }
  }

  /** A row holds the whole usage of its key and period. */
  lemma {:induction false} RowIsUsage(rows: seq<Row>, i: nat)
    requires UniqueKeys(rows) && i < |rows|
    ensures Usage(rows, rows[i].provider, Some(rows[i].alias), rows[i].period) == rows[i].total
  {
    if i == 0 {
      AbsentKeyHasNoUsage(rows[1..], rows[0].provider, rows[0].alias, rows[0].period);
    } else {
      RowIsUsage(rows[1..], i - 1);
      KeyOfRow(rows[1..], i - 1);
    }
  }

  lemma {:induction false} KeyOfRow(rows: seq<Row>, i: nat)
    requires i < |rows|
    ensures HasKey(rows, rows[i].provider, rows[i].alias, rows[i].period)
  {
    if i > 0 {
      KeyOfRow(rows[1..], i - 1);
    }
  }

  lemma PostKeeps(rows: seq<Row>, c: Charge)
    requires UniqueKeys(rows) && NonNegative(rows) && c.cost >= 0.0
    ensures UniqueKeys(Post(rows, c)) && NonNegative(Post(rows, c))
  {
    UpsertKeeps(rows, c.provider, c.alias, MonthText(c.on), c.cost);
    UpsertKeeps(Upsert(rows, c.provider, c.alias, MonthText(c.on), c.cost), c.provider, c.alias, DayText(c.on), c.cost);
  }

  /** A charge adds its cost to its own month and day, of its provider and its key, and to
      nothing else. */
  lemma PostAdds(rows: seq<Row>, c: Charge, provider: string, alias: Option<string>, d: Date)
    ensures Usage(Post(rows, c), provider, alias, MonthText(d)) ==
            Usage(rows, provider, alias, MonthText(d)) + if Concerns(c, provider, alias) && SameMonth(c.on, d) then c.cost else 0.0
    ensures Usage(Post(rows, c), provider, alias, DayText(d)) ==
            Usage(rows, provider, alias, DayText(d)) + if Concerns(c, provider, alias) && c.on == d then c.cost else 0.0
  {
    var once := Upsert(rows, c.provider, c.alias, MonthText(c.on), c.cost);
    MonthTextOrder(c.on, d);
    DayTextOrder(c.on, d);
    DayTextOrder(d, c.on);
    UpsertAdds(rows, c.provider, c.alias, MonthText(c.on), c.cost, provider, alias, MonthText(d));
    UpsertAdds(rows, c.provider, c.alias, MonthText(c.on), c.cost, provider, alias, DayText(d));
    UpsertAdds(once, c.provider, c.alias, DayText(c.on), c.cost, provider, alias, MonthText(d));
    UpsertAdds(once, c.provider, c.alias, DayText(c.on), c.cost, provider, alias, DayText(d));
  }

  predicate Concerns(c: Charge, provider: string, alias: Option<string>) {
    c.provider == provider && (alias.None? || c.alias == alias.value)
  }

  function SumOfMonth(charges: seq<Charge>, provider: string, alias: Option<string>, d: Date): real {
    if charges == [] then 0.0
    else
      var c := charges[|charges| - 1];
      SumOfMonth(charges[..|charges| - 1], provider, alias, d)
      + if Concerns(c, provider, alias) && SameMonth(c.on, d) then c.cost else 0.0
  }

  function SumOfDay(charges: seq<Charge>, provider: string, alias: Option<string>, d: Date): real {
    if charges == [] then 0.0
    else
      var c := charges[|charges| - 1];
      SumOfDay(charges[..|charges| - 1], provider, alias, d)
      + if Concerns(c, provider, alias) && c.on == d then c.cost else 0.0
  }

  /** Over any run of committed charges, the usage of a provider or of one of its keys in a
      month or a day is the sum of what was charged to it then. */
  lemma {:induction false} LedgerConserves(charges: seq<Charge>, provider: string, alias: Option<string>, d: Date)
    ensures Usage(PostAll(charges), provider, alias, MonthText(d)) == SumOfMonth(charges, provider, alias, d)
    ensures Usage(PostAll(charges), provider, alias, DayText(d)) == SumOfDay(charges, provider, alias, d)
  {
    if charges != [] {
      LedgerConserves(charges[..|charges| - 1], provider, alias, d);
      PostAdds(PostAll(charges[..|charges| - 1]), charges[|charges| - 1], provider, alias, d);
    }
  }

  lemma {:induction false} TableStaysKeyed(charges: seq<Charge>)
    requires forall i :: 0 <= i < |charges| ==> charges[i].cost >= 0.0
    ensures UniqueKeys(PostAll(charges)) && NonNegative(PostAll(charges))
  {
    if charges != [] {
      TableStaysKeyed(charges[..|charges| - 1]);
      PostKeeps(PostAll(charges[..|charges| - 1]), charges[|charges| - 1]);
    }
  }

  /** Each row holds exactly the sum of its key's charges in its period. */
  lemma EveryRowIsItsSum(charges: seq<Charge>, i: nat, d: Date)
    requires forall j :: 0 <= j < |charges| ==> charges[j].cost >= 0.0
    requires i < |PostAll(charges)|
    ensures var r := PostAll(charges)[i];
            && (r.period == MonthText(d) ==> r.total == SumOfMonth(charges, r.provider, Some(r.alias), d))
            && (r.period == DayText(d) ==> r.total == SumOfDay(charges, r.provider, Some(r.alias), d))
  {
    var r := PostAll(charges)[i];
    TableStaysKeyed(charges);
    RowIsUsage(PostAll(charges), i);
    LedgerConserves(charges, r.provider, Some(r.alias), d);
  }

  /** The usage of the first `n` days of a date's month. */
  function UsageOfDays(rows: seq<Row>, provider: string, alias: Option<string>, d: Date, n: nat): real
    requires n <= 31
  {
    if n == 0 then 0.0
    else UsageOfDays(rows, provider, alias, d, n - 1)
         + Usage(rows, provider, alias, DayText(CivilDate(d.year, d.month, n)))
  }

  lemma {:induction false} PostAddsToOneDay(rows: seq<Row>, c: Charge, provider: string, alias: Option<string>,
                                            d: Date, n: nat)
    requires n <= 31
    ensures UsageOfDays(Post(rows, c), provider, alias, d, n) ==
            UsageOfDays(rows, provider, alias, d, n)
            + if Concerns(c, provider, alias) && SameMonth(c.on, d) && c.on.day <= n then c.cost else 0.0
  {
    if n > 0 {
      PostAddsToOneDay(rows, c, provider, alias, d, n - 1);
      PostAdds(rows, c, provider, alias, CivilDate(d.year, d.month, n));
    }
  }

  lemma {:induction false} NoDaysNoUsage(provider: string, alias: Option<string>, d: Date, n: nat)
    requires n <= 31
    ensures UsageOfDays([], provider, alias, d, n) == 0.0
  {
    if n > 0 {
      NoDaysNoUsage(provider, alias, d, n - 1);
    }
  }

  /** The days of a month add up to the month. */
  lemma {:induction false} DaysSumToMonth(charges: seq<Charge>, provider: string, alias: Option<string>, d: Date)
    ensures UsageOfDays(PostAll(charges), provider, alias, d, 31) == Usage(PostAll(charges), provider, alias, MonthText(d))
  {
    if charges == [] {
      NoDaysNoUsage(provider, alias, d, 31);
    } else {
      var before, c := PostAll(charges[..|charges| - 1]), charges[|charges| - 1];
      DaysSumToMonth(charges[..|charges| - 1], provider, alias, d);
      PostAddsToOneDay(before, c, provider, alias, d, 31);
      PostAdds(before, c, provider, alias, d);
    }
  }

  function UsageOfAliases(rows: seq<Row>, provider: string, aliases: seq<string>, period: string): real {
    if aliases == [] then 0.0
    else Usage(rows, provider, Some(aliases[0]), period) + UsageOfAliases(rows, provider, aliases[1..], period)
  }

  predicate Distinct(aliases: seq<string>) {
    forall i, j :: 0 <= i < j < |aliases| ==> aliases[i] != aliases[j]
  }

  lemma {:induction false} RowCountsOnce(r: Row, rest: seq<Row>, provider: string, aliases: seq<string>,
                                         period: string)
    requires Distinct(aliases)
    ensures UsageOfAliases([r] + rest, provider, aliases, period) ==
            UsageOfAliases(rest, provider, aliases, period)
            + if Counts(r, provider, None, period) && r.alias in aliases then r.total else 0.0
  {
    assert ([r] + rest)[1..] == rest;
    if aliases != [] {
      RowCountsOnce(r, rest, provider, aliases[1..], period);
      assert r.alias in aliases <==> r.alias == aliases[0] || r.alias in aliases[1..];
    }
  }

  lemma {:induction false} NoRowsNoUsage(provider: string, aliases: seq<string>, period: string)
    ensures UsageOfAliases([], provider, aliases, period) == 0.0
  {
    if aliases != [] {
      NoRowsNoUsage(provider, aliases[1..], period);
    }
  }

  /** A provider's usage is the sum of its keys' usages. */
  lemma {:induction false} ProviderIsSumOfKeys(rows: seq<Row>, provider: string, aliases: seq<string>, period: string)
    requires Distinct(aliases) && forall r :: r in rows && r.provider == provider ==> r.alias in aliases
    ensures Usage(rows, provider, None, period) == UsageOfAliases(rows, provider, aliases, period)
  {
    if rows == [] {
      NoRowsNoUsage(provider, aliases, period);
    } else {
      assert rows == [rows[0]] + rows[1..];
      RowCountsOnce(rows[0], rows[1..], provider, aliases, period);
      ProviderIsSumOfKeys(rows[1..], provider, aliases, period);
    }
  }

  // ------------------------------------------------------------------ pruning

  lemma {:induction false} UsageIsNonNegative(rows: seq<Row>, provider: string, alias: Option<string>, period: string)
    requires NonNegative(rows)
    ensures Usage(rows, provider, alias, period) >= 0.0
  {
    if rows != [] {
      UsageIsNonNegative(rows[1..], provider, alias, period);
    }
  }

  lemma {:induction false} WithoutUsage(rows: seq<Row>, drop: Row -> bool, provider: string,
                                        alias: Option<string>, period: string)
    requires NonNegative(rows)
    ensures NonNegative(Without(rows, drop))
    ensures Usage(Without(rows, drop), provider, alias, period) <= Usage(rows, provider, alias, period)
    ensures (forall r: Row :: r.period == period ==> !drop(r)) ==>
              Usage(Without(rows, drop), provider, alias, period) == Usage(rows, provider, alias, period)
  {
    if rows != [] {
      WithoutUsage(rows[1..], drop, provider, alias, period);
      if !drop(rows[0]) {
        assert Without(rows, drop)[1..] == Without(rows[1..], drop);
      } else {
        assert Without(rows, drop) == Without(rows[1..], drop);
      }
    }
  }

  lemma {:induction false} InWithout(rows: seq<Row>, drop: Row -> bool, r: Row)
    ensures multiset(Without(rows, drop))[r] == if drop(r) then 0 else multiset(rows)[r]
  {
    if rows != [] {
      InWithout(rows[1..], drop, r);
      assert rows == [rows[0]] + rows[1..];
    }
  }

  /** Pruning drops every row that has been outlived, and no other. */
  lemma PruneDropsTheOutlived(rows: seq<Row>, cutoff: Date, r: Row)
    ensures multiset(Prune(rows, cutoff))[r] == if Outlived(r, cutoff) then 0 else multiset(rows)[r]
  {
    InWithout(rows, (r: Row) => Outlived(r, cutoff), r);
  }

  /** Pruning keeps the usage of a period that has not been outlived, and never raises any. */
  lemma PruneUsage(rows: seq<Row>, cutoff: Date, provider: string, alias: Option<string>, period: string)
    requires NonNegative(rows)
    ensures NonNegative(Prune(rows, cutoff))
    ensures Usage(Prune(rows, cutoff), provider, alias, period) <= Usage(rows, provider, alias, period)
    ensures !Outlived(Row(provider, "", period, 0.0), cutoff) ==>
              Usage(Prune(rows, cutoff), provider, alias, period) == Usage(rows, provider, alias, period)
  {
    WithoutUsage(rows, (r: Row) => Outlived(r, cutoff), provider, alias, period);
  }

  /** Pruning with any retention leaves the current day and the current month alone. */
  lemma PruneKeepsCurrentPeriods(rows: seq<Row>, cutoff: Date, today: Date, provider: string, alias: Option<string>)
    requires NonNegative(rows) && NotBefore(today, cutoff)
    ensures Usage(Prune(rows, cutoff), provider, alias, DayText(today)) == Usage(rows, provider, alias, DayText(today))
    ensures Usage(Prune(rows, cutoff), provider, alias, MonthText(today)) == Usage(rows, provider, alias, MonthText(today))
  {
    DayTextOrder(today, cutoff);
    MonthTextOrder(today, cutoff);
    PruneUsage(rows, cutoff, provider, alias, DayText(today));
    PruneUsage(rows, cutoff, provider, alias, MonthText(today));
  }

  /** What pruning drops is exactly what lies before the cutoff's day or month. */
  lemma PruneDropsExactlyTheOlder(d: Date, cutoff: Date, provider: string, alias: string, total: real)
    ensures Outlived(Row(provider, alias, DayText(d), total), cutoff) <==> Before(d, cutoff)
    ensures Outlived(Row(provider, alias, MonthText(d), total), cutoff) <==> EarlierMonth(d, cutoff)
  {
    DayTextOrder(d, cutoff);
    MonthTextOrder(d, cutoff);
  }
}
