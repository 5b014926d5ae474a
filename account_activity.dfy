/**
 * finance/gui/widgets/account_activity.py, the arithmetic behind the two
 * account views: `AccountWidget.draw_account` builds the twelve-slot profile
 * of an account (slot = pay month, no `- 1`), its averages and a running
 * balance lifted so that its lowest point is zero; `MonthlyMovements`
 * groups the account's expense entries by pay month and lists one month
 * sorted by payment period, with the total of the payment sizes.
 *
 * The Qt widgets and the block selection are not modelled; a label is the
 * month name `MonthNames` gives for its column.
 */
module AccountActivity {
  import opened Wrappers
  import opened Records
  import opened MonthlyOverview
  import Sorting

  // ---------------------------------------------------------------------------
  // AccountWidget.draw_account

  /** The running balance before the lift: slot 0 pays its expense, each later slot adds its income and pays its expense. */
  ghost function Raw(expenses: seq<real>, incomes: seq<real>, i: nat): real
    requires i < |expenses| && i < |incomes|
  {
    if i == 0 then -expenses[0] else Raw(expenses, incomes, i - 1) - expenses[i] + incomes[i]
  }

  /** A balance whose lowest point is exactly zero. */
  ghost predicate Lifted(saldos: seq<real>)
  {
    (forall i :: 0 <= i < |saldos| ==> saldos[i] >= 0.0) && (exists k :: 0 <= k < |saldos| && saldos[k] == 0.0)
  }

  /** From slot 1 on, each slot is the one before it minus its expense plus its income. */
  ghost predicate Steps(saldos: seq<real>, expenses: seq<real>, incomes: seq<real>)
    requires |saldos| <= |expenses| && |saldos| <= |incomes|
  {
    forall i :: 1 <= i < |saldos| ==> saldos[i] == saldos[i - 1] - expenses[i] + incomes[i]
  }

  /**
   * The saldo column: the running balance, then `saldos -= min(saldos)`.
   * Every slot ends up at least zero, one slot at exactly zero, and the
   * month-to-month changes are those of the raw balance.
   */
  method RunningBalance(expenses: seq<real>, incomes: seq<real>) returns (saldos: array<real>)
    requires |expenses| == 12 && |incomes| == 12
    ensures fresh(saldos) && saldos.Length == 12
    ensures Lifted(saldos[..])
    ensures Steps(saldos[..], expenses, incomes)
    ensures forall i, j :: 0 <= i < 12 && 0 <= j < 12 ==>
      saldos[i] - saldos[j] == Raw(expenses, incomes, i) - Raw(expenses, incomes, j)
  {
    saldos := new real[12](_ => 0.0);
    FillRaw(expenses, incomes, saldos);
    var offset, at := Lowest(saldos[..]);
    forall i | 0 <= i < 12 {
      saldos[i] := saldos[i] - offset;
    }
    assert saldos[..][at] == 0.0;
  }

  /** The running-balance loop: slot 0 from the first expense, every later slot from the one before it. */
  method FillRaw(expenses: seq<real>, incomes: seq<real>, saldos: array<real>)
    requires |expenses| == 12 && |incomes| == 12 && saldos.Length == 12
    modifies saldos
    ensures forall k :: 0 <= k < 12 ==> saldos[k] == Raw(expenses, incomes, k)
  {
    saldos[0] := -expenses[0];
    for i := 1 to 12
      invariant forall k :: 0 <= k < i ==> saldos[k] == Raw(expenses, incomes, k)
    {
      saldos[i] := saldos[i - 1] - expenses[i] + incomes[i];
    }
  }

  /** Python's `min`: the first least value of a non-empty sequence, and where it is. */
  method Lowest(s: seq<real>) returns (low: real, at: nat)
    requires s != []
    ensures at < |s| && s[at] == low
    ensures forall k :: 0 <= k < |s| ==> low <= s[k]
    ensures forall k :: 0 <= k < at ==> low < s[k]
  {
    low, at := s[0], 0;
    for i := 1 to |s|
      invariant at < i && s[at] == low
      invariant forall k :: 0 <= k < i ==> low <= s[k]
      invariant forall k :: 0 <= k < at ==> low < s[k]
    {
      if s[i] < low {
        low, at := s[i], i;
      }
    }
  }

  /**
   * A lifted balance is fixed by its month-to-month changes: two lifted
   * balances with the same steps are equal. In particular the income of
   * slot 0, which the raw balance leaves out, could not change the column.
   */
  lemma {:induction false} BalanceUnique(s: seq<real>, t: seq<real>, expenses: seq<real>, incomes: seq<real>)
    requires |s| == |t| && |s| <= |expenses| && |s| <= |incomes|
    requires Lifted(s) && Lifted(t)
    requires Steps(s, expenses, incomes) && Steps(t, expenses, incomes)
    ensures s == t
  {
    var d := t[0] - s[0];
    forall i | 0 <= i < |s| ensures t[i] == s[i] + d {
      StepsShift(s, t, expenses, incomes, i);
    }
    var ks :| 0 <= ks < |s| && s[ks] == 0.0;
    var kt :| 0 <= kt < |t| && t[kt] == 0.0;
    assert t[ks] == d && t[ks] >= 0.0;
    assert s[kt] == -d && s[kt] >= 0.0;
  }

  lemma {:induction false} StepsShift(s: seq<real>, t: seq<real>, expenses: seq<real>, incomes: seq<real>, i: nat)
    requires |s| == |t| && |s| <= |expenses| && |s| <= |incomes| && i < |s|
    requires Steps(s, expenses, incomes) && Steps(t, expenses, incomes)
    ensures t[i] - s[i] == t[0] - s[0]
  {
    if i > 0 {
      StepsShift(s, t, expenses, incomes, i - 1);
    }
  }

  /**
   * draw_account(account): the account's profile with each pay month m
   * written at slot m, the two averages over the twelve slots, and the
   * lifted running balance.
   */
  method DrawAccount(d: BudgetDoc, account: string)
    returns (expenses: array<real>, incomes: array<real>, averageExpense: real, averageIncome: real, saldos: array<real>)
    requires PeriodicFor(AllEntries(d.expenses), {account})
    ensures fresh(expenses) && fresh(incomes) && fresh(saldos)
    ensures expenses.Length == 12 && incomes.Length == 12 && saldos.Length == 12
    ensures forall s :: 0 <= s < 12 ==>
      expenses[s] == Load(AllEntries(d.expenses), account, s, 0) + Sent(d.transfers, account)
    ensures forall s :: 0 <= s < 12 ==> incomes[s] == Incoming(d.transfers, account)
    ensures averageExpense == Average(expenses[..]) && averageIncome == Average(incomes[..])
    ensures Lifted(saldos[..]) && Steps(saldos[..], expenses[..], incomes[..])
  {
    expenses, incomes := Accumulate(d, account, 0);
    averageExpense := Sum(expenses[..]) / 12.0;
    averageIncome := Sum(incomes[..]) / 12.0;
    ghost var spent, earned := expenses[..], incomes[..];
    saldos := RunningBalance(expenses[..], incomes[..]);
    assert expenses[..] == spent && incomes[..] == earned;
  }

  /**
   * The slot-m placement shows a yearly January payment (first payment
   * month 1) in the row MONTHS names "Februar", and nothing in "Januar".
   */
  lemma JanuaryShownInFebruary(e: EntryDoc)
    requires e.paymentPeriod == 12 && e.firstPaymentMonth == 1
    ensures Load([e], e.account, 1, 0) == Charge(e) && MonthNames[1] == "Februar"
    ensures Load([e], e.account, 0, 0) == 0.0 && MonthNames[0] == "Januar"
  {
    YearlyPlacement(e, 0, 1);
    YearlyPlacement(e, 0, 0);
  }

  // ---------------------------------------------------------------------------
  // MonthlyMovements.draw_account

  /** The sort key: `lambda e: e.payment_period`. */
  function Period(e: EntryDoc): int
  {
    e.paymentPeriod
  }

  /** The sum of the payment sizes, in list order. */
  function SizeSum(es: seq<EntryDoc>): real
  {
    if es == [] then 0.0 else SizeSum(es[..|es| - 1]) + es[|es| - 1].paymentSize
  }

  /**
   * The grouping of the movements tab: every expense entry of the account
   * with a positive payment size under each of its pay months, December as
   * month 0.
   */
  method MovementGroups(d: BudgetDoc, account: string) returns (groups: map<int, seq<EntryDoc>>)
    requires PeriodicFor(AllEntries(d.expenses), {account})
    ensures forall m :: m in groups <==> Listed(AllEntries(d.expenses), account, m) != []
    ensures forall m :: m in groups ==> groups[m] == Listed(AllEntries(d.expenses), account, m)
  {
    groups := GroupMonths(AllEntries(d.expenses), account, None);
  }

  /**
   * One month's table: `groups[month]` (empty when absent) sorted by
   * payment period, equal periods keeping their order, and the total of
   * the payment sizes.
   */
  method MonthRows(groups: map<int, seq<EntryDoc>>, month: int) returns (rows: seq<EntryDoc>, total: real)
    ensures var entries := if month in groups then groups[month] else [];
      Sorting.SortedBy(rows, Period) && multiset(rows) == multiset(entries)
      && forall k :: Sorting.WithKey(rows, Period, k) == Sorting.WithKey(entries, Period, k)
    ensures total == SizeSum(if month in groups then groups[month] else [])
  {
    var entries := if month in groups then groups[month] else [];
    rows := Sorting.SortBy(entries, Period);
    total := 0.0;
    for r := 0 to |rows|
      invariant total == SizeSum(rows[..r])
    {
      assert rows[..r + 1][..r] == rows[..r];
      total := total + rows[r].paymentSize;
    }
    assert rows[..|rows|] == rows;
    SortKeepsSize(entries);
    forall k ensures Sorting.WithKey(rows, Period, k) == Sorting.WithKey(entries, Period, k) {
      Sorting.SortStable(entries, Period, k);
    }
  }

  /**
   * The movements tab labels column c with MonthNames[c] but fills it with
   * `groups[c]`, keyed by pay month with December as 0: a yearly payment
   * first due in December is listed in the column named "Januar", and not
   * in the one named "December".
   */
  lemma DecemberListedUnderJanuary(e: EntryDoc)
    requires e.paymentPeriod == 12 && e.firstPaymentMonth == 12 && e.paymentSize > 0.0
    ensures Listed([e], e.account, 0) == [e] && MonthNames[0] == "Januar"
    ensures Listed([e], e.account, 11) == [] && MonthNames[11] == "December"
  {
    YearlyMonths(e);
    assert PayMonths(e) == [0];
    assert [e][..0] == [];
    assert Listed([e], e.account, 0) == Listed([], e.account, 0) + [e];
    assert Listed([e], e.account, 11) == Listed([], e.account, 11) + [];
  }

  /** The pay month the column labelled MonthNames[column] is meant to list: the label's month, December as 0. */
  function ColumnMonth(column: int): (m: int)
    requires 0 <= column < 12
    ensures 0 <= m < 12 && (m == 0 <==> column == 11)
  {
    (column + 1) % 12
  }

  /** A yearly payment first due in month f (1 = January .. 12 = December) shows in column f - 1 and in no other. */
  lemma YearlyInItsColumn(e: EntryDoc, column: int)
    requires e.paymentPeriod == 12 && 1 <= e.firstPaymentMonth <= 12 && e.paymentSize > 0.0
    requires 0 <= column < 12
    ensures Listed([e], e.account, ColumnMonth(column)) == if column == e.firstPaymentMonth - 1 then [e] else []
  {
    YearlyMonths(e);
    assert [e][..0] == [];
    assert ColumnMonth(column) == if column == 11 then 0 else column + 1;
    assert e.firstPaymentMonth % 12 == if e.firstPaymentMonth == 12 then 0 else e.firstPaymentMonth;
  }

  /** One column's table with the label and the contents agreeing: the month MonthNames[column] names. */
  method ColumnRows(groups: map<int, seq<EntryDoc>>, column: int) returns (rows: seq<EntryDoc>, total: real)
    requires 0 <= column < 12
    ensures var entries := if ColumnMonth(column) in groups then groups[ColumnMonth(column)] else [];
      Sorting.SortedBy(rows, Period) && multiset(rows) == multiset(entries)
      && forall k :: Sorting.WithKey(rows, Period, k) == Sorting.WithKey(entries, Period, k)
    ensures total == SizeSum(if ColumnMonth(column) in groups then groups[ColumnMonth(column)] else [])
  {
    rows, total := MonthRows(groups, ColumnMonth(column));
  }

  lemma {:induction false} SizeSumCons(x: EntryDoc, s: seq<EntryDoc>)
    ensures SizeSum([x] + s) == x.paymentSize + SizeSum(s)
  {
    if s != [] {
      SizeSumCons(x, s[..|s| - 1]);
      assert ([x] + s)[..|s|] == [x] + s[..|s| - 1];
    } else {
      assert [x] + s == [x];
      assert [x][..0] == [];
    }
  }

  lemma {:induction false} InsertKeepsSize(x: EntryDoc, s: seq<EntryDoc>)
    requires Sorting.SortedBy(s, Period)
    ensures SizeSum(Sorting.Insert(x, s, Period)) == x.paymentSize + SizeSum(s)
  {
    if s == [] || Period(x) <= Period(s[0]) {
      SizeSumCons(x, s);
    } else {
      assert Sorting.SortedBy(s[1..], Period);
      InsertKeepsSize(x, s[1..]);
      SizeSumCons(s[0], Sorting.Insert(x, s[1..], Period));
      SizeSumCons(s[0], s[1..]);
      assert s == [s[0]] + s[1..];
    }
  }

  /** Sorting does not change the total. */
  lemma {:induction false} SortKeepsSize(s: seq<EntryDoc>)
    ensures SizeSum(Sorting.SortBy(s, Period)) == SizeSum(s)
  {
    if s != [] {
      SortKeepsSize(s[1..]);
      InsertKeepsSize(s[0], Sorting.SortBy(s[1..], Period));
      SizeSumCons(s[0], s[1..]);
      assert s == [s[0]] + s[1..];
    }
  }
}
