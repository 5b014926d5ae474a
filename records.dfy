/**
 * The value side of finance/model/entry.py: the tree that `Budget.to_dict`
 * produces (one datatype per dataclass) and the derived values that are pure
 * expressions over it: `Entry.monthly`, `Entry.pay_months`,
 * `EntryGroup.total_monthly`, `Budget.total_monthly`/`total_monthly_income`,
 * `Budget.all_expenses`/`all_incomes`, and `Budget.calculate_balances`, which
 * reads nothing but these values.
 *
 * Money is `real`; Python's floats and their rounding are not modelled.
 */
module Records {
  import opened Wrappers
  import Sorting

  /** AccountType: Forbrug, Opsparing, Lønkonto, Budget. */
  datatype AccountType = Spending | Savings | Income | BudgetPool

  datatype EntryDoc = EntryDoc(
    name: string,
    paymentSize: real,
    paymentPeriod: int,
    firstPaymentMonth: int,
    paymentFee: real,
    paymentMethod: string,
    account: string,
    tag: string,
    owner: string)

  datatype GroupDoc = GroupDoc(name: string, entries: seq<EntryDoc>)

  datatype TransferDoc = TransferDoc(name: string, source: string, destination: string, amount: real, owner: string)

  datatype AccountDoc = AccountDoc(name: string, owner: string, kind: AccountType)

  /** `dataclasses.asdict(budget)`: every dataclass field, `path` included. */
  datatype BudgetDoc = BudgetDoc(
    name: string,
    expenses: seq<GroupDoc>,
    incomes: seq<GroupDoc>,
    transfers: seq<TransferDoc>,
    budgetAccounts: seq<string>,
    accounts: seq<AccountDoc>,
    path: Option<string>)

  // ---------------------------------------------------------------------------
  // Entry.monthly and Entry.pay_months

  /** Entry.monthly: the payment and its fee spread evenly over the period. */
  function Monthly(e: EntryDoc): (r: real)
    requires e.paymentPeriod != 0
    ensures r * e.paymentPeriod as real == e.paymentSize + e.paymentFee
  {
    (e.paymentSize + e.paymentFee) / e.paymentPeriod as real
  }

  /**
   * `len(range(12 // period))`. Floor division of 12 by a negative period is
   * negative, so such a range is empty.
   */
  function Occurrences(period: int): nat
    requires period != 0
  {
    if period > 0 then 12 / period else 0
  }

  /** The pay months in generation order: (first + k * period) % 12 for each k. */
  function Schedule(e: EntryDoc): seq<int>
    requires e.paymentPeriod != 0
  {
    seq(Occurrences(e.paymentPeriod), k => (e.firstPaymentMonth + k * e.paymentPeriod) % 12)
  }

  /**
   * Entry.pay_months: the schedule, sorted. Months are taken mod 12, so the
   * result lies in 0..11 and December (12) is reported as 0.
   */
  function PayMonths(e: EntryDoc): (r: seq<int>)
    requires e.paymentPeriod != 0
    ensures |r| == Occurrences(e.paymentPeriod)
    ensures Sorting.Ascending(r)
    ensures multiset(r) == multiset(Schedule(e))
    ensures forall i :: 0 <= i < |r| ==> 0 <= r[i] < 12
  {
    var s := Schedule(e);
    var r := Sorting.SortBy(s, Sorting.Self);
    Sorting.SortedBySelf(r);
    assert forall i :: 0 <= i < |r| ==> r[i] in multiset(s);
    r
  }

  lemma ProductBound(k: int, p: int, c: int)
    requires 0 < p && 0 <= k < c && c == 12 / p
    ensures 0 <= k * p < 12
  {
    assert k * p <= (c - 1) * p;
    assert c * p <= 12;
  }

  /** Distinct offsets of one schedule fall in distinct months. */
  lemma ScheduleDistinct(e: EntryDoc)
    requires e.paymentPeriod != 0
    ensures forall i, j :: 0 <= i < j < |Schedule(e)| ==> Schedule(e)[i] != Schedule(e)[j]
  {
    var s := Schedule(e);
    var p, f := e.paymentPeriod, e.firstPaymentMonth;
    forall i, j | 0 <= i < j < |s| ensures s[i] != s[j] {
      var c := Occurrences(p);
      assert p > 0 && c == 12 / p;
      ProductBound(j - i, p, c);
      var a, b := f + i * p, f + j * p;
      assert b - a == (j - i) * p;
      CloseMonthsDiffer(a, b);
    }
  }

  lemma CloseMonthsDiffer(a: int, b: int)
    requires 0 < b - a < 12
    ensures a % 12 != b % 12
  {
  }

  lemma {:induction false} DistinctCounts(s: seq<int>)
    requires forall i, j :: 0 <= i < j < |s| ==> s[i] != s[j]
    ensures forall v :: multiset(s)[v] <= 1
  {
    if s != [] {
      DistinctCounts(s[1..]);
      assert s == [s[0]] + s[1..];
      assert s[0] !in s[1..];
      assert multiset(s) == multiset{s[0]} + multiset(s[1..]);
    }
  }

  lemma TwoCopies(s: seq<int>, i: int, j: int)
    requires 0 <= i < j < |s| && s[i] == s[j]
    ensures multiset(s)[s[i]] >= 2
  {
    assert s == s[..j] + s[j..];
    assert s[i] in s[..j];
    assert s[j..][0] == s[j];
    assert multiset(s) == multiset(s[..j]) + multiset(s[j..]);
  }

  /** The pay months are strictly ascending: no month is reported twice. */
  lemma PayMonthsStrict(e: EntryDoc)
    requires e.paymentPeriod != 0
    ensures forall i, j :: 0 <= i < j < |PayMonths(e)| ==> PayMonths(e)[i] < PayMonths(e)[j]
  {
    var r := PayMonths(e);
    ScheduleDistinct(e);
    DistinctCounts(Schedule(e));
    forall i, j | 0 <= i < j < |r| ensures r[i] < r[j] {
      if r[i] == r[j] {
        TwoCopies(r, i, j);
        assert false;
      }
    }
  }

  /** A quarterly entry first paid in February: [2, 5, 8, 11]. */
  lemma PayMonthsQuarterly(e: EntryDoc)
    requires e.paymentPeriod == 3 && e.firstPaymentMonth == 2
    ensures PayMonths(e) == [2, 5, 8, 11]
  {
    var s := Schedule(e);
    assert |s| == 4;
    assert s[0] == 2 && s[1] == 5 && s[2] == 8 && s[3] == 11;
    assert Sorting.Ascending(s);
    Sorting.SortedUnique(PayMonths(e), s);
    assert s == [2, 5, 8, 11];
  }

  lemma {:induction false} Climb(r: seq<int>, i: nat, j: nat)
    requires forall a, b :: 0 <= a < b < |r| ==> r[a] < r[b]
    requires i <= j < |r|
    ensures r[j] - r[i] >= j - i
    decreases j - i
  {
    if i < j {
      Climb(r, i + 1, j);
    }
  }

  /**
   * A monthly entry is paid in every month whatever its first month: the pay
   * months are 0..11, December reported as 0.
   */
  lemma PayMonthsEveryMonth(e: EntryDoc)
    requires e.paymentPeriod == 1
    ensures PayMonths(e) == [0, 1, 2, 3, 4, 5, 6, 7, 8, 9, 10, 11]
  {
    var r := PayMonths(e);
    PayMonthsStrict(e);
    assert |r| == 12;
    forall i | 0 <= i < 12 ensures r[i] == i {
      Climb(r, 0, i);
      Climb(r, i, 11);
    }
  }

  /** A yearly entry first paid in July: [7]. */
  lemma PayMonthsYearly(e: EntryDoc)
    requires e.paymentPeriod == 12 && e.firstPaymentMonth == 7
    ensures PayMonths(e) == [7]
  {
    assert Schedule(e) == [7];
    Sorting.SortedUnique(PayMonths(e), [7]);
  }

  // ---------------------------------------------------------------------------
  // Totals and the flattened entry lists

  /** Every entry has a period `monthly()` can divide by. */
  ghost predicate Periodic(es: seq<EntryDoc>)
  {
    forall e :: e in es ==> e.paymentPeriod != 0
  }

  /** EntryGroup.total_monthly: `sum(x.monthly() for x in entries)`. */
  function TotalMonthly(es: seq<EntryDoc>): real
    requires Periodic(es)
  {
    if es == [] then 0.0 else TotalMonthly(es[..|es| - 1]) + Monthly(es[|es| - 1])
  }

  /** Budget.all_expenses / all_incomes: the groups' entries, concatenated in order. */
  function AllEntries(gs: seq<GroupDoc>): seq<EntryDoc>
  {
    if gs == [] then [] else AllEntries(gs[..|gs| - 1]) + gs[|gs| - 1].entries
  }

  /** Budget.total_monthly (over `expenses`) and total_monthly_income (over `incomes`). */
  function GroupsTotal(gs: seq<GroupDoc>): real
    requires forall i :: 0 <= i < |gs| ==> Periodic(gs[i].entries)
  {
    if gs == [] then 0.0 else GroupsTotal(gs[..|gs| - 1]) + TotalMonthly(gs[|gs| - 1].entries)
  }

  lemma {:induction false} TotalMonthlyAppend(a: seq<EntryDoc>, b: seq<EntryDoc>)
    requires Periodic(a) && Periodic(b)
    ensures Periodic(a + b)
    ensures TotalMonthly(a + b) == TotalMonthly(a) + TotalMonthly(b)
    decreases |b|
  {
    if b != [] {
      var b' := b[..|b| - 1];
      assert (a + b)[..|a + b| - 1] == a + b';
      TotalMonthlyAppend(a, b');
    } else {
      assert a + b == a;
    }
  }

  /** Membership in the flattened list: an entry of group `i` at position `j`. */
  lemma {:induction false} AllEntriesMember(gs: seq<GroupDoc>, e: EntryDoc)
    ensures e in AllEntries(gs) <==> exists i :: 0 <= i < |gs| && e in gs[i].entries
  {
    if gs != [] {
      var init := gs[..|gs| - 1];
      AllEntriesMember(init, e);
      assert forall i :: 0 <= i < |init| ==> init[i] == gs[i];
    }
  }

  /** The budget total is the total over the flattened entries. */
  lemma {:induction false} GroupsTotalFlat(gs: seq<GroupDoc>)
    requires forall i :: 0 <= i < |gs| ==> Periodic(gs[i].entries)
    ensures Periodic(AllEntries(gs))
    ensures GroupsTotal(gs) == TotalMonthly(AllEntries(gs))
  {
    if gs != [] {
      var init := gs[..|gs| - 1];
      GroupsTotalFlat(init);
      TotalMonthlyAppend(AllEntries(init), gs[|gs| - 1].entries);
    }
  }

  // ---------------------------------------------------------------------------
  // Per-account sums

  function AccountNames(accounts: seq<AccountDoc>): set<string>
  {
    set a | a in accounts :: a.name
  }

  /** Every entry charged to one of `names` has a period `monthly()` can divide by. */
  ghost predicate PeriodicFor(es: seq<EntryDoc>, names: set<string>)
  {
    forall e :: e in es && e.account in names ==> e.paymentPeriod != 0
  }

  /** The sum of `monthly()` over the entries charged to account `n`. */
  function MonthlyFor(es: seq<EntryDoc>, n: string): real
    requires PeriodicFor(es, {n})
  {
    if es == [] then 0.0
    else
      var e := es[|es| - 1];
      MonthlyFor(es[..|es| - 1], n) + (if e.account == n then Monthly(e) else 0.0)
  }

  /** The sum of the amounts of the transfers leaving account `n`. */
  function Sent(ts: seq<TransferDoc>, n: string): real
  {
    if ts == [] then 0.0
    else Sent(ts[..|ts| - 1], n) + (if ts[|ts| - 1].source == n then ts[|ts| - 1].amount else 0.0)
  }

  /** The sum of the amounts of the transfers arriving at account `n`. */
  function Received(ts: seq<TransferDoc>, n: string): real
  {
    if ts == [] then 0.0
    else Received(ts[..|ts| - 1], n) + (if ts[|ts| - 1].destination == n then ts[|ts| - 1].amount else 0.0)
  }

  /** Splitting the entry list splits each account's monthly sum. */
  lemma {:induction false} MonthlyForAppend(a: seq<EntryDoc>, b: seq<EntryDoc>, n: string)
    requires PeriodicFor(a, {n}) && PeriodicFor(b, {n})
    ensures PeriodicFor(a + b, {n})
    ensures MonthlyFor(a + b, n) == MonthlyFor(a, n) + MonthlyFor(b, n)
    decreases |b|
  {
    if b != [] {
      var b' := b[..|b| - 1];
      assert (a + b)[..|a + b| - 1] == a + b';
      MonthlyForAppend(a, b', n);
    } else {
      assert a + b == a;
    }
  }

  /** An entry charged to an account outside `names` adds to no account of `names`. */
  lemma {:induction false} MonthlyForUnmatched(es: seq<EntryDoc>, n: string)
    requires forall i :: 0 <= i < |es| ==> es[i].account != n
    ensures MonthlyFor(es, n) == 0.0
  {
    if es != [] {
      MonthlyForUnmatched(es[..|es| - 1], n);
    }
  }

  /** A self-transfer leaves and enters the same account with the same amount. */
  lemma {:induction false} SelfTransfersCancel(ts: seq<TransferDoc>, n: string)
    requires forall i :: 0 <= i < |ts| ==> ts[i].source == n && ts[i].destination == n
    ensures Received(ts, n) - Sent(ts, n) == 0.0
  {
    if ts != [] {
      SelfTransfersCancel(ts[..|ts| - 1], n);
    }
  }

  // ---------------------------------------------------------------------------
  // Budget.calculate_balances

  /**
   * Budget.calculate_balances: three maps keyed by the account names, each
   * starting at 0. Expenses subtract `monthly()`, incomes add it, a transfer
   * subtracts its amount at the source and adds it at the destination. A name
   * that is not an account name raises KeyError, which is caught: that one
   * contribution is skipped. The lookup happens before `monthly()` is called,
   * so only entries of known accounts must have a non-zero period.
   */
  method CalculateBalances(b: BudgetDoc) returns (expense: map<string, real>, income: map<string, real>, transfer: map<string, real>)
    requires PeriodicFor(AllEntries(b.expenses), AccountNames(b.accounts))
    requires PeriodicFor(AllEntries(b.incomes), AccountNames(b.accounts))
    ensures expense.Keys == income.Keys == transfer.Keys == AccountNames(b.accounts)
    ensures forall n :: n in expense ==> PeriodicFor(AllEntries(b.expenses), {n}) && expense[n] == -MonthlyFor(AllEntries(b.expenses), n)
    ensures forall n :: n in income ==> PeriodicFor(AllEntries(b.incomes), {n}) && income[n] == MonthlyFor(AllEntries(b.incomes), n)
    ensures forall n :: n in transfer ==> transfer[n] == Received(b.transfers, n) - Sent(b.transfers, n)
  {
    var names := AccountNames(b.accounts);
    expense := map n | n in names :: 0.0;
    income := map n | n in names :: 0.0;
    transfer := map n | n in names :: 0.0;
    expense := Tally(b.expenses, names, expense, true);
    income := Tally(b.incomes, names, income, false);
    transfer := Settle(b.transfers, transfer);
  }

  /**
   * The transfer loop of calculate_balances: the source and the destination
   * are looked up independently, and either is skipped when it is not a key.
   */
  method Settle(ts: seq<TransferDoc>, start: map<string, real>) returns (result: map<string, real>)
    requires forall n :: n in start ==> start[n] == 0.0
    ensures result.Keys == start.Keys
    ensures forall n :: n in result ==> result[n] == Received(ts, n) - Sent(ts, n)
  {
    result := start;
    for i := 0 to |ts|
      invariant result.Keys == start.Keys
      invariant forall n :: n in result ==> result[n] == Received(ts[..i], n) - Sent(ts[..i], n)
    {
      var t := ts[i];
      assert ts[..i + 1][..i] == ts[..i];
      ghost var before := result;
      if t.source in result {
        result := result[t.source := result[t.source] - t.amount];
      }
      if t.destination in result {
        result := result[t.destination := result[t.destination] + t.amount];
      }
      forall n | n in result
        ensures result[n] == Received(ts[..i + 1], n) - Sent(ts[..i + 1], n)
      {
        assert Received(ts[..i + 1], n) == Received(ts[..i], n) + (if t.destination == n then t.amount else 0.0);
        assert Sent(ts[..i + 1], n) == Sent(ts[..i], n) + (if t.source == n then t.amount else 0.0);
        assert result[n] == before[n] - (if t.source == n then t.amount else 0.0) + (if t.destination == n then t.amount else 0.0);
      }
    }
    assert ts[..|ts|] == ts;
  }

  /**
   * The two nested loops of calculate_balances over groups and their entries:
   * for each entry charged to one of `names`, subtracts (expenses) or adds
   * (incomes) its `monthly()` in that account's slot of `start`.
   */
  method Tally(gs: seq<GroupDoc>, names: set<string>, start: map<string, real>, subtract: bool) returns (result: map<string, real>)
    requires PeriodicFor(AllEntries(gs), names)
    requires start.Keys == names && forall n :: n in start ==> start[n] == 0.0
    ensures result.Keys == names
    ensures forall n :: n in result ==>
      PeriodicFor(AllEntries(gs), {n}) &&
      result[n] == if subtract then -MonthlyFor(AllEntries(gs), n) else MonthlyFor(AllEntries(gs), n)
  {
    result := start;
    for i := 0 to |gs|
      invariant result.Keys == names
      invariant forall n :: n in result ==>
        PeriodicFor(AllEntries(gs[..i]), {n}) &&
        result[n] == if subtract then -MonthlyFor(AllEntries(gs[..i]), n) else MonthlyFor(AllEntries(gs[..i]), n)
    {
      assert gs[..i + 1][..i] == gs[..i];
      assert AllEntries(gs[..i + 1]) == AllEntries(gs[..i]) + gs[i].entries;
      AllEntriesPrefix(gs, i + 1);
      result := TallyGroup(AllEntries(gs[..i]), gs[i].entries, names, result, subtract);
    }
    assert gs[..|gs|] == gs;
  }

  /** One group of the calculate_balances loops: `result` already holds the sums over `done`. */
  method TallyGroup(done: seq<EntryDoc>, es: seq<EntryDoc>, names: set<string>, start: map<string, real>, subtract: bool)
    returns (result: map<string, real>)
    requires PeriodicFor(done + es, names)
    requires start.Keys == names
    requires forall n :: n in start ==>
      PeriodicFor(done, {n}) && start[n] == if subtract then -MonthlyFor(done, n) else MonthlyFor(done, n)
    ensures result.Keys == names
    ensures forall n :: n in result ==>
      PeriodicFor(done + es, {n}) &&
      result[n] == if subtract then -MonthlyFor(done + es, n) else MonthlyFor(done + es, n)
  {
    result := start;
    assert done + es[..0] == done;
    for j := 0 to |es|
      invariant result.Keys == names
      invariant forall n :: n in result ==>
        PeriodicFor(done + es[..j], {n}) &&
        result[n] == if subtract then -MonthlyFor(done + es[..j], n) else MonthlyFor(done + es[..j], n)
    {
      var e := es[j];
      assert done + es[..j + 1] == (done + es[..j]) + [e];
      assert ((done + es[..j]) + [e])[..|done + es[..j]|] == done + es[..j];
      if e.account in result {
        assert e in done + es;
        result := result[e.account := if subtract then result[e.account] - Monthly(e) else result[e.account] + Monthly(e)];
      }
    }
    assert es[..|es|] == es;
  }

  lemma {:induction false} AllEntriesAppend(a: seq<GroupDoc>, b: seq<GroupDoc>)
    ensures AllEntries(a + b) == AllEntries(a) + AllEntries(b)
    decreases |b|
  {
    if b != [] {
      var b' := b[..|b| - 1];
      assert (a + b)[..|a + b| - 1] == a + b';
      AllEntriesAppend(a, b');
    } else {
      assert a + b == a;
    }
  }

  /** The entries of the first `k` groups are among the entries of all groups. */
  lemma AllEntriesPrefix(gs: seq<GroupDoc>, k: nat)
    requires k <= |gs|
    ensures forall e :: e in AllEntries(gs[..k]) ==> e in AllEntries(gs)
  {
    assert gs == gs[..k] + gs[k..];
    AllEntriesAppend(gs[..k], gs[k..]);
  }
}
