/**
 * finance/utils/monthly_overview.py: the twelve-slot projection of one
 * account. `monthly` spreads the account's expense occurrences and transfers
 * over the months, `expected_saldo` turns a month profile into a running
 * balance that starts after the heaviest month, and `get_monthly_movements`
 * lists the entries paid in each month.
 *
 * The functions read a budget through its `to_dict` value (`BudgetDoc`);
 * numpy arrays of length 12 are `array<real>`.
 */
module MonthlyOverview {
  import opened Wrappers
  import opened Records
  import Sorting

  /** MONTHS: the month names, January first; slot k of a profile is shown as MonthNames[k]. */
  const MonthNames: seq<string> := [
    "Januar", "Februar", "Marts", "April", "Maj", "Juni",
    "Juli", "August", "September", "Oktober", "November", "December"
  ]

  // ---------------------------------------------------------------------------
  // Slot placement

  /** What one payment adds to its month: the payment plus its fee. */
  function Charge(e: EntryDoc): real
  {
    e.paymentSize + e.paymentFee
  }

  /**
   * The element a numpy array of length `n` reaches for index `i`: a negative
   * index counts from the end.
   */
  function PyIndex(i: int, n: nat): (k: nat)
    requires 0 <= i + n && i < n
    ensures k < n
    ensures i >= 0 ==> k == i
    ensures i < 0 ==> k == i + n
  {
    if i < 0 then i + n else i
  }

  /**
   * The slot a pay month is added to when the code writes `arr[m - shift]`:
   * `monthly` uses shift 1, so pay month 0 (December) lands in slot 11; the
   * account widget uses shift 0, the pay month itself.
   */
  function Slot(m: int, shift: nat): (s: nat)
    requires 0 <= m < 12 && shift <= 1
    ensures s < 12
  {
    PyIndex(m - shift, 12)
  }

  /** Every value is a pay month 0..11. */
  ghost predicate Months(ms: seq<int>)
  {
    forall i :: 0 <= i < |ms| ==> 0 <= ms[i] < 12
  }

  /** What `amount`, added once per pay month in `ms`, puts into `slot`. */
  function Spread(ms: seq<int>, slot: int, shift: nat, amount: real): real
    requires shift <= 1 && Months(ms)
  {
    if ms == [] then 0.0
    else Spread(ms[..|ms| - 1], slot, shift, amount) + (if Slot(ms[|ms| - 1], shift) == slot then amount else 0.0)
  }

  /**
   * What the expense entries `es` charged to `account` put into `slot`: the
   * charge of each entry once per pay month landing there.
   */
  function Load(es: seq<EntryDoc>, account: string, slot: int, shift: nat): real
    requires shift <= 1 && PeriodicFor(es, {account})
  {
    if es == [] then 0.0
    else
      var e := es[|es| - 1];
      Load(es[..|es| - 1], account, slot, shift)
        + (if e.account == account then Spread(PayMonths(e), slot, shift, Charge(e)) else 0.0)
  }

  /** The amounts of the transfers into `account` that do not also leave it. */
  function Incoming(ts: seq<TransferDoc>, account: string): real
  {
    if ts == [] then 0.0
    else
      var t := ts[|ts| - 1];
      Incoming(ts[..|ts| - 1], account) + (if t.source != account && t.destination == account then t.amount else 0.0)
  }

  // ---------------------------------------------------------------------------
  // monthly

  /**
   * The accumulation shared by `monthly` (shift 1) and the account widget
   * (shift 0): each matching expense entry adds its charge at the slot of each
   * of its pay months; then a transfer leaving the account adds its amount to
   * every expense slot, and otherwise one arriving at it to every income slot.
   */
  method Accumulate(d: BudgetDoc, account: string, shift: nat) returns (expenses: array<real>, incomes: array<real>)
    requires shift <= 1
    requires PeriodicFor(AllEntries(d.expenses), {account})
    ensures fresh(expenses) && fresh(incomes)
    ensures expenses.Length == 12 && incomes.Length == 12
    ensures forall s :: 0 <= s < 12 ==>
      expenses[s] == Load(AllEntries(d.expenses), account, s, shift) + Sent(d.transfers, account)
    ensures forall s :: 0 <= s < 12 ==> incomes[s] == Incoming(d.transfers, account)
  {
    expenses := new real[12](_ => 0.0);
    incomes := new real[12](_ => 0.0);
    ChargeEntries(AllEntries(d.expenses), account, shift, expenses);
    ChargeTransfers(d.transfers, account, expenses, incomes);
  }

  /** The entry loop: `arr[m - shift] += payment_size + payment_fee` per pay month of each matching entry. */
  method ChargeEntries(es: seq<EntryDoc>, account: string, shift: nat, expenses: array<real>)
    requires shift <= 1 && PeriodicFor(es, {account})
    requires expenses.Length == 12
    modifies expenses
    ensures forall s :: 0 <= s < 12 ==> expenses[s] == old(expenses[s]) + Load(es, account, s, shift)
  {
    for i := 0 to |es|
      invariant forall s :: 0 <= s < 12 ==> expenses[s] == old(expenses[s]) + Load(es[..i], account, s, shift)
    {
      assert es[..i + 1][..i] == es[..i];
      var e := es[i];
      if e.account == account {
        ChargeEntry(e, shift, expenses);
      }
    }
    assert es[..|es|] == es;
  }

  /** One entry's pay months, each adding the entry's charge at its slot. */
  method ChargeEntry(e: EntryDoc, shift: nat, expenses: array<real>)
    requires shift <= 1 && e.paymentPeriod != 0
    requires expenses.Length == 12
    modifies expenses
    ensures forall s :: 0 <= s < 12 ==> expenses[s] == old(expenses[s]) + Spread(PayMonths(e), s, shift, Charge(e))
  {
    var ms := PayMonths(e);
    for j := 0 to |ms|
      invariant forall s :: 0 <= s < 12 ==> expenses[s] == old(expenses[s]) + Spread(ms[..j], s, shift, Charge(e))
    {
      assert ms[..j + 1][..j] == ms[..j];
      var s := Slot(ms[j], shift);
      expenses[s] := expenses[s] + Charge(e);
    }
    assert ms[..|ms|] == ms;
  }

  /** The transfer loop: whole-array `+= amount` on the expense side if the account sends, else on the income side if it receives. */
  method ChargeTransfers(ts: seq<TransferDoc>, account: string, expenses: array<real>, incomes: array<real>)
    requires expenses.Length == 12 && incomes.Length == 12 && expenses != incomes
    modifies expenses, incomes
    ensures forall s :: 0 <= s < 12 ==> expenses[s] == old(expenses[s]) + Sent(ts, account)
    ensures forall s :: 0 <= s < 12 ==> incomes[s] == old(incomes[s]) + Incoming(ts, account)
  {
    assert ts[..0] == [];
    assert Sent([], account) == 0.0 && Incoming([], account) == 0.0;
    for k := 0 to |ts|
      invariant forall s :: 0 <= s < 12 ==> expenses[s] == old(expenses[s]) + Sent(ts[..k], account)
      invariant forall s :: 0 <= s < 12 ==> incomes[s] == old(incomes[s]) + Incoming(ts[..k], account)
    {
      assert ts[..k + 1][..k] == ts[..k];
      var t := ts[k];
      if t.source == account {
        forall s | 0 <= s < 12 {
          expenses[s] := expenses[s] + t.amount;
        }
      } else if t.destination == account {
        forall s | 0 <= s < 12 {
          incomes[s] := incomes[s] + t.amount;
        }
      }
    }
    assert ts[..|ts|] == ts;
  }

  /**
   * monthly(budget, account): the expense and income profile of one account,
   * pay month m written at index m - 1. Income entries take no part.
   */
  method Monthly(d: BudgetDoc, account: string) returns (expenses: array<real>, incomes: array<real>)
    requires PeriodicFor(AllEntries(d.expenses), {account})
    ensures fresh(expenses) && fresh(incomes)
    ensures expenses.Length == 12 && incomes.Length == 12
    ensures forall s :: 0 <= s < 12 ==>
      expenses[s] == Load(AllEntries(d.expenses), account, s, 1) + Sent(d.transfers, account)
    ensures forall s :: 0 <= s < 12 ==> incomes[s] == Incoming(d.transfers, account)
  {
    expenses, incomes := Accumulate(d, account, 1);
  }

  // ---------------------------------------------------------------------------
  // expected_saldo

  function Sum(a: seq<real>): real
  {
    if a == [] then 0.0 else Sum(a[..|a| - 1]) + a[|a| - 1]
  }

  /** numpy.average: the sum over the number of values. */
  function Average(a: seq<real>): real
    requires a != []
  {
    Sum(a) / |a| as real
  }

  /** numpy.argmax: the first index holding the largest value. */
  function ArgMax(a: seq<real>): (k: nat)
    requires a != []
    ensures k < |a|
    ensures forall i :: 0 <= i < |a| ==> a[i] <= a[k]
    ensures forall i :: 0 <= i < k ==> a[i] < a[k]
  {
    if |a| == 1 then 0
    else
      var k := ArgMax(a[..|a| - 1]);
      if a[|a| - 1] > a[k] then |a| - 1 else k
  }

  /**
   * The pivot loop from step `x` on: while the value `x` places after the
   * current pivot is not below the average, the pivot moves there. Each step
   * counts from the pivot as it now stands, so after a move the next look
   * skips ahead.
   */
  function Advance(a: seq<real>, avg: real, x: nat, pivot: nat): (p: nat)
    requires pivot < |a| && x <= |a|
    ensures p < |a|
    decreases |a| - x
  {
    if x == |a| then pivot
    else
      var idx := Ring(pivot, x, |a|);
      if a[idx] < avg then pivot else Advance(a, avg, x + 1, idx)
  }

  /** The pivot `expected_saldo` settles on: the search started at the arg-max. */
  function FinalPivot(a: seq<real>): (p: nat)
    requires a != []
    ensures p < |a|
  {
    Advance(a, Average(a), 0, ArgMax(a))
  }

  /** The slot `i` steps after `p` around a ring of `n` slots. */
  function Ring(p: nat, i: nat, n: nat): (k: nat)
    requires p < n && i < n
    ensures k < n
  {
    if p + i < n then p + i else p + i - n
  }

  /** `Ring` is the `(x + pivot) % n` of the source. */
  lemma RingIsMod(p: nat, i: nat, n: nat)
    requires p < n && i < n
    ensures Ring(p, i, n) == (p + i) % n
  {
    ModSmall(p + i, n);
  }

  /** The balance `i` steps after pivot `p`: each step pays that slot's expense and earns the average. */
  ghost function Walk(a: seq<real>, p: nat, avg: real, i: nat): real
    requires p < |a| && i < |a|
  {
    if i == 0 then 0.0 else Walk(a, p, avg, i - 1) - a[Ring(p, i, |a|)] + avg
  }

  /**
   * expected_saldo(monthly_expenses): the slot at the final pivot stays 0,
   * every other slot holds the one before it (index -1 meaning the last)
   * minus its expense plus the average; read from the pivot on, the slots
   * are the balance walk.
   */
  method ExpectedSaldo(a: seq<real>) returns (saldo: array<real>)
    requires a != []
    ensures fresh(saldo) && saldo.Length == |a|
    ensures saldo[FinalPivot(a)] == 0.0
    ensures forall k :: 0 <= k < |a| ==> saldo[k] == saldo[PyIndex(k - 1, |a|)] - a[k] + Average(a)
    ensures forall i :: 0 <= i < |a| ==> saldo[Ring(FinalPivot(a), i, |a|)] == Walk(a, FinalPivot(a), Average(a), i)
  {
    saldo := new real[|a|](_ => 0.0);
    var pivot := FindPivot(a);
    WalkFrom(a, pivot, saldo);
    WalkCloses(a, pivot);
    assert Ring(pivot, |a| - 1, |a|) == PyIndex(pivot as int - 1, |a|);
  }

  /** The pivot loop: start at the arg-max and move on while the value looked at is not below the average. */
  method FindPivot(a: seq<real>) returns (pivot: nat)
    requires a != []
    ensures pivot == FinalPivot(a)
  {
    var n := |a|;
    var avg := Average(a);
    pivot := ArgMax(a);
    for x: nat := 0 to n
      invariant pivot < n
      invariant Advance(a, avg, x, pivot) == FinalPivot(a)
    {
      var idx := (x + pivot) % n;
      RingIsMod(pivot, x, n);
      if a[(x + pivot) % n] < avg {
        break;
      }
      pivot := idx;
    }
  }

  /** The write loop: `saldo[idx] = saldo[idx - 1] - a[idx] + avg` for the slots 1..n-1 steps after the pivot. */
  method WalkFrom(a: seq<real>, pivot: nat, saldo: array<real>)
    requires pivot < |a| && saldo.Length == |a|
    requires saldo[pivot] == 0.0
    modifies saldo
    ensures saldo[pivot] == 0.0
    ensures forall k :: 0 <= k < |a| && k != pivot ==>
      saldo[k] == saldo[PyIndex(k - 1, |a|)] - a[k] + Average(a)
    ensures forall i :: 0 <= i < |a| ==> saldo[Ring(pivot, i, |a|)] == Walk(a, pivot, Average(a), i)
  {
    var n := |a|;
    var avg := Average(a);
    for i: nat := 1 to n
      invariant saldo[pivot] == 0.0
      invariant forall k :: 0 <= k < i ==> saldo[Ring(pivot, k, n)] == Walk(a, pivot, avg, k)
    {
      var idx: int := Ring(pivot, i, n);
      assert Ring(pivot, i - 1, n) == PyIndex(idx - 1, n);
      saldo[idx] := saldo[PyIndex(idx - 1, n)] - a[idx] + avg;
    }
    WalkRecurrence(a, pivot, saldo[..]);
  }

  /** Laid out from the pivot, the walk satisfies the write loop's recurrence at every other slot. */
  lemma WalkRecurrence(a: seq<real>, pivot: nat, saldo: seq<real>)
    requires pivot < |a| && |saldo| == |a|
    requires forall i :: 0 <= i < |a| ==> saldo[Ring(pivot, i, |a|)] == Walk(a, pivot, Average(a), i)
    ensures forall k :: 0 <= k < |a| && k != pivot ==>
      saldo[k] == saldo[PyIndex(k - 1, |a|)] - a[k] + Average(a)
  {
    var n := |a|;
    forall k | 0 <= k < n && k != pivot
      ensures saldo[k] == saldo[PyIndex(k - 1, n)] - a[k] + Average(a)
    {
      var i := if k > pivot then k - pivot else k + n - pivot;
      assert Ring(pivot, i, n) == k && Ring(pivot, i - 1, n) == PyIndex(k - 1, n);
    }
  }

  lemma ModSmall(x: int, n: int)
    requires 0 < n && 0 <= x < 2 * n
    ensures x % n == if x < n then x else x - n
  {
    if x < n {
      assert x / n == 0;
    } else {
      assert (x - n) / n == 0;
      assert x / n == 1;
    }
  }

  /** The sum of `a` taken around the ring: `i` values starting at slot `p`. */
  ghost function Rot(a: seq<real>, p: nat, i: nat): real
    requires p < |a| && i <= |a|
  {
    if i == 0 then 0.0 else Rot(a, p, i - 1) + a[Ring(p, i - 1, |a|)]
  }

  lemma {:induction false} SumAppend(x: seq<real>, y: seq<real>)
    ensures Sum(x + y) == Sum(x) + Sum(y)
  {
    if y != [] {
      assert (x + y)[..|x + y| - 1] == x + y[..|y| - 1];
      SumAppend(x, y[..|y| - 1]);
    } else {
      assert x + y == x;
    }
  }

  lemma {:induction false} SumBound(a: seq<real>, m: real)
    requires forall i :: 0 <= i < |a| ==> a[i] <= m
    ensures Sum(a) <= |a| as real * m
  {
    if a != [] {
      SumBound(a[..|a| - 1], m);
    }
  }

  /** The largest expense is at least the average expense. */
  lemma MaxAtLeastAverage(a: seq<real>)
    requires a != []
    ensures a[ArgMax(a)] >= Average(a)
  {
    var m, avg, n := a[ArgMax(a)], Average(a), |a| as real;
    SumBound(a, m);
    assert (m - avg) * n >= 0.0;
  }

  /** The pivot search only moves to slots whose expense is not below the average. */
  lemma {:induction false} AdvanceKeeps(a: seq<real>, avg: real, x: nat, pivot: nat)
    requires pivot < |a| && x <= |a| && a[pivot] >= avg
    ensures a[Advance(a, avg, x, pivot)] >= avg
    decreases |a| - x
  {
    if x < |a| {
      var idx := Ring(pivot, x, |a|);
      if a[idx] >= avg {
        AdvanceKeeps(a, avg, x + 1, idx);
      }
    }
  }

  /** The balance starts after a month whose expense is at least the average. */
  lemma PivotAboveAverage(a: seq<real>)
    requires a != []
    ensures a[FinalPivot(a)] >= Average(a)
  {
    MaxAtLeastAverage(a);
    AdvanceKeeps(a, Average(a), 0, ArgMax(a));
  }

  lemma {:induction false} RotLow(a: seq<real>, p: nat, i: nat)
    requires p < |a| && p + i <= |a|
    ensures Rot(a, p, i) == Sum(a[p..p + i])
  {
    if i > 0 {
      RotLow(a, p, i - 1);
      assert a[p..p + i][..i - 1] == a[p..p + i - 1];
    } else {
      assert a[p..p] == [];
    }
  }

  lemma {:induction false} RotHigh(a: seq<real>, p: nat, i: nat)
    requires p < |a| && |a| - p <= i <= |a|
    ensures Rot(a, p, i) == Sum(a[p..]) + Sum(a[..i - (|a| - p)])
    decreases i
  {
    var n := |a|;
    if i == n - p {
      RotLow(a, p, i);
      assert a[p..p + i] == a[p..];
      assert a[..0] == [];
    } else {
      RotHigh(a, p, i - 1);
      var j := i - (n - p);
      assert a[..j][..j - 1] == a[..j - 1];
      assert Ring(p, i - 1, n) == j - 1;
    }
  }

  /** Going once around the ring adds up every value. */
  lemma RotFull(a: seq<real>, p: nat)
    requires p < |a|
    ensures Rot(a, p, |a|) == Sum(a)
  {
    RotHigh(a, p, |a|);
    SumAppend(a[..p], a[p..]);
    assert a[..p] + a[p..] == a;
  }

  /** `x` added up `k` times. */
  function Times(k: nat, x: real): real
  {
    if k == 0 then 0.0 else Times(k - 1, x) + x
  }

  lemma {:induction false} TimesMul(k: nat, x: real)
    ensures Times(k, x) == (k as real) * x
  {
    if k > 0 {
      TimesMul(k - 1, x);
      assert ((k - 1) as real) * x + x == (k as real) * x;
    }
  }

  /** The average, earned in each of the `n` slots, adds up to the total. */
  lemma AverageFills(a: seq<real>)
    requires a != []
    ensures Times(|a|, Average(a)) == Sum(a)
  {
    var n := |a| as real;
    TimesMul(|a|, Sum(a) / n);
    assert n * (Sum(a) / n) == Sum(a);
  }

  lemma {:induction false} WalkForm(a: seq<real>, p: nat, avg: real, i: nat)
    requires p < |a| && i < |a|
    ensures Walk(a, p, avg, i) == Times(i, avg) - (Rot(a, p, i + 1) - a[p])
  {
    if i > 0 {
      WalkForm(a, p, avg, i - 1);
    } else {
      assert Ring(p, 0, |a|) == p;
    }
  }

  /**
   * Going once around the year brings the balance back to zero: one step
   * after the last slot of the walk is the pivot again, at balance 0.
   */
  lemma WalkCloses(a: seq<real>, p: nat)
    requires p < |a|
    ensures Walk(a, p, Average(a), |a| - 1) - a[p] + Average(a) == 0.0
  {
    var avg := Average(a);
    AverageFills(a);
    WalkClosesAt(a, p, avg);
  }

  lemma WalkClosesAt(a: seq<real>, p: nat, avg: real)
    requires p < |a|
    requires Times(|a|, avg) == Sum(a)
    ensures Walk(a, p, avg, |a| - 1) - a[p] + avg == 0.0
  {
    WalkForm(a, p, avg, |a| - 1);
    RotFull(a, p);
  }

  // ---------------------------------------------------------------------------
  // Yearly payments

  /** A yearly entry pays once, in its first payment month taken mod 12. */
  lemma YearlyMonths(e: EntryDoc)
    requires e.paymentPeriod == 12
    ensures PayMonths(e) == [e.firstPaymentMonth % 12]
  {
    var only := [e.firstPaymentMonth % 12];
    assert Schedule(e) == only;
    Sorting.SortedUnique(PayMonths(e), only);
  }

  /** Where the charge of a yearly entry lands: in one slot, the slot of its pay month. */
  lemma YearlyPlacement(e: EntryDoc, shift: nat, slot: int)
    requires e.paymentPeriod == 12 && shift <= 1
    ensures Load([e], e.account, slot, shift) ==
      if slot == Slot(e.firstPaymentMonth % 12, shift) then Charge(e) else 0.0
  {
    YearlyMonths(e);
    var ms := PayMonths(e);
    assert ms[..|ms| - 1] == [];
    assert Spread(ms, slot, shift, Charge(e)) == if Slot(ms[0], shift) == slot then Charge(e) else 0.0;
    assert [e][..0] == [];
    assert Load([e], e.account, slot, shift) == Spread(ms, slot, shift, Charge(e));
  }

  /**
   * With `monthly`'s `m - 1`, a yearly entry whose first payment month is
   * f (1 = January .. 12 = December) lands in slot f - 1, the slot
   * MONTHS[f - 1] names.
   */
  lemma YearlyLandsInItsMonth(e: EntryDoc)
    requires e.paymentPeriod == 12 && 1 <= e.firstPaymentMonth <= 12
    ensures forall slot :: 0 <= slot < 12 ==>
      Load([e], e.account, slot, 1) == if slot == e.firstPaymentMonth - 1 then Charge(e) else 0.0
  {
    forall slot | 0 <= slot < 12
      ensures Load([e], e.account, slot, 1) == if slot == e.firstPaymentMonth - 1 then Charge(e) else 0.0
    {
      YearlyPlacement(e, 1, slot);
    }
  }

  // ---------------------------------------------------------------------------
  // get_monthly_movements

  /** `list(range(1, 13))`, the default month filter. */
  function DefaultMonths(): (r: seq<int>)
    ensures |r| == 12 && forall k :: 0 <= k < 12 ==> r[k] == k + 1
  {
    seq(12, k => k + 1)
  }

  /** A month passes the filter: no filter, or `m in months`. */
  predicate Allowed(months: Option<seq<int>>, m: int)
  {
    months.None? || m in months.value
  }

  /**
   * The entries of `es` listed under month `m`: those charged to `account`
   * with a positive payment size and `m` among their pay months, in the
   * order of `es`.
   */
  function Listed(es: seq<EntryDoc>, account: string, m: int): (r: seq<EntryDoc>)
    requires PeriodicFor(es, {account})
    ensures |r| <= |es|
  {
    if es == [] then []
    else
      var e := es[|es| - 1];
      Listed(es[..|es| - 1], account, m)
        + (if e.account == account && e.paymentSize > 0.0 && m in PayMonths(e) then [e] else [])
  }

  /** An entry is listed under `m` exactly when it is one of `es` that qualifies. */
  lemma {:induction false} ListedMatches(es: seq<EntryDoc>, account: string, m: int, e: EntryDoc)
    requires PeriodicFor(es, {account})
    ensures e in Listed(es, account, m) <==>
      e in es && e.account == account && e.paymentSize > 0.0 && m in PayMonths(e)
  {
    if es != [] {
      var init := es[..|es| - 1];
      ListedMatches(init, account, m, e);
      assert es == init + [es[|es| - 1]];
    }
  }

  /** Every qualifying entry is listed under each of its pay months. */
  lemma ListedCovers(es: seq<EntryDoc>, account: string)
    requires PeriodicFor(es, {account})
    ensures forall e, m ::
      e in es && e.account == account && e.paymentSize > 0.0 && m in PayMonths(e) ==> e in Listed(es, account, m)
  {
    forall e, m | e in es && e.account == account && e.paymentSize > 0.0 && m in PayMonths(e)
      ensures e in Listed(es, account, m)
    {
      ListedMatches(es, account, m, e);
    }
  }

  /**
   * The grouping loop shared by get_monthly_movements and the movements
   * widget: for each matching entry, each pay month that passes the filter
   * gets the entry appended, if its payment size is positive. A month is a
   * key only once something was appended to it (`defaultdict(list)`).
   */
  method GroupMonths(es: seq<EntryDoc>, account: string, months: Option<seq<int>>) returns (groups: map<int, seq<EntryDoc>>)
    requires PeriodicFor(es, {account})
    ensures forall m :: m in groups <==> Allowed(months, m) && Listed(es, account, m) != []
    ensures forall m :: m in groups ==> groups[m] == Listed(es, account, m)
  {
    groups := map[];
    for i := 0 to |es|
      invariant forall m :: m in groups <==> Allowed(months, m) && Listed(es[..i], account, m) != []
      invariant forall m :: m in groups ==> groups[m] == Listed(es[..i], account, m)
    {
      ListedStep(es, account, i);
      var e := es[i];
      if e.account == account && e.paymentSize > 0.0 {
        PayMonthsStrict(e);
        groups := AppendAt(groups, e, PayMonths(e), months);
      }
    }
    assert es[..|es|] == es;
  }

  /** Extending the prefix by one entry appends that entry to the months it qualifies for, and to no other. */
  lemma ListedStep(es: seq<EntryDoc>, account: string, i: nat)
    requires PeriodicFor(es, {account}) && i < |es|
    ensures PeriodicFor(es[..i], {account}) && PeriodicFor(es[..i + 1], {account})
    ensures forall m ::
      Listed(es[..i + 1], account, m) == Listed(es[..i], account, m)
        + (if es[i].account == account && es[i].paymentSize > 0.0 && m in PayMonths(es[i]) then [es[i]] else [])
  {
    assert es[..i + 1][..i] == es[..i];
  }

  /** The pay-month loop of one entry: `groups[m].append(entry)` for each of the distinct months `pm` that passes the filter. */
  method AppendAt(start: map<int, seq<EntryDoc>>, e: EntryDoc, pm: seq<int>, months: Option<seq<int>>)
    returns (groups: map<int, seq<EntryDoc>>)
    requires forall i, j :: 0 <= i < j < |pm| ==> pm[i] < pm[j]
    ensures forall m :: m in groups <==> m in start || (m in pm && Allowed(months, m))
    ensures forall m :: m in groups ==>
      groups[m] == (if m in start then start[m] else []) + (if m in pm && Allowed(months, m) then [e] else [])
  {
    groups := start;
    for j := 0 to |pm|
      invariant forall m :: m in groups <==> m in start || (m in pm[..j] && Allowed(months, m))
      invariant forall m :: m in groups ==>
        groups[m] == (if m in start then start[m] else []) + (if m in pm[..j] && Allowed(months, m) then [e] else [])
    {
      var m := pm[j];
      assert pm[..j + 1] == pm[..j] + [m];
      assert m !in pm[..j];
      if Allowed(months, m) {
        var prior := if m in groups then groups[m] else [];
        groups := groups[m := prior + [e]];
      }
    }
    assert pm[..|pm|] == pm;
  }

  /**
   * get_monthly_movements(budget, account, months): the grouping over
   * `all_expenses`, filtered to `months`, which defaults to 1..12.
   */
  method MonthlyMovements(d: BudgetDoc, account: string, months: Option<seq<int>>) returns (groups: map<int, seq<EntryDoc>>)
    requires PeriodicFor(AllEntries(d.expenses), {account})
    ensures var filter := if months.None? then DefaultMonths() else months.value;
      forall m :: m in groups <==> m in filter && Listed(AllEntries(d.expenses), account, m) != []
    ensures forall m :: m in groups ==> groups[m] == Listed(AllEntries(d.expenses), account, m)
  {
    var filter := if months.None? then DefaultMonths() else months.value;
    groups := GroupMonths(AllEntries(d.expenses), account, Some(filter));
  }

  /**
   * A December payment (pay month 0) never shows in get_monthly_movements'
   * default months: a yearly entry first paid in month 12 qualifies under
   * month 0 alone, and 0 is not among 1..12.
   */
  lemma DecemberDropped(e: EntryDoc)
    requires e.paymentPeriod == 12 && e.firstPaymentMonth == 12 && e.paymentSize > 0.0
    ensures Listed([e], e.account, 0) == [e]
    ensures forall m :: m in DefaultMonths() ==> Listed([e], e.account, m) == []
  {
    YearlyMonths(e);
    assert [e][..0] == [];
    forall m | m in DefaultMonths()
      ensures Listed([e], e.account, m) == []
    {
      assert m != 0;
    }
  }

  /**
   * get_monthly_movements with December kept: without a month filter every
   * pay month, 0 included, is eligible, so every qualifying entry is listed
   * under each of its pay months.
   */
  method MonthlyMovementsAllMonths(d: BudgetDoc, account: string, months: Option<seq<int>>) returns (groups: map<int, seq<EntryDoc>>)
    requires PeriodicFor(AllEntries(d.expenses), {account})
    ensures forall m :: m in groups ==> groups[m] == Listed(AllEntries(d.expenses), account, m)
    ensures forall e, m ::
      (e in AllEntries(d.expenses) && e.account == account && e.paymentSize > 0.0 && m in PayMonths(e) && Allowed(months, m))
      ==> m in groups && e in groups[m]
  {
    var es := AllEntries(d.expenses);
    groups := GroupMonths(es, account, months);
    ListedCovers(es, account);
  }
}
