# finanzer budget core in Dafny

A model of the core of *finanzer*, a personal budget application.

- **Budget model.** A budget holds expense and income groups of periodic payment entries, transfers between accounts, and a list of accounts. Every entity is observable: assigning an attribute notifies the entity's listeners, and attaching a child makes the child forward its notifications to its owner under the owner's collection name.
- **Values computed from a budget:**
  - the monthly cost of an entry and the months it is paid in;
  - group and budget totals;
  - per-account balances;
  - a twelve-month profile of one account, with its expected running balance;
  - the entries paid in each month.
- **Web-table update.** A web table's edit is applied back to the entity list it shows.
- **Repository.** A repository keeps budgets by name in one JSON document.

Modules, one per file:

| module | models |
|---|---|
| `Records` (records.dfy) | the `to_dict` tree of `finance/model/entry.py` as datatypes, and the pure derived values: `Entry.monthly`, `Entry.pay_months`, `total_monthly`, `all_expenses`/`all_incomes`, `Budget.calculate_balances` |
| `Model` (model.dfy) | the observable classes of `finance/model/entry.py` (`Account`, `Entry`, `EntryGroup`, `Transfer`, `Budget`) with their listeners, attribute assignment, attach/delete methods, and `Budget.from_dict` |
| `Sorting` (sorting.dfy) | Python's stable `sorted(..., key=...)` as insertion sort |
| `Lists` (lists.dfy) | Python's `list.remove` (first occurrence) |
| `MonthlyOverview` (monthly_overview.dfy) | `finance/utils/monthly_overview.py`: `monthly`, `expected_saldo`, `get_monthly_movements` |
| `AccountActivity` (account_activity.dfy) | the arithmetic of `finance/gui/widgets/account_activity.py`: the saldo table of `AccountWidget.draw_account` and the month lists of `MonthlyMovements.draw_account` |
| `Helpers` (helpers.dfy) | `handle_update` of `finance/webapp/helpers.py` |
| `BudgetRepo` (budget_repo.dfy) | `DocumentRepo` of `finance/repository/budget_repo.py` |

Modelling choices:

- **Money** is `real`.
- **Notifications.** Every notifying method returns the callbacks it caused, in order, as a ghost sequence of `Event`s. A callback of the caller is an `External(id)` listener. The forwarding lambdas that owners register are `Forward(owner)` listeners.
- **Derived values read the `to_dict` tree** (`BudgetDoc`), not the objects. `Budget.ToDict` ties the two together.
- **Identity, not equality.** The dataclasses' `__post_init__` gives each instance a class of its own. Dataclass `==` therefore returns `NotImplemented` between two instances, and `in` and `list.remove` fall back to identity. The model compares objects by reference.
- **Pay months follow the code.** The code computes `(first + k * period) % 12`, so pay months lie in 0..11 and December is 0. The specification text describes months 1..12.

## Model

| member | source | states |
|---|---|---|
| Records.Monthly | finance/model/entry.py:63-64 | the monthly amount times the period gives back payment size plus fee |
| Records.PayMonths | finance/model/entry.py:66-69 | `12 // period` months (none for a negative period), ascending, each in 0..11, and the same multiset as the generated `(first + k*period) % 12` |
| Records.PayMonthsStrict | finance/model/entry.py:66-69 | the pay months are strictly increasing: no month is listed twice |
| Records.PayMonthsQuarterly | finance/model/entry.py:66-69 | a quarterly entry first paid in month 2 is paid in months 2, 5, 8 and 11 |
| Records.PayMonthsEveryMonth | finance/model/entry.py:66-69 | a monthly entry is paid in every month 0..11, whatever its first month |
| Records.PayMonthsYearly | finance/model/entry.py:66-69 | a yearly entry first paid in month 7 is paid in month 7 only |
| Records.ScheduleDistinct | finance/model/entry.py:68 | the generated months of a positive period are pairwise different |
| Records.TotalMonthlyAppend | finance/model/entry.py:89-90 | the total monthly amount of two entry lists joined is the sum of their totals |
| Records.AllEntriesMember | finance/model/entry.py:120-125 | an entry is among `all_expenses()` exactly when it is an entry of one of the groups |
| Records.AllEntriesAppend | finance/model/entry.py:139-143 | flattening two group lists joined is the two flattenings joined |
| Records.AllEntriesPrefix | finance/model/entry.py:120-125 | every entry of the first k groups is among all the entries |
| Records.GroupsTotalFlat | finance/model/entry.py:114-118 | `Budget.total_monthly` (sum of group totals) equals the monthly total of the flattened entry list |
| Records.MonthlyForAppend | finance/model/entry.py:204-207 | one account's monthly sum over two entry lists joined is the sum over each |
| Records.MonthlyForUnmatched | finance/model/entry.py:204-207 | entries of other accounts contribute nothing to an account's sum |
| Records.SelfTransfersCancel | finance/model/entry.py:218-226 | a transfer from an account to itself leaves that account's transfer balance at zero |
| Records.CalculateBalances | finance/model/entry.py:200-228 | the three maps have exactly the account names as keys; expense is minus and income plus the account's monthly sum; transfer is received minus sent; unknown account names are skipped |
| Records.Settle | finance/model/entry.py:218-226 | each account's transfer balance is what it receives minus what it sends, with source and destination looked up independently |
| Records.Tally | finance/model/entry.py:204-216 | each account's balance is minus (expenses) or plus (incomes) the monthly sum of the account's entries over all groups |
| Records.TallyGroup | finance/model/entry.py:205-207 | one group's entries extend each account's running sum by that group's contribution |
| Sorting.Insert | finance/model/entry.py:67 | insertion keeps the order sorted by key and adds exactly one copy of the element |
| Sorting.SortBy | finance/model/entry.py:67-69 | `sorted`: the result is ordered by key and is a permutation of the input |
| Sorting.InsertStable | finance/gui/widgets/account_activity.py:94 | inserting an element keeps the relative order of every key class and puts it first in its own |
| Sorting.SortStable | finance/gui/widgets/account_activity.py:94 | sorting keeps the relative order of elements with equal keys (Python's sort is stable) |
| Sorting.SortedUnique | finance/model/entry.py:67-69 | two ascending sequences with the same elements are equal, so the sorted pay months are determined by the multiset |
| Lists.IndexOf | finance/model/entry.py:84 | the first position holding the element |
| Lists.RemoveFirst | finance/model/entry.py:84 | `list.remove`: one element fewer, one copy of `x` fewer, the elements before the first `x` unchanged and the ones after shifted left by one |
| Model.Announce | finance/model/entry.py:19-21 | one event per listener, in registration order, carrying source, attribute name and value |
| Model.SlotFanoutStep | finance/model/entry.py:19-21 | the events of the first i+1 listeners are those of the first i followed by those of listener i |
| Model.EntryFanoutStep | finance/model/entry.py:19-21 | the same step for the listeners of an entry |
| Model.SlotReachesBudget | finance/model/entry.py:127-137 | a group or transfer whose only listener is the budget's forwarding lambda reaches each budget callback once, in order, under the list's name with the budget's list |
| Model.ChainReachesBudget | finance/model/entry.py:77-80 | an entry forwarding to its group, the group forwarding to a budget list: whatever the entry notifies reaches exactly the budget's callbacks, once each, with that list |
| Model.ExpenseEditReachesBudget | finance/model/entry.py:26-28 | assigning an attribute of an entry in a wired expense group fires exactly the budget's callbacks with ("expenses", the budget's expense groups) |
| Model.IncomeEditReachesBudget | finance/model/entry.py:26-28 | the same for an entry in a wired income group, with ("incomes", the income groups) |
| Model.TransferEditReachesBudget | finance/model/entry.py:135-137 | assigning an attribute of a wired transfer fires exactly the budget's callbacks with ("transfers", the budget's transfers) |
| Model.EntryDocs | finance/model/entry.py:153-154 | the entries' dictionaries, in list order |
| Model.GroupDocs | finance/model/entry.py:153-154 | the groups' dictionaries, in list order |
| Model.TransferDocs | finance/model/entry.py:153-154 | the transfers' dictionaries, in list order |
| Model.AccountDocs | finance/model/entry.py:153-154 | the accounts' dictionaries, in list order |
| Model.Account.constructor | finance/model/entry.py:42-47 | an account holds the given fields and no listeners |
| Model.Account.RegisterOnUpdate | finance/model/entry.py:16-17 | appends the callback; no field changes |
| Model.Account.Notify | finance/model/entry.py:19-21 | calls every listener in order |
| Model.Account.Set | finance/model/entry.py:26-28 | stores the attribute, then notifies every listener with the new value |
| Model.Entry.constructor | finance/model/entry.py:50-61 | an entry holds the given fields and no listeners |
| Model.Entry.RegisterOnUpdate | finance/model/entry.py:16-17 | appends the listener; no field changes |
| Model.Entry.Notify | finance/model/entry.py:19-21 | calls every listener in order; forwarding ones notify the owning group |
| Model.Entry.Set | finance/model/entry.py:26-28 | stores the attribute, only that field changes, then notifies the listeners, reaching the group and through it the budget |
| Model.EntryGroup.constructor | finance/model/entry.py:72-75 | a group with the given name, no entries and no listeners |
| Model.EntryGroup.RegisterOnUpdate | finance/model/entry.py:16-17 | appends the listener; name and entries unchanged |
| Model.EntryGroup.Notify | finance/model/entry.py:19-21 | calls every listener in order; forwarding ones notify the owning budget's list |
| Model.EntryGroup.SetName | finance/model/entry.py:26-28 | renames the group and notifies with the new name |
| Model.EntryGroup.AddEntry | finance/model/entry.py:77-80 | appends the entry, registers the forwarding lambda on it, and notifies `entries` with the new list |
| Model.EntryGroup.DeleteEntry | finance/model/entry.py:82-87 | returns whether the entry was present; if so, its first occurrence is removed and `entries` is notified; otherwise nothing changes or fires |
| Model.Transfer.constructor | finance/model/entry.py:93-100 | a transfer holds the given fields and no listeners |
| Model.Transfer.RegisterOnUpdate | finance/model/entry.py:16-17 | appends the listener; no field changes |
| Model.Transfer.Notify | finance/model/entry.py:19-21 | calls every listener in order |
| Model.Transfer.Set | finance/model/entry.py:26-28 | stores the attribute, then notifies, reaching the budget's `transfers` |
| Model.Budget.constructor | finance/model/entry.py:103-112 | `Budget(name)`: empty lists, no path, no listeners |
| Model.Budget.RegisterOnUpdate | finance/model/entry.py:16-17 | appends the callback; no field changes |
| Model.Budget.Notify | finance/model/entry.py:19-21 | calls every callback in order |
| Model.Budget.SetName | finance/model/entry.py:26-28 | renames the budget and notifies `name` |
| Model.Budget.AddExpenseGroup | finance/model/entry.py:127-129 | registers a lambda forwarding to `expenses` on the group, then appends it; nothing fires |
| Model.Budget.AddIncomesGroup | finance/model/entry.py:131-133 | registers a lambda forwarding to `incomes` on the group, then appends it; nothing fires |
| Model.Budget.AddTransfer | finance/model/entry.py:135-137 | registers a lambda forwarding to `transfers` on the transfer, then appends it; nothing fires |
| Model.Budget.DeleteEntry | finance/model/entry.py:190-194 | none of incomes-then-expenses holds the entry and nothing changes; or the first group that holds it loses its first occurrence and notifies, and every other group is untouched |
| Model.Budget.DeleteTransfer | finance/model/entry.py:195-198 | the first occurrence is removed and `transfers` notified if present; otherwise nothing changes or fires |
| Model.Budget.FromDict | finance/model/entry.py:156-180 | the new budget's `to_dict` is the input with `path` cleared; every group and transfer is attached with its forwarding lambda; no callback fires |
| Model.Budget.LoadDoc | finance/model/entry.py:159-178 | the loops after `Budget(name)` rebuild every list of the document in order |
| Model.Budget.LoadGroups | finance/model/entry.py:159-169 | the expense groups, then the income groups, each built from its document and attached |
| Model.Budget.LoadExpenses | finance/model/entry.py:159-163 | one attached expense group per document, in order |
| Model.Budget.AttachExpense | finance/model/entry.py:160-163 | one more attached expense group; the earlier ones stay attached |
| Model.Budget.LoadIncomes | finance/model/entry.py:165-169 | one attached income group per document, in order |
| Model.Budget.AttachIncome | finance/model/entry.py:166-169 | one more attached income group; the earlier ones stay attached |
| Model.Budget.LoadRest | finance/model/entry.py:171-178 | the transfers attached in order, then the budget account names, then the accounts |
| Model.Budget.LoadTransfers | finance/model/entry.py:171-172 | one attached transfer per document, in order |
| Model.Budget.LoadAccounts | finance/model/entry.py:174-178 | appended to the empty lists of a fresh budget: the budget account names and one account per document, in order, none with listeners |
| Model.NewGroup | finance/model/entry.py:160-162 | a fresh group with the document's name and entries, each entry forwarding to it; nothing fires |
| Model.NewAccounts | finance/model/entry.py:177-178 | one fresh account per document, in order |
| Model.DocsOfAttached | finance/model/entry.py:153-154 | groups attached from documents give those documents back in `to_dict` |
| MonthlyOverview.PyIndex | finance/utils/monthly_overview.py:30 | Python indexing: `-1` is the last slot, other indices are themselves |
| MonthlyOverview.Slot | finance/utils/monthly_overview.py:30 | the slot a pay month lands in is one of the twelve |
| MonthlyOverview.ChargeEntry | finance/utils/monthly_overview.py:29-30 | each pay month's slot gains payment size plus fee; every other slot is unchanged |
| MonthlyOverview.ChargeEntries | finance/utils/monthly_overview.py:27-30 | every slot gains the charges of the account's expense entries that land in it |
| MonthlyOverview.ChargeTransfers | finance/utils/monthly_overview.py:32-36 | every slot pays the transfers leaving the account and receives the transfers arriving at it, a transfer to itself counting as sent only |
| MonthlyOverview.Monthly | finance/utils/monthly_overview.py:23-38 | slot s holds the charges of pay months m with `m - 1` = s (month 0 in slot 11), plus the amounts sent; incomes hold the amounts received |
| MonthlyOverview.ArgMax | finance/utils/monthly_overview.py:48 | `np.argmax`: the first position of the largest value |
| MonthlyOverview.MaxAtLeastAverage | finance/utils/monthly_overview.py:46-48 | the largest month is at least the average |
| MonthlyOverview.PivotAboveAverage | finance/utils/monthly_overview.py:50-55 | the pivot the scan settles on is never below the average |
| MonthlyOverview.FindPivot | finance/utils/monthly_overview.py:48-55 | the scan from the arg-max, each step measured from the pivot moved so far, stops at the first month below average |
| MonthlyOverview.WalkFrom | finance/utils/monthly_overview.py:57-59 | the pivot slot stays zero; every other slot is its predecessor (slot 11 before slot 0) minus its expense plus the average |
| MonthlyOverview.WalkRecurrence | finance/utils/monthly_overview.py:57-59 | the closed form of the walk satisfies the step relation at every slot but the pivot |
| MonthlyOverview.ExpectedSaldo | finance/utils/monthly_overview.py:41-61 | zero at the pivot; every slot follows the step relation from its predecessor, the pivot included, because the walk closes |
| MonthlyOverview.WalkCloses | finance/utils/monthly_overview.py:57-59 | one step past the last slot returns to zero: a year of average payments pays exactly a year of expenses |
| MonthlyOverview.RotFull | finance/utils/monthly_overview.py:51 | a full turn from any start sums the whole year |
| MonthlyOverview.RingIsMod | finance/utils/monthly_overview.py:58 | the walk visits `(i + pivot) % n` |
| MonthlyOverview.AverageFills | finance/utils/monthly_overview.py:46 | twelve (n) times the average is the sum |
| MonthlyOverview.YearlyMonths | finance/model/entry.py:66-69 | a yearly entry is paid once, in `first % 12` |
| MonthlyOverview.YearlyPlacement | finance/utils/monthly_overview.py:29-30 | a yearly entry charges exactly its month's slot |
| MonthlyOverview.YearlyLandsInItsMonth | finance/utils/monthly_overview.py:30 | with the `m - 1` slot, a yearly entry first paid in month 1..12 is charged in slot `first - 1`, the slot named after its month |
| MonthlyOverview.DefaultMonths | finance/utils/monthly_overview.py:65-66 | the default filter is the months 1 to 12 |
| MonthlyOverview.Listed | finance/utils/monthly_overview.py:70-74 | at most the entries there are |
| MonthlyOverview.ListedMatches | finance/utils/monthly_overview.py:70-74 | an entry is listed under m iff it belongs to the account, has a positive payment size and m is one of its pay months |
| MonthlyOverview.ListedCovers | finance/utils/monthly_overview.py:70-74 | every such entry is listed under each of its pay months |
| MonthlyOverview.ListedStep | finance/utils/monthly_overview.py:70-74 | one more entry appends itself to exactly the months it qualifies for |
| MonthlyOverview.AppendAt | finance/utils/monthly_overview.py:72-74 | one entry is appended to the list of each of its allowed pay months; other keys are untouched |
| MonthlyOverview.GroupMonths | finance/utils/monthly_overview.py:68-76 | the keys are the allowed months with a listed entry, each mapping to its entries in budget order |
| MonthlyOverview.MonthlyMovements | finance/utils/monthly_overview.py:64-76 | with no filter the months 1..12 are used; each key holds the listed entries in order |
| MonthlyOverview.DecemberDropped | finance/utils/monthly_overview.py:65-66 | a yearly entry first paid in month 12 is listed under month 0 only, so the default filter drops it |
| MonthlyOverview.MonthlyMovementsAllMonths | finance/utils/monthly_overview.py:64-76 | with pay months 0..11 as the default, every qualifying entry appears under every allowed pay month |
| AccountActivity.RunningBalance | finance/gui/widgets/account_activity.py:158-164 | after the lift the lowest slot is exactly zero and none is negative; slot to slot changes equal those of the raw balance |
| AccountActivity.FillRaw | finance/gui/widgets/account_activity.py:158-161 | slot 0 pays its expense; each later slot adds its income and pays its expense |
| AccountActivity.Lowest | finance/gui/widgets/account_activity.py:163 | `min`: a value present, no larger than any, at its first position |
| AccountActivity.BalanceUnique | finance/gui/widgets/account_activity.py:158-164 | two lifted balances with the same steps are equal, so the saldo column is determined by the profile |
| AccountActivity.StepsShift | finance/gui/widgets/account_activity.py:161 | two balances with the same steps differ by a constant |
| AccountActivity.DrawAccount | finance/gui/widgets/account_activity.py:142-164 | slot m holds the charges of pay month m (no `- 1`) plus the amounts sent; the averages are over twelve slots; the saldo column is lifted and follows the steps |
| AccountActivity.JanuaryShownInFebruary | finance/gui/widgets/account_activity.py:147 | a yearly payment first due in month 1 is charged in the row labelled "Februar", and "Januar" shows nothing |
| AccountActivity.MovementGroups | finance/gui/widgets/account_activity.py:74-80 | every month key holds the account's entries with a positive size paid that month, in budget order, with no month filter |
| AccountActivity.MonthRows | finance/gui/widgets/account_activity.py:91-97 | the month's rows sorted by payment period, a permutation keeping equal periods in order, and the total of their payment sizes |
| AccountActivity.DecemberListedUnderJanuary | finance/gui/widgets/account_activity.py:84-91 | column 0, labelled "Januar", lists a yearly payment first due in December; column 11, labelled "December", does not |
| AccountActivity.ColumnMonth | finance/gui/widgets/account_activity.py:84-91 | the pay month column c should show is in 0..11, and it is December's 0 exactly for the last column |
| AccountActivity.YearlyInItsColumn | finance/gui/widgets/account_activity.py:84-91 | with the column keyed by `ColumnMonth`, a yearly payment first due in month f shows in column f-1 and in no other |
| AccountActivity.ColumnRows | finance/gui/widgets/account_activity.py:84-97 | one column's table with contents matching its label: the rows of pay month `ColumnMonth(column)` sorted stably by period, and their total |
| AccountActivity.SortKeepsSize | finance/gui/widgets/account_activity.py:94-97 | sorting does not change the total of the payment sizes |
| Helpers.Differs | finance/webapp/helpers.py:25 | Python `!=` on cells: equal cells never differ; an int and a float differ by value |
| Helpers.Among | finance/webapp/helpers.py:19 | Python `in`: some id compares equal |
| Helpers.IdsOf | finance/webapp/helpers.py:17 | the `id` cell of each new row, in order |
| Helpers.IdMap | finance/webapp/helpers.py:19 | each entity's current `id` attribute |
| Helpers.SweepStep | finance/webapp/helpers.py:18-20 | the loop's step at position i: the entity stays or is removed, and the iterator moves to i+1 |
| Helpers.Swept | finance/webapp/helpers.py:18-20 | the loop leaves exactly the result of the sweep that skips the element after each removal |
| Helpers.RemoveAbsent | finance/webapp/helpers.py:16-20 | the list object ends up holding the sweep of its old contents |
| Helpers.SweepEmbeds | finance/webapp/helpers.py:18-20 | the survivors are a subsequence of the old list, in order |
| Helpers.SweepShrinks | finance/webapp/helpers.py:18-20 | the sweep never adds anything |
| Helpers.SweepRemovesOnlyAbsent | finance/webapp/helpers.py:19-20 | an entity loses a copy only if its id is gone from the new table |
| Helpers.SweepSkipsNext | finance/webapp/helpers.py:18-20 | two adjacent entities whose ids are both gone: only the first is removed |
| Helpers.Retain | finance/webapp/helpers.py:16-20 | an entity is kept iff its id is still in the new table |
| Helpers.Changed | finance/webapp/helpers.py:24-25 | the keys whose new cell differs from the old |
| Helpers.Merge | finance/webapp/helpers.py:24-27 | changed keys take the converted new value; every other attribute is unchanged |
| Helpers.WrittenDistinct | finance/webapp/helpers.py:23-27 | with no entity listed twice, entity i carries exactly row i's changes, and entities past the rows are unchanged |
| Helpers.ApplyRow | finance/webapp/helpers.py:24-27 | every changed cell of the row is assigned, converted by the old cell's type; nothing else changes |
| Helpers.ApplyRows | finance/webapp/helpers.py:23-27 | every entity carries the changes of the rows at its indices, in index order, up to the shorter snapshot |
| Helpers.HandleUpdate | finance/webapp/helpers.py:12-29 | nothing when a snapshot is missing; the removal sweep when the new table is shorter (attributes untouched); otherwise the cell updates with the list unchanged |
| BudgetRepo.Put | finance/repository/budget_repo.py:34 | a dict assignment's key order: an existing key keeps its place, a new key goes last, keys stay distinct |
| BudgetRepo.Names | finance/repository/budget_repo.py:47-49 | the document's names in order |
| BudgetRepo.LoadedKeys | finance/repository/budget_repo.py:47-49 | loaded keys are the document's names, each once, each filed under its own name |
| BudgetRepo.LaterWins | finance/repository/budget_repo.py:47-49 | the last budget with a name wins |
| BudgetRepo.DistinctLoads | finance/repository/budget_repo.py:47-49 | with distinct names, the key order is the document order and every document is kept |
| BudgetRepo.Reloads | finance/repository/budget_repo.py:47-49 | a document listing each key once, in order, loads back to that order and those documents |
| BudgetRepo.LoadStep | finance/repository/budget_repo.py:48-49 | one more document is one more dict assignment |
| BudgetRepo.Rebuild | finance/repository/budget_repo.py:48 | `Budget.from_dict` of one document, leaving earlier budgets untouched |
| BudgetRepo.Load | finance/repository/budget_repo.py:43-51 | a missing or unreadable file leaves the dict empty; otherwise each document is rebuilt and filed under its name, later ones overwriting |
| BudgetRepo.Documents | finance/repository/budget_repo.py:54-56 | `to_dict` of each budget in key order |
| BudgetRepo.SavedReloads | finance/repository/budget_repo.py:53-58 | what `_save` writes loads back to the same keys, key order and contents |
| BudgetRepo.DistinctSize | finance/repository/budget_repo.py:38 | a key order without repeats has as many keys as entries |
| BudgetRepo.DocumentRepo.constructor | finance/repository/budget_repo.py:27-31 | the dict starts empty and `_load` fills it |
| BudgetRepo.DocumentRepo.Save | finance/repository/budget_repo.py:53-58 | the written document lists every budget's `to_dict` in key order and reloads to the same dict |
| BudgetRepo.DocumentRepo.SaveBudget | finance/repository/budget_repo.py:33-35 | the budget is filed under its name (a new key last, an existing one in place), then the whole dict is written |
| BudgetRepo.DocumentRepo.GetBudget | finance/repository/budget_repo.py:40-41 | the budget under the name, or none when the key is missing (Python raises KeyError) |
| BudgetRepo.DocumentRepo.GetBudgets | finance/repository/budget_repo.py:37-38 | every stored budget once, in key order |

## Left out

- **File I/O and JSON.** These are not modelled. `DocumentRepo` receives what reading the file yields (a missing file, unreadable text, or a list of documents) as a constructor argument. `_save` returns the document it would write. `appdata.from_app_data_dir` and the file name are not modelled.
- **Loading and saving a single budget.** `Budget.save` and `Budget.load` are file I/O and are left out, as is the `path` they set. `FromDict` leaves `path` unset, as `from_dict` does.
- **The `__post_init__` machinery** (dynamic subclassing in `entry.py:23-31`). It is modelled by its effect: `Set` stores and then notifies.
- **Logging and the `print` calls** in `calculate_balances` have no modelled effect. The caught `KeyError` is modelled as a skipped contribution.
- **Floating point.** Amounts are exact reals; rounding and numpy's float formatting are not modelled.
- **The Qt widgets**, the block selection of `MonthlyMovements`, `appdata` and the `selectionchange` handlers are not modelled. `MonthRows` models the table of one pay month, whichever block it is in. The labels are modelled only as `MonthNames`, to show which month a column's label names (see Findings).
- **The `grp_name` argument** of `handle_update` only feeds logging and is left out.
- **Type conversion.** The cast `type(old_row[key])(new_row[key])` is the parameter `convert`. Cells are strings, floats, ints or null.
- **Value equality in `handle_update`.** `entries.remove(x)` removes by identity, which is what `in` and `remove` do on these dataclass instances (see above). A list of plain value objects, where `remove` compares by `==`, is not modelled.
- **Which list is swept.** `RemoveAbsent` computes the sweep on the list's contents and stores the result back into the list object; the iterator's position is the sweep's index.
- **`np.argmax` on an empty array** raises an error. `ExpectedSaldo` requires a non-empty profile instead.
- **Rows of unequal shape.** `HandleUpdate` requires that each new row's keys are keys of the old row and that every changed row has an entity at its index. Python would raise `KeyError`/`IndexError` otherwise; those error paths are not modelled.
- **Event values are snapshots.** A forwarding lambda passes the live list object (`self.expenses`, `self.entries`); the model's event carries `Items(...)`, the list's contents at the time of the call. A callback that keeps the list and reads it after a later change would see the change in Python and not in the model.
- ApplyRow: the model's `Item` has no listeners, so the notification that `setattr` triggers on an Observable entity (`entry.py:26-28`) is not modelled. The callers pass entries and transfers, which notify as `Model.Entry.Set` and `Model.Transfer.Set` do. `convert` is total, so a conversion that raises (`int("abc")`), leaving the cells converted before it assigned, is not modelled either.
- HandleUpdate: the same two gaps as ApplyRow, per changed cell: no listener notification, and no raising conversion with its partial update. The `KeyError` of a new row without `'id'` (`helpers.py:17`) is excluded by the `Applicable` precondition, not modelled as an error.
- **Zero periods.** Functions that divide by the period require it to be non-zero, where Python would raise `ZeroDivisionError`. `CalculateBalances` requires this only for entries of known accounts, because the lookup happens first.
- BudgetRepo.DocumentRepo.constructor: states the keys and key order only. The contents of each loaded budget are stated on `BudgetRepo.Load`, which the constructor calls.
- BudgetRepo.DocumentRepo.Save: the reload guarantee is stated only while every budget's name still equals its key. A budget renamed after it was saved is written under its new name and reloads under that name.

## Findings

| source | as written | input that shows it | evidently intended | confidence | as-written member | corrected member |
|---|---|---|---|---|---|---|
| finance/webapp/helpers.py:18-20 | the removal loop calls `entries.remove(x)` while iterating over `entries`; the iterator then skips the element that moves into the removed slot | two adjacent entities whose ids are both missing from the new table: only the first is removed | remove every entity whose id is gone | not executed | Helpers.SweepSkipsNext | Helpers.Retain |
| finance/utils/monthly_overview.py:64-66 | the default filter is `range(1, 13)`, but `pay_months` yields 0..11 with December as 0 | a yearly entry first paid in month 12 (pay month 0) is missing from the default result | every month, December included | not executed | MonthlyOverview.DecemberDropped | MonthlyOverview.MonthlyMovementsAllMonths |
| finance/gui/widgets/account_activity.py:84-91 | column `idx + start` is labelled `MONTHS[idx + start]` (January first) but filled with `groups[idx + start]`, keyed by pay month with December as 0 | a yearly payment first due in December is listed under "Januar", and each other month's payments under the month after | column c lists pay month `(c + 1) % 12` | not executed | AccountActivity.DecemberListedUnderJanuary | AccountActivity.YearlyInItsColumn |
| finance/gui/widgets/account_activity.py:147 | the charge goes to `monthly_expenses[m]`, while the rows are labelled from `MONTHS`, January first | a yearly payment first due in month 1 appears in the row labelled "Februar" | the slot named after the payment month, as `monthly` does with `m-1` | not executed | AccountActivity.JanuaryShownInFebruary | MonthlyOverview.YearlyLandsInItsMonth |
