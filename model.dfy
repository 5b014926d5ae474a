/**
 * The observable entity graph of finance/model/entry.py.
 *
 * Every dataclass is a class whose fields are updated in place. Assigning an
 * attribute stores the value and then calls the entity's listeners in
 * registration order with (entity, attribute name, value). A listener is either
 * a callback of the caller (`External`, identified by a number) or the
 * forwarding closure an owner registers when a child is attached (`Forward`):
 * it ignores its arguments and makes the owner notify under the name of the
 * owner's collection, passing that collection. Calls to external callbacks are
 * the observable effect; each notifying method returns them, in order, as a
 * ghost sequence of events.
 */
module Model {
  import opened Wrappers
  import opened Records
  import Lists

  /** What a listener receives as the new value. A collection is the owner's current list. */
  datatype Value = Text(s: string) | Money(r: real) | Whole(i: int) | Kind(k: AccountType) | Items(items: seq<object>)

  /** One call of an external callback: (callback, entity, attribute name, value). */
  datatype Event = Event(listener: nat, source: object, field: string, value: Value)

  datatype Listener<Owner> = External(id: nat) | Forward(owner: Owner)

  /** The three collections of a budget that forward their children's events. */
  datatype BudgetList = ExpenseList | IncomeList | TransferList

  /** A forwarding target: a budget and the collection the child belongs to. */
  datatype Slot = Slot(budget: Budget, list: BudgetList)

  function ListName(l: BudgetList): string
  {
    match l
    case ExpenseList => "expenses"
    case IncomeList => "incomes"
    case TransferList => "transfers"
  }

  // ---------------------------------------------------------------------------
  // What one notification calls

  /** Each callback of `ids` called once, in registration order. */
  ghost function Announce(ids: seq<nat>, source: object, field: string, value: Value): (r: seq<Event>)
    ensures |r| == |ids|
    ensures forall i :: 0 <= i < |ids| ==> r[i] == Event(ids[i], source, field, value)
  {
    if ids == [] then []
    else Announce(ids[..|ids| - 1], source, field, value) + [Event(ids[|ids| - 1], source, field, value)]
  }

  ghost function SlotOwners(ls: seq<Listener<Slot>>): set<Budget>
  {
    set l | l in ls && l.Forward? :: l.owner.budget
  }

  ghost function GroupOwners(ls: seq<Listener<EntryGroup>>): set<EntryGroup>
  {
    set l | l in ls && l.Forward? :: l.owner
  }

  ghost function BudgetsAbove(gs: set<EntryGroup>): set<Budget>
    reads gs
  {
    set g, l | g in gs && l in g.listeners && l.Forward? :: l.owner.budget
  }

  /** The callbacks one listener of a group or a transfer reaches. */
  ghost function SlotStep(l: Listener<Slot>, source: object, field: string, value: Value): seq<Event>
    reads if l.Forward? then {l.owner.budget} else {}
  {
    match l
    case External(id) => [Event(id, source, field, value)]
    case Forward(Slot(b, list)) => Announce(b.listeners, b, ListName(list), b.Contents(list))
  }

  /** The callbacks reached when a group or a transfer with listeners `ls` notifies. */
  ghost function SlotFanout(ls: seq<Listener<Slot>>, source: object, field: string, value: Value): seq<Event>
    reads SlotOwners(ls)
  {
    if ls == [] then []
    else
      var init := ls[..|ls| - 1];
      assert forall l :: l in init ==> l in ls;
      SlotFanout(init, source, field, value) + SlotStep(ls[|ls| - 1], source, field, value)
  }

  lemma SlotFanoutStep(ls: seq<Listener<Slot>>, i: nat, source: object, field: string, value: Value)
    requires i < |ls|
    ensures SlotFanout(ls[..i + 1], source, field, value) == SlotFanout(ls[..i], source, field, value) + SlotStep(ls[i], source, field, value)
  {
    assert ls[..i + 1][..i] == ls[..i];
  }

  /** The callbacks one listener of an entry reaches. */
  ghost function EntryStep(l: Listener<EntryGroup>, source: object, field: string, value: Value): seq<Event>
    reads if l.Forward? then {l.owner} + SlotOwners(l.owner.listeners) else {}
  {
    match l
    case External(id) => [Event(id, source, field, value)]
    case Forward(g) => SlotFanout(g.listeners, g, "entries", Items(g.entries))
  }

  /** The callbacks reached when an entry with listeners `ls` notifies. */
  ghost function EntryFanout(ls: seq<Listener<EntryGroup>>, source: object, field: string, value: Value): seq<Event>
    reads GroupOwners(ls), BudgetsAbove(GroupOwners(ls))
  {
    if ls == [] then []
    else
      var init := ls[..|ls| - 1];
      var last := ls[|ls| - 1];
      assert forall l :: l in init ==> l in ls;
      assert BudgetsAbove(GroupOwners(init)) <= BudgetsAbove(GroupOwners(ls));
      assert last.Forward? ==> SlotOwners(last.owner.listeners) <= BudgetsAbove(GroupOwners(ls));
      EntryFanout(init, source, field, value) + EntryStep(last, source, field, value)
  }

  lemma EntryFanoutStep(ls: seq<Listener<EntryGroup>>, i: nat, source: object, field: string, value: Value)
    requires i < |ls|
    ensures EntryFanout(ls[..i + 1], source, field, value) == EntryFanout(ls[..i], source, field, value) + EntryStep(ls[i], source, field, value)
  {
    assert ls[..i + 1][..i] == ls[..i];
  }

  /**
   * The chain `add_entry` and `add_expense_group`/`add_income_group` wire up:
   * an entry forwarding to its group, the group forwarding to a budget list.
   * Whatever the entry notifies reaches every callback of the budget once, in
   * registration order, under the list's name and with the list itself.
   */
  lemma ChainReachesBudget(e: Entry, g: EntryGroup, b: Budget, list: BudgetList, field: string, value: Value)
    requires e.listeners == [Forward(g)] && g.listeners == [Forward(Slot(b, list))]
    ensures EntryFanout(e.listeners, e, field, value) == Announce(b.listeners, b, ListName(list), b.Contents(list))
  {
    assert e.listeners[..0] == [] && g.listeners[..0] == [];
    assert EntryFanout(e.listeners, e, field, value) == EntryStep(Forward(g), e, field, value);
    SlotReachesBudget(g, g.listeners, b, list, "entries", Items(g.entries));
  }

  /** An attribute assignment on an entry of a wired expense group reaches the budget's callbacks as "expenses". */
  lemma ExpenseEditReachesBudget(b: Budget, i: nat, e: Entry, field: string, value: Value)
    requires i < |b.expenses| && e in b.expenses[i].entries
    requires b.expenses[i].Forwarding() && b.expenses[i].listeners == [Forward(Slot(b, ExpenseList))]
    ensures EntryFanout(e.listeners, e, field, value) == Announce(b.listeners, b, "expenses", Items(b.expenses))
  {
    ChainReachesBudget(e, b.expenses[i], b, ExpenseList, field, value);
  }

  /** An attribute assignment on an entry of a wired income group reaches the budget's callbacks as "incomes". */
  lemma IncomeEditReachesBudget(b: Budget, i: nat, e: Entry, field: string, value: Value)
    requires i < |b.incomes| && e in b.incomes[i].entries
    requires b.incomes[i].Forwarding() && b.incomes[i].listeners == [Forward(Slot(b, IncomeList))]
    ensures EntryFanout(e.listeners, e, field, value) == Announce(b.listeners, b, "incomes", Items(b.incomes))
  {
    ChainReachesBudget(e, b.incomes[i], b, IncomeList, field, value);
  }

  /**
   * A group or a transfer wired by the budget (`add_*_group`, `add_transfer`):
   * whatever it notifies reaches every callback of the budget once, under the
   * list's name and with the list itself.
   */
  lemma SlotReachesBudget(source: object, ls: seq<Listener<Slot>>, b: Budget, list: BudgetList, field: string, value: Value)
    requires ls == [Forward(Slot(b, list))]
    ensures SlotFanout(ls, source, field, value) == Announce(b.listeners, b, ListName(list), b.Contents(list))
  {
    assert ls[..0] == [];
  }

  /** An attribute assignment on a wired transfer reaches the budget's callbacks as "transfers". */
  lemma TransferEditReachesBudget(b: Budget, i: nat, field: string, value: Value)
    requires i < |b.transfers| && b.transfers[i].listeners == [Forward(Slot(b, TransferList))]
    ensures SlotFanout(b.transfers[i].listeners, b.transfers[i], field, value) == Announce(b.listeners, b, "transfers", Items(b.transfers))
  {
    SlotReachesBudget(b.transfers[i], b.transfers[i].listeners, b, TransferList, field, value);
  }

  // ---------------------------------------------------------------------------
  // Attribute assignment

  ghost predicate EntryFits(field: string, v: Value)
  {
    || (field in {"name", "payment_method", "account", "tag", "owner"} && v.Text?)
    || (field in {"payment_size", "payment_fee"} && v.Money?)
    || (field in {"payment_period", "first_payment_month"} && v.Whole?)
  }

  /** An entry's fields after assigning `v` to the attribute `field`. */
  function EntryWith(d: EntryDoc, field: string, v: Value): EntryDoc
    requires EntryFits(field, v)
  {
    if field == "name" then d.(name := v.s)
    else if field == "payment_size" then d.(paymentSize := v.r)
    else if field == "payment_period" then d.(paymentPeriod := v.i)
    else if field == "first_payment_month" then d.(firstPaymentMonth := v.i)
    else if field == "payment_fee" then d.(paymentFee := v.r)
    else if field == "payment_method" then d.(paymentMethod := v.s)
    else if field == "account" then d.(account := v.s)
    else if field == "tag" then d.(tag := v.s)
    else d.(owner := v.s)
  }

  ghost predicate TransferFits(field: string, v: Value)
  {
    || (field in {"name", "source", "destination", "owner"} && v.Text?)
    || (field == "amount" && v.Money?)
  }

  function TransferWith(d: TransferDoc, field: string, v: Value): TransferDoc
    requires TransferFits(field, v)
  {
    if field == "name" then d.(name := v.s)
    else if field == "source" then d.(source := v.s)
    else if field == "destination" then d.(destination := v.s)
    else if field == "amount" then d.(amount := v.r)
    else d.(owner := v.s)
  }

  ghost predicate AccountFits(field: string, v: Value)
  {
    || (field in {"name", "owner"} && v.Text?)
    || (field == "type" && v.Kind?)
  }

  function AccountWith(d: AccountDoc, field: string, v: Value): AccountDoc
    requires AccountFits(field, v)
  {
    if field == "name" then d.(name := v.s)
    else if field == "owner" then d.(owner := v.s)
    else d.(kind := v.k)
  }

  // ---------------------------------------------------------------------------
  // to_dict of the children lists
  //
  // `[x.to_dict() for x in xs]` once per kind of child. The four functions
  // below have one shape; they stay four because each reads a different
  // class's fields (a function over a sequence of objects must name what it
  // reads) and the classes share no common supertype in this model.

  function EntryDocs(es: seq<Entry>): (r: seq<EntryDoc>)
    reads es
    ensures |r| == |es|
    ensures forall i :: 0 <= i < |es| ==> r[i] == es[i].ToDoc()
  {
    if es == [] then [] else EntryDocs(es[..|es| - 1]) + [es[|es| - 1].ToDoc()]
  }

  /** The entries of the groups `gs`. */
  function Members(gs: seq<EntryGroup>): set<Entry>
    reads gs
  {
    set g, e | g in gs && e in g.entries :: e
  }

  function GroupDocs(gs: seq<EntryGroup>): (r: seq<GroupDoc>)
    reads gs, Members(gs)
    ensures |r| == |gs|
    ensures forall i :: 0 <= i < |gs| ==> r[i] == gs[i].ToDoc()
  {
    if gs == [] then []
    else
      var init := gs[..|gs| - 1];
      var g := gs[|gs| - 1];
      assert Members(init) <= Members(gs);
      assert forall e :: e in g.entries ==> e in Members(gs);
      GroupDocs(init) + [g.ToDoc()]
  }

  function TransferDocs(ts: seq<Transfer>): (r: seq<TransferDoc>)
    reads ts
    ensures |r| == |ts|
    ensures forall i :: 0 <= i < |ts| ==> r[i] == ts[i].ToDoc()
  {
    if ts == [] then [] else TransferDocs(ts[..|ts| - 1]) + [ts[|ts| - 1].ToDoc()]
  }

  function AccountDocs(accounts: seq<Account>): (r: seq<AccountDoc>)
    reads accounts
    ensures |r| == |accounts|
    ensures forall i :: 0 <= i < |accounts| ==> r[i] == accounts[i].ToDoc()
  {
    if accounts == [] then [] else AccountDocs(accounts[..|accounts| - 1]) + [accounts[|accounts| - 1].ToDoc()]
  }

  // ---------------------------------------------------------------------------
  // The entities

  class Account {
    var name: string
    var owner: string
    var kind: AccountType
    var listeners: seq<nat>

    /** `Account(**acc)`. */
    constructor (d: AccountDoc)
      ensures ToDoc() == d && listeners == []
    {
      name, owner, kind := d.name, d.owner, d.kind;
      listeners := [];
    }

    function ToDoc(): AccountDoc
      reads this
    {
      AccountDoc(name, owner, kind)
    }

    method RegisterOnUpdate(id: nat)
      modifies this
      ensures listeners == old(listeners) + [id]
      ensures ToDoc() == old(ToDoc())
    {
      listeners := listeners + [id];
    }

    method Notify(field: string, value: Value) returns (ghost fired: seq<Event>)
      ensures fired == Announce(listeners, this, field, value)
    {
      fired := [];
      for i := 0 to |listeners|
        invariant fired == Announce(listeners[..i], this, field, value)
      {
        assert listeners[..i + 1][..i] == listeners[..i];
        fired := fired + [Event(listeners[i], this, field, value)];
      }
      assert listeners[..|listeners|] == listeners;
    }

    /** Attribute assignment: store, then notify with the new value. */
    method Set(field: string, v: Value) returns (ghost fired: seq<Event>)
      requires AccountFits(field, v)
      modifies this
      ensures ToDoc() == AccountWith(old(ToDoc()), field, v)
      ensures listeners == old(listeners)
      ensures fired == Announce(listeners, this, field, v)
    {
      if field == "name" {
        name := v.s;
      } else if field == "owner" {
        owner := v.s;
      } else {
        kind := v.k;
      }
      fired := Notify(field, v);
    }
  }

  class Entry {
    var name: string
    var paymentSize: real
    var paymentPeriod: int
    var firstPaymentMonth: int
    var paymentFee: real
    var paymentMethod: string
    var account: string
    var tag: string
    var owner: string
    var listeners: seq<Listener<EntryGroup>>

    /** `Entry(**e)`. */
    constructor (d: EntryDoc)
      ensures ToDoc() == d && listeners == []
    {
      name, paymentSize, paymentPeriod, firstPaymentMonth := d.name, d.paymentSize, d.paymentPeriod, d.firstPaymentMonth;
      paymentFee, paymentMethod, account, tag, owner := d.paymentFee, d.paymentMethod, d.account, d.tag, d.owner;
      listeners := [];
    }

    function ToDoc(): EntryDoc
      reads this
    {
      EntryDoc(name, paymentSize, paymentPeriod, firstPaymentMonth, paymentFee, paymentMethod, account, tag, owner)
    }

    method RegisterOnUpdate(l: Listener<EntryGroup>)
      modifies this
      ensures listeners == old(listeners) + [l]
      ensures ToDoc() == old(ToDoc())
    {
      listeners := listeners + [l];
    }

    method Notify(field: string, value: Value) returns (ghost fired: seq<Event>)
      ensures fired == EntryFanout(listeners, this, field, value)
    {
      fired := [];
      for i := 0 to |listeners|
        invariant fired == EntryFanout(listeners[..i], this, field, value)
      {
        ghost var more := EntryStep(listeners[i], this, field, value);
        EntryFanoutStep(listeners, i, this, field, value);
        fired := fired + more;
      }
      assert listeners[..|listeners|] == listeners;
    }

    /** Attribute assignment: store, then notify with the new value. */
    method Set(field: string, v: Value) returns (ghost fired: seq<Event>)
      requires EntryFits(field, v)
      modifies this
      ensures ToDoc() == EntryWith(old(ToDoc()), field, v)
      ensures listeners == old(listeners)
      ensures fired == EntryFanout(listeners, this, field, v)
    {
      if field == "name" {
        name := v.s;
      } else if field == "payment_size" {
        paymentSize := v.r;
      } else if field == "payment_period" {
        paymentPeriod := v.i;
      } else if field == "first_payment_month" {
        firstPaymentMonth := v.i;
      } else if field == "payment_fee" {
        paymentFee := v.r;
      } else if field == "payment_method" {
        paymentMethod := v.s;
      } else if field == "account" {
        account := v.s;
      } else if field == "tag" {
        tag := v.s;
      } else {
        owner := v.s;
      }
      fired := Notify(field, v);
    }
  }

  class EntryGroup {
    var name: string
    var entries: seq<Entry>
    var listeners: seq<Listener<Slot>>

    /** `EntryGroup(name)`: no entries yet. */
    constructor (name: string)
      ensures this.name == name && entries == [] && listeners == []
    {
      this.name := name;
      entries := [];
      listeners := [];
    }

    /** Every entry of the group forwards to it and to nothing else. */
    ghost predicate Forwarding()
      reads this`entries, entries`listeners
    {
      forall e :: e in entries ==> e.listeners == [Forward(this)]
    }

    /** The state from_dict leaves a group in: built from `d`, its entries forwarding to it, itself forwarding to `owner`. */
    ghost predicate Attached(owner: Slot, d: GroupDoc)
      reads this, entries
    {
      ToDoc() == d && Forwarding() && listeners == [Forward(owner)]
    }

    function ToDoc(): GroupDoc
      reads this`name, this`entries, entries
    {
      GroupDoc(name, EntryDocs(entries))
    }

    method RegisterOnUpdate(l: Listener<Slot>)
      modifies this
      ensures listeners == old(listeners) + [l]
      ensures name == old(name) && entries == old(entries)
    {
      listeners := listeners + [l];
    }

    method Notify(field: string, value: Value) returns (ghost fired: seq<Event>)
      ensures fired == SlotFanout(listeners, this, field, value)
    {
      fired := [];
      for i := 0 to |listeners|
        invariant fired == SlotFanout(listeners[..i], this, field, value)
      {
        ghost var more := SlotStep(listeners[i], this, field, value);
        SlotFanoutStep(listeners, i, this, field, value);
        fired := fired + more;
      }
      assert listeners[..|listeners|] == listeners;
    }

    /** Assigning `name`: store, then notify. */
    method SetName(v: string) returns (ghost fired: seq<Event>)
      modifies this
      ensures name == v && entries == old(entries) && listeners == old(listeners)
      ensures fired == SlotFanout(listeners, this, "name", Text(v))
    {
      name := v;
      fired := Notify("name", Text(v));
    }

    /**
     * add_entry: append, make the entry forward its events to this group, then
     * notify under "entries".
     */
    method AddEntry(e: Entry) returns (ghost fired: seq<Event>)
      modifies this, e
      ensures entries == old(entries) + [e]
      ensures e.listeners == old(e.listeners) + [Forward(this)]
      ensures e.ToDoc() == old(e.ToDoc())
      ensures name == old(name) && listeners == old(listeners)
      ensures fired == SlotFanout(listeners, this, "entries", Items(entries))
    {
      entries := entries + [e];
      e.RegisterOnUpdate(Forward(this));
      fired := Notify("entries", Items(entries));
    }

    /**
     * delete_entry: when the entry is present, removes its first occurrence,
     * notifies under "entries" and answers true; otherwise changes nothing.
     */
    method DeleteEntry(e: Entry) returns (removed: bool, ghost fired: seq<Event>)
      modifies this
      ensures removed == (e in old(entries))
      ensures entries == if removed then Lists.RemoveFirst(old(entries), e) else old(entries)
      ensures name == old(name) && listeners == old(listeners)
      ensures fired == if removed then SlotFanout(listeners, this, "entries", Items(entries)) else []
    {
      if e in entries {
        entries := Lists.RemoveFirst(entries, e);
        fired := Notify("entries", Items(entries));
        removed := true;
      } else {
        removed, fired := false, [];
      }
    }
  }

  class Transfer {
    var name: string
    var source: string
    var destination: string
    var amount: real
    var owner: string
    var listeners: seq<Listener<Slot>>

    /** `Transfer(**t)`. */
    constructor (d: TransferDoc)
      ensures ToDoc() == d && listeners == []
    {
      name, source, destination, amount, owner := d.name, d.source, d.destination, d.amount, d.owner;
      listeners := [];
    }

    function ToDoc(): TransferDoc
      reads this
    {
      TransferDoc(name, source, destination, amount, owner)
    }

    method RegisterOnUpdate(l: Listener<Slot>)
      modifies this
      ensures listeners == old(listeners) + [l]
      ensures ToDoc() == old(ToDoc())
    {
      listeners := listeners + [l];
    }

    method Notify(field: string, value: Value) returns (ghost fired: seq<Event>)
      ensures fired == SlotFanout(listeners, this, field, value)
    {
      fired := [];
      for i := 0 to |listeners|
        invariant fired == SlotFanout(listeners[..i], this, field, value)
      {
        ghost var more := SlotStep(listeners[i], this, field, value);
        SlotFanoutStep(listeners, i, this, field, value);
        fired := fired + more;
      }
      assert listeners[..|listeners|] == listeners;
    }

    /** Attribute assignment: store, then notify with the new value. */
    method Set(field: string, v: Value) returns (ghost fired: seq<Event>)
      requires TransferFits(field, v)
      modifies this
      ensures ToDoc() == TransferWith(old(ToDoc()), field, v)
      ensures listeners == old(listeners)
      ensures fired == SlotFanout(listeners, this, field, v)
    {
      if field == "name" {
        name := v.s;
      } else if field == "source" {
        source := v.s;
      } else if field == "destination" {
        destination := v.s;
      } else if field == "amount" {
        amount := v.r;
      } else {
        owner := v.s;
      }
      fired := Notify(field, v);
    }
  }

  class Budget {
    var name: string
    var expenses: seq<EntryGroup>
    var incomes: seq<EntryGroup>
    var transfers: seq<Transfer>
    var budgetAccounts: seq<string>
    var accounts: seq<Account>
    var path: Option<string>
    var listeners: seq<nat>

    /** `Budget(name)`: empty lists and no path. */
    constructor (name: string)
      ensures ToDict() == BudgetDoc(name, [], [], [], [], [], None)
      ensures expenses == [] && incomes == [] && transfers == [] && accounts == []
      ensures listeners == []
    {
      this.name := name;
      expenses, incomes, transfers := [], [], [];
      budgetAccounts, accounts := [], [];
      path := None;
      listeners := [];
    }

    /** The list a forwarding closure passes when it re-notifies under `ListName(list)`. */
    function Contents(list: BudgetList): Value
      reads this
    {
      match list
      case ExpenseList => Items(expenses)
      case IncomeList => Items(incomes)
      case TransferList => Items(transfers)
    }

    /** Budget.to_dict: the whole graph as a value, `path` included. */
    function ToDict(): BudgetDoc
      reads this, expenses, incomes, transfers, accounts, Members(expenses), Members(incomes)
    {
      BudgetDoc(name, GroupDocs(expenses), GroupDocs(incomes), TransferDocs(transfers),
                budgetAccounts, AccountDocs(accounts), path)
    }

    method RegisterOnUpdate(id: nat)
      modifies this
      ensures listeners == old(listeners) + [id]
      ensures name == old(name) && budgetAccounts == old(budgetAccounts) && path == old(path)
      ensures expenses == old(expenses) && incomes == old(incomes) && transfers == old(transfers) && accounts == old(accounts)
    {
      listeners := listeners + [id];
    }

    method Notify(field: string, value: Value) returns (ghost fired: seq<Event>)
      ensures fired == Announce(listeners, this, field, value)
    {
      fired := [];
      for i := 0 to |listeners|
        invariant fired == Announce(listeners[..i], this, field, value)
      {
        assert listeners[..i + 1][..i] == listeners[..i];
        fired := fired + [Event(listeners[i], this, field, value)];
      }
      assert listeners[..|listeners|] == listeners;
    }

    /** Assigning `name`: store, then notify. */
    method SetName(v: string) returns (ghost fired: seq<Event>)
      modifies this
      ensures name == v && budgetAccounts == old(budgetAccounts) && path == old(path)
      ensures expenses == old(expenses) && incomes == old(incomes) && transfers == old(transfers) && accounts == old(accounts)
      ensures listeners == old(listeners)
      ensures fired == Announce(listeners, this, "name", Text(v))
    {
      name := v;
      fired := Notify("name", Text(v));
    }

    /** add_expense_group: forward the group's events as "expenses", then append. Nothing is notified. */
    method AddExpenseGroup(g: EntryGroup)
      modifies this, g
      ensures g.listeners == old(g.listeners) + [Forward(Slot(this, ExpenseList))]
      ensures g.name == old(g.name) && g.entries == old(g.entries)
      ensures expenses == old(expenses) + [g]
      ensures incomes == old(incomes) && transfers == old(transfers) && accounts == old(accounts)
      ensures name == old(name) && budgetAccounts == old(budgetAccounts) && path == old(path)
      ensures listeners == old(listeners)
    {
      g.RegisterOnUpdate(Forward(Slot(this, ExpenseList)));
      expenses := expenses + [g];
    }

    /** add_incomes_group: forward the group's events as "incomes", then append. Nothing is notified. */
    method AddIncomesGroup(g: EntryGroup)
      modifies this, g
      ensures g.listeners == old(g.listeners) + [Forward(Slot(this, IncomeList))]
      ensures g.name == old(g.name) && g.entries == old(g.entries)
      ensures incomes == old(incomes) + [g]
      ensures expenses == old(expenses) && transfers == old(transfers) && accounts == old(accounts)
      ensures name == old(name) && budgetAccounts == old(budgetAccounts) && path == old(path)
      ensures listeners == old(listeners)
    {
      g.RegisterOnUpdate(Forward(Slot(this, IncomeList)));
      incomes := incomes + [g];
    }

    /** add_transfer: forward the transfer's events as "transfers", then append. Nothing is notified. */
    method AddTransfer(t: Transfer)
      modifies this, t
      ensures t.listeners == old(t.listeners) + [Forward(Slot(this, TransferList))]
      ensures t.ToDoc() == old(t.ToDoc())
      ensures transfers == old(transfers) + [t]
      ensures expenses == old(expenses) && incomes == old(incomes) && accounts == old(accounts)
      ensures name == old(name) && budgetAccounts == old(budgetAccounts) && path == old(path)
      ensures listeners == old(listeners)
    {
      t.RegisterOnUpdate(Forward(Slot(this, TransferList)));
      transfers := transfers + [t];
    }

    /**
     * Budget.delete of an Entry: tries the income groups, then the expense
     * groups, and stops at the first group whose delete_entry succeeds.
     */
    method DeleteEntry(e: Entry) returns (ghost at: Option<nat>, ghost fired: seq<Event>)
      modifies set g | g in incomes + expenses
      ensures at.None? <==> forall g :: g in old(incomes + expenses) ==> e !in old(g.entries)
      ensures at.None? ==> fired == [] && forall g :: g in old(incomes + expenses) ==> g.entries == old(g.entries)
      ensures at.Some? ==>
        var gs := old(incomes + expenses);
        && at.value < |gs|
        && e in old(gs[at.value].entries)
        && (forall k :: 0 <= k < at.value ==> e !in old(gs[k].entries))
        && gs[at.value].entries == Lists.RemoveFirst(old(gs[at.value].entries), e)
        && fired == SlotFanout(gs[at.value].listeners, gs[at.value], "entries", Items(gs[at.value].entries))
        && forall g :: g in gs && g != gs[at.value] ==> g.entries == old(g.entries)
      ensures forall g :: g in old(incomes + expenses) ==> g.name == old(g.name) && g.listeners == old(g.listeners)
    {
      var groups := incomes + expenses;
      fired := [];
      for i := 0 to |groups|
        invariant forall k :: 0 <= k < i ==> e !in old(groups[k].entries)
        invariant forall g :: g in groups ==> g.entries == old(g.entries) && g.name == old(g.name) && g.listeners == old(g.listeners)
      {
        var removed, more := groups[i].DeleteEntry(e);
        if removed {
          at, fired := Some(i), more;
          return;
        }
      }
      at := None;
    }

    /** Budget.delete of a Transfer: remove its first occurrence and notify under "transfers". */
    method DeleteTransfer(t: Transfer) returns (ghost fired: seq<Event>)
      modifies this
      ensures transfers == if t in old(transfers) then Lists.RemoveFirst(old(transfers), t) else old(transfers)
      ensures fired == if t in old(transfers) then Announce(listeners, this, "transfers", Items(transfers)) else []
      ensures expenses == old(expenses) && incomes == old(incomes) && accounts == old(accounts)
      ensures name == old(name) && budgetAccounts == old(budgetAccounts) && path == old(path)
      ensures listeners == old(listeners)
    {
      if t in transfers {
        transfers := Lists.RemoveFirst(transfers, t);
        fired := Notify("transfers", Items(transfers));
      } else {
        fired := [];
      }
    }

    /**
     * Budget.from_dict: builds the graph child by child through the attaching
     * methods, so every child forwards to its owner. No external callback can
     * be registered yet, so nothing observable fires; `path` is not restored.
     */
    static method FromDict(d: BudgetDoc) returns (b: Budget, ghost fired: seq<Event>)
      ensures fresh(b)
      ensures b.ToDict() == d.(path := None)
      ensures b.listeners == []
      ensures forall k :: 0 <= k < |b.expenses| ==> b.expenses[k].Attached(Slot(b, ExpenseList), d.expenses[k])
      ensures forall k :: 0 <= k < |b.incomes| ==> b.incomes[k].Attached(Slot(b, IncomeList), d.incomes[k])
      ensures forall k :: 0 <= k < |b.transfers| ==> b.transfers[k].listeners == [Forward(Slot(b, TransferList))]
      ensures fired == []
    {
      b := new Budget(d.name);
      fired := b.LoadDoc(d);
    }

    /** The body of from_dict after `Budget(name)`: the groups, then the transfers, the budget accounts and the accounts. */
    method LoadDoc(d: BudgetDoc) returns (ghost fired: seq<Event>)
      requires expenses == [] && incomes == [] && transfers == [] && budgetAccounts == [] && accounts == []
      modifies this
      ensures ToDict() == d.(name := name, path := path)
      ensures name == old(name) && path == old(path) && listeners == old(listeners)
      ensures forall k :: 0 <= k < |expenses| ==> expenses[k].Attached(Slot(this, ExpenseList), d.expenses[k])
      ensures forall k :: 0 <= k < |incomes| ==> incomes[k].Attached(Slot(this, IncomeList), d.incomes[k])
      ensures forall k :: 0 <= k < |transfers| ==> transfers[k].listeners == [Forward(Slot(this, TransferList))]
      ensures fired == []
    {
      fired := LoadGroups(d.expenses, d.incomes);
      label groupsLoaded:
      LoadRest(d.transfers, d.budgetAccounts, d.accounts);
      forall k | 0 <= k < |expenses|
        ensures expenses[k].Attached(Slot(this, ExpenseList), d.expenses[k])
      {
        GroupKept@groupsLoaded(expenses[k]);
      }
      forall k | 0 <= k < |incomes|
        ensures incomes[k].Attached(Slot(this, IncomeList), d.incomes[k])
      {
        GroupKept@groupsLoaded(incomes[k]);
      }
      DocsOfAttached(expenses, Slot(this, ExpenseList), d.expenses);
      DocsOfAttached(incomes, Slot(this, IncomeList), d.incomes);
    }

    /** The two group loops of from_dict: expenses first, then incomes. */
    method LoadGroups(expenseDocs: seq<GroupDoc>, incomeDocs: seq<GroupDoc>) returns (ghost fired: seq<Event>)
      requires expenses == [] && incomes == []
      modifies this
      ensures |expenses| == |expenseDocs| && |incomes| == |incomeDocs|
      ensures forall k :: 0 <= k < |expenses| ==> expenses[k].Attached(Slot(this, ExpenseList), expenseDocs[k])
      ensures forall k :: 0 <= k < |incomes| ==> incomes[k].Attached(Slot(this, IncomeList), incomeDocs[k])
      ensures name == old(name) && transfers == old(transfers)
      ensures budgetAccounts == old(budgetAccounts) && accounts == old(accounts) && path == old(path)
      ensures listeners == old(listeners)
      ensures fired == []
    {
      fired := LoadExpenses(expenseDocs);
      label expensesLoaded:
      ghost var more := LoadIncomes(incomeDocs);
      forall k | 0 <= k < |expenses|
        ensures expenses[k].Attached(Slot(this, ExpenseList), expenseDocs[k])
      {
        GroupKept@expensesLoaded(expenses[k]);
      }
      fired := fired + more;
    }

    /** The remaining loops of from_dict: transfers, budget account names, accounts. */
    method LoadRest(transferDocs: seq<TransferDoc>, names: seq<string>, accountDocs: seq<AccountDoc>)
      requires transfers == [] && budgetAccounts == [] && accounts == []
      modifies this
      ensures TransferDocs(transfers) == transferDocs
      ensures forall k :: 0 <= k < |transfers| ==> transfers[k].listeners == [Forward(Slot(this, TransferList))]
      ensures budgetAccounts == names
      ensures AccountDocs(accounts) == accountDocs
      ensures name == old(name) && expenses == old(expenses) && incomes == old(incomes) && path == old(path)
      ensures listeners == old(listeners)
    {
      LoadTransfers(transferDocs);
      label transfersLoaded:
      LoadAccounts(names, accountDocs);
      TransfersKept@transfersLoaded(transfers);
    }

    /** The last two steps of from_dict: the budget's account names, then `Account(**acc)` per document. */
    method LoadAccounts(names: seq<string>, accountDocs: seq<AccountDoc>)
      requires budgetAccounts == [] && accounts == []
      modifies this
      ensures budgetAccounts == names
      ensures AccountDocs(accounts) == accountDocs
      ensures forall k :: 0 <= k < |accounts| ==> accounts[k].listeners == []
      ensures name == old(name) && expenses == old(expenses) && incomes == old(incomes) && transfers == old(transfers)
      ensures path == old(path) && listeners == old(listeners)
    {
      budgetAccounts := names;
      accounts := NewAccounts(accountDocs);
    }

    /** The expense loop of from_dict: a fresh group per document, attached with AddExpenseGroup. */
    method LoadExpenses(ds: seq<GroupDoc>) returns (ghost fired: seq<Event>)
      requires expenses == []
      modifies this
      ensures |expenses| == |ds|
      ensures forall k :: 0 <= k < |ds| ==> expenses[k].Attached(Slot(this, ExpenseList), ds[k])
      ensures name == old(name) && incomes == old(incomes) && transfers == old(transfers)
      ensures budgetAccounts == old(budgetAccounts) && accounts == old(accounts) && path == old(path)
      ensures listeners == old(listeners)
      ensures fired == []
    {
      fired := [];
      for i := 0 to |ds|
        invariant |expenses| == i
        invariant forall k :: 0 <= k < i ==> expenses[k].Attached(Slot(this, ExpenseList), ds[k])
        invariant name == old(name) && incomes == old(incomes) && transfers == old(transfers)
        invariant budgetAccounts == old(budgetAccounts) && accounts == old(accounts) && path == old(path)
        invariant listeners == old(listeners)
        invariant fired == []
      {
        ghost var more := AttachExpense(ds, i);
        fired := fired + more;
      }
    }

    /** One pass of the expense loop of from_dict: a fresh group built from `ds[i]`, attached with AddExpenseGroup. */
    method AttachExpense(ds: seq<GroupDoc>, i: nat) returns (ghost fired: seq<Event>)
      requires i < |ds| && |expenses| == i
      requires forall k :: 0 <= k < i ==> expenses[k].Attached(Slot(this, ExpenseList), ds[k])
      modifies this
      ensures |expenses| == i + 1
      ensures forall k :: 0 <= k <= i ==> expenses[k].Attached(Slot(this, ExpenseList), ds[k])
      ensures name == old(name) && incomes == old(incomes) && transfers == old(transfers)
      ensures budgetAccounts == old(budgetAccounts) && accounts == old(accounts) && path == old(path)
      ensures listeners == old(listeners)
      ensures fired == []
    {
      var g;
      g, fired := NewGroup(ds[i]);
      label built:
      AddExpenseGroup(g);
      GroupKept@built(g);
    }

    /** The income loop of from_dict: a fresh group per document, attached with AddIncomesGroup. */
    method LoadIncomes(ds: seq<GroupDoc>) returns (ghost fired: seq<Event>)
      requires incomes == []
      modifies this
      ensures |incomes| == |ds|
      ensures forall k :: 0 <= k < |ds| ==> incomes[k].Attached(Slot(this, IncomeList), ds[k])
      ensures name == old(name) && expenses == old(expenses) && transfers == old(transfers)
      ensures budgetAccounts == old(budgetAccounts) && accounts == old(accounts) && path == old(path)
      ensures listeners == old(listeners)
      ensures fired == []
    {
      fired := [];
      for i := 0 to |ds|
        invariant |incomes| == i
        invariant forall k :: 0 <= k < i ==> incomes[k].Attached(Slot(this, IncomeList), ds[k])
        invariant name == old(name) && expenses == old(expenses) && transfers == old(transfers)
        invariant budgetAccounts == old(budgetAccounts) && accounts == old(accounts) && path == old(path)
        invariant listeners == old(listeners)
        invariant fired == []
      {
        ghost var more := AttachIncome(ds, i);
        fired := fired + more;
      }
    }

    /** One pass of the income loop of from_dict: a fresh group built from `ds[i]`, attached with AddIncomesGroup. */
    method AttachIncome(ds: seq<GroupDoc>, i: nat) returns (ghost fired: seq<Event>)
      requires i < |ds| && |incomes| == i
      requires forall k :: 0 <= k < i ==> incomes[k].Attached(Slot(this, IncomeList), ds[k])
      modifies this
      ensures |incomes| == i + 1
      ensures forall k :: 0 <= k <= i ==> incomes[k].Attached(Slot(this, IncomeList), ds[k])
      ensures name == old(name) && expenses == old(expenses) && transfers == old(transfers)
      ensures budgetAccounts == old(budgetAccounts) && accounts == old(accounts) && path == old(path)
      ensures listeners == old(listeners)
      ensures fired == []
    {
      var g;
      g, fired := NewGroup(ds[i]);
      label built:
      AddIncomesGroup(g);
      GroupKept@built(g);
    }

    /** The transfer loop of from_dict. */
    method LoadTransfers(ds: seq<TransferDoc>)
      requires transfers == []
      modifies this
      ensures TransferDocs(transfers) == ds
      ensures forall k :: 0 <= k < |transfers| ==> transfers[k].listeners == [Forward(Slot(this, TransferList))]
      ensures name == old(name) && expenses == old(expenses) && incomes == old(incomes)
      ensures budgetAccounts == old(budgetAccounts) && accounts == old(accounts) && path == old(path)
      ensures listeners == old(listeners)
    {
      for i := 0 to |ds|
        invariant |transfers| == i
        invariant forall k :: 0 <= k < i ==> transfers[k].ToDoc() == ds[k] && transfers[k].listeners == [Forward(Slot(this, TransferList))]
        invariant name == old(name) && expenses == old(expenses) && incomes == old(incomes)
        invariant budgetAccounts == old(budgetAccounts) && accounts == old(accounts) && path == old(path)
        invariant listeners == old(listeners)
      {
        var t := new Transfer(ds[i]);
        AddTransfer(t);
      }
    }
  }

  /** A group whose name, entry list and entries are unchanged keeps its document and its forwarding. */
  twostate lemma GroupKept(g: EntryGroup)
    requires g.name == old(g.name) && g.entries == old(g.entries) && unchanged(g.entries)
    ensures g.ToDoc() == old(g.ToDoc()) && (g.Forwarding() <==> old(g.Forwarding()))
  {
  }

  /** The account loop of from_dict: `Account(**acc)` per document, in order. */
  method NewAccounts(ds: seq<AccountDoc>) returns (accounts: seq<Account>)
    ensures AccountDocs(accounts) == ds
    ensures forall k :: 0 <= k < |accounts| ==> accounts[k].listeners == []
  {
    accounts := [];
    for i := 0 to |ds|
      invariant |accounts| == i
      invariant forall k :: 0 <= k < i ==> accounts[k].ToDoc() == ds[k] && accounts[k].listeners == []
    {
      var a := new Account(ds[i]);
      accounts := accounts + [a];
    }
  }

  lemma DocsOfAttached(gs: seq<EntryGroup>, owner: Slot, ds: seq<GroupDoc>)
    requires |gs| == |ds| && forall k :: 0 <= k < |gs| ==> gs[k].Attached(owner, ds[k])
    ensures GroupDocs(gs) == ds
  {
  }

  /** Transfers left untouched keep their documents and their wiring. */
  twostate lemma TransfersKept(ts: seq<Transfer>)
    requires unchanged(ts)
    ensures TransferDocs(ts) == old(TransferDocs(ts))
    ensures forall k :: 0 <= k < |ts| ==> ts[k].listeners == old(ts[k].listeners)
  {
  }

  /** One group of from_dict: `EntryGroup(name)`, then add_entry of each entry in order. */
  method NewGroup(d: GroupDoc) returns (g: EntryGroup, ghost fired: seq<Event>)
    ensures fresh(g) && fresh(g.entries)
    ensures g.ToDoc() == d && g.listeners == []
    ensures g.Forwarding()
    ensures fired == []
  {
    g := new EntryGroup(d.name);
    fired := [];
    for i := 0 to |d.entries|
      invariant fresh(g) && fresh(g.entries)
      invariant g.name == d.name && g.listeners == []
      invariant |g.entries| == i
      invariant forall k :: 0 <= k < i ==> g.entries[k].ToDoc() == d.entries[k]
      invariant g.Forwarding()
      invariant fired == []
    {
      var e := new Entry(d.entries[i]);
      ghost var more := g.AddEntry(e);
      fired := fired + more;
    }
    assert EntryDocs(g.entries) == d.entries;
  }
}
