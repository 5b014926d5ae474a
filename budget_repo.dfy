/**
 * finance/repository/budget_repo.py: DocumentRepo keeps the budgets in a dict
 * keyed by name and writes the whole dict to one JSON document after every
 * save. The disk is not modelled: what reading the file yields is a parameter
 * of the constructor, and the document a save writes is its result.
 */
module BudgetRepo {
  import opened Wrappers
  import opened Records
  import Model

  /** What reading the budgets file yields: no file, text that is not JSON, or a list of budget documents. */
  datatype Stored = Missing | Malformed | Document(docs: seq<BudgetDoc>)

  // ---------------------------------------------------------------------------
  // The dict, as values

  /** No name occurs twice. */
  ghost predicate Distinct(s: seq<string>)
  {
    forall i, j :: 0 <= i < j < |s| ==> s[i] != s[j]
  }

  /** The key order of a Python dict after `d[name] = ...`: a new key goes last, an existing key keeps its place. */
  function Put(order: seq<string>, name: string): (r: seq<string>)
    ensures forall n :: n in r <==> n in order || n == name
    ensures Distinct(order) ==> Distinct(r)
    ensures name in order ==> r == order
    ensures name !in order ==> |r| == |order| + 1 && r[..|order|] == order
  {
    if name in order then order else order + [name]
  }

  /** The key order `_load` leaves: every name in the place it first appears. */
  function KeyOrder(docs: seq<BudgetDoc>): seq<string>
  {
    if docs == [] then [] else Put(KeyOrder(docs[..|docs| - 1]), docs[|docs| - 1].name)
  }

  /** The dict `_load` leaves, as documents: a later document overwrites an earlier one with the same name. */
  function Loaded(docs: seq<BudgetDoc>): map<string, BudgetDoc>
  {
    if docs == [] then map[] else Loaded(docs[..|docs| - 1])[docs[|docs| - 1].name := docs[|docs| - 1]]
  }

  /** The names of `docs`, in order. */
  function Names(docs: seq<BudgetDoc>): (r: seq<string>)
    ensures |r| == |docs| && forall k :: 0 <= k < |docs| ==> r[k] == docs[k].name
  {
    seq(|docs|, k requires 0 <= k < |docs| => docs[k].name)
  }

  /** The loaded keys are exactly the names in the document, each once, in first-appearance order, each filed under its own name. */
  lemma {:induction false} LoadedKeys(docs: seq<BudgetDoc>)
    ensures Distinct(KeyOrder(docs))
    ensures forall n :: n in KeyOrder(docs) <==> n in Loaded(docs)
    ensures forall n :: n in Loaded(docs) <==> n in Names(docs)
    ensures forall n :: n in Loaded(docs) ==> Loaded(docs)[n].name == n
  {
    if docs != [] {
      var init := docs[..|docs| - 1];
      LoadedKeys(init);
      assert Names(docs) == Names(init) + [docs[|docs| - 1].name];
    }
  }

  /** Among documents with the same name, the last one is the one kept. */
  lemma {:induction false} LaterWins(docs: seq<BudgetDoc>, i: nat)
    requires i < |docs|
    requires forall j :: i < j < |docs| ==> docs[j].name != docs[i].name
    ensures docs[i].name in Loaded(docs) && Loaded(docs)[docs[i].name] == docs[i]
  {
    if i < |docs| - 1 {
      LaterWins(docs[..|docs| - 1], i);
    }
  }

  /** A document whose names are all different loads back in its own order, every document under its own name. */
  lemma {:induction false} DistinctLoads(docs: seq<BudgetDoc>)
    requires Distinct(Names(docs))
    ensures KeyOrder(docs) == Names(docs)
    ensures forall k :: 0 <= k < |docs| ==> docs[k].name in Loaded(docs) && Loaded(docs)[docs[k].name] == docs[k]
  {
    if docs != [] {
      var init := docs[..|docs| - 1];
      assert Names(init) == Names(docs)[..|docs| - 1];
      DistinctLoads(init);
      assert docs[|docs| - 1].name !in Names(init);
      forall k | 0 <= k < |docs|
        ensures docs[k].name in Loaded(docs) && Loaded(docs)[docs[k].name] == docs[k]
      {
        LaterWins(docs, k);
      }
    }
  }

  /** A document listing each name of `order` once, in that order, loads back in that order with every document under its name. */
  lemma Reloads(docs: seq<BudgetDoc>, order: seq<string>)
    requires Distinct(order) && |docs| == |order|
    requires forall k :: 0 <= k < |docs| ==> docs[k].name == order[k]
    ensures KeyOrder(docs) == order
    ensures forall k :: 0 <= k < |order| ==> order[k] in Loaded(docs) && Loaded(docs)[order[k]] == docs[k]
  {
    assert Names(docs) == order;
    DistinctLoads(docs);
    forall k | 0 <= k < |order|
      ensures order[k] in Loaded(docs) && Loaded(docs)[order[k]] == docs[k]
    {
      assert docs[k].name == order[k];
    }
  }

  /** A sequence without repeats has as many distinct elements as it is long. */
  lemma {:induction false} DistinctSize(s: seq<string>)
    requires Distinct(s)
    ensures |set x | x in s| == |s|
  {
    if s != [] {
      var init := s[..|s| - 1];
      DistinctSize(init);
      assert (set x | x in s) == (set x | x in init) + {s[|s| - 1]};
      assert s[|s| - 1] !in init;
    }
  }

  /** Loading one more document files it under its name, after the ones before it. */
  lemma LoadStep(docs: seq<BudgetDoc>, k: nat)
    requires k < |docs|
    ensures KeyOrder(docs[..k + 1]) == Put(KeyOrder(docs[..k]), docs[k].name)
    ensures Loaded(docs[..k + 1]) == Loaded(docs[..k])[docs[k].name := docs[k]]
  {
    assert docs[..k + 1][..k] == docs[..k];
  }

  /** `Budget.from_dict(d)`: a new budget, leaving every budget already built as it was. */
  method Rebuild(built: set<Model.Budget>, d: BudgetDoc) returns (b: Model.Budget)
    ensures fresh(b) && b.ToDict() == d.(path := None)
    ensures forall a :: a in built ==> a.ToDict() == old(a.ToDict())
  {
    ghost var fired;
    b, fired := Model.Budget.FromDict(d);
  }

  /** DocumentRepo._load: a missing or unparsable file leaves the dict empty; otherwise every document is rebuilt and filed under its name. */
  method Load(stored: Stored) returns (budgets: map<string, Model.Budget>, order: seq<string>)
    ensures Distinct(order) && forall n :: n in order <==> n in budgets
    ensures !stored.Document? ==> budgets == map[] && order == []
    ensures stored.Document? ==> order == KeyOrder(stored.docs) && budgets.Keys == Loaded(stored.docs).Keys
    ensures stored.Document? ==> forall n :: n in budgets ==> budgets[n].ToDict() == Loaded(stored.docs)[n].(path := None)
    ensures forall n :: n in budgets ==> fresh(budgets[n])
  {
    budgets, order := map[], [];
    if stored.Document? {
      var docs := stored.docs;
      for k := 0 to |docs|
        invariant order == KeyOrder(docs[..k]) && budgets.Keys == Loaded(docs[..k]).Keys
        invariant forall n :: n in budgets ==> fresh(budgets[n])
        invariant forall n :: n in budgets ==> budgets[n].ToDict() == Loaded(docs[..k])[n].(path := None)
      {
        var b := Rebuild(budgets.Values, docs[k]);
        LoadStep(docs, k);
        budgets := budgets[b.name := b];
        order := Put(order, b.name);
      }
      assert docs[..|docs|] == docs;
      LoadedKeys(docs);
    }
  }

  /** The loop of `_save`: `r.append(b.to_dict())` for each stored budget, in key order. */
  method Documents(budgets: map<string, Model.Budget>, order: seq<string>) returns (r: seq<BudgetDoc>)
    requires forall n :: n in order ==> n in budgets
    ensures |r| == |order| && forall k :: 0 <= k < |order| ==> r[k] == budgets[order[k]].ToDict()
  {
    r := [];
    for k := 0 to |order|
      invariant |r| == k
      invariant forall j :: 0 <= j < k ==> r[j] == budgets[order[j]].ToDict()
    {
      r := r + [budgets[order[k]].ToDict()];
    }
  }

  /** The document `_save` writes for budgets each filed under its own name loads back to the same keys, order and contents. */
  lemma SavedReloads(budgets: map<string, Model.Budget>, order: seq<string>, document: seq<BudgetDoc>)
    requires Distinct(order) && forall n :: n in order <==> n in budgets
    requires forall n :: n in budgets ==> budgets[n].name == n
    requires |document| == |order| && forall k :: 0 <= k < |order| ==> document[k] == budgets[order[k]].ToDict()
    ensures KeyOrder(document) == order
    ensures forall n :: n in budgets ==> n in Loaded(document) && Loaded(document)[n] == budgets[n].ToDict()
  {
    forall k | 0 <= k < |document|
      ensures document[k].name == order[k]
    {
      assert document[k].name == budgets[order[k]].name;
    }
    Reloads(document, order);
    forall n | n in budgets
      ensures n in Loaded(document) && Loaded(document)[n] == budgets[n].ToDict()
    {
      var k :| 0 <= k < |order| && order[k] == n;
      assert Loaded(document)[order[k]] == document[k];
    }
  }

  // ---------------------------------------------------------------------------
  // DocumentRepo

  class DocumentRepo {
    /** `_budgets`, with its key order kept apart in `order`. */
    var budgets: map<string, Model.Budget>
    var order: seq<string>

    /** The key order lists every key once. */
    ghost predicate Valid()
      reads this
    {
      Distinct(order) && forall n :: n in order <==> n in budgets
    }

    /** Every budget is still filed under its own name (a budget renamed after saving breaks this). */
    ghost predicate Named()
      reads this, budgets.Values
    {
      forall n :: n in budgets ==> budgets[n].name == n
    }

    /** `DocumentRepo(path)`: starts empty and loads what the file holds. */
    constructor (stored: Stored)
      ensures Valid()
      ensures !stored.Document? ==> budgets == map[]
      ensures stored.Document? ==> order == KeyOrder(stored.docs) && budgets.Keys == Loaded(stored.docs).Keys
    {
      var bs, ord := Load(stored);
      budgets, order := bs, ord;
    }

    /**
     * DocumentRepo._save: the list of every stored budget's `to_dict`, in key
     * order, is the document written. While every budget still carries the name
     * it is filed under, loading that document gives back the same keys, order
     * and contents.
     */
    method Save() returns (document: seq<BudgetDoc>)
      requires Valid()
      ensures |document| == |order|
      ensures forall k :: 0 <= k < |order| ==> document[k] == budgets[order[k]].ToDict()
      ensures Named() ==> KeyOrder(document) == order
      ensures Named() ==> forall n :: n in budgets ==> n in Loaded(document) && Loaded(document)[n] == budgets[n].ToDict()
    {
      document := Documents(budgets, order);
      if Named() {
        SavedReloads(budgets, order, document);
      }
    }

    /** DocumentRepo.save_budget: files the budget under its name, replacing any budget of that name in its place, then saves. */
    method SaveBudget(budget: Model.Budget) returns (document: seq<BudgetDoc>)
      requires Valid()
      modifies this
      ensures Valid()
      ensures budgets == old(budgets)[budget.name := budget]
      ensures order == Put(old(order), budget.name)
      ensures budget.name in old(budgets) ==> |budgets| == |old(budgets)| && order == old(order)
      ensures budget.name !in old(budgets) ==> |budgets| == |old(budgets)| + 1
      ensures |document| == |order|
      ensures forall k :: 0 <= k < |order| ==> document[k] == budgets[order[k]].ToDict()
      ensures Named() ==> KeyOrder(document) == order
      ensures Named() ==> forall n :: n in budgets ==> n in Loaded(document) && Loaded(document)[n] == budgets[n].ToDict()
    {
      budgets := budgets[budget.name := budget];
      order := Put(order, budget.name);
      document := Save();
    }

    /** DocumentRepo.get_budget: the budget stored under `name`; an unknown name is the KeyError, here None. */
    method GetBudget(name: string) returns (r: Option<Model.Budget>)
      ensures r.Some? <==> name in budgets
      ensures r.Some? ==> r.value == budgets[name]
    {
      if name in budgets {
        r := Some(budgets[name]);
      } else {
        r := None;
      }
    }

    /** DocumentRepo.get_budgets: every stored budget once, in key order. */
    method GetBudgets() returns (bs: seq<Model.Budget>)
      requires Valid()
      ensures |bs| == |budgets| == |order|
      ensures forall k :: 0 <= k < |bs| ==> bs[k] == budgets[order[k]]
      ensures forall n :: n in budgets ==> budgets[n] in bs
    {
      bs := [];
      for k := 0 to |order|
        invariant |bs| == k && forall j :: 0 <= j < k ==> bs[j] == budgets[order[j]]
      {
        bs := bs + [budgets[order[k]]];
      }
      DistinctSize(order);
      assert (set x | x in order) == budgets.Keys;
      forall n | n in budgets
        ensures budgets[n] in bs
      {
        var k :| 0 <= k < |order| && order[k] == n;
        assert bs[k] == budgets[n];
      }
    }
  }
}
