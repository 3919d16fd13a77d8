/**
 * The suppliers screen: the name search and the creation of a supplier
 * record.
 */
module Suppliers {
  import opened Types
  import opened Text
  import opened Lists
  import opened App

  /** A supplier is listed when the lower-cased name contains the lower-cased term; the contact is not searched. */
  predicate SupplierMatches(s: Supplier, search: string) {
    Contains(Lower(s.name), Lower(search))
  }

  /** The listed suppliers, in list order. */
  function FilterSuppliers(suppliers: seq<Supplier>, search: string): (r: seq<Supplier>)
    ensures forall s :: s in r <==> s in suppliers && SupplierMatches(s, search)
    ensures IsSubsequence(r, suppliers)
    ensures forall s :: multiset(r)[s] == if SupplierMatches(s, search) then multiset(suppliers)[s] else 0
  {
    var keep := (s: Supplier) => SupplierMatches(s, search);
    FilterCounts(suppliers, keep);
    FilterMembers(suppliers, keep);
    FilterIsSubsequence(suppliers, keep);
    Filter(suppliers, keep)
  }

  /** An empty search lists every supplier, in order. */
  lemma EmptySearchListsAllSuppliers(suppliers: seq<Supplier>)
    ensures FilterSuppliers(suppliers, "") == suppliers
  {
    forall s | s in suppliers
      ensures SupplierMatches(s, "")
    {
      ContainsEmpty(Lower(s.name));
    }
    FilterKeepsAll(suppliers, (s: Supplier) => SupplierMatches(s, ""));
  }

  /** Whether a supplier is listed does not depend on its contact. */
  lemma ContactIsNotSearched(s: Supplier, contact: string, search: string)
    ensures SupplierMatches(s.(contact := contact), search) == SupplierMatches(s, search)
  {
  }

  /** Searching a supplier's contact does not find it when the contact is longer than its name. */
  lemma ContactSearchMissesSupplier(name: string, contact: string)
    requires contact != "" && |name| < |contact|
    ensures !SupplierMatches(Supplier("s1", name, contact, 0.0), contact)
  {
    NoLongerSubstring(Lower(name), Lower(contact));
  }

  /** A string never contains a longer one. */
  lemma {:induction false} NoLongerSubstring(s: string, sub: string)
    requires |s| < |sub|
    ensures !Contains(s, sub)
    decreases |s|
  {
    if s != [] {
      NoLongerSubstring(s[1..], sub);
    }
  }

  /** The new-supplier form. */
  datatype SupplierForm = SupplierForm(name: string, contact: string, debt: real)

  /** The form as it opens and is reset: no name, no contact, nothing owed. */
  const BlankSupplierForm := SupplierForm("", "", 0.0)

  /** The supplier created from the form when the list holds `count` entries: id "s" followed by count + 1. */
  function NewSupplier(form: SupplierForm, count: nat): (r: Supplier)
    ensures r.id == "s" + DecimalString(count + 1)
    ensures r.name == form.name && r.contact == form.contact && r.debt == form.debt
  {
    Supplier("s" + DecimalString(count + 1), form.name, form.contact, form.debt)
  }

  /** Suppliers created at different list sizes get different ids. */
  lemma NewSupplierIdsDiffer(f1: SupplierForm, f2: SupplierForm, m: nat, n: nat)
    requires m != n
    ensures NewSupplier(f1, m).id != NewSupplier(f2, n).id
  {
    var a, b := NewSupplier(f1, m).id, NewSupplier(f2, n).id;
    assert a[1..] == DecimalString(m + 1) + "";
    assert b[1..] == DecimalString(n + 1) + "";
    ParseIntOfDecimal(m + 1, "");
    ParseIntOfDecimal(n + 1, "");
  }

  class SuppliersScreen {
    var search: string
    var isModalOpen: bool
    var newSupplier: SupplierForm

    constructor ()
      ensures search == "" && !isModalOpen && newSupplier == BlankSupplierForm
    {
      search := "";
      isModalOpen := false;
      newSupplier := BlankSupplierForm;
    }

    /** The listed suppliers. */
    function Shown(suppliers: seq<Supplier>): (r: seq<Supplier>)
      reads this
      ensures forall s :: s in r <==> s in suppliers && SupplierMatches(s, search)
    {
      FilterSuppliers(suppliers, search)
    }

    method SetSearch(term: string)
      modifies this`search
      ensures search == term
    {
      search := term;
    }

    method OpenModal()
      modifies this`isModalOpen
      ensures isModalOpen
    {
      isModalOpen := true;
    }

    method EditForm(form: SupplierForm)
      modifies this`newSupplier
      ensures newSupplier == form
    {
      newSupplier := form;
    }

    /** Adds the supplier built from the form in front of the list, closes the form and resets it. */
    method Submit(app: AppState)
      modifies this`isModalOpen, this`newSupplier, app`suppliers
      ensures app.suppliers == [NewSupplier(old(newSupplier), |old(app.suppliers)|)] + old(app.suppliers)
      ensures !isModalOpen && newSupplier == BlankSupplierForm && search == old(search)
    {
      app.AddSupplier(NewSupplier(newSupplier, |app.suppliers|));
      isModalOpen := false;
      newSupplier := BlankSupplierForm;
    }
  }
}
