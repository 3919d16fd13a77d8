/**
 * The credit book screen: the customer search and the creation of a
 * customer record.
 */
module Customers {
  import opened Wrappers
  import opened Types
  import opened Text
  import opened Lists
  import opened App

  /** A customer is listed when the lower-cased name contains the lower-cased term, or the phone contains the term. */
  predicate CustomerMatches(c: Customer, search: string) {
    Contains(Lower(c.name), Lower(search)) || Contains(c.phone, search)
  }

  /** The listed customers, in credit-book order. */
  function FilterCustomers(customers: seq<Customer>, search: string): (r: seq<Customer>)
    ensures forall c :: c in r <==> c in customers && CustomerMatches(c, search)
    ensures IsSubsequence(r, customers)
    ensures forall c :: multiset(r)[c] == if CustomerMatches(c, search) then multiset(customers)[c] else 0
  {
    var keep := (c: Customer) => CustomerMatches(c, search);
    FilterCounts(customers, keep);
    FilterMembers(customers, keep);
    FilterIsSubsequence(customers, keep);
    Filter(customers, keep)
  }

  /** An empty search lists every customer, in order. */
  lemma EmptySearchListsAllCustomers(customers: seq<Customer>)
    ensures FilterCustomers(customers, "") == customers
  {
    forall c | c in customers
      ensures CustomerMatches(c, "")
    {
      ContainsEmpty(c.phone);
    }
    FilterKeepsAll(customers, (c: Customer) => CustomerMatches(c, ""));
  }

  /** Searching a customer's own phone number lists that customer. */
  lemma PhoneSearchFindsCustomer(customers: seq<Customer>, i: nat)
    requires i < |customers|
    ensures customers[i] in FilterCustomers(customers, customers[i].phone)
  {
    var phone := customers[i].phone;
    assert phone[..|phone|] == phone;
  }

  /** The new-customer form. */
  datatype CustomerForm = CustomerForm(name: string, phone: string, creditBalance: real)

  /** The form as it opens and is reset: no name, no phone, nothing owed. */
  const BlankCustomerForm := CustomerForm("", "", 0.0)

  /**
   * The customer created from the form when the book holds `count` entries:
   * id "c" followed by count + 1, the form's name, phone and credit, and no
   * loyalty points.
   */
  function NewCustomer(form: CustomerForm, count: nat): (r: Customer)
    ensures r.id == "c" + DecimalString(count + 1)
    ensures r.name == form.name && r.phone == form.phone && r.creditBalance == form.creditBalance
    ensures r.loyaltyPoints == Some(0)
  {
    Customer("c" + DecimalString(count + 1), form.name, form.phone, form.creditBalance, Some(0))
  }

  /** The number in a new customer's id reads back as the count plus one. */
  lemma NewCustomerIdReadsBack(form: CustomerForm, count: nat)
    ensures var id := NewCustomer(form, count).id;
      |id| >= 2 && id[0] == 'c' && ParseInt(id[1..]) == Some(count + 1)
  {
    var id := NewCustomer(form, count).id;
    assert id[1..] == DecimalString(count + 1) + "";
    ParseIntOfDecimal(count + 1, "");
  }

  /** Customers created at different book sizes get different ids. */
  lemma NewCustomerIdsDiffer(f1: CustomerForm, f2: CustomerForm, m: nat, n: nat)
    requires m != n
    ensures NewCustomer(f1, m).id != NewCustomer(f2, n).id
  {
    NewCustomerIdReadsBack(f1, m);
    NewCustomerIdReadsBack(f2, n);
  }

  class CustomersScreen {
    var search: string
    var isModalOpen: bool
    var newCustomer: CustomerForm

    constructor ()
      ensures search == "" && !isModalOpen && newCustomer == BlankCustomerForm
    {
      search := "";
      isModalOpen := false;
      newCustomer := BlankCustomerForm;
    }

    /** The listed customers. */
    function Shown(customers: seq<Customer>): (r: seq<Customer>)
      reads this
      ensures forall c :: c in r <==> c in customers && CustomerMatches(c, search)
    {
      FilterCustomers(customers, search)
    }

    method SetSearch(term: string)
      modifies this`search
      ensures search == term
    {
      search := term;
    }

    method OpenModal()
      modifies this`isModalOpen
      ensures isModalOpen
    {
      isModalOpen := true;
    }

    method EditForm(form: CustomerForm)
      modifies this`newCustomer
      ensures newCustomer == form
    {
      newCustomer := form;
    }

    /** Adds the customer built from the form in front of the credit book, closes the form and resets it. */
    method Submit(app: AppState)
      modifies this`isModalOpen, this`newCustomer, app`customers
      ensures app.customers == [NewCustomer(old(newCustomer), |old(app.customers)|)] + old(app.customers)
      ensures !isModalOpen && newCustomer == BlankCustomerForm && search == old(search)
    {
      app.AddCustomer(NewCustomer(newCustomer, |app.customers|));
      isModalOpen := false;
      newCustomer := BlankCustomerForm;
    }
  }
}
