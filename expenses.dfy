/**
 * The expenses screen: the category filter, the total of the listed
 * expenses, and the recording of a new expense.
 */
module Expenses {
  import opened Types
  import opened Lists
  import opened App

  /** The category tabs: every expense, or those of one category. */
  datatype ExpenseFilter = AllCategories | OnlyCategory(category: ExpenseCategory)

  predicate PassesExpenseFilter(e: Expense, filter: ExpenseFilter) {
    filter.AllCategories? || e.category == filter.category
  }

  /** The listed expenses, in their recorded order. */
  function FilterExpenses(expenses: seq<Expense>, filter: ExpenseFilter): (r: seq<Expense>)
    ensures forall e :: e in r <==> e in expenses && PassesExpenseFilter(e, filter)
    ensures forall e :: e in r && filter.OnlyCategory? ==> e.category == filter.category
    ensures IsSubsequence(r, expenses)
    ensures forall e :: multiset(r)[e] == if PassesExpenseFilter(e, filter) then multiset(expenses)[e] else 0
  {
    var keep := (e: Expense) => PassesExpenseFilter(e, filter);
    FilterCounts(expenses, keep);
    FilterMembers(expenses, keep);
    FilterIsSubsequence(expenses, keep);
    Filter(expenses, keep)
  }

  /** The "all" tab lists every expense, in order. */
  lemma AllTabListsEverything(expenses: seq<Expense>)
    ensures FilterExpenses(expenses, AllCategories) == expenses
  {
    FilterKeepsAll(expenses, (e: Expense) => PassesExpenseFilter(e, AllCategories));
  }

  /** The sum of the amounts of a list of expenses (0 for none). */
  function TotalAmount(expenses: seq<Expense>): real
    decreases |expenses|
  {
    if expenses == [] then 0.0 else expenses[0].amount + TotalAmount(expenses[1..])
  }

  /** The total shown above the list: the sum over the listed expenses. */
  function FilteredTotal(expenses: seq<Expense>, filter: ExpenseFilter): (r: real)
    ensures (forall e :: e in expenses ==> e.amount >= 0.0) ==> r >= 0.0
    ensures FilterExpenses(expenses, filter) == [] ==> r == 0.0
  {
    var shown := FilterExpenses(expenses, filter);
    TotalNonNegative(shown);
    TotalAmount(shown)
  }

  /** Amounts that are all non-negative add up to a non-negative total. */
  lemma {:induction false} TotalNonNegative(expenses: seq<Expense>)
    ensures (forall e :: e in expenses ==> e.amount >= 0.0) ==> TotalAmount(expenses) >= 0.0
    decreases |expenses|
  {
    if expenses != [] {
      assert forall e :: e in expenses[1..] ==> e in expenses;
      TotalNonNegative(expenses[1..]);
    }
  }

  /** One step of a filtered total: the first expense counts when it passes the filter. */
  lemma FilteredTotalStep(expenses: seq<Expense>, filter: ExpenseFilter)
    requires expenses != []
    ensures FilteredTotal(expenses, filter)
         == (if PassesExpenseFilter(expenses[0], filter) then expenses[0].amount else 0.0)
            + FilteredTotal(expenses[1..], filter)
  {
    var keep := (e: Expense) => PassesExpenseFilter(e, filter);
    var rest := Filter(expenses[1..], keep);
    if keep(expenses[0]) {
      assert Filter(expenses, keep) == [expenses[0]] + rest;
      assert ([expenses[0]] + rest)[1..] == rest;
    } else {
      assert Filter(expenses, keep) == rest;
    }
  }

  /** The amounts of the expenses passing `filter`, added up one expense at a time. */
  ghost function SumWhere(expenses: seq<Expense>, filter: ExpenseFilter): real
    decreases |expenses|
  {
    if expenses == [] then 0.0
    else (if PassesExpenseFilter(expenses[0], filter) then expenses[0].amount else 0.0) + SumWhere(expenses[1..], filter)
  }

  /** The filtered total is the amount of the expenses passing the filter, each counted once. */
  lemma {:induction false} FilteredTotalIsSum(expenses: seq<Expense>, filter: ExpenseFilter)
    ensures FilteredTotal(expenses, filter) == SumWhere(expenses, filter)
    decreases |expenses|
  {
    if expenses != [] {
      FilteredTotalStep(expenses, filter);
      FilteredTotalIsSum(expenses[1..], filter);
    }
  }

  /** Every expense is in exactly one of the four categories. */
  lemma {:induction false} SumsAddUp(expenses: seq<Expense>)
    ensures SumWhere(expenses, AllCategories)
         == SumWhere(expenses, OnlyCategory(RENT)) + SumWhere(expenses, OnlyCategory(UTILITIES))
          + SumWhere(expenses, OnlyCategory(SALARY)) + SumWhere(expenses, OnlyCategory(OTHER))
    decreases |expenses|
  {
    if expenses != [] {
      SumsAddUp(expenses[1..]);
    }
  }

  /** The total over all expenses is the sum of the totals of the four categories. */
  lemma CategoryTotalsAddUp(expenses: seq<Expense>)
    ensures FilteredTotal(expenses, AllCategories)
         == FilteredTotal(expenses, OnlyCategory(RENT)) + FilteredTotal(expenses, OnlyCategory(UTILITIES))
          + FilteredTotal(expenses, OnlyCategory(SALARY)) + FilteredTotal(expenses, OnlyCategory(OTHER))
  {
    FilteredTotalIsSum(expenses, AllCategories);
    FilteredTotalIsSum(expenses, OnlyCategory(RENT));
    FilteredTotalIsSum(expenses, OnlyCategory(UTILITIES));
    FilteredTotalIsSum(expenses, OnlyCategory(SALARY));
    FilteredTotalIsSum(expenses, OnlyCategory(OTHER));
    SumsAddUp(expenses);
  }

  /** The new-expense form; `caption` is what the user calls the expense. */
  datatype ExpenseForm = ExpenseForm(caption: string, amount: real, category: ExpenseCategory, date: string)

  /** The form as it opens and is reset: no caption, nothing spent, category OTHER, dated `today`. */
  function BlankExpenseForm(today: string): ExpenseForm {
    ExpenseForm("", 0.0, OTHER, today)
  }

  /** The recorded expense: the form's fields and an id made of "exp-" and the random `suffix`. */
  function NewExpense(form: ExpenseForm, suffix: string): (r: Expense)
    ensures r.id == "exp-" + suffix && r.id[..4] == "exp-"
    ensures r.caption == form.caption && r.amount == form.amount
    ensures r.category == form.category && r.date == form.date
  {
    Expense("exp-" + suffix, form.caption, form.amount, form.category, form.date)
  }

  class ExpensesScreen {
    var isModalOpen: bool
    var filter: ExpenseFilter
    var newExpense: ExpenseForm

    constructor (today: string)
      ensures !isModalOpen && filter == AllCategories && newExpense == BlankExpenseForm(today)
    {
      isModalOpen := false;
      filter := AllCategories;
      newExpense := BlankExpenseForm(today);
    }

    /** The listed expenses. */
    function Shown(expenses: seq<Expense>): (r: seq<Expense>)
      reads this
      ensures forall e :: e in r <==> e in expenses && PassesExpenseFilter(e, filter)
    {
      FilterExpenses(expenses, filter)
    }

    method SetFilter(f: ExpenseFilter)
      modifies this`filter
      ensures filter == f
    {
      filter := f;
    }

    method OpenModal()
      modifies this`isModalOpen
      ensures isModalOpen
    {
      isModalOpen := true;
    }

    method EditForm(form: ExpenseForm)
      modifies this`newExpense
      ensures newExpense == form
    {
      newExpense := form;
    }

    /** Records the form as a new expense in front of the list, closes the form and resets it. */
    method Submit(app: AppState, suffix: string, today: string)
      modifies this`isModalOpen, this`newExpense, app`expenses
      ensures app.expenses == [NewExpense(old(newExpense), suffix)] + old(app.expenses)
      ensures !isModalOpen && newExpense == BlankExpenseForm(today) && filter == old(filter)
    {
      app.AddExpense(NewExpense(newExpense, suffix));
      isModalOpen := false;
      newExpense := BlankExpenseForm(today);
    }
  }
}
