/**
 * The budget tracker (src/components/Budget/BudgetTracker.tsx): the expense
 * form and where a submitted expense goes (straight into the store, or
 * through the payment dialog above 1000), the totals, the per-category
 * totals, the recent-expenses list and the progress colour.
 */
module BudgetTracker {
  import opened Types
  import Seqs
  import Sorting
  import Text
  import StoreOps
  import TripContext
  import TripStats

  /** The form; amount None is the empty field. */
  datatype ExpenseForm = ExpenseForm(amount: Option<real>, category: string, description: string, date: string)

  /** resetForm: empty fields and today's date. */
  function FreshForm(today: string): ExpenseForm
  {
    ExpenseForm(None, "", "", today)
  }

  /** Above this amount an expense is paid through the payment dialog. */
  const PaymentThreshold := 1000.0

  datatype Route = NoTripSelected | ThroughPayment | Direct

  /** Where handleSubmit sends an expense. */
  function SubmitRoute(selectedTrip: string, amount: real): (r: Route)
    ensures r == NoTripSelected <==> selectedTrip == ""
    ensures r == ThroughPayment <==> selectedTrip != "" && amount > PaymentThreshold
    ensures r == Direct <==> selectedTrip != "" && amount <= PaymentThreshold
  {
    if selectedTrip == "" then NoTripSelected
    else if amount > PaymentThreshold then ThroughPayment
    else Direct
  }

  /** The expense the form describes, as addExpense receives it (its id is filled in by the store). */
  function ExpenseOf(tripId: string, amount: real, f: ExpenseForm, paidWith: Option<PaymentMethod>): (e: Expense)
    ensures e.tripId == tripId && e.amount == amount && e.category == f.category
    ensures e.description == f.description && e.date == f.date && e.paymentMethod == paidWith
  {
    Expense("", tripId, amount, f.category, f.description, f.date, paidWith)
  }

  /** The amount and description handed to the payment dialog. */
  function PaymentRequest(f: ExpenseForm): (r: (real, string))
    ensures r.0 == (if f.amount.Some? then f.amount.value else 0.0)
    ensures r.1 == (if f.description != "" then f.description else "Travel expense")
  {
    (if f.amount.Some? then f.amount.value else 0.0, if f.description != "" then f.description else "Travel expense")
  }

  class BudgetTracker {
    const store: TripContext.TripProvider
    var showForm: bool
    var showPaymentModal: bool
    var selectedTrip: string
    var form: ExpenseForm

    constructor (store: TripContext.TripProvider, today: string)
      ensures this.store == store && !showForm && !showPaymentModal && selectedTrip == ""
      ensures form == FreshForm(today)
    {
      this.store := store;
      showForm := false;
      showPaymentModal := false;
      selectedTrip := "";
      form := FreshForm(today);
    }

    method ResetForm(today: string)
      modifies this
      ensures form == FreshForm(today) && !showForm
      ensures showPaymentModal == old(showPaymentModal) && selectedTrip == old(selectedTrip)
    {
      form := FreshForm(today);
      showForm := false;
    }

    method SelectTrip(tripId: string)
      modifies this
      ensures selectedTrip == tripId && form == old(form)
      ensures showForm == old(showForm) && showPaymentModal == old(showPaymentModal)
    {
      selectedTrip := tripId;
    }

    method SetForm(f: ExpenseForm)
      modifies this
      ensures form == f && selectedTrip == old(selectedTrip)
      ensures showForm == old(showForm) && showPaymentModal == old(showPaymentModal)
    {
      form := f;
    }

    /**
     * Submit the form (the amount field is required, so it holds a number):
     * without a trip nothing happens but the alert; above the threshold the
     * payment dialog opens; otherwise the expense is recorded without a
     * payment method and the form is reset.
     */
    method HandleSubmit(newId: string, today: string) returns (alerted: bool)
      requires form.amount.Some?
      modifies this, store
      ensures var route := SubmitRoute(old(selectedTrip), old(form).amount.value);
              && (alerted <==> route == NoTripSelected)
              && (route == Direct ==>
                    store.expenses == StoreOps.AddExpense(old(store.expenses),
                                        ExpenseOf(old(selectedTrip), old(form).amount.value, old(form), None), newId) &&
                    store.trips == StoreOps.ChargeTrip(old(store.trips), old(selectedTrip), old(form).amount.value) &&
                    form == FreshForm(today) && !showForm && showPaymentModal == old(showPaymentModal))
              && (route != Direct ==>
                    store.expenses == old(store.expenses) && store.trips == old(store.trips) &&
                    store.storage == old(store.storage) && form == old(form) && showForm == old(showForm))
              && (route == ThroughPayment ==> showPaymentModal)
              && (route == NoTripSelected ==> showPaymentModal == old(showPaymentModal))
      ensures selectedTrip == old(selectedTrip)
      ensures store.paymentMethods == old(store.paymentMethods) && store.currentTrip == old(store.currentTrip)
      ensures old(store.Synced()) ==> store.Synced()
    {
      if selectedTrip == "" {
        return true;
      }
      var amount := form.amount.value;
      if amount > PaymentThreshold {
        showPaymentModal := true;
      } else {
        store.AddExpense(ExpenseOf(selectedTrip, amount, form, None), newId);
        ResetForm(today);
      }
      return false;
    }

    /** The dialog reports a successful payment: record the expense with the method used. */
    method HandlePaymentSuccess(paidWith: PaymentMethod, newId: string, today: string)
      requires form.amount.Some?
      modifies this, store
      ensures store.expenses == StoreOps.AddExpense(old(store.expenses),
                                  ExpenseOf(old(selectedTrip), old(form).amount.value, old(form), Some(paidWith)), newId)
      ensures store.trips == StoreOps.ChargeTrip(old(store.trips), old(selectedTrip), old(form).amount.value)
      ensures form == FreshForm(today) && !showForm && !showPaymentModal && selectedTrip == old(selectedTrip)
      ensures store.paymentMethods == old(store.paymentMethods) && store.currentTrip == old(store.currentTrip)
      ensures old(store.Synced()) ==> store.Synced()
    {
      store.AddExpense(ExpenseOf(selectedTrip, form.amount.value, form, Some(paidWith)), newId);
      ResetForm(today);
      showPaymentModal := false;
    }

    /** The dialog's onClose. */
    method ClosePaymentModal()
      modifies this
      ensures !showPaymentModal && form == old(form) && showForm == old(showForm) && selectedTrip == old(selectedTrip)
    {
      showPaymentModal := false;
    }
  }

  /** Paying through the dialog is the only way an expense above the threshold is recorded. */
  lemma DirectExpensesAreSmall(selectedTrip: string, amount: real)
    requires SubmitRoute(selectedTrip, amount) == Direct
    ensures amount <= PaymentThreshold && selectedTrip != ""
  {
  }

  // ----- category totals -----

  function CategoryOf(e: Expense): string { e.category }

  function AmountOf(e: Expense): real { e.amount }

  /**
   * `expenses.reduce((acc, e) => { acc[e.category] = (acc[e.category] || 0) + e.amount; ... }, {})`:
   * one entry per category that occurs, holding the sum of that category's amounts.
   */
  method ExpensesByCategory(expenses: seq<Expense>) returns (totals: map<string, real>)
    ensures forall c :: c in totals <==> c in Seqs.Keys(expenses, CategoryOf)
    ensures forall c :: c in totals ==> totals[c] == Seqs.GroupSum(expenses, CategoryOf, AmountOf)(c)
  {
    totals := Seqs.SumBy(expenses, CategoryOf, AmountOf);
  }

  /** The category totals, taken over the categories in order of appearance, add up to the total of all expenses. */
  lemma CategoryTotalsAddUp(expenses: seq<Expense>)
    ensures Seqs.Sum(Seqs.Keys(expenses, CategoryOf), Seqs.GroupSum(expenses, CategoryOf, AmountOf)) ==
            Seqs.Sum(expenses, AmountOf)
  {
    Seqs.PartitionSum(expenses, CategoryOf, AmountOf);
  }

  // ----- recent expenses -----

  /** The comparator `new Date(b.date) - new Date(a.date)`: a may come before b when it is not older. */
  function NewestFirst(a: Expense, b: Expense): bool
  {
    Text.LexLeq(b.date, a.date)
  }

  lemma NewestFirstIsTotalPreorder()
    ensures Sorting.TotalPreorder(NewestFirst)
  {
    forall a: Expense, b: Expense ensures NewestFirst(a, b) || NewestFirst(b, a) {
      Text.LexLeqTotal(a.date, b.date);
    }
    forall a: Expense, b: Expense, c: Expense | NewestFirst(a, b) && NewestFirst(b, c)
      ensures NewestFirst(a, c)
    {
      Text.LexLeqTransitive(c.date, b.date, a.date);
    }
  }

  /**
   * recentExpenses as written: `expenses.sort(...)` sorts the context's own
   * array in place before `slice(0, 10)`.  The store's list is reordered in
   * memory while storage keeps the old order.
   */
  method RecentExpensesInPlace(store: TripContext.TripProvider) returns (recent: seq<Expense>)
    modifies store
    ensures Sorting.TotalPreorder(NewestFirst) && store.expenses == Sorting.Sort(old(store.expenses), NewestFirst)
    ensures recent == Seqs.Take(store.expenses, 10)
    ensures store.storage == old(store.storage) && store.trips == old(store.trips)
    ensures store.paymentMethods == old(store.paymentMethods) && store.currentTrip == old(store.currentTrip)
  {
    NewestFirstIsTotalPreorder();
    store.expenses := Sorting.Sort(store.expenses, NewestFirst);
    recent := Seqs.Take(store.expenses, 10);
  }

  /**
   * Two expenses stored oldest first come back from the in-place sort newest
   * first, so the list in memory no longer matches what storage would
   * reload.
   */
  lemma InPlaceSortDesyncs(a: Expense, b: Expense)
    requires Text.LexLess(a.date, b.date)
    ensures var storage := map[TripContext.ExpensesKey := TripContext.ExpensesSnapshot([a, b])];
            Sorting.TotalPreorder(NewestFirst) &&
            Sorting.Sort(TripContext.LoadExpenses(storage), NewestFirst) == [b, a] &&
            TripContext.LoadExpenses(storage) == [a, b] && [a, b] != [b, a]
  {
    NewestFirstIsTotalPreorder();
    assert !Text.LexLeq(b.date, a.date) by {
      if Text.LexLeq(b.date, a.date) {
        Text.LexLeqAntisymmetric(a.date, b.date);
      }
    }
    assert [a, b][..1] == [a];
    assert [a][..0] == [];
  }

  /**
   * recentExpenses on a copy, as the itinerary view does it: the ten newest
   * expenses (or all of them), newest first, and the store untouched.
   */
  function RecentExpenses(expenses: seq<Expense>): (r: seq<Expense>)
    ensures |r| == if |expenses| < 10 then |expenses| else 10
    ensures Sorting.Sorted(r, NewestFirst)
    ensures multiset(r) <= multiset(expenses)
    ensures |expenses| <= 10 ==> multiset(r) == multiset(expenses)
    ensures forall x, y :: x in multiset(expenses) - multiset(r) && y in r ==> NewestFirst(y, x)
  {
    NewestFirstIsTotalPreorder();
    var sorted := Sorting.Sort(expenses, NewestFirst);
    var r := Seqs.Take(sorted, 10);
    assert sorted == r + sorted[|r|..];
    assert multiset(sorted) == multiset(r) + multiset(sorted[|r|..]);
    Sorting.PrefixComesFirst(sorted, |r|, NewestFirst);
    r
  }

  // ----- progress colour -----

  datatype ProgressColor = Red | Orange | Blue

  function ColorClasses(c: ProgressColor): string
  {
    match c
    case Red => "from-red-500 to-red-600"
    case Orange => "from-orange-500 to-orange-600"
    case Blue => "from-blue-500 to-cyan-500"
  }

  /**
   * getProgressColor on `(spent / budget) * 100`.  With a zero budget the
   * percentage is +Infinity for a positive spent figure (red) and NaN or
   * -Infinity otherwise (neither comparison holds: blue).
   */
  function GetProgressColor(spent: real, budget: real): (c: ProgressColor)
    ensures budget != 0.0 ==> (c == Red <==> spent / budget > 1.0)
    ensures budget != 0.0 ==> (c == Orange <==> 0.8 < spent / budget <= 1.0)
    ensures budget == 0.0 ==> (c == Red <==> spent > 0.0) && c != Orange
  {
    if budget == 0.0 then (if spent > 0.0 then Red else Blue)
    else
      var percentage := spent / budget * 100.0;
      if percentage > 100.0 then Red
      else if percentage > 80.0 then Orange
      else Blue
  }

  /** For a positive budget: red over budget, orange above 80% up to the budget, blue otherwise. */
  lemma ProgressBands(spent: real, budget: real)
    requires budget > 0.0
    ensures GetProgressColor(spent, budget) == Red <==> spent > budget
    ensures GetProgressColor(spent, budget) == Orange <==> 5.0 * spent > 4.0 * budget && spent <= budget
    ensures GetProgressColor(spent, budget) == Blue <==> 5.0 * spent <= 4.0 * budget
  {
    var p := spent / budget * 100.0;
    assert p * budget == 100.0 * spent;
    assert p > 100.0 <==> spent > budget;
    assert (p - 80.0) * budget == 100.0 * spent - 80.0 * budget;
    TripStats.SignOfProduct(p - 80.0, budget);
  }

  /** With no budget, any positive spending shows red, and none shows blue. */
  lemma ProgressZeroBudget(spent: real)
    ensures GetProgressColor(spent, 0.0) == Red <==> spent > 0.0
    ensures GetProgressColor(spent, 0.0) != Orange
  {
  }
}
