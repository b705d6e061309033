/**
 * The trip context provider (src/context/TripContext.tsx): four pieces of
 * state and the browser storage they are written through to.
 *
 * Storage is a map from key to the last collection written under it (the
 * JSON text is abstracted away).  Every operation computes the next
 * collection with the matching function of StoreOps from the collection the
 * provider holds, stores it, and writes it under its key; `Synced()` says
 * that reloading from storage would give back exactly the state in memory.
 */
module TripContext {
  import opened Types
  import StoreOps

  const TripsKey := "travel_trips"
  const ExpensesKey := "travel_expenses"
  const MethodsKey := "travel_payment_methods"

  /** What one storage key holds. */
  datatype Snapshot =
    | TripsSnapshot(trips: seq<Trip>)
    | ExpensesSnapshot(expenses: seq<Expense>)
    | MethodsSnapshot(methods: seq<PaymentMethod>)

  // ----- the data a first visit starts with -----

  const SeedTrip := Trip(
    "1", "European Adventure", "Paris, France", "2024-06-15", "2024-06-25",
    250000.0, 104000.0,
    "https://images.pexels.com/photos/338515/pexels-photo-338515.jpeg?auto=compress&cs=tinysrgb&w=800",
    Upcoming,
    [ ItineraryItem("1", "2024-06-15", "10:00", "Flight to Paris", "Departure from Delhi Airport",
                    "IGI Airport, Delhi", Flight, Some(37500.0)),
      ItineraryItem("2", "2024-06-15", "15:30", "Hotel Check-in", "Check into Hotel des Arts",
                    "Montmartre, Paris", Hotel, Some(10000.0)) ],
    [ PackingItem("1", "Passport", "Documents", true, true),
      PackingItem("2", "Travel Insurance", "Documents", false, true),
      PackingItem("3", "Casual Shirts", "Clothing", false, false) ],
    None)

  const SeedTrips := [SeedTrip]

  const SeedMethods := [
    PaymentMethod("1", CreditCard, "HDFC Credit Card", Some("4567"), Some(12), Some(2027), true),
    PaymentMethod("2", Upi, "PhonePe UPI", None, None, None, false),
    PaymentMethod("3", DebitCard, "SBI Debit Card", Some("8901"), Some(8), Some(2026), false)
  ]

  // ----- loading -----

  predicate HasTrips(storage: map<string, Snapshot>)
  {
    TripsKey in storage && storage[TripsKey].TripsSnapshot?
  }

  predicate HasExpenses(storage: map<string, Snapshot>)
  {
    ExpensesKey in storage && storage[ExpensesKey].ExpensesSnapshot?
  }

  predicate HasMethods(storage: map<string, Snapshot>)
  {
    MethodsKey in storage && storage[MethodsKey].MethodsSnapshot?
  }

  /** The trips a mount starts with: the saved ones, or the seed trip. */
  function LoadTrips(storage: map<string, Snapshot>): (r: seq<Trip>)
    ensures HasTrips(storage) ==> r == storage[TripsKey].trips
    ensures !HasTrips(storage) ==> r == SeedTrips
  {
    if HasTrips(storage) then storage[TripsKey].trips else SeedTrips
  }

  /** The expenses a mount starts with: the saved ones, or none. */
  function LoadExpenses(storage: map<string, Snapshot>): (r: seq<Expense>)
    ensures HasExpenses(storage) ==> r == storage[ExpensesKey].expenses
    ensures !HasExpenses(storage) ==> r == []
  {
    if HasExpenses(storage) then storage[ExpensesKey].expenses else []
  }

  /** The payment methods a mount starts with: the saved ones, or the three seed methods. */
  function LoadMethods(storage: map<string, Snapshot>): (r: seq<PaymentMethod>)
    ensures HasMethods(storage) ==> r == storage[MethodsKey].methods
    ensures !HasMethods(storage) ==> r == SeedMethods
  {
    if HasMethods(storage) then storage[MethodsKey].methods else SeedMethods
  }

  /** Storage after a mount: the seed trips and seed methods are written when nothing was saved. */
  function MountStorage(saved: map<string, Snapshot>): (r: map<string, Snapshot>)
    ensures HasTrips(r) && HasMethods(r)
    ensures LoadTrips(r) == LoadTrips(saved)
    ensures LoadExpenses(r) == LoadExpenses(saved)
    ensures LoadMethods(r) == LoadMethods(saved)
    ensures forall k :: k in saved ==> k in r
    ensures forall k :: k in r && k != TripsKey && k != MethodsKey ==> k in saved && r[k] == saved[k]
  {
    var withTrips := if HasTrips(saved) then saved else saved[TripsKey := TripsSnapshot(SeedTrips)];
    if HasMethods(withTrips) then withTrips else withTrips[MethodsKey := MethodsSnapshot(SeedMethods)]
  }

  /** Mounting again over what a mount left in storage writes nothing new. */
  lemma RemountWritesNothing(saved: map<string, Snapshot>)
    ensures MountStorage(MountStorage(saved)) == MountStorage(saved)
  {
  }

  /** A saved collection comes back unchanged from a reload. */
  lemma ReloadRoundTrip(storage: map<string, Snapshot>, ts: seq<Trip>, es: seq<Expense>, ms: seq<PaymentMethod>)
    ensures LoadTrips(storage[TripsKey := TripsSnapshot(ts)]) == ts
    ensures LoadExpenses(storage[ExpensesKey := ExpensesSnapshot(es)]) == es
    ensures LoadMethods(storage[MethodsKey := MethodsSnapshot(ms)]) == ms
  {
  }

  class TripProvider {
    var trips: seq<Trip>
    var currentTrip: Option<Trip>
    var expenses: seq<Expense>
    var paymentMethods: seq<PaymentMethod>
    var storage: map<string, Snapshot>

    /** Reloading from storage would give back the state held in memory. */
    ghost predicate Synced()
      reads this
    {
      && LoadTrips(storage) == trips
      && LoadExpenses(storage) == expenses
      && LoadMethods(storage) == paymentMethods
    }

    /** The current trip, when there is one, is an entry of the trip list. */
    ghost predicate CurrentListed()
      reads this
    {
      currentTrip.None? || currentTrip.value in trips
    }

    /** The mount effect over what storage held before. */
    constructor Mount(saved: map<string, Snapshot>)
      ensures trips == LoadTrips(saved) && expenses == LoadExpenses(saved)
      ensures paymentMethods == LoadMethods(saved) && currentTrip == None
      ensures storage == MountStorage(saved)
      ensures Synced()
    {
      var written := saved;
      currentTrip := None;
      if HasTrips(saved) {
        trips := saved[TripsKey].trips;
      } else {
        trips := SeedTrips;
        written := written[TripsKey := TripsSnapshot(SeedTrips)];
      }
      expenses := if HasExpenses(saved) then saved[ExpensesKey].expenses else [];
      if HasMethods(saved) {
        paymentMethods := saved[MethodsKey].methods;
      } else {
        paymentMethods := SeedMethods;
        written := written[MethodsKey := MethodsSnapshot(SeedMethods)];
      }
      storage := written;
    }

    // ----- setX together with localStorage.setItem -----

    method CommitTrips(next: seq<Trip>)
      modifies this
      ensures trips == next && storage == old(storage)[TripsKey := TripsSnapshot(next)]
      ensures currentTrip == old(currentTrip) && expenses == old(expenses)
      ensures paymentMethods == old(paymentMethods)
      ensures old(Synced()) ==> Synced()
      ensures LoadTrips(storage) == trips
    {
      trips := next;
      storage := storage[TripsKey := TripsSnapshot(next)];
    }

    method CommitExpenses(next: seq<Expense>)
      modifies this
      ensures expenses == next && storage == old(storage)[ExpensesKey := ExpensesSnapshot(next)]
      ensures trips == old(trips) && currentTrip == old(currentTrip)
      ensures paymentMethods == old(paymentMethods)
      ensures old(Synced()) ==> Synced()
      ensures LoadExpenses(storage) == expenses
    {
      expenses := next;
      storage := storage[ExpensesKey := ExpensesSnapshot(next)];
    }

    method CommitPaymentMethods(next: seq<PaymentMethod>)
      modifies this
      ensures paymentMethods == next && storage == old(storage)[MethodsKey := MethodsSnapshot(next)]
      ensures trips == old(trips) && currentTrip == old(currentTrip) && expenses == old(expenses)
      ensures old(Synced()) ==> Synced()
      ensures LoadMethods(storage) == paymentMethods
    {
      paymentMethods := next;
      storage := storage[MethodsKey := MethodsSnapshot(next)];
    }

    // ----- the context's operations -----

    method SetCurrentTrip(t: Option<Trip>)
      modifies this
      ensures currentTrip == t
      ensures trips == old(trips) && expenses == old(expenses)
      ensures paymentMethods == old(paymentMethods) && storage == old(storage)
    {
      currentTrip := t;
    }

    method AddTrip(data: Trip, newId: string)
      modifies this
      ensures trips == StoreOps.AddTrip(old(trips), data, newId)
      ensures storage == old(storage)[TripsKey := TripsSnapshot(trips)]
      ensures currentTrip == old(currentTrip) && expenses == old(expenses)
      ensures paymentMethods == old(paymentMethods)
      ensures old(Synced()) ==> Synced()
    {
      CommitTrips(StoreOps.AddTrip(trips, data, newId));
    }

    method UpdateTrip(tripId: string, updates: TripPatch)
      modifies this
      ensures trips == StoreOps.UpdateTrip(old(trips), tripId, updates)
      ensures currentTrip == StoreOps.RefreshCurrent(old(currentTrip), tripId, updates)
      ensures storage == old(storage)[TripsKey := TripsSnapshot(trips)]
      ensures expenses == old(expenses) && paymentMethods == old(paymentMethods)
      ensures old(Synced()) ==> Synced()
      ensures old(CurrentListed()) ==> CurrentListed()
    {
      var current := currentTrip;
      if CurrentListed() {
        StoreOps.RefreshKeepsListed(trips, current, tripId, updates);
      }
      CommitTrips(StoreOps.UpdateTrip(trips, tripId, updates));
      if current.Some? && current.value.id == tripId {
        currentTrip := Some(MergeTrip(current.value, updates));
      }
    }

    method DeleteTrip(tripId: string)
      modifies this
      ensures trips == StoreOps.DeleteTrip(old(trips), tripId)
      ensures currentTrip == StoreOps.ForgetCurrent(old(currentTrip), tripId)
      ensures storage == old(storage)[TripsKey := TripsSnapshot(trips)]
      ensures expenses == old(expenses) && paymentMethods == old(paymentMethods)
      ensures old(Synced()) ==> Synced()
      ensures old(CurrentListed()) ==> CurrentListed()
    {
      var current := currentTrip;
      if CurrentListed() {
        StoreOps.ForgetKeepsListed(trips, current, tripId);
      }
      CommitTrips(StoreOps.DeleteTrip(trips, tripId));
      if current.Some? && current.value.id == tripId {
        currentTrip := None;
      }
    }

    method AddItineraryItem(tripId: string, item: ItineraryItem, newId: string)
      modifies this
      ensures trips == StoreOps.AddItineraryItem(old(trips), tripId, item, newId)
      ensures storage == old(storage)[TripsKey := TripsSnapshot(trips)]
      ensures currentTrip == old(currentTrip) && expenses == old(expenses)
      ensures paymentMethods == old(paymentMethods)
      ensures old(Synced()) ==> Synced()
    {
      CommitTrips(StoreOps.AddItineraryItem(trips, tripId, item, newId));
    }

    method UpdateItineraryItem(tripId: string, itemId: string, updates: ItemPatch)
      modifies this
      ensures trips == StoreOps.UpdateItineraryItem(old(trips), tripId, itemId, updates)
      ensures storage == old(storage)[TripsKey := TripsSnapshot(trips)]
      ensures currentTrip == old(currentTrip) && expenses == old(expenses)
      ensures paymentMethods == old(paymentMethods)
      ensures old(Synced()) ==> Synced()
    {
      CommitTrips(StoreOps.UpdateItineraryItem(trips, tripId, itemId, updates));
    }

    method DeleteItineraryItem(tripId: string, itemId: string)
      modifies this
      ensures trips == StoreOps.DeleteItineraryItem(old(trips), tripId, itemId)
      ensures storage == old(storage)[TripsKey := TripsSnapshot(trips)]
      ensures currentTrip == old(currentTrip) && expenses == old(expenses)
      ensures paymentMethods == old(paymentMethods)
      ensures old(Synced()) ==> Synced()
    {
      CommitTrips(StoreOps.DeleteItineraryItem(trips, tripId, itemId));
    }

    method AddPackingItem(tripId: string, item: PackingItem, newId: string)
      modifies this
      ensures trips == StoreOps.AddPackingItem(old(trips), tripId, item, newId)
      ensures storage == old(storage)[TripsKey := TripsSnapshot(trips)]
      ensures currentTrip == old(currentTrip) && expenses == old(expenses)
      ensures paymentMethods == old(paymentMethods)
      ensures old(Synced()) ==> Synced()
    {
      CommitTrips(StoreOps.AddPackingItem(trips, tripId, item, newId));
    }

    method UpdatePackingItem(tripId: string, itemId: string, updates: PackingPatch)
      modifies this
      ensures trips == StoreOps.UpdatePackingItem(old(trips), tripId, itemId, updates)
      ensures storage == old(storage)[TripsKey := TripsSnapshot(trips)]
      ensures currentTrip == old(currentTrip) && expenses == old(expenses)
      ensures paymentMethods == old(paymentMethods)
      ensures old(Synced()) ==> Synced()
    {
      CommitTrips(StoreOps.UpdatePackingItem(trips, tripId, itemId, updates));
    }

    method DeletePackingItem(tripId: string, itemId: string)
      modifies this
      ensures trips == StoreOps.DeletePackingItem(old(trips), tripId, itemId)
      ensures storage == old(storage)[TripsKey := TripsSnapshot(trips)]
      ensures currentTrip == old(currentTrip) && expenses == old(expenses)
      ensures paymentMethods == old(paymentMethods)
      ensures old(Synced()) ==> Synced()
    {
      CommitTrips(StoreOps.DeletePackingItem(trips, tripId, itemId));
    }

    /** Record the expense and add its amount to the spent figure of the trip it names. */
    method AddExpense(data: Expense, newId: string)
      modifies this
      ensures expenses == StoreOps.AddExpense(old(expenses), data, newId)
      ensures trips == StoreOps.ChargeTrip(old(trips), data.tripId, data.amount)
      ensures storage == old(storage)[ExpensesKey := ExpensesSnapshot(expenses)][TripsKey := TripsSnapshot(trips)]
      ensures currentTrip == old(currentTrip) && paymentMethods == old(paymentMethods)
      ensures old(Synced()) ==> Synced()
    {
      CommitExpenses(StoreOps.AddExpense(expenses, data, newId));
      CommitTrips(StoreOps.ChargeTrip(trips, data.tripId, data.amount));
    }

    method AddPaymentMethod(data: PaymentMethod, newId: string)
      modifies this
      ensures paymentMethods == StoreOps.AddPaymentMethod(old(paymentMethods), data, newId)
      ensures storage == old(storage)[MethodsKey := MethodsSnapshot(paymentMethods)]
      ensures trips == old(trips) && currentTrip == old(currentTrip) && expenses == old(expenses)
      ensures old(Synced()) ==> Synced()
    {
      CommitPaymentMethods(StoreOps.AddPaymentMethod(paymentMethods, data, newId));
    }

    method UpdatePaymentMethod(methodId: string, updates: MethodPatch)
      modifies this
      ensures paymentMethods == StoreOps.UpdatePaymentMethod(old(paymentMethods), methodId, updates)
      ensures storage == old(storage)[MethodsKey := MethodsSnapshot(paymentMethods)]
      ensures trips == old(trips) && currentTrip == old(currentTrip) && expenses == old(expenses)
      ensures old(Synced()) ==> Synced()
    {
      CommitPaymentMethods(StoreOps.UpdatePaymentMethod(paymentMethods, methodId, updates));
    }

    method DeletePaymentMethod(methodId: string)
      modifies this
      ensures paymentMethods == StoreOps.DeletePaymentMethod(old(paymentMethods), methodId)
      ensures storage == old(storage)[MethodsKey := MethodsSnapshot(paymentMethods)]
      ensures trips == old(trips) && currentTrip == old(currentTrip) && expenses == old(expenses)
      ensures old(Synced()) ==> Synced()
    {
      CommitPaymentMethods(StoreOps.DeletePaymentMethod(paymentMethods, methodId));
    }
  }

  // ----- facts about the seed data -----

  /**
   * The seed trip records 104000 as spent, yet no expense is seeded: after a
   * first visit, a trip's spent figure is not the sum of its expenses.
   */
  lemma SeedSpentIsNotExpenseSum()
    ensures var p := LoadTrips(map[]);
            |p| == 1 && p[0].spent == 104000.0 && LoadExpenses(map[]) == []
  {
  }

  /** Exactly one seed payment method is the default, the first. */
  lemma SeedHasOneDefault()
    ensures forall i :: 0 <= i < |SeedMethods| ==> (SeedMethods[i].isDefault <==> i == 0)
  {
  }
}
