/**
 * The collection each mutation of the trip context computes from the
 * collection it closed over (src/context/TripContext.tsx:134-275): a spread,
 * a `map` or a `filter`, never an update in place.  Each function takes the
 * snapshot and returns the next one; the provider in trip_context.dfy
 * stores the result and writes it through to storage.
 */
module StoreOps {
  import opened Types
  import Seqs

  // ----- trips -----

  /** `[...trips, { ...trip, id, itinerary: [], packingList: [] }]` */
  function AddTrip(trips: seq<Trip>, data: Trip, newId: string): (r: seq<Trip>)
    ensures |r| == |trips| + 1 && r[..|trips|] == trips
    ensures r[|trips|].id == newId && r[|trips|].itinerary == [] && r[|trips|].packingList == []
    ensures r[|trips|] == data.(id := r[|trips|].id, itinerary := r[|trips|].itinerary,
                                packingList := r[|trips|].packingList)
  {
    trips + [data.(id := newId, itinerary := [], packingList := [])]
  }

  /** Apply f to every trip whose id is tripId (`trips.map(t => t.id === tripId ? f(t) : t)`). */
  function ModifyTrips(trips: seq<Trip>, tripId: string, f: Trip -> Trip): (r: seq<Trip>)
    ensures |r| == |trips|
    ensures forall i :: 0 <= i < |trips| && trips[i].id == tripId ==> r[i] == f(trips[i])
    ensures forall i :: 0 <= i < |trips| && trips[i].id != tripId ==> r[i] == trips[i]
  {
    Seqs.Map(trips, (t: Trip) => if t.id == tripId then f(t) else t)
  }

  predicate NoTripWithId(trips: seq<Trip>, tripId: string)
  {
    forall i :: 0 <= i < |trips| ==> trips[i].id != tripId
  }

  function UpdateTrip(trips: seq<Trip>, tripId: string, updates: TripPatch): (r: seq<Trip>)
    ensures |r| == |trips|
    ensures forall i :: 0 <= i < |trips| && trips[i].id == tripId ==> r[i] == MergeTrip(trips[i], updates)
    ensures forall i :: 0 <= i < |trips| && trips[i].id != tripId ==> r[i] == trips[i]
    ensures NoTripWithId(trips, tripId) ==> r == trips
  {
    ModifyTrips(trips, tripId, (t: Trip) => MergeTrip(t, updates))
  }

  /** `trips.filter(t => t.id !== tripId)` */
  function DeleteTrip(trips: seq<Trip>, tripId: string): (r: seq<Trip>)
    ensures forall t :: t in r <==> t in trips && t.id != tripId
    ensures forall t: Trip :: t.id != tripId ==> multiset(r)[t] == multiset(trips)[t]
    ensures Seqs.IsSubsequence(r, trips)
    ensures NoTripWithId(r, tripId)
    ensures NoTripWithId(trips, tripId) ==> r == trips
  {
    var keep := (t: Trip) => t.id != tripId;
    Seqs.FilterMultiset(trips, keep);
    Seqs.FilterIsSubsequence(trips, keep);
    if NoTripWithId(trips, tripId) then
      Seqs.FilterAll(trips, keep);
      Seqs.Filter(trips, keep)
    else
      Seqs.Filter(trips, keep)
  }

  // ----- itinerary items -----

  /** `items.map(i => i.id === itemId ? { ...i, ...updates } : i)` */
  function UpdateItems(items: seq<ItineraryItem>, itemId: string, updates: ItemPatch): (r: seq<ItineraryItem>)
    ensures |r| == |items|
    ensures forall i :: 0 <= i < |items| ==>
              r[i] == if items[i].id == itemId then MergeItem(items[i], updates) else items[i]
  {
    Seqs.Map(items, (it: ItineraryItem) => if it.id == itemId then MergeItem(it, updates) else it)
  }

  /** `items.filter(i => i.id !== itemId)` */
  function DeleteItems(items: seq<ItineraryItem>, itemId: string): (r: seq<ItineraryItem>)
    ensures forall it :: it in r <==> it in items && it.id != itemId
    ensures forall it: ItineraryItem :: it.id != itemId ==> multiset(r)[it] == multiset(items)[it]
    ensures Seqs.IsSubsequence(r, items)
  {
    var keep := (it: ItineraryItem) => it.id != itemId;
    Seqs.FilterMultiset(items, keep);
    Seqs.FilterIsSubsequence(items, keep);
    Seqs.Filter(items, keep)
  }

  function AddItineraryItem(trips: seq<Trip>, tripId: string, item: ItineraryItem, newId: string): (r: seq<Trip>)
    ensures |r| == |trips|
    ensures forall i :: 0 <= i < |trips| && trips[i].id == tripId ==>
              r[i] == trips[i].(itinerary := trips[i].itinerary + [item.(id := newId)])
    ensures forall i :: 0 <= i < |trips| && trips[i].id != tripId ==> r[i] == trips[i]
  {
    ModifyTrips(trips, tripId, (t: Trip) => t.(itinerary := t.itinerary + [item.(id := newId)]))
  }

  function UpdateItineraryItem(trips: seq<Trip>, tripId: string, itemId: string, updates: ItemPatch): (r: seq<Trip>)
    ensures |r| == |trips|
    ensures forall i :: 0 <= i < |trips| && trips[i].id == tripId ==>
              r[i] == trips[i].(itinerary := UpdateItems(trips[i].itinerary, itemId, updates))
    ensures forall i :: 0 <= i < |trips| && trips[i].id != tripId ==> r[i] == trips[i]
  {
    ModifyTrips(trips, tripId, (t: Trip) => t.(itinerary := UpdateItems(t.itinerary, itemId, updates)))
  }

  function DeleteItineraryItem(trips: seq<Trip>, tripId: string, itemId: string): (r: seq<Trip>)
    ensures |r| == |trips|
    ensures forall i :: 0 <= i < |trips| && trips[i].id == tripId ==>
              r[i] == trips[i].(itinerary := DeleteItems(trips[i].itinerary, itemId))
    ensures forall i :: 0 <= i < |trips| && trips[i].id != tripId ==> r[i] == trips[i]
  {
    ModifyTrips(trips, tripId, (t: Trip) => t.(itinerary := DeleteItems(t.itinerary, itemId)))
  }

  // ----- packing items -----

  function UpdatePackingItems(items: seq<PackingItem>, itemId: string, updates: PackingPatch): (r: seq<PackingItem>)
    ensures |r| == |items|
    ensures forall i :: 0 <= i < |items| ==>
              r[i] == if items[i].id == itemId then MergePacking(items[i], updates) else items[i]
  {
    Seqs.Map(items, (it: PackingItem) => if it.id == itemId then MergePacking(it, updates) else it)
  }

  function DeletePackingItems(items: seq<PackingItem>, itemId: string): (r: seq<PackingItem>)
    ensures forall it :: it in r <==> it in items && it.id != itemId
    ensures forall it: PackingItem :: it.id != itemId ==> multiset(r)[it] == multiset(items)[it]
    ensures Seqs.IsSubsequence(r, items)
  {
    var keep := (it: PackingItem) => it.id != itemId;
    Seqs.FilterMultiset(items, keep);
    Seqs.FilterIsSubsequence(items, keep);
    Seqs.Filter(items, keep)
  }

  function AddPackingItem(trips: seq<Trip>, tripId: string, item: PackingItem, newId: string): (r: seq<Trip>)
    ensures |r| == |trips|
    ensures forall i :: 0 <= i < |trips| && trips[i].id == tripId ==>
              r[i] == trips[i].(packingList := trips[i].packingList + [item.(id := newId)])
    ensures forall i :: 0 <= i < |trips| && trips[i].id != tripId ==> r[i] == trips[i]
  {
    ModifyTrips(trips, tripId, (t: Trip) => t.(packingList := t.packingList + [item.(id := newId)]))
  }

  function UpdatePackingItem(trips: seq<Trip>, tripId: string, itemId: string, updates: PackingPatch): (r: seq<Trip>)
    ensures |r| == |trips|
    ensures forall i :: 0 <= i < |trips| && trips[i].id == tripId ==>
              r[i] == trips[i].(packingList := UpdatePackingItems(trips[i].packingList, itemId, updates))
    ensures forall i :: 0 <= i < |trips| && trips[i].id != tripId ==> r[i] == trips[i]
  {
    ModifyTrips(trips, tripId, (t: Trip) => t.(packingList := UpdatePackingItems(t.packingList, itemId, updates)))
  }

  function DeletePackingItem(trips: seq<Trip>, tripId: string, itemId: string): (r: seq<Trip>)
    ensures |r| == |trips|
    ensures forall i :: 0 <= i < |trips| && trips[i].id == tripId ==>
              r[i] == trips[i].(packingList := DeletePackingItems(trips[i].packingList, itemId))
    ensures forall i :: 0 <= i < |trips| && trips[i].id != tripId ==> r[i] == trips[i]
  {
    ModifyTrips(trips, tripId, (t: Trip) => t.(packingList := DeletePackingItems(t.packingList, itemId)))
  }

  // ----- expenses -----

  /** `[...expenses, { ...expense, id }]` */
  function AddExpense(expenses: seq<Expense>, data: Expense, newId: string): (r: seq<Expense>)
    ensures |r| == |expenses| + 1 && r[..|expenses|] == expenses
    ensures r[|expenses|].id == newId && r[|expenses|] == data.(id := r[|expenses|].id)
  {
    expenses + [data.(id := newId)]
  }

  /** The trips after an expense of `amount` for tripId: that trip's spent grows by amount. */
  function ChargeTrip(trips: seq<Trip>, tripId: string, amount: real): (r: seq<Trip>)
    ensures |r| == |trips|
    ensures forall i :: 0 <= i < |trips| && trips[i].id == tripId ==>
              r[i].spent == trips[i].spent + amount && r[i] == trips[i].(spent := r[i].spent)
    ensures forall i :: 0 <= i < |trips| && trips[i].id != tripId ==> r[i] == trips[i]
    ensures NoTripWithId(trips, tripId) ==> r == trips
  {
    ModifyTrips(trips, tripId, (t: Trip) => t.(spent := t.spent + amount))
  }

  // ----- payment methods -----

  function AddPaymentMethod(methods: seq<PaymentMethod>, data: PaymentMethod, newId: string): (r: seq<PaymentMethod>)
    ensures |r| == |methods| + 1 && r[..|methods|] == methods
    ensures r[|methods|].id == newId && r[|methods|] == data.(id := r[|methods|].id)
  {
    methods + [data.(id := newId)]
  }

  /** `methods.map(m => m.id === methodId ? { ...m, ...updates } : m)`: no other method is touched. */
  function UpdatePaymentMethod(methods: seq<PaymentMethod>, methodId: string, updates: MethodPatch): (r: seq<PaymentMethod>)
    ensures |r| == |methods|
    ensures forall i :: 0 <= i < |methods| && methods[i].id == methodId ==> r[i] == MergeMethod(methods[i], updates)
    ensures forall i :: 0 <= i < |methods| && methods[i].id != methodId ==> r[i] == methods[i]
  {
    Seqs.Map(methods, (m: PaymentMethod) => if m.id == methodId then MergeMethod(m, updates) else m)
  }

  function DeletePaymentMethod(methods: seq<PaymentMethod>, methodId: string): (r: seq<PaymentMethod>)
    ensures forall m :: m in r <==> m in methods && m.id != methodId
    ensures forall m: PaymentMethod :: m.id != methodId ==> multiset(r)[m] == multiset(methods)[m]
    ensures Seqs.IsSubsequence(r, methods)
  {
    var keep := (m: PaymentMethod) => m.id != methodId;
    Seqs.FilterMultiset(methods, keep);
    Seqs.FilterIsSubsequence(methods, keep);
    Seqs.Filter(methods, keep)
  }

  // ----- the current trip -----

  /** updateTrip's `if (currentTrip?.id === tripId) setCurrentTrip({ ...currentTrip, ...updates })` */
  function RefreshCurrent(current: Option<Trip>, tripId: string, updates: TripPatch): (r: Option<Trip>)
    ensures current.Some? && current.value.id == tripId ==> r == Some(MergeTrip(current.value, updates))
    ensures !(current.Some? && current.value.id == tripId) ==> r == current
  {
    if current.Some? && current.value.id == tripId then Some(MergeTrip(current.value, updates)) else current
  }

  /** deleteTrip's `if (currentTrip?.id === tripId) setCurrentTrip(null)` */
  function ForgetCurrent(current: Option<Trip>, tripId: string): (r: Option<Trip>)
    ensures r.None? <==> current.None? || current.value.id == tripId
    ensures r.Some? ==> r == current
  {
    if current.Some? && current.value.id == tripId then None else current
  }

  // ----- properties relating several operations -----

  /** Once a trip is deleted, updating it changes nothing. */
  lemma DeleteThenUpdate(trips: seq<Trip>, tripId: string, updates: TripPatch)
    ensures UpdateTrip(DeleteTrip(trips, tripId), tripId, updates) == DeleteTrip(trips, tripId)
  {
  }

  /**
   * A current trip taken from the list stays equal to its entry: after
   * updateTrip it is the updated entry, and deleteTrip clears it exactly when
   * the entry leaves the list; otherwise it is still in the list.
   */
  lemma CurrentMirrorsList(trips: seq<Trip>, k: nat, tripId: string, updates: TripPatch)
    requires k < |trips|
    ensures RefreshCurrent(Some(trips[k]), tripId, updates) == Some(UpdateTrip(trips, tripId, updates)[k])
    ensures ForgetCurrent(Some(trips[k]), tripId).None? <==> trips[k] !in DeleteTrip(trips, tripId)
    ensures ForgetCurrent(Some(trips[k]), tripId).None? <==> trips[k].id == tripId
    ensures ForgetCurrent(Some(trips[k]), tripId).Some? ==>
            ForgetCurrent(Some(trips[k]), tripId).value in DeleteTrip(trips, tripId)
  {
  }

  /** A current trip that is an entry of the list is still one after updateTrip. */
  lemma RefreshKeepsListed(trips: seq<Trip>, current: Option<Trip>, tripId: string, updates: TripPatch)
    requires current.None? || current.value in trips
    ensures var c := RefreshCurrent(current, tripId, updates);
            c.None? || c.value in UpdateTrip(trips, tripId, updates)
  {
    if current.Some? {
      var k :| 0 <= k < |trips| && trips[k] == current.value;
      CurrentMirrorsList(trips, k, tripId, updates);
    }
  }

  /** A current trip that is an entry of the list is still one after deleteTrip, or is cleared. */
  lemma ForgetKeepsListed(trips: seq<Trip>, current: Option<Trip>, tripId: string)
    requires current.None? || current.value in trips
    ensures var c := ForgetCurrent(current, tripId);
            c.None? || c.value in DeleteTrip(trips, tripId)
  {
    if current.Some? {
      var k :| 0 <= k < |trips| && trips[k] == current.value;
      CurrentMirrorsList(trips, k, tripId, NoTripChanges);
    }
  }

  /** An update of a trip id that is not present leaves every collection as it was. */
  lemma MissingTripIsNoOp(trips: seq<Trip>, tripId: string, item: ItineraryItem, itemId: string,
                          ip: ItemPatch, pack: PackingItem, pp: PackingPatch, newId: string)
    requires NoTripWithId(trips, tripId)
    ensures AddItineraryItem(trips, tripId, item, newId) == trips
    ensures UpdateItineraryItem(trips, tripId, itemId, ip) == trips
    ensures DeleteItineraryItem(trips, tripId, itemId) == trips
    ensures AddPackingItem(trips, tripId, pack, newId) == trips
    ensures UpdatePackingItem(trips, tripId, itemId, pp) == trips
    ensures DeletePackingItem(trips, tripId, itemId) == trips
  {
  }

  predicate NoItemWithId(items: seq<PackingItem>, itemId: string)
  {
    forall i :: 0 <= i < |items| ==> items[i].id != itemId
  }

  /**
   * Adding a packing item and then marking it packed leaves, in that trip,
   * exactly the old list followed by the new item with packed set, as long as
   * the new id was not already used in the list.
   */
  lemma AddThenPack(trips: seq<Trip>, k: nat, item: PackingItem, newId: string)
    requires k < |trips| && NoItemWithId(trips[k].packingList, newId)
    ensures var tripId := trips[k].id;
            var after := UpdatePackingItem(AddPackingItem(trips, tripId, item, newId), tripId, newId, PackedPatch(true));
            after[k].packingList == trips[k].packingList + [item.(id := newId, packed := true)]
  {
    var tripId := trips[k].id;
    var added := AddPackingItem(trips, tripId, item, newId);
    var list := added[k].packingList;
    var updated := UpdatePackingItems(list, newId, PackedPatch(true));
    assert updated == trips[k].packingList + [item.(id := newId, packed := true)] by {
      forall i | 0 <= i < |list|
        ensures updated[i] == (trips[k].packingList + [item.(id := newId, packed := true)])[i]
      {
        if i < |trips[k].packingList| {
          assert list[i] == trips[k].packingList[i];
        }
      }
    }
  }

  function AmountOf(e: Expense): real { e.amount }

  function ForTrip(tripId: string): Expense -> bool
  {
    (e: Expense) => e.tripId == tripId
  }

  /** What a trip has spent after a series of expenses: its old figure plus the amounts naming it. */
  function SpentAfter(t: Trip, es: seq<Expense>): real
  {
    t.spent + Seqs.Sum(Seqs.Filter(es, ForTrip(t.id)), AmountOf)
  }

  /**
   * Fold of addExpense's trip update over a series of expenses.  Each trip
   * has then spent what it had spent before plus the amounts of the expenses
   * that name its id, and its other fields are unchanged.
   */
  function ChargeAll(trips: seq<Trip>, es: seq<Expense>): (r: seq<Trip>)
    ensures |r| == |trips|
    ensures forall k :: 0 <= k < |trips| ==> r[k] == trips[k].(spent := SpentAfter(trips[k], es))
  {
    if es == [] then trips
    else
      var prev := ChargeAll(trips, es[..|es| - 1]);
      ChargeStep(trips, es, prev);
      ChargeTrip(prev, es[|es| - 1].tripId, es[|es| - 1].amount)
  }

  /** One expense more adds its amount to the trips it names and to no other. */
  lemma ChargeStep(trips: seq<Trip>, es: seq<Expense>, prev: seq<Trip>)
    requires es != [] && |prev| == |trips|
    requires forall k :: 0 <= k < |trips| ==> prev[k] == trips[k].(spent := SpentAfter(trips[k], es[..|es| - 1]))
    ensures var e := es[|es| - 1];
            forall k :: 0 <= k < |trips| ==>
              ChargeTrip(prev, e.tripId, e.amount)[k] == trips[k].(spent := SpentAfter(trips[k], es))
  {
    var init := es[..|es| - 1];
    var e := es[|es| - 1];
    var r := ChargeTrip(prev, e.tripId, e.amount);
    forall k | 0 <= k < |trips| ensures r[k] == trips[k].(spent := SpentAfter(trips[k], es)) {
      var picked := Seqs.Filter(init, ForTrip(trips[k].id));
      var tail := if e.tripId == trips[k].id then [e] else [];
      assert Seqs.Filter(es, ForTrip(trips[k].id)) == picked + tail;
      Seqs.SumAppend(picked, tail, AmountOf);
      assert Seqs.Sum([e], AmountOf) == e.amount by { assert [e][..0] == []; }
      assert prev[k].id == trips[k].id;
    }
  }

  /** Two expenses of 500 and 1500 on a trip that had spent 0 leave it at 2000. */
  lemma TwoExpensesExample(t: Trip, e1: Expense, e2: Expense)
    requires t.spent == 0.0 && e1.tripId == t.id && e2.tripId == t.id
    requires e1.amount == 500.0 && e2.amount == 1500.0
    ensures ChargeAll([t], [e1, e2])[0].spent == 2000.0
  {
    assert [e1, e2][..1] == [e1];
    assert [e1][..0] == [];
    assert ChargeAll([t], []) == [t];
    var once := ChargeAll([t], [e1]);
    assert once == ChargeTrip(ChargeAll([t], []), e1.tripId, e1.amount);
    assert once[0].spent == 500.0;
    assert ChargeAll([t], [e1, e2]) == ChargeTrip(once, t.id, 1500.0);
    assert once[0].id == t.id;
  }
}
