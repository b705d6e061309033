/**
 * The details page of one trip (src/components/Trips/TripDetails.tsx): the
 * tabs, the two quick expenses, the packed percentage, the over-budget
 * figure, the recent activities and the packing stats per category.
 *
 * Like the itinerary and packing tabs it renders, the page works on the
 * trip value it was handed when the trip was opened.  The date of a quick
 * expense is today's date, which the caller passes in.
 */
module TripDetails {
  import opened Types
  import Seqs
  import StoreOps
  import TripContext
  import TripStats
  import PackingList

  datatype Tab = Overview | ItineraryTab | PackingTab

  const MealAmount := 50.0
  const MealCategory := "Meals"
  const MealDescription := "Restaurant meal"
  const TransportAmount := 30.0
  const TransportCategory := "Transport"
  const TransportDescription := "Local transportation"

  /** The expense a quick action records for the trip: no payment method, dated today. */
  function QuickExpense(tripId: string, amount: real, category: string, description: string, today: string): (e: Expense)
    ensures e.tripId == tripId && e.amount == amount && e.category == category
    ensures e.description == description && e.date == today && e.paymentMethod.None?
  {
    Expense("", tripId, amount, category, description, today, None)
  }

  /**
   * The "Packed" figure: packed items over the list length, where an empty
   * list divides by 1 and so shows 0.
   */
  function PackedPercent(items: seq<PackingItem>): (p: real)
    ensures 0.0 <= p <= 100.0
    ensures p == 0.0 <==> forall i :: 0 <= i < |items| ==> !items[i].packed
    ensures p == 100.0 <==> |items| > 0 && forall i :: 0 <= i < |items| ==> items[i].packed
  {
    var whole := if |items| > 0 then |items| else 1;
    TripStats.Percent(TripStats.PackedCount(items), whole)
  }

  /** The details page and the packing tab show the same percentage. */
  lemma PackedPercentAgrees(items: seq<PackingItem>)
    ensures PackedPercent(items) == PackingList.PackingProgress(items)
  {
  }

  /** The "Over budget by" figure, shown only when spent exceeds the budget. */
  function OverBudget(t: Trip): (r: Option<real>)
    ensures r.Some? <==> t.spent > t.budget
    ensures r.Some? ==> r.value > 0.0 && t.budget + r.value == t.spent
  {
    if t.spent > t.budget then Some(t.spent - t.budget) else None
  }

  /** The recent activities: the first three of the itinerary, in list order. */
  function RecentActivities(t: Trip): (r: seq<ItineraryItem>)
    ensures |r| == if |t.itinerary| < 3 then |t.itinerary| else 3
    ensures r == t.itinerary[..|r|]
  {
    Seqs.Take(t.itinerary, 3)
  }

  // ----- packing stats per category -----

  datatype CategoryCount = CategoryCount(total: nat, packed: nat)

  function CategoryOf(i: PackingItem): string { i.category }

  /** The counters after counting x. */
  function Count(stats: map<string, CategoryCount>, x: PackingItem): map<string, CategoryCount>
  {
    var before := if x.category in stats then stats[x.category] else CategoryCount(0, 0);
    stats[x.category := CategoryCount(before.total + 1, before.packed + if x.packed then 1 else 0)]
  }

  /** The counting fold, as a recursion on the last item. */
  ghost function Counts(items: seq<PackingItem>): map<string, CategoryCount>
  {
    if items == [] then map[] else Count(Counts(items[..|items| - 1]), items[|items| - 1])
  }

  /** The counters have an entry for c exactly when some item has category c. */
  lemma {:induction false} CountKeyAt(items: seq<PackingItem>, c: string)
    ensures c in Counts(items) <==> exists i :: i in items && i.category == c
  {
    if items != [] {
      var init := items[..|items| - 1];
      CountKeyAt(init, c);
      if exists y :: y in items && y.category == c {
        var y :| y in items && y.category == c;
        var n :| 0 <= n < |items| && items[n] == y;
        if n < |items| - 1 {
          assert init[n] == y;
        }
      }
      if exists y :: y in init && y.category == c {
        var y :| y in init && y.category == c;
        var n :| 0 <= n < |init| && init[n] == y;
        assert items[n] == y;
      }
    }
  }

  /** The counters for c count c's items and how many of them are packed. */
  lemma {:induction false} CountValueAt(items: seq<PackingItem>, c: string)
    requires c in Counts(items)
    ensures var g := Seqs.Filter(items, Seqs.KeyIs(CategoryOf, c));
            Counts(items)[c] == CategoryCount(|g|, TripStats.PackedCount(g)) && |g| > 0
  {
    assert items != [];
    var init, x := items[..|items| - 1], items[|items| - 1];
    var p := Seqs.KeyIs(CategoryOf, c);
    var g := Seqs.Filter(init, p);
    assert Seqs.Filter(items, p) == g + (if p(x) then [x] else []);
    if x.category == c {
      if c in Counts(init) {
        CountValueAt(init, c);
      } else {
        CountKeyAt(init, c);
        Seqs.FilterNone(init, p);
      }
      TripStats.PackedCountSnoc(g, x);
    } else {
      assert Seqs.Filter(items, p) == g;
      CountValueAt(init, c);
    }
  }

  /**
   * The per-category stats: one entry per category present, counting that
   * category's items and how many of them are packed.
   */
  method CategoryStats(items: seq<PackingItem>) returns (stats: map<string, CategoryCount>)
    ensures forall c :: c in stats <==> exists i :: i in items && i.category == c
    ensures forall c :: c in stats ==> CategoryStatsAt(items, stats, c)
  {
    stats := map[];
    var i := 0;
    while i < |items|
      invariant 0 <= i <= |items|
      invariant stats == Counts(items[..i])
    {
      assert items[..i + 1][..i] == items[..i];
      stats := Count(stats, items[i]);
      i := i + 1;
    }
    assert items[..i] == items;
    CountsMeaning(items);
  }

  /** What the counting fold holds, category by category. */
  lemma CountsMeaning(items: seq<PackingItem>)
    ensures forall c :: c in Counts(items) <==> exists i :: i in items && i.category == c
    ensures forall c :: c in Counts(items) ==> CategoryStatsAt(items, Counts(items), c)
  {
    forall c ensures c in Counts(items) <==> exists i :: i in items && i.category == c {
      CountKeyAt(items, c);
    }
    forall c | c in Counts(items) ensures CategoryStatsAt(items, Counts(items), c) {
      CountValueAt(items, c);
    }
  }

  /** The entry for c counts c's items, at least one, and no more packed items than items. */
  ghost predicate CategoryStatsAt(items: seq<PackingItem>, stats: map<string, CategoryCount>, c: string)
    requires c in stats
  {
    var g := Seqs.Filter(items, Seqs.KeyIs(CategoryOf, c));
    stats[c].total == |g| && stats[c].packed == TripStats.PackedCount(g) &&
    0 < stats[c].total && stats[c].packed <= stats[c].total
  }

  function One(i: PackingItem): real { 1.0 }

  lemma {:induction false} SumOfOnes(s: seq<PackingItem>)
    ensures Seqs.Sum(s, One) == |s| as real
  {
    if s != [] {
      SumOfOnes(s[..|s| - 1]);
    }
  }

  /**
   * Each category total counts that category's items, and over the
   * categories present they add up to the length of the packing list.
   */
  lemma CategoryTotalsCoverList(items: seq<PackingItem>)
    ensures forall c :: Seqs.GroupSum(items, CategoryOf, One)(c) ==
                        |Seqs.Filter(items, Seqs.KeyIs(CategoryOf, c))| as real
    ensures Seqs.Sum(Seqs.Keys(items, CategoryOf), Seqs.GroupSum(items, CategoryOf, One)) == |items| as real
  {
    forall c ensures Seqs.GroupSum(items, CategoryOf, One)(c) == |Seqs.Filter(items, Seqs.KeyIs(CategoryOf, c))| as real {
      SumOfOnes(Seqs.Filter(items, Seqs.KeyIs(CategoryOf, c)));
    }
    Seqs.PartitionSum(items, CategoryOf, One);
    SumOfOnes(items);
  }

  // ----- the page -----

  class TripDetails {
    const store: TripContext.TripProvider
    /** The trip prop, as the trip list captured it. */
    const trip: Trip
    var activeTab: Tab

    constructor (store: TripContext.TripProvider, trip: Trip)
      ensures this.store == store && this.trip == trip && activeTab == Overview
    {
      this.store := store;
      this.trip := trip;
      activeTab := Overview;
    }

    /** A tab button, or the "Add Activity" quick action (which opens the itinerary tab). */
    method SetActiveTab(tab: Tab)
      modifies this
      ensures activeTab == tab
    {
      activeTab := tab;
    }

    /**
     * quickAddExpense: one expense for this trip goes to the store, which
     * charges it to the trip; with distinct trip ids and the trip still
     * present, the total spent grows by exactly the amount.
     */
    method QuickAddExpense(amount: real, category: string, description: string, today: string, newId: string)
      modifies store
      ensures store.expenses == StoreOps.AddExpense(old(store.expenses),
                                                    QuickExpense(trip.id, amount, category, description, today), newId)
      ensures store.trips == StoreOps.ChargeTrip(old(store.trips), trip.id, amount)
      ensures TripStats.UniqueIds(old(store.trips)) && (exists k :: 0 <= k < |old(store.trips)| && old(store.trips)[k].id == trip.id) ==>
              TripStats.TotalSpent(store.trips) == TripStats.TotalSpent(old(store.trips)) + amount
      ensures store.paymentMethods == old(store.paymentMethods) && store.currentTrip == old(store.currentTrip)
      ensures old(store.Synced()) ==> store.Synced()
    {
      if TripStats.UniqueIds(store.trips) {
        TripStats.ExpenseRaisesTotalSpent(store.trips, trip.id, amount);
      }
      store.AddExpense(QuickExpense(trip.id, amount, category, description, today), newId);
    }

    /** The "Add Meal" quick action: 50 under Meals. */
    method AddMeal(today: string, newId: string)
      modifies store
      ensures store.expenses == StoreOps.AddExpense(old(store.expenses),
                                                    QuickExpense(trip.id, MealAmount, MealCategory, MealDescription, today), newId)
      ensures store.trips == StoreOps.ChargeTrip(old(store.trips), trip.id, MealAmount)
      ensures store.paymentMethods == old(store.paymentMethods) && store.currentTrip == old(store.currentTrip)
      ensures old(store.Synced()) ==> store.Synced()
    {
      QuickAddExpense(MealAmount, MealCategory, MealDescription, today, newId);
    }

    /** The "Transport" quick action: 30 under Transport. */
    method AddTransport(today: string, newId: string)
      modifies store
      ensures store.expenses == StoreOps.AddExpense(old(store.expenses),
                                                    QuickExpense(trip.id, TransportAmount, TransportCategory, TransportDescription, today), newId)
      ensures store.trips == StoreOps.ChargeTrip(old(store.trips), trip.id, TransportAmount)
      ensures store.paymentMethods == old(store.paymentMethods) && store.currentTrip == old(store.currentTrip)
      ensures old(store.Synced()) ==> store.Synced()
    {
      QuickAddExpense(TransportAmount, TransportCategory, TransportDescription, today, newId);
    }
  }
}
