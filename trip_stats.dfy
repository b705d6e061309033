/**
 * Figures derived from the trips that more than one view shows: the budget
 * and spent totals (src/components/Budget/BudgetTracker.tsx:70-72,
 * src/components/Dashboard/Dashboard.tsx:15-16) and the packed counts
 * (src/components/Trips/PackingList.tsx:77-79), together with how recording
 * an expense moves them.
 */
module TripStats {
  import opened Types
  import Seqs
  import StoreOps

  function BudgetOf(t: Trip): real { t.budget }

  function SpentOf(t: Trip): real { t.spent }

  /** No trip has a negative figure f. */
  predicate NoneNegative(trips: seq<Trip>, f: Trip -> real)
  {
    forall i :: 0 <= i < |trips| ==> f(trips[i]) >= 0.0
  }

  /**
   * `trips.reduce((sum, trip) => sum + trip.budget, 0)`, which is
   * not negative when no budget is.
   */
  function TotalBudget(trips: seq<Trip>): (r: real)
    ensures NoneNegative(trips, BudgetOf) ==> 0.0 <= r
  {
    Seqs.SumNonNegative(trips, BudgetOf);
    Seqs.Sum(trips, BudgetOf)
  }

  /**
   * `trips.reduce((sum, trip) => sum + trip.spent, 0)`, which is
   * not negative when no spent figure is.
   */
  function TotalSpent(trips: seq<Trip>): (r: real)
    ensures NoneNegative(trips, SpentOf) ==> 0.0 <= r
  {
    Seqs.SumNonNegative(trips, SpentOf);
    Seqs.Sum(trips, SpentOf)
  }

  /** remainingBudget: what is left of all budgets together. */
  function RemainingBudget(trips: seq<Trip>): (r: real)
    ensures r + TotalSpent(trips) == TotalBudget(trips)
  {
    TotalBudget(trips) - TotalSpent(trips)
  }

  /** How many trips carry the id. */
  function CountId(trips: seq<Trip>, tripId: string): nat
  {
    if trips == [] then 0
    else CountId(trips[..|trips| - 1], tripId) + (if trips[|trips| - 1].id == tripId then 1 else 0)
  }

  function IsPacked(i: PackingItem): bool { i.packed }

  /** `(part / whole) * 100` for a part of a non-empty whole. */
  function Percent(part: nat, whole: nat): (p: real)
    requires 0 < whole && part <= whole
    ensures 0.0 <= p <= 100.0
    ensures p == 100.0 <==> part == whole
    ensures p == 0.0 <==> part == 0
  {
    var w := whole as real;
    var q := (part as real) / w;
    assert q * w == part as real;
    assert (1.0 - q) * w == w - part as real;
    SignOfProduct(q, w);
    SignOfProduct(1.0 - q, w);
    q * 100.0
  }

  /** Multiplying by a positive number keeps the sign. */
  lemma SignOfProduct(a: real, b: real)
    requires b > 0.0
    ensures a * b > 0.0 <==> a > 0.0
    ensures a * b == 0.0 <==> a == 0.0
  {
    if a > 0.0 {
      assert a * b > 0.0;
    } else if a < 0.0 {
      assert (-a) * b > 0.0;
    }
  }

  /** `items.filter(item => item.packed).length` */
  function PackedCount(items: seq<PackingItem>): (n: nat)
    ensures n <= |items|
    ensures n == 0 <==> forall i :: 0 <= i < |items| ==> !items[i].packed
    ensures n == |items| <==> forall i :: 0 <= i < |items| ==> items[i].packed
  {
    var r := Seqs.Filter(items, IsPacked);
    Seqs.FilterMultiset(items, IsPacked);
    assert forall i :: 0 <= i < |items| && items[i].packed ==> items[i] in r;
    if forall i :: 0 <= i < |items| ==> items[i].packed then
      Seqs.FilterAll(items, IsPacked);
      |r|
    else
      var j :| 0 <= j < |items| && !items[j].packed;
      assert multiset(r)[items[j]] == 0;
      assert multiset(r) != multiset(items);
      assert r != items;
      FilterShorter(items, IsPacked, j);
      |r|
  }

  /** Appending an item adds one to the packed count exactly when it is packed. */
  lemma PackedCountSnoc(s: seq<PackingItem>, x: PackingItem)
    ensures PackedCount(s + [x]) == PackedCount(s) + (if x.packed then 1 else 0)
  {
    assert (s + [x])[..|s|] == s;
  }

  /** A filter that drops some element is shorter than what it filters. */
  lemma {:induction false} FilterShorter<T(!new)>(s: seq<T>, p: T -> bool, j: nat)
    requires j < |s| && !p(s[j])
    ensures |Seqs.Filter(s, p)| < |s|
  {
    var init := s[..|s| - 1];
    if j < |s| - 1 {
      assert init[j] == s[j];
      FilterShorter(init, p, j);
    } else {
      assert |Seqs.Filter(init, p)| <= |init|;
    }
  }

  /** What an expense of `amount` for tripId adds to one trip's spent figure. */
  function ChargeOf(tripId: string, amount: real): Trip -> real
  {
    (t: Trip) => if t.id == tripId then amount else 0.0
  }

  function NoCharge(t: Trip): real { 0.0 }

  lemma {:induction false} SumCharge(trips: seq<Trip>, tripId: string, amount: real)
    ensures Seqs.Sum(trips, ChargeOf(tripId, amount)) == amount * (CountId(trips, tripId) as real)
  {
    if trips != [] {
      var init := trips[..|trips| - 1];
      SumCharge(init, tripId, amount);
      var c := CountId(init, tripId) as real;
      var hit := if trips[|trips| - 1].id == tripId then 1.0 else 0.0;
      assert CountId(trips, tripId) as real == c + hit;
      assert amount * (c + hit) == amount * c + amount * hit;
    }
  }

  lemma {:induction false} SumNoCharge(trips: seq<Trip>)
    ensures Seqs.Sum(trips, NoCharge) == 0.0
  {
    if trips != [] {
      SumNoCharge(trips[..|trips| - 1]);
    }
  }

  /**
   * Recording an expense of `amount` for tripId adds `amount` to the total
   * spent once for every trip carrying that id, and leaves the total budget
   * as it was.
   */
  lemma ChargeMovesTotals(trips: seq<Trip>, tripId: string, amount: real)
    ensures TotalSpent(StoreOps.ChargeTrip(trips, tripId, amount)) ==
            TotalSpent(trips) + amount * (CountId(trips, tripId) as real)
    ensures TotalBudget(StoreOps.ChargeTrip(trips, tripId, amount)) == TotalBudget(trips)
  {
    var after := StoreOps.ChargeTrip(trips, tripId, amount);
    Seqs.SumPointwise(after, trips, SpentOf, SpentOf, ChargeOf(tripId, amount));
    Seqs.SumPointwise(after, trips, BudgetOf, BudgetOf, NoCharge);
    SumCharge(trips, tripId, amount);
    SumNoCharge(trips);
  }

  predicate UniqueIds(trips: seq<Trip>)
  {
    forall i, j :: 0 <= i < j < |trips| ==> trips[i].id != trips[j].id
  }

  /** With distinct ids, a present id is carried by exactly one trip; an absent one by none. */
  lemma {:induction false} CountUnique(trips: seq<Trip>, tripId: string)
    requires UniqueIds(trips)
    ensures (exists k :: 0 <= k < |trips| && trips[k].id == tripId) ==> CountId(trips, tripId) == 1
    ensures StoreOps.NoTripWithId(trips, tripId) ==> CountId(trips, tripId) == 0
  {
    if trips != [] {
      var init := trips[..|trips| - 1];
      CountUnique(init, tripId);
      if trips[|trips| - 1].id == tripId {
        assert StoreOps.NoTripWithId(init, tripId);
      } else if k :| 0 <= k < |trips| && trips[k].id == tripId {
        assert init[k] == trips[k];
      }
    }
  }

  /**
   * With distinct trip ids, an expense for an existing trip raises the total
   * spent by exactly its amount; an expense for no trip leaves it unchanged.
   */
  lemma ExpenseRaisesTotalSpent(trips: seq<Trip>, tripId: string, amount: real)
    requires UniqueIds(trips)
    ensures (exists k :: 0 <= k < |trips| && trips[k].id == tripId) ==>
            TotalSpent(StoreOps.ChargeTrip(trips, tripId, amount)) == TotalSpent(trips) + amount
    ensures StoreOps.NoTripWithId(trips, tripId) ==>
            TotalSpent(StoreOps.ChargeTrip(trips, tripId, amount)) == TotalSpent(trips)
  {
    var after := StoreOps.ChargeTrip(trips, tripId, amount);
    if exists k :: 0 <= k < |trips| && trips[k].id == tripId {
      CountUnique(trips, tripId);
      ChargeOnce(trips, tripId, amount);
    }
    if StoreOps.NoTripWithId(trips, tripId) {
      assert after == trips;
    }
  }

  lemma ChargeOnce(trips: seq<Trip>, tripId: string, amount: real)
    requires CountId(trips, tripId) == 1
    ensures TotalSpent(StoreOps.ChargeTrip(trips, tripId, amount)) == TotalSpent(trips) + amount
  {
    ChargeMovesTotals(trips, tripId, amount);
  }
}
