/**
 * The itinerary of one trip (src/components/Trips/ItineraryManager.tsx): the
 * add/edit form, deletion after confirmation, the chronological order of the
 * activities and their grouping by day.
 *
 * The comparator builds `date + "T" + time` and compares the instants; for
 * well-formed `YYYY-MM-DD` dates and `HH:MM` times that is the
 * lexicographic order of the joined strings, which is what `ChronoLeq`
 * compares.  The cost field of the form is `None` when it is empty.
 */
module ItineraryManager {
  import opened Types
  import Seqs
  import Sorting
  import Text
  import StoreOps
  import TripContext

  datatype ItineraryForm = ItineraryForm(
    date: string,
    time: string,
    title: string,
    description: string,
    location: string,
    kind: ActivityType,
    cost: Option<real>)

  /** resetForm: every text field empty, the type "activity", no cost. */
  const EmptyForm := ItineraryForm("", "", "", "", "", Activity, None)

  /** The activity types the form offers, in the order of its selector. */
  const ActivityTypes: seq<ActivityType> := [Flight, Hotel, Activity, Restaurant, Transport]

  /** Every activity type has an entry in the selector, so the icon lookup never falls back. */
  lemma EveryTypeOffered(k: ActivityType)
    ensures k in ActivityTypes
  {
  }

  /** The form loaded by handleEdit: the item's fields, the cost empty when the item has none. */
  function FormOf(i: ItineraryItem): (f: ItineraryForm)
    ensures f.cost.None? <==> i.cost.None?
  {
    ItineraryForm(i.date, i.time, i.title, i.description, i.location, i.kind, i.cost)
  }

  /** itemData for a new item (the store assigns the id). */
  function ItemDraft(f: ItineraryForm): (i: ItineraryItem)
    ensures FormOf(i) == f
  {
    ItineraryItem("", f.date, f.time, f.title, f.description, f.location, f.kind, f.cost)
  }

  /**
   * itemData spread over an existing item: every field but the id is
   * replaced, and an empty cost field removes the cost.
   */
  function ItemPatchOf(f: ItineraryForm): ItemPatch
  {
    ItemPatch(Keep, Put(f.date), Put(f.time), Put(f.title), Put(f.description), Put(f.location),
              Put(f.kind), Put(f.cost))
  }

  /** Saving an edit keeps the id and takes exactly the form's fields. */
  lemma EditTakesForm(i: ItineraryItem, f: ItineraryForm)
    ensures MergeItem(i, ItemPatchOf(f)).id == i.id
    ensures FormOf(MergeItem(i, ItemPatchOf(f))) == f
  {
  }

  /** Opening an item for editing and saving it unchanged leaves it as it was, cost included. */
  lemma UnchangedEditIsNoOp(i: ItineraryItem)
    ensures MergeItem(i, ItemPatchOf(FormOf(i))) == i
  {
  }

  // ----- order and grouping -----

  /** The instant an item takes place, as the comparator builds it. */
  function Stamp(i: ItineraryItem): string
  {
    i.date + "T" + i.time
  }

  /** a may come before b: its instant is not later. */
  function ChronoLeq(a: ItineraryItem, b: ItineraryItem): bool
  {
    Text.LexLeq(Stamp(a), Stamp(b))
  }

  lemma ChronoLeqIsTotalPreorder()
    ensures Sorting.TotalPreorder(ChronoLeq)
  {
    forall a: ItineraryItem, b: ItineraryItem ensures ChronoLeq(a, b) || ChronoLeq(b, a) {
      Text.LexLeqTotal(Stamp(a), Stamp(b));
    }
    forall a: ItineraryItem, b: ItineraryItem, c: ItineraryItem | ChronoLeq(a, b) && ChronoLeq(b, c)
      ensures ChronoLeq(a, c)
    {
      Text.LexLeqTransitive(Stamp(a), Stamp(b), Stamp(c));
    }
  }

  /** On one day the order is the order of the times. */
  lemma {:induction false} SameDayByTime(a: ItineraryItem, b: ItineraryItem)
    requires a.date == b.date
    ensures ChronoLeq(a, b) <==> Text.LexLeq(a.time, b.time)
  {
    assert Stamp(a) == (a.date + "T") + a.time && Stamp(b) == (a.date + "T") + b.time;
    Text.LexLeqCommonPrefix(a.date + "T", a.time, b.time);
  }

  /** Of two dates written with the same number of characters, the earlier day comes first. */
  lemma {:induction false} EarlierDayFirst(a: ItineraryItem, b: ItineraryItem)
    requires |a.date| == |b.date| && Text.LexLess(a.date, b.date)
    ensures ChronoLeq(a, b) && !ChronoLeq(b, a)
  {
    Text.LexLessSameLength(a.date, b.date, "T" + a.time, "T" + b.time);
    assert Stamp(a) == a.date + ("T" + a.time) && Stamp(b) == b.date + ("T" + b.time);
    if ChronoLeq(b, a) {
      Text.LexLeqAntisymmetric(Stamp(a), Stamp(b));
    }
  }

  /**
   * sortedItinerary: a sorted copy of the trip's itinerary, holding the
   * same items, in which no item of a later day comes before one of an
   * earlier day.
   */
  function SortedItinerary(items: seq<ItineraryItem>): (r: seq<ItineraryItem>)
    ensures multiset(r) == multiset(items) && |r| == |items|
    ensures forall i :: i in r <==> i in items
    ensures Sorting.Sorted(r, ChronoLeq)
    ensures forall i, j :: 0 <= i < j < |r| && |r[i].date| == |r[j].date| ==> !Text.LexLess(r[j].date, r[i].date)
  {
    ChronoLeqIsTotalPreorder();
    var r := Sorting.Sort(items, ChronoLeq);
    assert forall i :: i in r <==> i in items by {
      forall i ensures i in r <==> i in items {
        assert i in multiset(r) <==> i in multiset(items);
      }
    }
    forall i, j | 0 <= i < j < |r| && |r[i].date| == |r[j].date|
      ensures !Text.LexLess(r[j].date, r[i].date)
    {
      if Text.LexLess(r[j].date, r[i].date) {
        EarlierDayFirst(r[j], r[i]);
      }
    }
    r
  }

  /** The order of the times inside a day. */
  function TimeLeq(a: ItineraryItem, b: ItineraryItem): bool
  {
    Text.LexLeq(a.time, b.time)
  }

  /** A chronologically sorted day is sorted by time. */
  lemma SortedDay(g: seq<ItineraryItem>, d: string)
    requires Sorting.Sorted(g, ChronoLeq)
    requires forall i :: 0 <= i < |g| ==> g[i].date == d
    ensures Sorting.Sorted(g, TimeLeq)
  {
    forall i, j | 0 <= i < j < |g| ensures TimeLeq(g[i], g[j]) {
      SameDayByTime(g[i], g[j]);
    }
  }

  function DateOf(i: ItineraryItem): string { i.date }

  /** The items of day d, taken from a chronologically sorted list, are in time order. */
  lemma DayGroupSorted(sorted: seq<ItineraryItem>, d: string)
    requires Sorting.Sorted(sorted, ChronoLeq)
    ensures Sorting.Sorted(Seqs.Filter(sorted, Seqs.KeyIs(DateOf, d)), TimeLeq)
  {
    var g := Seqs.Filter(sorted, Seqs.KeyIs(DateOf, d));
    Sorting.FilterSorted(sorted, Seqs.KeyIs(DateOf, d), ChronoLeq);
    forall i | 0 <= i < |g| ensures g[i].date == d {
      assert g[i] in g;
      assert Seqs.KeyIs(DateOf, d)(g[i]);
    }
    SortedDay(g, d);
  }

  /**
   * groupedItinerary: one group per day present, holding exactly that day's
   * items, in time order.
   */
  method GroupedItinerary(items: seq<ItineraryItem>) returns (groups: map<string, seq<ItineraryItem>>)
    ensures forall d :: d in groups <==> exists i :: i in items && i.date == d
    ensures forall d, i :: d in groups ==> (i in groups[d] <==> i in items && i.date == d)
    ensures forall d :: d in groups ==> |groups[d]| > 0 && Sorting.Sorted(groups[d], TimeLeq)
    ensures forall d :: d in groups ==> groups[d] == Seqs.Filter(SortedItinerary(items), Seqs.KeyIs(DateOf, d))
  {
    var sorted := SortedItinerary(items);
    groups := Seqs.GroupBy(sorted, DateOf);
    forall d | d in groups ensures |groups[d]| > 0 && Sorting.Sorted(groups[d], TimeLeq) {
      var i :| i in sorted && i.date == d;
      assert i in groups[d];
      DayGroupSorted(sorted, d);
    }
  }

  class ItineraryManager {
    const store: TripContext.TripProvider
    /** The trip prop, as the trip list captured it. */
    const trip: Trip
    var showForm: bool
    var editingItem: Option<ItineraryItem>
    var form: ItineraryForm

    constructor (store: TripContext.TripProvider, trip: Trip)
      ensures this.store == store && this.trip == trip
      ensures !showForm && editingItem.None? && form == EmptyForm
    {
      this.store := store;
      this.trip := trip;
      showForm := false;
      editingItem := None;
      form := EmptyForm;
    }

    method ResetForm()
      modifies this
      ensures form == EmptyForm && editingItem.None? && !showForm
    {
      form := EmptyForm;
      editingItem := None;
      showForm := false;
    }

    /** The "Add Activity" button. */
    method OpenForm()
      modifies this
      ensures showForm && form == old(form) && editingItem == old(editingItem)
    {
      showForm := true;
    }

    method SetForm(f: ItineraryForm)
      modifies this
      ensures form == f && showForm == old(showForm) && editingItem == old(editingItem)
    {
      form := f;
    }

    method HandleEdit(item: ItineraryItem)
      modifies this
      ensures editingItem == Some(item) && form == FormOf(item) && showForm
    {
      editingItem := Some(item);
      form := FormOf(item);
      showForm := true;
    }

    /** handleSubmit: update the edited item or add a new one, then reset the form. */
    method HandleSubmit(newId: string)
      modifies this, store
      ensures old(editingItem).Some? ==>
                store.trips == StoreOps.UpdateItineraryItem(old(store.trips), trip.id, old(editingItem).value.id,
                                                            ItemPatchOf(old(form)))
      ensures old(editingItem).None? ==>
                store.trips == StoreOps.AddItineraryItem(old(store.trips), trip.id, ItemDraft(old(form)), newId)
      ensures store.storage == old(store.storage)[TripContext.TripsKey := TripContext.TripsSnapshot(store.trips)]
      ensures form == EmptyForm && editingItem.None? && !showForm
      ensures store.expenses == old(store.expenses) && store.paymentMethods == old(store.paymentMethods)
      ensures store.currentTrip == old(store.currentTrip)
      ensures old(store.Synced()) ==> store.Synced()
    {
      if editingItem.Some? {
        store.UpdateItineraryItem(trip.id, editingItem.value.id, ItemPatchOf(form));
      } else {
        store.AddItineraryItem(trip.id, ItemDraft(form), newId);
      }
      ResetForm();
    }

    /** handleDelete: only a confirmed deletion reaches the store. */
    method HandleDelete(itemId: string, confirmed: bool)
      modifies store
      ensures confirmed ==> store.trips == StoreOps.DeleteItineraryItem(old(store.trips), trip.id, itemId) &&
                            store.storage == old(store.storage)[TripContext.TripsKey := TripContext.TripsSnapshot(store.trips)]
      ensures !confirmed ==> store.trips == old(store.trips) && store.storage == old(store.storage)
      ensures store.expenses == old(store.expenses) && store.paymentMethods == old(store.paymentMethods)
      ensures store.currentTrip == old(store.currentTrip)
      ensures old(store.Synced()) ==> store.Synced()
    {
      if confirmed {
        store.DeleteItineraryItem(trip.id, itemId);
      }
    }
  }
}
