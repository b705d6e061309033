/**
 * The packing list of one trip (src/components/Trips/PackingList.tsx): the
 * add/edit form, toggling an item's packed flag, deletion after
 * confirmation, grouping by category and the packed counts.
 *
 * The component receives its trip as a prop.  The trip list hands down the
 * trip it captured when the trip was opened and never refreshes it, so the
 * `trip` of this class is that captured value.  `HandleTogglePacked` models
 * the toggle as written; `HandleTogglePackedLive` models it on the live trip
 * list, which is the behaviour the toggle evidently intends.
 */
module PackingList {
  import opened Types
  import Seqs
  import StoreOps
  import TripContext
  import TripStats

  datatype PackingForm = PackingForm(name: string, category: string, essential: bool)

  const EmptyForm := PackingForm("", "", false)

  /** The categories the form offers. */
  const Categories: seq<string> := ["Documents", "Clothing", "Electronics", "Toiletries", "Medications", "Accessories", "Other"]

  /** itemData for a new item: the form's fields and not packed (the store assigns the id). */
  function ItemDraft(f: PackingForm): (i: PackingItem)
    ensures i.name == f.name && i.category == f.category && i.essential == f.essential && !i.packed
  {
    PackingItem("", f.name, f.category, false, f.essential)
  }

  /** itemData as an update of an existing item: all four fields, packed always false. */
  function ItemPatchOf(f: PackingForm): PackingPatch
  {
    PackingPatch(Keep, Put(f.name), Put(f.category), Put(false), Put(f.essential))
  }

  /** Saving an edit keeps the item's id, takes the form's fields, and unpacks the item. */
  lemma EditUnpacks(i: PackingItem, f: PackingForm)
    ensures MergePacking(i, ItemPatchOf(f)) == PackingItem(i.id, f.name, f.category, false, f.essential)
  {
  }

  /** The form loaded for editing an item. */
  function FormOf(i: PackingItem): PackingForm
  {
    PackingForm(i.name, i.category, i.essential)
  }

  /** Editing an unpacked item and saving without changes leaves it exactly as it was. */
  lemma UnchangedEditOfUnpackedItem(i: PackingItem)
    requires !i.packed
    ensures MergePacking(i, ItemPatchOf(FormOf(i))) == i
  {
  }

  /** handleTogglePacked's update, computed from the item it is given. */
  function TogglePatch(item: PackingItem): PackingPatch
  {
    PackedPatch(!item.packed)
  }

  // ----- grouping and progress -----

  function CategoryOf(i: PackingItem): string { i.category }

  /**
   * groupedItems: one group per category present, holding exactly the items
   * of that category in list order.  Every group is non-empty, so the
   * per-group percentage never divides by zero.
   */
  method GroupedItems(items: seq<PackingItem>) returns (groups: map<string, seq<PackingItem>>)
    ensures forall c :: c in groups <==> exists i :: i in items && i.category == c
    ensures forall c :: c in groups ==> Seqs.IsSubsequence(groups[c], items)
    ensures forall c, i :: c in groups ==> (i in groups[c] <==> i in items && i.category == c)
    ensures forall c :: c in groups ==> |groups[c]| > 0
    ensures forall c :: c in groups ==> groups[c] == Seqs.Filter(items, Seqs.KeyIs(CategoryOf, c))
  {
    groups := Seqs.GroupBy(items, CategoryOf);
    forall c | c in groups ensures Seqs.IsSubsequence(groups[c], items) && |groups[c]| > 0 {
      Seqs.FilterIsSubsequence(items, Seqs.KeyIs(CategoryOf, c));
      var i :| i in items && i.category == c;
      assert i in groups[c];
    }
  }

  /** A group's packed count never exceeds its size. */
  lemma GroupPackedAtMostTotal(items: seq<PackingItem>, c: string)
    ensures TripStats.PackedCount(Seqs.Filter(items, Seqs.KeyIs(CategoryOf, c))) <=
            |Seqs.Filter(items, Seqs.KeyIs(CategoryOf, c))| <= |items|
  {
  }

  /** packingProgress: the packed share in percent, 0 for an empty list. */
  function PackingProgress(items: seq<PackingItem>): (p: real)
    ensures 0.0 <= p <= 100.0
    ensures |items| == 0 ==> p == 0.0
    ensures |items| > 0 ==> (p == 100.0 <==> forall i :: 0 <= i < |items| ==> items[i].packed)
    ensures |items| > 0 ==> (p == 0.0 <==> forall i :: 0 <= i < |items| ==> !items[i].packed)
  {
    if |items| > 0 then TripStats.Percent(TripStats.PackedCount(items), |items|) else 0.0
  }

  // ----- toggling -----

  function HasTripId(tripId: string): Trip -> bool
  {
    (t: Trip) => t.id == tripId
  }

  function HasItemId(itemId: string): PackingItem -> bool
  {
    (i: PackingItem) => i.id == itemId
  }

  /** The item as the live trip list holds it now. */
  function LiveItem(trips: seq<Trip>, tripId: string, itemId: string): Option<PackingItem>
  {
    var t := Seqs.Find(trips, HasTripId(tripId));
    if t.None? then None else Seqs.Find(t.value.packingList, HasItemId(itemId))
  }

  /**
   * Flip the packed flag of the item as it is now.  Only the trips with
   * tripId change, and nothing changes when the item is not in the list.
   */
  function LiveToggle(trips: seq<Trip>, tripId: string, itemId: string): (r: seq<Trip>)
    ensures |r| == |trips|
    ensures forall k :: 0 <= k < |trips| && trips[k].id != tripId ==> r[k] == trips[k]
    ensures LiveItem(trips, tripId, itemId).None? ==> r == trips
    ensures forall k :: 0 <= k < |trips| && trips[k].id == tripId ==>
              |r[k].packingList| == |trips[k].packingList| &&
              r[k] == trips[k].(packingList := r[k].packingList)
  {
    var cur := LiveItem(trips, tripId, itemId);
    if cur.None? then trips else StoreOps.UpdatePackingItem(trips, tripId, itemId, PackedPatch(!cur.value.packed))
  }

  predicate UniqueItemIds(items: seq<PackingItem>)
  {
    forall i, j :: 0 <= i < j < |items| ==> items[i].id != items[j].id
  }

  /** Trip ids are distinct, and so are the item ids inside the trip with tripId. */
  predicate WellKeyed(trips: seq<Trip>, tripId: string)
  {
    TripStats.UniqueIds(trips) &&
    forall k :: 0 <= k < |trips| && trips[k].id == tripId ==> UniqueItemIds(trips[k].packingList)
  }

  /**
   * As written, a second toggle of the same item recomputes `!item.packed`
   * from the captured trip, so it repeats the first update: after two clicks
   * the flag stays flipped and the list is not what it was.
   */
  lemma StaleToggleTwice(trips: seq<Trip>, k: nat, j: nat)
    requires k < |trips| && j < |trips[k].packingList|
    ensures var t := trips[k];
            var item := t.packingList[j];
            var once := StoreOps.UpdatePackingItem(trips, t.id, item.id, TogglePatch(item));
            && StoreOps.UpdatePackingItem(once, t.id, item.id, TogglePatch(item)) == once
            && once[k].packingList[j].packed == !item.packed
            && once != trips
  {
    var t := trips[k];
    var item := t.packingList[j];
    var p := TogglePatch(item);
    var once := StoreOps.UpdatePackingItem(trips, t.id, item.id, p);
    var twice := StoreOps.UpdatePackingItem(once, t.id, item.id, p);
    forall i | 0 <= i < |trips| ensures twice[i] == once[i] {
      if trips[i].id == t.id {
        UpdateItemsTwice(trips[i].packingList, item.id, p);
      }
    }
    assert once[k].packingList[j] != trips[k].packingList[j];
  }

  /** Applying the same item update twice is applying it once. */
  lemma UpdateItemsTwice(items: seq<PackingItem>, itemId: string, p: PackingPatch)
    ensures StoreOps.UpdatePackingItems(StoreOps.UpdatePackingItems(items, itemId, p), itemId, p) ==
            StoreOps.UpdatePackingItems(items, itemId, p)
  {
    var once := StoreOps.UpdatePackingItems(items, itemId, p);
    var twice := StoreOps.UpdatePackingItems(once, itemId, p);
    forall i | 0 <= i < |items| ensures twice[i] == once[i] {
      if items[i].id == itemId {
        assert MergePacking(MergePacking(items[i], p), p) == MergePacking(items[i], p);
      }
    }
  }

  /**
   * On the live list, with distinct trip ids and distinct item ids in the
   * trip, toggling an item twice gives back exactly the trip list it started from.
   */
  lemma LiveToggleTwiceRestores(trips: seq<Trip>, tripId: string, itemId: string)
    requires WellKeyed(trips, tripId)
    ensures LiveToggle(LiveToggle(trips, tripId, itemId), tripId, itemId) == trips
  {
    var cur := LiveItem(trips, tripId, itemId);
    if cur.Some? {
      var k, j := LocateLive(trips, tripId, itemId);
      var b := cur.value.packed;
      LiveAfterToggle(trips, tripId, itemId, k, j, !b);
      ToggleBack(trips, tripId, itemId, k, j, b);
    }
  }

  /** Where the live lookup found its item. */
  lemma LocateLive(trips: seq<Trip>, tripId: string, itemId: string) returns (k: nat, j: nat)
    requires LiveItem(trips, tripId, itemId).Some?
    ensures k < |trips| && trips[k].id == tripId
    ensures j < |trips[k].packingList| && trips[k].packingList[j] == LiveItem(trips, tripId, itemId).value
    ensures trips[k].packingList[j].id == itemId
  {
    var t := Seqs.Find(trips, HasTripId(tripId));
    k :| 0 <= k < |trips| && trips[k] == t.value && trips[k].id == tripId;
    var L := trips[k].packingList;
    j :| 0 <= j < |L| && L[j] == LiveItem(trips, tripId, itemId).value && L[j].id == itemId;
  }

  /** Setting the flag of the item at (k, j) to !b and then to b, where it was b, restores the trip list. */
  lemma ToggleBack(trips: seq<Trip>, tripId: string, itemId: string, k: nat, j: nat, b: bool)
    requires WellKeyed(trips, tripId)
    requires k < |trips| && trips[k].id == tripId
    requires j < |trips[k].packingList| && trips[k].packingList[j].id == itemId
    requires trips[k].packingList[j].packed == b
    ensures StoreOps.UpdatePackingItem(StoreOps.UpdatePackingItem(trips, tripId, itemId, PackedPatch(!b)),
                                       tripId, itemId, PackedPatch(b)) == trips
  {
    var once := StoreOps.UpdatePackingItem(trips, tripId, itemId, PackedPatch(!b));
    var twice := StoreOps.UpdatePackingItem(once, tripId, itemId, PackedPatch(b));
    forall i | 0 <= i < |trips| ensures twice[i] == trips[i] {
      if trips[i].id == tripId {
        assert i == k;
        RestoreItems(trips[k].packingList, itemId, j, b);
      }
    }
  }

  /** After setting the flag of the item at (k, j) to nb, the live lookup finds that item with the new flag. */
  lemma LiveAfterToggle(trips: seq<Trip>, tripId: string, itemId: string, k: nat, j: nat, nb: bool)
    requires WellKeyed(trips, tripId)
    requires k < |trips| && trips[k].id == tripId
    requires j < |trips[k].packingList| && trips[k].packingList[j].id == itemId
    ensures LiveItem(StoreOps.UpdatePackingItem(trips, tripId, itemId, PackedPatch(nb)), tripId, itemId) ==
            Some(trips[k].packingList[j].(packed := nb))
  {
    var once := StoreOps.UpdatePackingItem(trips, tripId, itemId, PackedPatch(nb));
    var L := trips[k].packingList;
    var L' := StoreOps.UpdatePackingItems(L, itemId, PackedPatch(nb));
    assert once[k] == trips[k].(packingList := L');
    assert forall i :: 0 <= i < k ==> once[i].id == trips[i].id;
    Seqs.FindFirst(once, HasTripId(tripId), k);
    assert L'[j] == MergePacking(L[j], PackedPatch(nb));
    PackedPatchOnlyFlag(L[j], nb);
    Seqs.FindFirst(L', HasItemId(itemId), j);
  }

  /** Setting flag b then b' on the only item with itemId, where it was b', restores the list. */
  lemma RestoreItems(L: seq<PackingItem>, itemId: string, j: nat, b: bool)
    requires UniqueItemIds(L) && j < |L| && L[j].id == itemId && L[j].packed == b
    ensures StoreOps.UpdatePackingItems(StoreOps.UpdatePackingItems(L, itemId, PackedPatch(!b)), itemId, PackedPatch(b)) == L
  {
    var once := StoreOps.UpdatePackingItems(L, itemId, PackedPatch(!b));
    var twice := StoreOps.UpdatePackingItems(once, itemId, PackedPatch(b));
    forall i | 0 <= i < |L| ensures twice[i] == L[i] {
      if L[i].id == itemId {
        assert i == j;
        PackedPatchOnlyFlag(L[i], !b);
        PackedPatchOnlyFlag(once[i], b);
      }
    }
  }

  class PackingList {
    const store: TripContext.TripProvider
    /** The trip prop: the value the trip list captured when the trip was opened. */
    const trip: Trip
    var showForm: bool
    var editingItem: Option<PackingItem>
    var form: PackingForm

    constructor (store: TripContext.TripProvider, trip: Trip)
      ensures this.store == store && this.trip == trip
      ensures !showForm && editingItem.None? && form == EmptyForm
    {
      this.store := store;
      this.trip := trip;
      showForm := false;
      editingItem := None;
      form := EmptyForm;
    }

    method ResetForm()
      modifies this
      ensures form == EmptyForm && editingItem.None? && !showForm
    {
      form := EmptyForm;
      editingItem := None;
      showForm := false;
    }

    /** The "Add Item" button. */
    method OpenForm()
      modifies this
      ensures showForm && form == old(form) && editingItem == old(editingItem)
    {
      showForm := true;
    }

    method SetForm(f: PackingForm)
      modifies this
      ensures form == f && showForm == old(showForm) && editingItem == old(editingItem)
    {
      form := f;
    }

    method HandleEdit(item: PackingItem)
      modifies this
      ensures editingItem == Some(item) && form == FormOf(item) && showForm
    {
      editingItem := Some(item);
      form := FormOf(item);
      showForm := true;
    }

    /** handleSubmit: update the edited item or add a new one, then reset the form. */
    method HandleSubmit(newId: string)
      modifies this, store
      ensures old(editingItem).Some? ==>
                store.trips == StoreOps.UpdatePackingItem(old(store.trips), trip.id, old(editingItem).value.id,
                                                          ItemPatchOf(old(form)))
      ensures old(editingItem).None? ==>
                store.trips == StoreOps.AddPackingItem(old(store.trips), trip.id, ItemDraft(old(form)), newId)
      ensures store.storage == old(store.storage)[TripContext.TripsKey := TripContext.TripsSnapshot(store.trips)]
      ensures form == EmptyForm && editingItem.None? && !showForm
      ensures store.expenses == old(store.expenses) && store.paymentMethods == old(store.paymentMethods)
      ensures store.currentTrip == old(store.currentTrip)
      ensures old(store.Synced()) ==> store.Synced()
    {
      if editingItem.Some? {
        store.UpdatePackingItem(trip.id, editingItem.value.id, ItemPatchOf(form));
      } else {
        store.AddPackingItem(trip.id, ItemDraft(form), newId);
      }
      ResetForm();
    }

    /** handleTogglePacked as written: the new flag is computed from the item of the captured trip. */
    method HandleTogglePacked(item: PackingItem)
      modifies store
      ensures store.trips == StoreOps.UpdatePackingItem(old(store.trips), trip.id, item.id, TogglePatch(item))
      ensures store.storage == old(store.storage)[TripContext.TripsKey := TripContext.TripsSnapshot(store.trips)]
      ensures store.expenses == old(store.expenses) && store.paymentMethods == old(store.paymentMethods)
      ensures store.currentTrip == old(store.currentTrip)
      ensures old(store.Synced()) ==> store.Synced()
    {
      store.UpdatePackingItem(trip.id, item.id, TogglePatch(item));
    }

    /** The toggle on the live trip list: flip the flag the item has now. */
    method HandleTogglePackedLive(itemId: string)
      modifies store
      ensures store.trips == LiveToggle(old(store.trips), trip.id, itemId)
      ensures store.expenses == old(store.expenses) && store.paymentMethods == old(store.paymentMethods)
      ensures store.currentTrip == old(store.currentTrip)
      ensures old(store.Synced()) ==> store.Synced()
    {
      var cur := LiveItem(store.trips, trip.id, itemId);
      if cur.Some? {
        store.UpdatePackingItem(trip.id, itemId, PackedPatch(!cur.value.packed));
      }
    }

    /** handleDelete: only a confirmed deletion reaches the store. */
    method HandleDelete(itemId: string, confirmed: bool)
      modifies store
      ensures confirmed ==> store.trips == StoreOps.DeletePackingItem(old(store.trips), trip.id, itemId) &&
                            store.storage == old(store.storage)[TripContext.TripsKey := TripContext.TripsSnapshot(store.trips)]
      ensures !confirmed ==> store.trips == old(store.trips) && store.storage == old(store.storage)
      ensures store.expenses == old(store.expenses) && store.paymentMethods == old(store.paymentMethods)
      ensures store.currentTrip == old(store.currentTrip)
      ensures old(store.Synced()) ==> store.Synced()
    {
      if confirmed {
        store.DeletePackingItem(trip.id, itemId);
      }
    }
  }
}
