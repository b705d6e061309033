/**
 * The trip list page (src/components/Trips/TripList.tsx): the status filter,
 * the handlers that open the form or the details of a trip, deletion after
 * confirmation, and which of the three views the page shows.
 */
module TripList {
  import opened Types
  import Seqs
  import StoreOps
  import TripContext

  /** The filter buttons: all trips, or the trips of one status. */
  datatype StatusFilter = All | Only(status: TripStatus)

  function Keeps(f: StatusFilter): Trip -> bool
  {
    (t: Trip) => f.All? || t.status == f.status
  }

  /** filteredTrips: the trips the filter lets through, in list order. */
  function FilteredTrips(trips: seq<Trip>, f: StatusFilter): (r: seq<Trip>)
    ensures Seqs.IsSubsequence(r, trips)
    ensures f.All? ==> r == trips
    ensures f.Only? ==> forall t :: t in r <==> t in trips && t.status == f.status
  {
    Seqs.FilterIsSubsequence(trips, Keeps(f));
    var r := Seqs.Filter(trips, Keeps(f));
    if f.All? then Seqs.FilterAll(trips, Keeps(f)); r else r
  }

  /** Every trip has one status, so the three status filters share the trips out between them. */
  lemma {:induction false} StatusFiltersPartition(trips: seq<Trip>)
    ensures |FilteredTrips(trips, Only(Upcoming))| + |FilteredTrips(trips, Only(Ongoing))| +
            |FilteredTrips(trips, Only(Completed))| == |trips|
  {
    if trips != [] {
      StatusFiltersPartition(trips[..|trips| - 1]);
    }
  }

  /** The message of an empty list. */
  function EmptyMessage(f: StatusFilter): (m: string)
    ensures f.All? <==> m == "Start planning your first adventure!"
  {
    match f
    case All => "Start planning your first adventure!"
    case Only(Upcoming) => "No upcoming trips at the moment."
    case Only(Ongoing) => "No ongoing trips at the moment."
    case Only(Completed) => "No completed trips at the moment."
  }

  /** What the page renders. */
  datatype View = FormView(editing: Option<Trip>) | DetailsView(trip: Trip) | ListView(shown: seq<Trip>)

  class TripList {
    const store: TripContext.TripProvider
    var showForm: bool
    var editingTrip: Option<Trip>
    var viewingTrip: Option<Trip>
    var filter: StatusFilter

    constructor (store: TripContext.TripProvider)
      ensures this.store == store && !showForm && editingTrip.None? && viewingTrip.None? && filter == All
    {
      this.store := store;
      showForm := false;
      editingTrip := None;
      viewingTrip := None;
      filter := All;
    }

    /** The form wins over the details, and the details over the list. */
    function Shown(): (v: View)
      reads this, store
      ensures showForm <==> v.FormView?
      ensures v.FormView? ==> v.editing == editingTrip
      ensures v.DetailsView? <==> !showForm && viewingTrip.Some?
      ensures v.DetailsView? ==> viewingTrip == Some(v.trip)
      ensures v.ListView? ==> v.shown == FilteredTrips(store.trips, filter)
    {
      if showForm then FormView(editingTrip)
      else if viewingTrip.Some? then DetailsView(viewingTrip.value)
      else ListView(FilteredTrips(store.trips, filter))
    }

    method SetFilter(f: StatusFilter)
      modifies this
      ensures filter == f
      ensures showForm == old(showForm) && editingTrip == old(editingTrip) && viewingTrip == old(viewingTrip)
    {
      filter := f;
    }

    /** The "New Trip" button. */
    method OpenNewTrip()
      modifies this
      ensures showForm && editingTrip == old(editingTrip) && viewingTrip == old(viewingTrip) && filter == old(filter)
    {
      showForm := true;
    }

    method HandleEditTrip(t: Trip)
      modifies this
      ensures showForm && editingTrip == Some(t)
      ensures viewingTrip == old(viewingTrip) && filter == old(filter)
    {
      editingTrip := Some(t);
      showForm := true;
    }

    /** handleViewTrip: the trip becomes the store's current trip and the one the details show. */
    method HandleViewTrip(t: Trip)
      modifies this, store
      ensures store.currentTrip == Some(t) && viewingTrip == Some(t)
      ensures showForm == old(showForm) && editingTrip == old(editingTrip) && filter == old(filter)
      ensures store.trips == old(store.trips) && store.expenses == old(store.expenses)
      ensures store.paymentMethods == old(store.paymentMethods) && store.storage == old(store.storage)
    {
      store.SetCurrentTrip(Some(t));
      viewingTrip := Some(t);
    }

    /** handleDeleteTrip: only a confirmed deletion reaches the store. */
    method HandleDeleteTrip(tripId: string, confirmed: bool)
      modifies store
      ensures confirmed ==> store.trips == StoreOps.DeleteTrip(old(store.trips), tripId) &&
                            store.currentTrip == StoreOps.ForgetCurrent(old(store.currentTrip), tripId) &&
                            store.storage == old(store.storage)[TripContext.TripsKey := TripContext.TripsSnapshot(store.trips)]
      ensures !confirmed ==> store.trips == old(store.trips) && store.currentTrip == old(store.currentTrip) &&
                             store.storage == old(store.storage)
      ensures store.expenses == old(store.expenses) && store.paymentMethods == old(store.paymentMethods)
      ensures old(store.Synced()) ==> store.Synced()
    {
      if confirmed {
        store.DeleteTrip(tripId);
      }
    }

    method HandleCloseForm()
      modifies this
      ensures !showForm && editingTrip.None?
      ensures viewingTrip == old(viewingTrip) && filter == old(filter)
    {
      showForm := false;
      editingTrip := None;
    }

    /** handleCloseDetails: nothing is viewed and the store has no current trip. */
    method HandleCloseDetails()
      modifies this, store
      ensures viewingTrip.None? && store.currentTrip.None?
      ensures showForm == old(showForm) && editingTrip == old(editingTrip) && filter == old(filter)
      ensures store.trips == old(store.trips) && store.expenses == old(store.expenses)
      ensures store.paymentMethods == old(store.paymentMethods) && store.storage == old(store.storage)
    {
      viewingTrip := None;
      store.SetCurrentTrip(None);
    }
  }

  /** Viewing a trip while the form is closed shows its details; closing them returns to the list. */
  method ViewThenClose(page: TripList, t: Trip) returns (during: View, after: View)
    requires !page.showForm
    modifies page, page.store
    ensures during == DetailsView(t)
    ensures after == ListView(FilteredTrips(page.store.trips, page.filter))
    ensures page.store.trips == old(page.store.trips)
  {
    page.HandleViewTrip(t);
    during := page.Shown();
    page.HandleCloseDetails();
    after := page.Shown();
  }
}
