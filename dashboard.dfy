/**
 * The dashboard (src/components/Dashboard/Dashboard.tsx): the upcoming
 * trips, the budget totals, the average packing progress and the card for
 * the next trip.  Everything here is computed from the trip list.
 *
 * The number of days until the next trip needs today's date; the caller
 * passes the day count as a function of the start date.
 */
module Dashboard {
  import opened Types
  import Seqs
  import TripStats
  import PackingList
  import TripList

  function IsUpcoming(t: Trip): bool { t.status == Upcoming }

  /** upcomingTrips: the trips with status upcoming, in list order. */
  function UpcomingTrips(trips: seq<Trip>): (r: seq<Trip>)
    ensures Seqs.IsSubsequence(r, trips)
    ensures forall t :: t in r <==> t in trips && t.status == Upcoming
  {
    Seqs.FilterIsSubsequence(trips, IsUpcoming);
    Seqs.Filter(trips, IsUpcoming)
  }

  /** The dashboard and the trip list's upcoming filter show the same trips. */
  lemma UpcomingAgreesWithTripList(trips: seq<Trip>)
    ensures UpcomingTrips(trips) == TripList.FilteredTrips(trips, TripList.Only(Upcoming))
  {
    Seqs.FilterSame(trips, IsUpcoming, TripList.Keeps(TripList.Only(Upcoming)));
  }

  /** The upcoming trips the card lists: the first three. */
  function ShownUpcoming(trips: seq<Trip>): (r: seq<Trip>)
    ensures |r| <= 3 && |r| <= |UpcomingTrips(trips)| && r == UpcomingTrips(trips)[..|r|]
    ensures |r| == 0 <==> forall i :: 0 <= i < |trips| ==> trips[i].status != Upcoming
  {
    var up := UpcomingTrips(trips);
    assert forall i :: 0 <= i < |trips| && trips[i].status == Upcoming ==> trips[i] in up;
    assert |up| > 0 ==> up[0] in up;
    Seqs.Take(up, 3)
  }

  /** One trip's packing percentage, 0 for an empty list. */
  function TripPacking(t: Trip): (p: real)
    ensures 0.0 <= p <= 100.0
  {
    PackingList.PackingProgress(t.packingList)
  }

  /**
   * packingProgress: the mean of the trips' packing percentages; with no
   * trips the division yields NaN and the `|| 0` turns it into 0.
   */
  function AveragePacking(trips: seq<Trip>): (p: real)
    ensures 0.0 <= p <= 100.0
    ensures |trips| == 0 ==> p == 0.0
    ensures (forall i :: 0 <= i < |trips| ==> TripPacking(trips[i]) == 100.0) && |trips| > 0 ==> p == 100.0
    ensures (forall i :: 0 <= i < |trips| ==> TripPacking(trips[i]) == 0.0) ==> p == 0.0
  {
    if |trips| == 0 then 0.0
    else
      MeanOfTrips(trips);
      Seqs.Sum(trips, TripPacking) / (|trips| as real)
  }

  /** The bounds of the mean over a non-empty trip list. */
  lemma MeanOfTrips(trips: seq<Trip>)
    requires |trips| > 0
    ensures var mean := Seqs.Sum(trips, TripPacking) / (|trips| as real);
            && 0.0 <= mean <= 100.0
            && ((forall i :: 0 <= i < |trips| ==> TripPacking(trips[i]) == 100.0) ==> mean == 100.0)
            && ((forall i :: 0 <= i < |trips| ==> TripPacking(trips[i]) == 0.0) ==> mean == 0.0)
  {
    var total := Seqs.Sum(trips, TripPacking);
    TotalWithin(trips);
    MeanWithin(total, |trips| as real);
  }

  /** The summed percentages lie within [0, 100n], at the ends when every trip is at that end. */
  lemma TotalWithin(trips: seq<Trip>)
    ensures var total := Seqs.Sum(trips, TripPacking);
            && 0.0 <= total <= (|trips| as real) * 100.0
            && ((forall i :: 0 <= i < |trips| ==> TripPacking(trips[i]) == 100.0) ==> total == (|trips| as real) * 100.0)
            && ((forall i :: 0 <= i < |trips| ==> TripPacking(trips[i]) == 0.0) ==> total == 0.0)
  {
    var total, n := Seqs.Sum(trips, TripPacking), |trips| as real;
    Seqs.SumBounds(trips, TripPacking, 0.0, 100.0);
    if forall i :: 0 <= i < |trips| ==> TripPacking(trips[i]) == 100.0 {
      Seqs.SumBounds(trips, TripPacking, 100.0, 100.0);
      assert n * 100.0 <= total <= n * 100.0;
    }
    if forall i :: 0 <= i < |trips| ==> TripPacking(trips[i]) == 0.0 {
      Seqs.SumBounds(trips, TripPacking, 0.0, 0.0);
      assert n * 0.0 <= total <= n * 0.0;
    }
  }

  /** A total within [0, 100n] over n > 0 summands has its mean within [0, 100]. */
  lemma MeanWithin(total: real, n: real)
    requires n > 0.0 && 0.0 <= total <= n * 100.0
    ensures 0.0 <= total / n <= 100.0
    ensures total == n * 100.0 ==> total / n == 100.0
    ensures total == 0.0 ==> total / n == 0.0
  {
    var q := total / n;
    assert q * n == total;
    TripStats.SignOfProduct(q, n);
    assert (100.0 - q) * n == n * 100.0 - total;
    TripStats.SignOfProduct(100.0 - q, n);
  }

  /** The next trip: the first upcoming trip of the list, if any. */
  function NextTrip(trips: seq<Trip>): (r: Option<Trip>)
    ensures r.None? <==> forall i :: 0 <= i < |trips| ==> trips[i].status != Upcoming
    ensures r.Some? ==> r == Seqs.Find(trips, IsUpcoming)
  {
    var up := UpcomingTrips(trips);
    assert forall i :: 0 <= i < |trips| && trips[i].status == Upcoming ==> trips[i] in up;
    if |up| > 0 then
      FirstUpcoming(trips);
      Some(up[0])
    else None
  }

  /** `upcomingTrips[0]` is the first trip of the list whose status is upcoming. */
  lemma FirstUpcoming(trips: seq<Trip>)
    requires |UpcomingTrips(trips)| > 0
    ensures Seqs.Find(trips, IsUpcoming) == Some(UpcomingTrips(trips)[0])
  {
    var t := UpcomingTrips(trips)[0];
    assert t in UpcomingTrips(trips);
    var i :| 0 <= i < |trips| && trips[i] == Seqs.Find(trips, IsUpcoming).value && IsUpcoming(trips[i]) &&
             forall j :: 0 <= j < i ==> !IsUpcoming(trips[j]);
    Seqs.FilterFirst(trips, IsUpcoming, i);
  }

  const NoUpcomingCaption := "No upcoming trips"

  /**
   * The "Days Until Next Trip" card: the day count and destination of the
   * next trip, or 0 and the fallback caption when no trip is upcoming.
   */
  function NextTripCard(trips: seq<Trip>, daysUntil: string -> int): (card: (int, string))
    ensures NextTrip(trips).None? ==> card == (0, NoUpcomingCaption)
    ensures NextTrip(trips).Some? ==>
              card == (daysUntil(NextTrip(trips).value.startDate), NextTrip(trips).value.destination)
  {
    var next := NextTrip(trips);
    if next.Some? then (daysUntil(next.value.startDate), next.value.destination) else (0, NoUpcomingCaption)
  }
}
