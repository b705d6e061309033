/**
 * The destination catalog view (src/components/Destinations/DestinationExplorer.tsx):
 * the search, tag and price filters, the tag list, the price labels, and the
 * trip a paid booking creates.  The catalog itself (src/data/destinations.ts)
 * is a parameter.
 */
module DestinationExplorer {
  import opened Types
  import Seqs
  import Text
  import StoreOps
  import TripContext

  datatype PriceRange = AllPrices | BudgetRange | MidRange | LuxuryRange

  /** The price bands' bounds, in rupees per day. */
  const BudgetCeiling := 8000.0
  const LuxuryFloor := 15000.0

  /**
   * The search term occurs, ignoring case, in the name or in the country.
   * An empty term matches every destination, and a term longer than both
   * the name and the country matches none.
   */
  predicate MatchesSearch(d: Destination, term: string): (b: bool)
    ensures term == "" ==> b
    ensures b ==> |term| <= |d.name| || |term| <= |d.country|
  {
    Text.ContainsEmpty(Text.ToLower(d.name));
    Text.ContainsFits(Text.ToLower(d.name), Text.ToLower(term));
    Text.ContainsFits(Text.ToLower(d.country), Text.ToLower(term));
    Text.Contains(Text.ToLower(d.name), Text.ToLower(term)) ||
    Text.Contains(Text.ToLower(d.country), Text.ToLower(term))
  }

  /** No tag is selected, or the destination carries one of the selected tags. */
  predicate MatchesTags(d: Destination, selected: seq<string>): (b: bool)
    ensures selected == [] ==> b
    ensures forall t :: t in selected && t in d.tags ==> b
    ensures b && selected != [] ==> exists t :: t in selected && t in d.tags
  {
    |selected| == 0 || exists i :: 0 <= i < |selected| && selected[i] in d.tags
  }

  /** The price filter: a band filter passes exactly the destinations whose card shows that band's label. */
  predicate MatchesPrice(d: Destination, range: PriceRange): (b: bool)
    ensures b <==> range == AllPrices || range == LabelRange(GetPriceLabel(d.averageCost))
  {
    match range
    case AllPrices => true
    case BudgetRange => d.averageCost < BudgetCeiling
    case MidRange => BudgetCeiling <= d.averageCost < LuxuryFloor
    case LuxuryRange => d.averageCost >= LuxuryFloor
  }

  function Matches(term: string, selected: seq<string>, range: PriceRange): Destination -> bool
  {
    (d: Destination) => MatchesSearch(d, term) && MatchesTags(d, selected) && MatchesPrice(d, range)
  }

  /** filteredDestinations: the catalog entries passing all three tests, in catalog order. */
  function FilteredDestinations(catalog: seq<Destination>, term: string, selected: seq<string>, range: PriceRange)
    : (r: seq<Destination>)
    ensures Seqs.IsSubsequence(r, catalog)
    ensures forall d :: d in r <==>
              d in catalog && MatchesSearch(d, term) && MatchesTags(d, selected) && MatchesPrice(d, range)
  {
    Seqs.FilterIsSubsequence(catalog, Matches(term, selected, range));
    Seqs.Filter(catalog, Matches(term, selected, range))
  }

  /** An empty search term matches every destination. */
  lemma EmptySearchMatchesAll(d: Destination)
    ensures MatchesSearch(d, "")
  {
    assert Text.ToLower("") == "";
    Text.ContainsEmpty(Text.ToLower(d.name));
  }

  /** The search ignores the case of the term. */
  lemma SearchIgnoresCase(d: Destination, term: string)
    ensures MatchesSearch(d, Text.ToLower(term)) == MatchesSearch(d, term)
  {
    Text.ToLowerIdempotent(term);
  }

  /** With no search term, no tag and the 'all' range, the whole catalog is shown. */
  lemma NoFilterShowsCatalog(catalog: seq<Destination>)
    ensures FilteredDestinations(catalog, "", [], AllPrices) == catalog
  {
    forall d | d in catalog ensures Matches("", [], AllPrices)(d) {
      EmptySearchMatchesAll(d);
    }
    Seqs.FilterAll(catalog, Matches("", [], AllPrices));
  }

  /** Every average cost falls in exactly one of the three bands. */
  lemma BandsPartition(d: Destination)
    ensures MatchesPrice(d, BudgetRange) || MatchesPrice(d, MidRange) || MatchesPrice(d, LuxuryRange)
    ensures !(MatchesPrice(d, BudgetRange) && MatchesPrice(d, MidRange))
    ensures !(MatchesPrice(d, BudgetRange) && MatchesPrice(d, LuxuryRange))
    ensures !(MatchesPrice(d, MidRange) && MatchesPrice(d, LuxuryRange))
  {
  }

  datatype PriceLabel = BudgetLabel | MidRangeLabel | LuxuryLabel

  /** The price filter option that selects the band a label names. */
  function LabelRange(l: PriceLabel): PriceRange
  {
    match l
    case BudgetLabel => BudgetRange
    case MidRangeLabel => MidRange
    case LuxuryLabel => LuxuryRange
  }

  /** getPriceLabel by cost: below 8000 a day is budget, from 15000 on luxury, mid-range between. */
  function GetPriceLabel(cost: real): (l: PriceLabel)
    ensures l == BudgetLabel <==> cost < BudgetCeiling
    ensures l == MidRangeLabel <==> BudgetCeiling <= cost < LuxuryFloor
    ensures l == LuxuryLabel <==> LuxuryFloor <= cost
  {
    if cost < BudgetCeiling then BudgetLabel
    else if cost < LuxuryFloor then MidRangeLabel
    else LuxuryLabel
  }

  function LabelText(l: PriceLabel): (text: string)
    ensures text in ["Budget", "Mid-range", "Luxury"]
  {
    match l
    case BudgetLabel => "Budget"
    case MidRangeLabel => "Mid-range"
    case LuxuryLabel => "Luxury"
  }

  function LabelColor(l: PriceLabel): string
  {
    match l
    case BudgetLabel => "text-green-600 bg-green-100"
    case MidRangeLabel => "text-yellow-600 bg-yellow-100"
    case LuxuryLabel => "text-purple-600 bg-purple-100"
  }

  /** The label shown on a card is the band the price filter puts the destination in. */
  lemma LabelAgreesWithFilter(d: Destination)
    ensures GetPriceLabel(d.averageCost) == BudgetLabel <==> MatchesPrice(d, BudgetRange)
    ensures GetPriceLabel(d.averageCost) == MidRangeLabel <==> MatchesPrice(d, MidRange)
    ensures GetPriceLabel(d.averageCost) == LuxuryLabel <==> MatchesPrice(d, LuxuryRange)
  {
  }

  function NotTag(tag: string): string -> bool
  {
    (t: string) => t != tag
  }

  /** toggleTag: drop every copy of a selected tag, or append an unselected one. */
  function ToggleTag(selected: seq<string>, tag: string): (r: seq<string>)
    ensures tag in selected ==> tag !in r && forall t :: t != tag ==> (t in r <==> t in selected)
    ensures tag !in selected ==> r == selected + [tag]
  {
    if tag in selected then Seqs.Filter(selected, NotTag(tag)) else selected + [tag]
  }

  /** Toggling an unselected tag twice gives back exactly the list it started from. */
  lemma ToggleTwice(selected: seq<string>, tag: string)
    requires tag !in selected
    ensures ToggleTag(ToggleTag(selected, tag), tag) == selected
  {
    var once := selected + [tag];
    assert once[..|once| - 1] == selected;
    Seqs.FilterAll(selected, NotTag(tag));
  }

  /** Toggling a tag changes whether it is selected. */
  lemma ToggleFlips(selected: seq<string>, tag: string)
    ensures (tag in ToggleTag(selected, tag)) == (tag !in selected)
  {
  }

  function TagsOf(d: Destination): seq<string> { d.tags }

  /** allTags: every tag of the catalog, once each, in order of first appearance. */
  function AllTags(catalog: seq<Destination>): (r: seq<string>)
    ensures Seqs.NoDuplicates(r)
    ensures forall t :: t in r <==> exists d :: d in catalog && t in d.tags
  {
    Seqs.Dedup(Seqs.FlatMap(catalog, TagsOf))
  }

  /** A booking's trip lasts seven days. */
  const BookingDays := 7
  /** A booking starts thirty days after the day it is made. */
  const BookingLead := 30

  /** The amount the payment dialog charges for a booking (zero when nothing is being booked). */
  function BookingAmount(booking: Option<Destination>): (r: real)
    ensures booking.None? ==> r == 0.0
    ensures booking.Some? ==> r / (BookingDays as real) == booking.value.averageCost
  {
    if booking.Some? then booking.value.averageCost * (BookingDays as real) else 0.0
  }

  function BookingDescription(booking: Option<Destination>): string
  {
    if booking.Some? then "Trip package to " + booking.value.name else ""
  }

  /**
   * The trip handlePaymentSuccess hands to addTrip.  Days are numbered;
   * `isoDate` renders a day number as the `YYYY-MM-DD` string the source
   * takes from `toISOString`.  The store fills in the id and the empty lists.
   */
  function BookingTrip(d: Destination, paidWith: Option<PaymentMethod>, today: int, isoDate: int -> string): (t: Trip)
    ensures t.title == "Adventure in " + d.name
    ensures t.destination == d.name + ", " + d.country
    ensures t.startDate == isoDate(today + BookingLead)
    ensures t.endDate == isoDate(today + BookingLead + BookingDays)
    ensures t.spent == 0.0 && t.status == Upcoming && t.image == d.image && t.paymentMethod == paidWith
  {
    Trip("", "Adventure in " + d.name, d.name + ", " + d.country,
         isoDate(today + BookingLead), isoDate(today + BookingLead + BookingDays),
         d.averageCost * (BookingDays as real), 0.0, d.image, Upcoming, [], [], paidWith)
  }

  /** The booked trip's budget is exactly what the payment dialog charged for it. */
  lemma BookingBudgetIsCharge(d: Destination, paidWith: Option<PaymentMethod>, today: int, isoDate: int -> string)
    ensures BookingTrip(d, paidWith, today, isoDate).budget == BookingAmount(Some(d))
  {
  }

  function BookedMessage(d: Destination): string
  {
    "Trip to " + d.name + " has been booked successfully!"
  }

  class DestinationExplorer {
    const store: TripContext.TripProvider
    var searchTerm: string
    var selectedTags: seq<string>
    var priceRange: PriceRange
    var selectedDestination: Option<Destination>
    var showPaymentModal: bool
    var bookingDestination: Option<Destination>

    constructor (store: TripContext.TripProvider)
      ensures this.store == store && searchTerm == "" && selectedTags == [] && priceRange == AllPrices
      ensures selectedDestination.None? && !showPaymentModal && bookingDestination.None?
    {
      this.store := store;
      searchTerm := "";
      selectedTags := [];
      priceRange := AllPrices;
      selectedDestination := None;
      showPaymentModal := false;
      bookingDestination := None;
    }

    /** The cards currently shown. */
    function Shown(catalog: seq<Destination>): (r: seq<Destination>)
      reads this
      ensures Seqs.IsSubsequence(r, catalog)
      ensures forall d :: d in r <==>
                d in catalog && MatchesSearch(d, searchTerm) && MatchesTags(d, selectedTags) &&
                MatchesPrice(d, priceRange)
      ensures searchTerm == "" && selectedTags == [] && priceRange == AllPrices ==> r == catalog
    {
      NoFilterShowsCatalog(catalog);
      FilteredDestinations(catalog, searchTerm, selectedTags, priceRange)
    }

    method SetSearchTerm(term: string)
      modifies this
      ensures searchTerm == term && selectedTags == old(selectedTags) && priceRange == old(priceRange)
      ensures selectedDestination == old(selectedDestination) && showPaymentModal == old(showPaymentModal)
      ensures bookingDestination == old(bookingDestination)
    {
      searchTerm := term;
    }

    method SetPriceRange(range: PriceRange)
      modifies this
      ensures priceRange == range && searchTerm == old(searchTerm) && selectedTags == old(selectedTags)
      ensures selectedDestination == old(selectedDestination) && showPaymentModal == old(showPaymentModal)
      ensures bookingDestination == old(bookingDestination)
    {
      priceRange := range;
    }

    method HandleToggleTag(tag: string)
      modifies this
      ensures selectedTags == ToggleTag(old(selectedTags), tag)
      ensures searchTerm == old(searchTerm) && priceRange == old(priceRange)
      ensures selectedDestination == old(selectedDestination) && showPaymentModal == old(showPaymentModal)
      ensures bookingDestination == old(bookingDestination)
    {
      selectedTags := ToggleTag(selectedTags, tag);
    }

    /** Open or close the details dialog. */
    method SetSelectedDestination(d: Option<Destination>)
      modifies this
      ensures selectedDestination == d
      ensures searchTerm == old(searchTerm) && selectedTags == old(selectedTags) && priceRange == old(priceRange)
      ensures showPaymentModal == old(showPaymentModal) && bookingDestination == old(bookingDestination)
    {
      selectedDestination := d;
    }

    /** handleBookTrip: remember what is booked and open the payment dialog. */
    method HandleBookTrip(d: Destination)
      modifies this
      ensures bookingDestination == Some(d) && showPaymentModal
      ensures searchTerm == old(searchTerm) && selectedTags == old(selectedTags) && priceRange == old(priceRange)
      ensures selectedDestination == old(selectedDestination)
    {
      bookingDestination := Some(d);
      showPaymentModal := true;
    }

    /** The details dialog's "Book This Trip": book the shown destination and close the details. */
    method BookFromDetails()
      requires selectedDestination.Some?
      modifies this
      ensures bookingDestination == old(selectedDestination) && showPaymentModal && selectedDestination.None?
      ensures searchTerm == old(searchTerm) && selectedTags == old(selectedTags) && priceRange == old(priceRange)
    {
      HandleBookTrip(selectedDestination.value);
      selectedDestination := None;
    }

    /**
     * The payment succeeded: with a booking pending, add its trip and report
     * it; without one, do nothing.  The dialog stays open until it closes itself.
     */
    method HandlePaymentSuccess(paidWith: PaymentMethod, newId: string, today: int, isoDate: int -> string)
      returns (alert: Option<string>)
      modifies this, store
      ensures old(bookingDestination).Some? ==>
                store.trips == StoreOps.AddTrip(old(store.trips),
                                 BookingTrip(old(bookingDestination).value, Some(paidWith), today, isoDate), newId) &&
                store.storage == old(store.storage)[TripContext.TripsKey := TripContext.TripsSnapshot(store.trips)] &&
                alert == Some(BookedMessage(old(bookingDestination).value))
      ensures old(bookingDestination).None? ==>
                store.trips == old(store.trips) && store.storage == old(store.storage) && alert.None?
      ensures bookingDestination.None? && showPaymentModal == old(showPaymentModal)
      ensures store.expenses == old(store.expenses) && store.paymentMethods == old(store.paymentMethods)
      ensures store.currentTrip == old(store.currentTrip)
      ensures old(store.Synced()) ==> store.Synced()
    {
      if bookingDestination.None? {
        return None;
      }
      var d := bookingDestination.value;
      store.AddTrip(BookingTrip(d, Some(paidWith), today, isoDate), newId);
      alert := Some(BookedMessage(d));
      bookingDestination := None;
    }

    /** The payment dialog's onClose. */
    method ClosePaymentModal()
      modifies this
      ensures !showPaymentModal && bookingDestination.None?
      ensures searchTerm == old(searchTerm) && selectedTags == old(selectedTags) && priceRange == old(priceRange)
      ensures selectedDestination == old(selectedDestination)
    {
      showPaymentModal := false;
      bookingDestination := None;
    }
  }
}
