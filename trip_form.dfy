/**
 * The trip editor (src/components/Trips/TripForm.tsx): the form and its
 * loading from a trip, field-by-field editing with error clearing, the
 * validation rules, and the trip data a valid submit sends to the store.
 */
module TripForm {
  import opened Types
  import Text
  import StoreOps
  import TripContext

  /** The form's fields; budget None is the empty field. */
  datatype TripFormData = TripFormData(
    title: string,
    destination: string,
    startDate: string,
    endDate: string,
    budget: Option<real>,
    image: string,
    status: TripStatus)

  /** The form's inputs; each input's `name` is also its key in the error record. */
  datatype Field = TitleField | DestinationField | StartDateField | EndDateField | BudgetField | ImageField | StatusField

  /** The input's `name` attribute. */
  function Name(f: Field): string
  {
    match f
    case TitleField => "title"
    case DestinationField => "destination"
    case StartDateField => "startDate"
    case EndDateField => "endDate"
    case BudgetField => "budget"
    case ImageField => "image"
    case StatusField => "status"
  }

  /** The sample images a new trip is given one of. */
  const DestinationImages: seq<string> := [
    "https://images.pexels.com/photos/338515/pexels-photo-338515.jpeg?auto=compress&cs=tinysrgb&w=800",
    "https://images.pexels.com/photos/2614818/pexels-photo-2614818.jpeg?auto=compress&cs=tinysrgb&w=800",
    "https://images.pexels.com/photos/1010657/pexels-photo-1010657.jpeg?auto=compress&cs=tinysrgb&w=800",
    "https://images.pexels.com/photos/290386/pexels-photo-290386.jpeg?auto=compress&cs=tinysrgb&w=800",
    "https://images.pexels.com/photos/1007426/pexels-photo-1007426.jpeg?auto=compress&cs=tinysrgb&w=800",
    "https://images.pexels.com/photos/1388030/pexels-photo-1388030.jpeg?auto=compress&cs=tinysrgb&w=800"
  ]

  /** The form as the mount effect leaves it: the trip's fields when editing, otherwise blank with a sample image. */
  function InitialForm(trip: Option<Trip>, pick: nat): (f: TripFormData)
    requires pick < |DestinationImages|
    ensures trip.None? ==> f.title == "" && f.budget.None? && f.status == Upcoming && f.image in DestinationImages
    ensures trip.Some? ==> f.title == trip.value.title && f.budget == Some(trip.value.budget) &&
                           f.image == trip.value.image && f.status == trip.value.status
  {
    if trip.Some? then FormOf(trip.value)
    else TripFormData("", "", "", "", None, DestinationImages[pick], Upcoming)
  }

  function FormOf(t: Trip): TripFormData
  {
    TripFormData(t.title, t.destination, t.startDate, t.endDate, Some(t.budget), t.image, t.status)
  }

  // ----- validation -----

  const TitleRequired := "Trip title is required"
  const DestinationRequired := "Destination is required"
  const StartRequired := "Start date is required"
  const EndRequired := "End date is required"
  const EndNotAfterStart := "End date must be after start date"
  const BudgetNotPositive := "Budget must be a positive number"

  /** The end date does not come after the start date (ISO dates compare as text). */
  predicate EndNotAfter(f: TripFormData)
  {
    Text.LexLeq(f.endDate, f.startDate)
  }

  /** The message validateForm records against one field, if that field fails its rule. */
  function FieldError(f: TripFormData, n: Field): Option<string>
  {
    match n
    case TitleField => if Text.Trim(f.title) == "" then Some(TitleRequired) else None
    case DestinationField => if Text.Trim(f.destination) == "" then Some(DestinationRequired) else None
    case StartDateField => if f.startDate == "" then Some(StartRequired) else None
    case EndDateField =>
      if f.endDate == "" then Some(EndRequired)
      else if f.startDate != "" && EndNotAfter(f) then Some(EndNotAfterStart)
      else None
    case BudgetField => if f.budget.None? || f.budget.value <= 0.0 then Some(BudgetNotPositive) else None
    case ImageField => None
    case StatusField => None
  }

  /** validateForm's error record: one entry per failed rule, keyed by field. */
  function Errors(f: TripFormData): (r: map<Field, string>)
    ensures r.Keys <= ValidatedFields
    ensures BudgetField in r <==> f.budget.None? || f.budget.value <= 0.0
  {
    map n | n in ValidatedFields && FieldError(f, n).Some? :: FieldError(f, n).value
  }

  /** Each validated field has an entry exactly when its rule fails. */
  lemma ErrorRules(f: TripFormData)
    ensures var r := Errors(f);
            && (TitleField in r <==> Text.Trim(f.title) == "")
            && (DestinationField in r <==> Text.Trim(f.destination) == "")
            && (StartDateField in r <==> f.startDate == "")
            && (EndDateField in r <==> f.endDate == "" || (f.startDate != "" && EndNotAfter(f)))
            && (BudgetField in r <==> f.budget.None? || f.budget.value <= 0.0)
  {
    var r := Errors(f);
    assert forall n :: n in r <==> n in ValidatedFields && FieldError(f, n).Some?;
  }

  /** The messages of the error record, the end date's depending on which of its checks failed. */
  lemma ErrorMessages(f: TripFormData)
    ensures var r := Errors(f);
            && (TitleField in r ==> r[TitleField] == TitleRequired)
            && (DestinationField in r ==> r[DestinationField] == DestinationRequired)
            && (StartDateField in r ==> r[StartDateField] == StartRequired)
            && (EndDateField in r ==> r[EndDateField] == if f.endDate == "" then EndRequired else EndNotAfterStart)
            && (BudgetField in r ==> r[BudgetField] == BudgetNotPositive)
  {
    var r := Errors(f);
    if TitleField in r { assert r[TitleField] == FieldError(f, TitleField).value; }
    if DestinationField in r { assert r[DestinationField] == FieldError(f, DestinationField).value; }
    if StartDateField in r { assert r[StartDateField] == FieldError(f, StartDateField).value; }
    if EndDateField in r { assert r[EndDateField] == FieldError(f, EndDateField).value; }
    if BudgetField in r { assert r[BudgetField] == FieldError(f, BudgetField).value; }
  }

  /** The fields validateForm checks. */
  const ValidatedFields: set<Field> := {TitleField, DestinationField, StartDateField, EndDateField, BudgetField}

  /** Some character of s is not white space. */
  predicate HasText(s: string)
  {
    exists i :: 0 <= i < |s| && !Text.IsSpace(s[i])
  }

  /**
   * The rules of a valid form: title and destination hold more than white
   * space, both dates are given with the end strictly after the start, and
   * the budget is a positive number.
   */
  predicate RulesHold(f: TripFormData)
  {
    && HasText(f.title) && HasText(f.destination)
    && f.startDate != "" && f.endDate != "" && Text.LexLess(f.startDate, f.endDate)
    && f.budget.Some? && f.budget.value > 0.0
  }

  /** A form is valid exactly when it keeps every rule. */
  lemma ValidExactly(f: TripFormData)
    ensures |Errors(f)| == 0 <==> RulesHold(f)
  {
    if RulesHold(f) {
      NoErrorsWhenRulesHold(f);
    } else {
      SomeErrorWhenRuleFails(f);
    }
  }

  /** A string trims to something non-empty exactly when it has a character that is not white space. */
  lemma HasTextTrims(s: string)
    ensures HasText(s) <==> Text.Trim(s) != ""
  {
    Text.TrimEmpty(s);
  }

  lemma NoErrorsWhenRulesHold(f: TripFormData)
    requires RulesHold(f)
    ensures Errors(f) == map[]
  {
    HasTextTrims(f.title);
    HasTextTrims(f.destination);
    DatesInOrder(f);
    ErrorRules(f);
    var r := Errors(f);
    assert TitleField !in r && DestinationField !in r && StartDateField !in r;
    assert EndDateField !in r && BudgetField !in r;
    assert r.Keys == {};
  }

  lemma SomeErrorWhenRuleFails(f: TripFormData)
    requires !RulesHold(f)
    ensures |Errors(f)| > 0
  {
    HasTextTrims(f.title);
    HasTextTrims(f.destination);
    if f.startDate != "" && f.endDate != "" {
      DatesInOrder(f);
    }
    ErrorRules(f);
    var r := Errors(f);
    var k: Field :|
      k in r && k in {TitleField, DestinationField, StartDateField, EndDateField, BudgetField};
  }

  /** With both dates given, the end date passes its check exactly when it comes strictly after the start. */
  lemma DatesInOrder(f: TripFormData)
    requires f.startDate != "" && f.endDate != ""
    ensures !EndNotAfter(f) <==> Text.LexLess(f.startDate, f.endDate)
  {
    Text.LexLeqTotal(f.startDate, f.endDate);
    if Text.LexLess(f.startDate, f.endDate) && EndNotAfter(f) {
      Text.LexLeqAntisymmetric(f.startDate, f.endDate);
    }
  }

  // ----- the data sent to the store -----

  /**
   * tripData: trimmed title and destination, the parsed budget, and for an
   * edited trip its spent figure, itinerary and packing list (a new trip
   * starts at zero with empty lists).
   */
  function TripData(f: TripFormData, editing: Option<Trip>): (t: Trip)
    requires f.budget.Some?
    ensures t.title == Text.Trim(f.title) && t.destination == Text.Trim(f.destination)
    ensures t.startDate == f.startDate && t.endDate == f.endDate && t.budget == f.budget.value
    ensures t.image == f.image && t.status == f.status && t.paymentMethod.None?
    ensures editing.Some? ==> t.spent == editing.value.spent && t.itinerary == editing.value.itinerary &&
                              t.packingList == editing.value.packingList
    ensures editing.None? ==> t.spent == 0.0 && t.itinerary == [] && t.packingList == []
  {
    Trip("", Text.Trim(f.title), Text.Trim(f.destination), f.startDate, f.endDate, f.budget.value,
         if editing.Some? then editing.value.spent else 0.0,
         f.image, f.status,
         if editing.Some? then editing.value.itinerary else [],
         if editing.Some? then editing.value.packingList else [],
         None)
  }

  /** The same data as a partial update: every field tripData carries, and neither id nor payment method. */
  function TripPatchOf(t: Trip): (p: TripPatch)
    ensures p.id == Keep && p.paymentMethod == Keep
    ensures forall u: Trip :: MergeTrip(u, p) == t.(id := u.id, paymentMethod := u.paymentMethod)
  {
    TripPatch(Keep, Put(t.title), Put(t.destination), Put(t.startDate), Put(t.endDate), Put(t.budget),
              Put(t.spent), Put(t.image), Put(t.status), Put(t.itinerary), Put(t.packingList), Keep)
  }

  /**
   * Saving an edit without changing anything, when the stored title and
   * destination carry no surrounding white space, leaves the trip list exactly
   * as it was.
   */
  lemma UnchangedEditIsNoOp(trips: seq<Trip>, t: Trip)
    requires Text.Trim(t.title) == t.title && Text.Trim(t.destination) == t.destination
    requires forall i :: 0 <= i < |trips| && trips[i].id == t.id ==> trips[i] == t
    ensures StoreOps.UpdateTrip(trips, t.id, TripPatchOf(TripData(FormOf(t), Some(t)))) == trips
  {
    var p := TripPatchOf(TripData(FormOf(t), Some(t)));
    assert MergeTrip(t, p) == t;
    UpdateFixedPoint(trips, t.id, p);
  }

  /** An update that leaves every trip with the id as it is leaves the list as it is. */
  lemma UpdateFixedPoint(trips: seq<Trip>, tripId: string, p: TripPatch)
    requires forall i :: 0 <= i < |trips| && trips[i].id == tripId ==> MergeTrip(trips[i], p) == trips[i]
    ensures StoreOps.UpdateTrip(trips, tripId, p) == trips
  {
    var r := StoreOps.UpdateTrip(trips, tripId, p);
    assert forall i :: 0 <= i < |trips| ==> r[i] == trips[i];
  }

  // ----- editing -----

  /** One input's change event, carrying the field's new value. */
  datatype FieldChange =
    | SetTitle(title: string)
    | SetDestination(destination: string)
    | SetStartDate(startDate: string)
    | SetEndDate(endDate: string)
    | SetBudget(budget: Option<real>)
    | SetImage(image: string)
    | SetStatus(status: TripStatus)

  /** The input a change event comes from. */
  function FieldOf(c: FieldChange): Field
  {
    match c
    case SetTitle(_) => TitleField
    case SetDestination(_) => DestinationField
    case SetStartDate(_) => StartDateField
    case SetEndDate(_) => EndDateField
    case SetBudget(_) => BudgetField
    case SetImage(_) => ImageField
    case SetStatus(_) => StatusField
  }

  /** `{ ...prev, [name]: value }` */
  function ApplyChange(f: TripFormData, c: FieldChange): TripFormData
  {
    match c
    case SetTitle(v) => f.(title := v)
    case SetDestination(v) => f.(destination := v)
    case SetStartDate(v) => f.(startDate := v)
    case SetEndDate(v) => f.(endDate := v)
    case SetBudget(v) => f.(budget := v)
    case SetImage(v) => f.(image := v)
    case SetStatus(v) => f.(status := v)
  }

  /** The current value of a field, as the change that would set it. */
  function Current(f: TripFormData, n: Field): FieldChange
  {
    match n
    case TitleField => SetTitle(f.title)
    case DestinationField => SetDestination(f.destination)
    case StartDateField => SetStartDate(f.startDate)
    case EndDateField => SetEndDate(f.endDate)
    case BudgetField => SetBudget(f.budget)
    case ImageField => SetImage(f.image)
    case StatusField => SetStatus(f.status)
  }

  /**
   * A change sets its own field to the new value and leaves every other field
   * as it was; setting a field to its current value changes nothing.
   */
  lemma ChangeTouchesOneField(f: TripFormData, c: FieldChange)
    ensures Current(ApplyChange(f, c), FieldOf(c)) == c
    ensures forall n :: n != FieldOf(c) ==> Current(ApplyChange(f, c), n) == Current(f, n)
    ensures forall n :: ApplyChange(f, Current(f, n)) == f
  {
  }

  /** handleInputChange's error update: a non-empty message for that field is blanked. */
  function ClearError(errors: map<Field, string>, n: Field): (r: map<Field, string>)
    ensures r.Keys == errors.Keys
    ensures forall k :: k in r && k != n ==> r[k] == errors[k]
    ensures n in r ==> r[n] == ""
  {
    if n in errors && errors[n] != "" then errors[n := ""] else errors
  }

  class TripForm {
    const store: TripContext.TripProvider
    /** The trip being edited, or None for a new one. */
    const trip: Option<Trip>
    var form: TripFormData
    var errors: map<Field, string>

    /** Mount; `pick` is the random image choice for a new trip. */
    constructor (store: TripContext.TripProvider, trip: Option<Trip>, pick: nat)
      requires pick < |DestinationImages|
      ensures this.store == store && this.trip == trip
      ensures form == InitialForm(trip, pick) && errors == map[]
    {
      this.store := store;
      this.trip := trip;
      form := InitialForm(trip, pick);
      errors := map[];
    }

    method HandleInputChange(c: FieldChange)
      modifies this
      ensures form == ApplyChange(old(form), c)
      ensures errors == ClearError(old(errors), FieldOf(c))
    {
      form := ApplyChange(form, c);
      errors := ClearError(errors, FieldOf(c));
    }

    /** validateForm: record the errors; valid when there are none. */
    method ValidateForm() returns (valid: bool)
      modifies this
      ensures errors == Errors(form) && form == old(form)
      ensures valid <==> |errors| == 0
    {
      errors := Errors(form);
      valid := |errors| == 0;
    }

    /**
     * handleSubmit: an invalid form only shows its errors; a valid one
     * updates the edited trip or adds a new one, and the form closes.
     */
    method HandleSubmit(newId: string) returns (closed: bool)
      modifies this, store
      ensures errors == Errors(old(form)) && form == old(form)
      ensures closed <==> |Errors(old(form))| == 0
      ensures !closed ==> store.trips == old(store.trips) && store.storage == old(store.storage)
      ensures closed && trip.Some? ==>
                store.trips == StoreOps.UpdateTrip(old(store.trips), trip.value.id,
                                 TripPatchOf(TripData(old(form), trip))) &&
                store.currentTrip == StoreOps.RefreshCurrent(old(store.currentTrip), trip.value.id,
                                       TripPatchOf(TripData(old(form), trip)))
      ensures closed && trip.None? ==>
                store.trips == StoreOps.AddTrip(old(store.trips), TripData(old(form), None), newId) &&
                store.currentTrip == old(store.currentTrip)
      ensures closed ==> store.storage == old(store.storage)[TripContext.TripsKey := TripContext.TripsSnapshot(store.trips)]
      ensures !closed ==> store.currentTrip == old(store.currentTrip)
      ensures store.expenses == old(store.expenses) && store.paymentMethods == old(store.paymentMethods)
      ensures old(store.Synced()) ==> store.Synced()
    {
      var valid := ValidateForm();
      if !valid {
        return false;
      }
      var data := TripData(form, trip);
      if trip.Some? {
        store.UpdateTrip(trip.value.id, TripPatchOf(data));
      } else {
        store.AddTrip(data, newId);
      }
      return true;
    }
  }
}
