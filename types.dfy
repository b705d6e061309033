/**
 * The records of the travel planner (src/types/index.ts) and the partial
 * records that the store's update operations merge into them.
 *
 * A `Partial<X>` object literal is modelled as an `XPatch` whose fields are
 * `Update`s: `Keep` for a key the literal does not carry, `Put(v)` for a key
 * it carries.  `{ ...x, ...patch }` is then `MergeX(x, patch)`.  Optional
 * fields are `Option`s, so a literal that carries such a key with the value
 * `undefined` is `Put(None)`.
 */
module Types {

  datatype Option<T> = None | Some(value: T)

  /** One key of a partial record: absent, or present with a value. */
  datatype Update<T> = Keep | Put(value: T)

  /** The value a key has after `{ ...current, ...patch }`. */
  function Apply<T>(u: Update<T>, current: T): (r: T)
    ensures u.Keep? ==> r == current
    ensures u.Put? ==> r == u.value
  {
    match u
    case Keep => current
    case Put(v) => v
  }

  /** The key is absent from the patch, or the patch gives it the value v. */
  predicate Agrees<T(==)>(u: Update<T>, v: T)
  {
    u.Keep? || u.value == v
  }

  datatype TripStatus = Upcoming | Ongoing | Completed

  datatype ActivityType = Flight | Hotel | Activity | Restaurant | Transport

  datatype PaymentType = CreditCard | DebitCard | Upi | NetBanking | Wallet

  datatype PaymentMethod = PaymentMethod(
    id: string,
    kind: PaymentType,
    name: string,
    last4: Option<string>,
    expiryMonth: Option<int>,
    expiryYear: Option<int>,
    isDefault: bool)

  datatype ItineraryItem = ItineraryItem(
    id: string,
    date: string,
    time: string,
    title: string,
    description: string,
    location: string,
    kind: ActivityType,
    cost: Option<real>)

  datatype PackingItem = PackingItem(
    id: string,
    name: string,
    category: string,
    packed: bool,
    essential: bool)

  datatype Trip = Trip(
    id: string,
    title: string,
    destination: string,
    startDate: string,
    endDate: string,
    budget: real,
    spent: real,
    image: string,
    status: TripStatus,
    itinerary: seq<ItineraryItem>,
    packingList: seq<PackingItem>,
    paymentMethod: Option<PaymentMethod>)

  datatype Expense = Expense(
    id: string,
    tripId: string,
    amount: real,
    category: string,
    description: string,
    date: string,
    paymentMethod: Option<PaymentMethod>)

  /** A catalog entry; averageCost is the cost of one day. */
  datatype Destination = Destination(
    id: string,
    name: string,
    country: string,
    image: string,
    description: string,
    bestTimeToVisit: string,
    averageCost: real,
    rating: real,
    tags: seq<string>)

  // ----- Partial<Trip> -----

  datatype TripPatch = TripPatch(
    id: Update<string>,
    title: Update<string>,
    destination: Update<string>,
    startDate: Update<string>,
    endDate: Update<string>,
    budget: Update<real>,
    spent: Update<real>,
    image: Update<string>,
    status: Update<TripStatus>,
    itinerary: Update<seq<ItineraryItem>>,
    packingList: Update<seq<PackingItem>>,
    paymentMethod: Update<Option<PaymentMethod>>)

  const NoTripChanges := TripPatch(Keep, Keep, Keep, Keep, Keep, Keep, Keep, Keep, Keep, Keep, Keep, Keep)

  function MergeTrip(t: Trip, p: TripPatch): (r: Trip)
    ensures Agrees(p.id, r.id) &&
            Agrees(p.title, r.title) &&
            Agrees(p.destination, r.destination) &&
            Agrees(p.startDate, r.startDate) &&
            Agrees(p.endDate, r.endDate) &&
            Agrees(p.budget, r.budget) &&
            Agrees(p.spent, r.spent) &&
            Agrees(p.image, r.image) &&
            Agrees(p.status, r.status) &&
            Agrees(p.itinerary, r.itinerary) &&
            Agrees(p.packingList, r.packingList) &&
            Agrees(p.paymentMethod, r.paymentMethod)
    ensures p.id.Keep? ==> r.id == t.id
  {
    Trip(Apply(p.id, t.id), Apply(p.title, t.title), Apply(p.destination, t.destination),
         Apply(p.startDate, t.startDate), Apply(p.endDate, t.endDate), Apply(p.budget, t.budget),
         Apply(p.spent, t.spent), Apply(p.image, t.image), Apply(p.status, t.status),
         Apply(p.itinerary, t.itinerary), Apply(p.packingList, t.packingList),
         Apply(p.paymentMethod, t.paymentMethod))
  }

  /** Merging changes nothing exactly when every key the patch carries already has its value. */
  lemma MergeTripNoOp(t: Trip, p: TripPatch)
    ensures MergeTrip(t, p) == t <==>
            Agrees(p.id, t.id) &&
            Agrees(p.title, t.title) &&
            Agrees(p.destination, t.destination) &&
            Agrees(p.startDate, t.startDate) &&
            Agrees(p.endDate, t.endDate) &&
            Agrees(p.budget, t.budget) &&
            Agrees(p.spent, t.spent) &&
            Agrees(p.image, t.image) &&
            Agrees(p.status, t.status) &&
            Agrees(p.itinerary, t.itinerary) &&
            Agrees(p.packingList, t.packingList) &&
            Agrees(p.paymentMethod, t.paymentMethod)
  {
  }

  // ----- Partial<ItineraryItem> -----

  datatype ItemPatch = ItemPatch(
    id: Update<string>,
    date: Update<string>,
    time: Update<string>,
    title: Update<string>,
    description: Update<string>,
    location: Update<string>,
    kind: Update<ActivityType>,
    cost: Update<Option<real>>)

  function MergeItem(i: ItineraryItem, p: ItemPatch): (r: ItineraryItem)
    ensures Agrees(p.id, r.id) &&
            Agrees(p.date, r.date) &&
            Agrees(p.time, r.time) &&
            Agrees(p.title, r.title) &&
            Agrees(p.description, r.description) &&
            Agrees(p.location, r.location) &&
            Agrees(p.kind, r.kind) &&
            Agrees(p.cost, r.cost)
    ensures r == i <==>
            Agrees(p.id, i.id) &&
            Agrees(p.date, i.date) &&
            Agrees(p.time, i.time) &&
            Agrees(p.title, i.title) &&
            Agrees(p.description, i.description) &&
            Agrees(p.location, i.location) &&
            Agrees(p.kind, i.kind) &&
            Agrees(p.cost, i.cost)
    ensures p.id.Keep? ==> r.id == i.id
  {
    ItineraryItem(Apply(p.id, i.id), Apply(p.date, i.date), Apply(p.time, i.time),
                  Apply(p.title, i.title), Apply(p.description, i.description),
                  Apply(p.location, i.location), Apply(p.kind, i.kind), Apply(p.cost, i.cost))
  }

  // ----- Partial<PackingItem> -----

  datatype PackingPatch = PackingPatch(
    id: Update<string>,
    name: Update<string>,
    category: Update<string>,
    packed: Update<bool>,
    essential: Update<bool>)

  function MergePacking(i: PackingItem, p: PackingPatch): (r: PackingItem)
    ensures Agrees(p.id, r.id) &&
            Agrees(p.name, r.name) &&
            Agrees(p.category, r.category) &&
            Agrees(p.packed, r.packed) &&
            Agrees(p.essential, r.essential)
    ensures r == i <==>
            Agrees(p.id, i.id) &&
            Agrees(p.name, i.name) &&
            Agrees(p.category, i.category) &&
            Agrees(p.packed, i.packed) &&
            Agrees(p.essential, i.essential)
    ensures p.id.Keep? ==> r.id == i.id
  {
    PackingItem(Apply(p.id, i.id), Apply(p.name, i.name), Apply(p.category, i.category),
                Apply(p.packed, i.packed), Apply(p.essential, i.essential))
  }

  /** `{ packed: b }` */
  function PackedPatch(b: bool): PackingPatch
  {
    PackingPatch(Keep, Keep, Keep, Put(b), Keep)
  }

  // ----- Partial<PaymentMethod> -----

  datatype MethodPatch = MethodPatch(
    id: Update<string>,
    kind: Update<PaymentType>,
    name: Update<string>,
    last4: Update<Option<string>>,
    expiryMonth: Update<Option<int>>,
    expiryYear: Update<Option<int>>,
    isDefault: Update<bool>)

  function MergeMethod(m: PaymentMethod, p: MethodPatch): (r: PaymentMethod)
    ensures Agrees(p.id, r.id) &&
            Agrees(p.kind, r.kind) &&
            Agrees(p.name, r.name) &&
            Agrees(p.last4, r.last4) &&
            Agrees(p.expiryMonth, r.expiryMonth) &&
            Agrees(p.expiryYear, r.expiryYear) &&
            Agrees(p.isDefault, r.isDefault)
    ensures r == m <==>
            Agrees(p.id, m.id) &&
            Agrees(p.kind, m.kind) &&
            Agrees(p.name, m.name) &&
            Agrees(p.last4, m.last4) &&
            Agrees(p.expiryMonth, m.expiryMonth) &&
            Agrees(p.expiryYear, m.expiryYear) &&
            Agrees(p.isDefault, m.isDefault)
    ensures p.id.Keep? ==> r.id == m.id
  {
    PaymentMethod(Apply(p.id, m.id), Apply(p.kind, m.kind), Apply(p.name, m.name),
                  Apply(p.last4, m.last4), Apply(p.expiryMonth, m.expiryMonth),
                  Apply(p.expiryYear, m.expiryYear), Apply(p.isDefault, m.isDefault))
  }

  /** `{ isDefault: b }` */
  function DefaultPatch(b: bool): MethodPatch
  {
    MethodPatch(Keep, Keep, Keep, Keep, Keep, Keep, Put(b))
  }

  /** Merging a partial record that carries no key changes nothing. */
  lemma MergeNothing(t: Trip)
    ensures MergeTrip(t, NoTripChanges) == t
  {
  }

  /** The spread merge is idempotent: merging the same partial record twice is merging it once. */
  lemma MergeTwice(t: Trip, p: TripPatch, i: ItineraryItem, q: ItemPatch, k: PackingItem, r: PackingPatch,
                   m: PaymentMethod, s: MethodPatch)
    ensures MergeTrip(MergeTrip(t, p), p) == MergeTrip(t, p)
    ensures MergeItem(MergeItem(i, q), q) == MergeItem(i, q)
    ensures MergePacking(MergePacking(k, r), r) == MergePacking(k, r)
    ensures MergeMethod(MergeMethod(m, s), s) == MergeMethod(m, s)
  {
  }

  /** `{ packed: b }` changes the packed flag and nothing else. */
  lemma PackedPatchOnlyFlag(i: PackingItem, b: bool)
    ensures MergePacking(i, PackedPatch(b)) == i.(packed := b)
  {
  }

  /** `{ isDefault: b }` changes the default flag and nothing else. */
  lemma DefaultPatchOnlyFlag(m: PaymentMethod, b: bool)
    ensures MergeMethod(m, DefaultPatch(b)) == m.(isDefault := b)
  {
  }
}
