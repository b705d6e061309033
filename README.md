# TravelMate trip store and view logic, modelled in Dafny

TravelMate is a single-page travel planner. One context provider
(`src/context/TripContext.tsx`) holds the trips, the expenses and the saved
payment methods. Every change it makes replaces the whole list in memory
and writes the list to local storage under one of three keys. The views
(trip list, trip details, itinerary, packing list, trip form, budget
tracker, destination explorer, payment dialog, payment-method manager,
dashboard) read those lists, compute derived figures and call the store's
operations from their event handlers.

The model has these parts:

- `Types`: the entities (trip, itinerary item, packing item, expense,
  payment method, destination). It also has the partial-update records the
  handlers pass, each field `Keep` or `Put(v)`, standing for the object
  spread `{ ...x, ...updates }`.
- `StoreOps`: every store operation as a pure function on the lists.
- `TripContext`: the provider as a class. Its fields are the four state
  variables plus the storage map, and the ghost predicate
  `Synced()` means that reloading the storage gives back the lists in
  memory. Each operation commits whole lists, as the provider does. The
  first load reads storage or falls back to the seed data and writes the
  seed back.
- One module per view: `TripList`, `TripDetails`, `ItineraryManager`,
  `PackingList`, `TripForm`, `BudgetTracker`, `DestinationExplorer`,
  `PaymentModal`, `PaymentMethodManager`, `Dashboard`.
  - A view with local state is a class whose fields are that state.
  - It shares the provider object (`store`).
  - Its handlers are methods stated against the `StoreOps` functions.
  - Its derived figures are functions, or methods where the source folds
    with a loop-like `reduce`.
- `Seqs`, `Text`, `Sorting`, `TripStats`: sequence folds, ISO string order
  and trimming, insertion sort, and the budget/packing sums and percentages.

React state is a snapshot: a handler sees the lists as of the last render.
The model keeps that. A handler that calls two store operations in a row
computes both from the same snapshot, and the second commit overwrites the
first. Two of the findings below come from this. A view that received a
trip as a prop keeps that trip value (`const trip`), as the component does.

Amounts are `real`. Dates are ISO `YYYY-MM-DD` strings and times `HH:MM`
strings, compared lexicographically (`Text.LexLeq`). Form fields that hold an
amount are `Option<real>` and the card expiry fields are `Option<int>`; in
both, `None` is the empty field.

## Model

| member | source | states |
|---|---|---|
| Types.Apply | src/context/TripContext.tsx:148 | a kept field stays, a put field takes the new value |
| Types.MergeTrip | src/context/TripContext.tsx:148 | the merged trip has every field the update carries, and a trip update without an id keeps the id |
| Types.MergeTripNoOp | src/context/TripContext.tsx:148 | merging changes a trip exactly when some field the update carries differs from the trip |
| Types.MergeItem | src/context/TripContext.tsx:185 | the merged activity has every field the update carries, is unchanged exactly when no carried field differs, and keeps its id when the update has none |
| Types.MergePacking | src/context/TripContext.tsx:221 | the merged packing item has every field the update carries, is unchanged exactly when no carried field differs, and keeps its id when the update has none |
| Types.MergeMethod | src/context/TripContext.tsx:265 | the merged payment method has every field the update carries, is unchanged exactly when no carried field differs, and keeps its id when the update has none |
| Types.MergeNothing | src/context/TripContext.tsx:146-149 | an update with no fields leaves the trip unchanged |
| Types.MergeTwice | src/context/TripContext.tsx:148 | applying the same partial update twice equals applying it once, for trips, activities, packing items and payment methods |
| Types.PackedPatchOnlyFlag | src/components/Trips/PackingList.tsx:62 | the toggle's update changes only the packed flag |
| Types.DefaultPatchOnlyFlag | src/components/Payment/PaymentMethodManager.tsx:86 | the set-default update changes only the default flag |
| StoreOps.AddTrip | src/context/TripContext.tsx:134-141 | the new trip is appended with the given id and with empty itinerary and packing list; the other fields come from the data; the earlier trips are untouched |
| StoreOps.ModifyTrips | src/context/TripContext.tsx:147-149 | the trip with the id is transformed, every other trip is unchanged, the length is kept |
| StoreOps.UpdateTrip | src/context/TripContext.tsx:146-149 | the trips with the id are merged with the update, the rest kept, and a missing id changes nothing |
| StoreOps.DeleteTrip | src/context/TripContext.tsx:158-159 | exactly the trips without the id remain, in order and with their multiplicities; none with the id is left; a missing id changes nothing |
| StoreOps.UpdateItems | src/context/TripContext.tsx:184-186 | the activities with the id are merged, the others kept |
| StoreOps.DeleteItems | src/context/TripContext.tsx:197 | exactly the activities without the id remain, in order |
| StoreOps.AddItineraryItem | src/context/TripContext.tsx:168-174 | only the trip with the id gets the item, with the new id, at the end of its itinerary |
| StoreOps.UpdateItineraryItem | src/context/TripContext.tsx:179-189 | only the trip with the id has its activity merged |
| StoreOps.DeleteItineraryItem | src/context/TripContext.tsx:194-199 | only the trip with the id loses the activity |
| StoreOps.UpdatePackingItems | src/context/TripContext.tsx:220-222 | the packing items with the id are merged, the others kept |
| StoreOps.DeletePackingItems | src/context/TripContext.tsx:233 | exactly the packing items without the id remain, in order |
| StoreOps.AddPackingItem | src/context/TripContext.tsx:204-210 | only the trip with the id gets the item, with the new id, at the end of its packing list |
| StoreOps.UpdatePackingItem | src/context/TripContext.tsx:215-225 | only the trip with the id has its packing item merged |
| StoreOps.DeletePackingItem | src/context/TripContext.tsx:230-235 | only the trip with the id loses the packing item |
| StoreOps.AddExpense | src/context/TripContext.tsx:240-242 | the expense is appended with the new id, the earlier ones untouched |
| StoreOps.ChargeTrip | src/context/TripContext.tsx:246-251 | the trip the expense names has its spent raised by the amount, the rest unchanged; no matching trip changes nothing |
| StoreOps.AddPaymentMethod | src/context/TripContext.tsx:256-258 | the method is appended with the new id |
| StoreOps.UpdatePaymentMethod | src/context/TripContext.tsx:263-266 | the methods with the id are merged, the others kept |
| StoreOps.DeletePaymentMethod | src/context/TripContext.tsx:271-272 | exactly the methods without the id remain, in order |
| StoreOps.RefreshCurrent | src/context/TripContext.tsx:153-155 | the current trip is merged only when it is the updated trip |
| StoreOps.ForgetCurrent | src/context/TripContext.tsx:163-165 | the current trip is cleared exactly when it is the deleted trip |
| StoreOps.CurrentMirrorsList | src/context/TripContext.tsx:146-166 | a current trip taken from the list equals its updated entry after updateTrip, and deleteTrip clears it exactly when that entry leaves the list, otherwise it stays in the list |
| StoreOps.RefreshKeepsListed | src/context/TripContext.tsx:146-156 | a current trip that is an entry of the list is an entry of the updated list |
| StoreOps.ForgetKeepsListed | src/context/TripContext.tsx:158-166 | a current trip that is an entry of the list is cleared or an entry of the list after the delete |
| StoreOps.DeleteThenUpdate | src/context/TripContext.tsx:146-166 | updating a trip after deleting it changes nothing |
| StoreOps.MissingTripIsNoOp | src/context/TripContext.tsx:168-238 | all six activity and packing operations leave the trips unchanged when no trip has the id |
| StoreOps.AddThenPack | src/context/TripContext.tsx:204-228 | adding an item with a fresh id and then marking it packed appends it already packed |
| StoreOps.ChargeAll | src/context/TripContext.tsx:240-254 | after a run of expenses, each trip's spent is its old spent plus the sum of the expenses naming it, and nothing else about the trip changes |
| StoreOps.ChargeStep | src/context/TripContext.tsx:246-251 | one expense more adds its amount to the spent figure of the trips it names, and to no other |
| StoreOps.TwoExpensesExample | src/context/TripContext.tsx:246-251 | expenses of 500 and 1500 on a trip with nothing spent leave it at 2000 |
| TripContext.LoadTrips | src/context/TripContext.tsx:43-92 | saved trips are used when present, otherwise the seed trip |
| TripContext.LoadExpenses | src/context/TripContext.tsx:44-97 | saved expenses are used when present, otherwise none |
| TripContext.LoadMethods | src/context/TripContext.tsx:45-131 | saved methods are used when present, otherwise the three seed methods |
| TripContext.MountStorage | src/context/TripContext.tsx:42-132 | after the first load, trips and methods are stored; the loaded lists are unchanged; only those two keys were written |
| TripContext.RemountWritesNothing | src/context/TripContext.tsx:42-132 | loading a second time changes storage no further |
| TripContext.ReloadRoundTrip | src/context/TripContext.tsx:143 | writing a list under its key and loading it back gives the same list, for all three keys |
| TripContext.TripProvider.Mount | src/context/TripContext.tsx:37-132 | the state is what the first load produces, with no current trip, and it is Synced |
| TripContext.TripProvider.CommitTrips | src/context/TripContext.tsx:142-143 | the trips are replaced and written under their key; nothing else changes; Synced is kept |
| TripContext.TripProvider.CommitExpenses | src/context/TripContext.tsx:243-244 | the expenses are replaced and written under their key; nothing else changes; Synced is kept |
| TripContext.TripProvider.CommitPaymentMethods | src/context/TripContext.tsx:259-260 | the methods are replaced and written under their key; nothing else changes; Synced is kept |
| TripContext.TripProvider.SetCurrentTrip | src/context/TripContext.tsx:38 | only the current trip changes and nothing is written |
| TripContext.TripProvider.AddTrip | src/context/TripContext.tsx:134-144 | the trips become StoreOps.AddTrip of the old ones and are stored |
| TripContext.TripProvider.UpdateTrip | src/context/TripContext.tsx:146-156 | the trips become StoreOps.UpdateTrip and the current trip is refreshed; a current trip that was an entry of the list stays one |
| TripContext.TripProvider.DeleteTrip | src/context/TripContext.tsx:158-166 | the trips become StoreOps.DeleteTrip and a deleted current trip is cleared; a current trip that was an entry of the list stays one or is cleared |
| TripContext.TripProvider.AddItineraryItem | src/context/TripContext.tsx:168-177 | the trips become StoreOps.AddItineraryItem and are stored |
| TripContext.TripProvider.UpdateItineraryItem | src/context/TripContext.tsx:179-192 | the trips become StoreOps.UpdateItineraryItem and are stored |
| TripContext.TripProvider.DeleteItineraryItem | src/context/TripContext.tsx:194-202 | the trips become StoreOps.DeleteItineraryItem and are stored |
| TripContext.TripProvider.AddPackingItem | src/context/TripContext.tsx:204-213 | the trips become StoreOps.AddPackingItem and are stored |
| TripContext.TripProvider.UpdatePackingItem | src/context/TripContext.tsx:215-228 | the trips become StoreOps.UpdatePackingItem and are stored |
| TripContext.TripProvider.DeletePackingItem | src/context/TripContext.tsx:230-238 | the trips become StoreOps.DeletePackingItem and are stored |
| TripContext.TripProvider.AddExpense | src/context/TripContext.tsx:240-254 | the expense is appended, its trip is charged, and both lists are stored |
| TripContext.TripProvider.AddPaymentMethod | src/context/TripContext.tsx:256-261 | the methods become StoreOps.AddPaymentMethod and are stored |
| TripContext.TripProvider.UpdatePaymentMethod | src/context/TripContext.tsx:263-269 | the methods become StoreOps.UpdatePaymentMethod and are stored |
| TripContext.TripProvider.DeletePaymentMethod | src/context/TripContext.tsx:271-275 | the methods become StoreOps.DeletePaymentMethod and are stored |
| TripContext.SeedSpentIsNotExpenseSum | src/context/TripContext.tsx:51-97 | the seed trip has 104000 spent while the seed has no expenses, so spent is not the sum of the trip's expenses |
| TripContext.SeedHasOneDefault | src/context/TripContext.tsx:103-128 | exactly the first seed method is the default |
| TripStats.RemainingBudget | src/components/Budget/BudgetTracker.tsx:70-72 | remaining plus total spent is the total budget |
| TripStats.TotalBudget | src/components/Budget/BudgetTracker.tsx:70 | the summed budgets are not negative when no budget is (also src/components/Dashboard/Dashboard.tsx:15) |
| TripStats.TotalSpent | src/components/Budget/BudgetTracker.tsx:71 | the summed spent figures are not negative when no trip's is (also src/components/Dashboard/Dashboard.tsx:16) |
| TripStats.Percent | src/components/Trips/PackingList.tsx:79 | a share lies between 0 and 100, is 100 exactly when the part is the whole and 0 exactly when the part is 0 |
| TripStats.PackedCount | src/components/Trips/PackingList.tsx:78 | the packed count is at most the list length, is 0 exactly when nothing is packed and the length exactly when everything is |
| TripStats.PackedCountSnoc | src/components/Trips/TripDetails.tsx:230 | one more item adds one to the packed count exactly when it is packed |
| TripStats.SumCharge | src/context/TripContext.tsx:246-251 | charging adds the amount once for each trip with the id |
| TripStats.ChargeMovesTotals | src/context/TripContext.tsx:246-251 | an expense raises the total spent by the amount times the number of trips with the id, and leaves the total budget alone |
| TripStats.CountUnique | src/context/TripContext.tsx:137 | with distinct ids, an id names one trip or none |
| TripStats.ExpenseRaisesTotalSpent | src/context/TripContext.tsx:240-254 | with distinct ids, an expense for an existing trip raises the total spent by exactly its amount, and one for a missing trip leaves it |
| TripList.FilteredTrips | src/components/Trips/TripList.tsx:15-18 | the shown trips keep list order; "all" shows every trip; a status shows exactly the trips with that status |
| TripList.StatusFiltersPartition | src/components/Trips/TripList.tsx:15-18 | the three status filters together show every trip exactly once |
| TripList.EmptyMessage | src/components/Trips/TripList.tsx:117-119 | the "start planning" message is shown exactly for the "all" filter |
| TripList.TripList.constructor | src/components/Trips/TripList.tsx:10-13 | no form, nothing edited or viewed, the "all" filter |
| TripList.TripList.Shown | src/components/Trips/TripList.tsx:59-65 | the form takes precedence over the details and the details over the list, which shows the filtered trips |
| TripList.TripList.SetFilter | src/components/Trips/TripList.tsx:95 | only the filter changes |
| TripList.TripList.OpenNewTrip | src/components/Trips/TripList.tsx:76 | the form opens with the edited trip unchanged |
| TripList.TripList.HandleEditTrip | src/components/Trips/TripList.tsx:20-23 | the form opens on the trip |
| TripList.TripList.HandleViewTrip | src/components/Trips/TripList.tsx:25-28 | the trip becomes the current and the viewed trip; nothing is stored |
| TripList.TripList.HandleDeleteTrip | src/components/Trips/TripList.tsx:30-34 | a confirmed delete removes the trip and clears it as current; otherwise nothing changes |
| TripList.TripList.HandleCloseForm | src/components/Trips/TripList.tsx:36-39 | the form closes and forgets the edited trip |
| TripList.TripList.HandleCloseDetails | src/components/Trips/TripList.tsx:41-44 | nothing is viewed and there is no current trip |
| TripList.ViewThenClose | src/components/Trips/TripList.tsx:25-65 | viewing a trip shows its details, and closing them returns to the filtered list |
| TripDetails.QuickExpense | src/components/Trips/TripDetails.tsx:40-48 | the expense is for this trip, with the given amount, category and description, today's date and no payment method |
| TripDetails.PackedPercent | src/components/Trips/TripDetails.tsx:104 | the packed figure lies in 0..100; it is 0 exactly when nothing is packed and 100 exactly when the list is non-empty and fully packed |
| TripDetails.PackedPercentAgrees | src/components/Trips/TripDetails.tsx:104 | the details page shows the same packed percentage as the packing tab |
| TripDetails.OverBudget | src/components/Trips/TripDetails.tsx:126-130 | the over-budget line appears exactly when spent exceeds budget, and shows the positive excess |
| TripDetails.RecentActivities | src/components/Trips/TripDetails.tsx:195 | the first three activities in list order, or all of them when fewer |
| TripDetails.CountKeyAt | src/components/Trips/TripDetails.tsx:227-232 | the counting fold has an entry for a category exactly when some item has that category |
| TripDetails.CountValueAt | src/components/Trips/TripDetails.tsx:227-232 | the fold's entry for a category holds the number of its items, which is positive, and how many of them are packed |
| TripDetails.CategoryStats | src/components/Trips/TripDetails.tsx:227-232 | one entry per category present; its total is the number of its items and its packed count the number of those packed; totals are positive and at least the packed count |
| TripDetails.SumOfOnes | src/components/Trips/TripDetails.tsx:229 | counting one per item gives the list length |
| TripDetails.CategoryTotalsCoverList | src/components/Trips/TripDetails.tsx:227-232 | each category total is the size of that category, and the totals add up to the list length |
| TripDetails.TripDetails.constructor | src/components/Trips/TripDetails.tsx:13-14 | the page opens on the overview tab for the trip it was handed |
| TripDetails.TripDetails.SetActiveTab | src/components/Trips/TripDetails.tsx:140 | the chosen tab becomes active |
| TripDetails.TripDetails.QuickAddExpense | src/components/Trips/TripDetails.tsx:40-48 | the expense is stored and charged to this trip; with distinct ids and the trip present, the total spent grows by exactly the amount |
| TripDetails.TripDetails.AddMeal | src/components/Trips/TripDetails.tsx:164 | 50 under Meals, "Restaurant meal", is recorded and charged |
| TripDetails.TripDetails.AddTransport | src/components/Trips/TripDetails.tsx:172 | 30 under Transport, "Local transportation", is recorded and charged |
| ItineraryManager.EveryTypeOffered | src/components/Trips/ItineraryManager.tsx:24-30 | every activity type is offered, so the icon lookup never falls back |
| ItineraryManager.FormOf | src/components/Trips/ItineraryManager.tsx:46-56 | the cost field is empty exactly when the activity has no cost |
| ItineraryManager.ItemDraft | src/components/Trips/ItineraryManager.tsx:63-71 | reloading the new activity into the form gives back the form |
| ItineraryManager.EditTakesForm | src/components/Trips/ItineraryManager.tsx:63-74 | saving an edit keeps the id and takes exactly the form's fields, an empty cost removing the cost |
| ItineraryManager.UnchangedEditIsNoOp | src/components/Trips/ItineraryManager.tsx:46-74 | opening an activity and saving it unchanged leaves it as it was |
| ItineraryManager.ChronoLeqIsTotalPreorder | src/components/Trips/ItineraryManager.tsx:93-97 | the comparator is total and transitive |
| ItineraryManager.SameDayByTime | src/components/Trips/ItineraryManager.tsx:94-96 | within one day the order is the order of the times |
| ItineraryManager.EarlierDayFirst | src/components/Trips/ItineraryManager.tsx:94-96 | an earlier date comes strictly first, whatever the times |
| ItineraryManager.SortedItinerary | src/components/Trips/ItineraryManager.tsx:93-97 | a permutation of the itinerary, sorted by date and time, with no later day before an earlier one |
| ItineraryManager.SortedDay | src/components/Trips/ItineraryManager.tsx:93-103 | a sorted run of one day is in time order |
| ItineraryManager.DayGroupSorted | src/components/Trips/ItineraryManager.tsx:99-103 | a day's group taken from the sorted list is in time order |
| ItineraryManager.GroupedItinerary | src/components/Trips/ItineraryManager.tsx:99-103 | one group per date present, never empty, in time order, and each group is exactly the sorted itinerary filtered to that day, so order and multiplicity are kept |
| ItineraryManager.ItineraryManager.constructor | src/components/Trips/ItineraryManager.tsx:12-22 | form closed, nothing edited, empty form |
| ItineraryManager.ItineraryManager.ResetForm | src/components/Trips/ItineraryManager.tsx:32-44 | the empty form, nothing edited, the form closed |
| ItineraryManager.ItineraryManager.OpenForm | src/components/Trips/ItineraryManager.tsx:12 | only the form's visibility changes |
| ItineraryManager.ItineraryManager.SetForm | src/components/Trips/ItineraryManager.tsx:14-22 | the form takes the new field values |
| ItineraryManager.ItineraryManager.HandleEdit | src/components/Trips/ItineraryManager.tsx:46-58 | the activity is being edited and the form holds its fields |
| ItineraryManager.ItineraryManager.HandleSubmit | src/components/Trips/ItineraryManager.tsx:60-80 | an edit updates the activity in this trip, otherwise a new one is added; the form is then reset |
| ItineraryManager.ItineraryManager.HandleDelete | src/components/Trips/ItineraryManager.tsx:82-86 | a confirmed delete removes the activity; otherwise nothing changes |
| PackingList.ItemDraft | src/components/Trips/PackingList.tsx:45-50 | a new item takes the form's name, category and essential flag and starts unpacked |
| PackingList.EditUnpacks | src/components/Trips/PackingList.tsx:45-53 | saving an edit replaces name, category and essential and clears packed |
| PackingList.UnchangedEditOfUnpackedItem | src/components/Trips/PackingList.tsx:32-53 | an unpacked item opened and saved unchanged is unchanged |
| PackingList.GroupedItems | src/components/Trips/PackingList.tsx:71-75 | one group per category present, never empty, and each group is exactly the list filtered to that category, in list order with multiplicities |
| PackingList.GroupPackedAtMostTotal | src/components/Trips/PackingList.tsx:187-189 | a category's packed count is at most its size |
| PackingList.PackingProgress | src/components/Trips/PackingList.tsx:77-79 | progress lies in 0..100; an empty list shows 0; a non-empty list shows 100 exactly when all are packed and 0 exactly when none is |
| PackingList.StaleToggleTwice | src/components/Trips/PackingList.tsx:61-63 | two clicks with the stale trip prop both set the same flag, so the second click does not undo the first |
| PackingList.UpdateItemsTwice | src/context/TripContext.tsx:220-222 | the same packing update applied twice equals applying it once |
| PackingList.LiveToggleTwiceRestores | src/components/Trips/PackingList.tsx:61-63 | toggling the live item twice restores the trips, given distinct item ids in the trip |
| PackingList.LiveToggle | src/components/Trips/PackingList.tsx:61-63 | corrected toggle: only the trips with the id change, and only in their packing lists, whose length is kept; an item that is not in the list changes nothing |
| PackingList.LocateLive | src/components/Trips/PackingList.tsx:61-63 | a live item sits at some trip and position with the ids asked for |
| PackingList.ToggleBack | src/components/Trips/PackingList.tsx:61-63 | setting an item's flag to its negation and back restores the trips |
| PackingList.LiveAfterToggle | src/components/Trips/PackingList.tsx:61-63 | after the toggle the live item has the new flag |
| PackingList.RestoreItems | src/context/TripContext.tsx:220-222 | in a list with distinct ids, flipping an item's flag and flipping it back restores the list |
| PackingList.PackingList.constructor | src/components/Trips/PackingList.tsx:12-18 | form closed, nothing edited, empty form |
| PackingList.PackingList.ResetForm | src/components/Trips/PackingList.tsx:22-30 | the empty form, nothing edited, the form closed |
| PackingList.PackingList.OpenForm | src/components/Trips/PackingList.tsx:12 | only the form's visibility changes |
| PackingList.PackingList.SetForm | src/components/Trips/PackingList.tsx:14-18 | the form takes the new field values |
| PackingList.PackingList.HandleEdit | src/components/Trips/PackingList.tsx:32-40 | the item is being edited and the form holds its fields |
| PackingList.PackingList.HandleSubmit | src/components/Trips/PackingList.tsx:42-59 | an edit updates the item in this trip, otherwise a new one is added; the form is then reset |
| PackingList.PackingList.HandleTogglePacked | src/components/Trips/PackingList.tsx:61-63 | as written: the item named by the trip prop gets the negation of the flag that prop recorded |
| PackingList.PackingList.HandleTogglePackedLive | src/components/Trips/PackingList.tsx:61-63 | corrected: the item as currently stored has its flag negated |
| PackingList.PackingList.HandleDelete | src/components/Trips/PackingList.tsx:65-69 | a confirmed delete removes the item; otherwise nothing changes |
| TripForm.InitialForm | src/components/Trips/TripForm.tsx:34-52 | a new trip gets an empty form, status upcoming and one of the sample images; an edited trip fills the form from the trip |
| TripForm.Errors | src/components/Trips/TripForm.tsx:54-81 | errors are only ever recorded against the five validated fields; the budget has one exactly when it is missing or not positive |
| TripForm.ErrorRules | src/components/Trips/TripForm.tsx:54-81 | each validated field has an error exactly when its check fails: blank title or destination, missing start date, missing end date or an end not after the start, missing or non-positive budget |
| TripForm.ErrorMessages | src/components/Trips/TripForm.tsx:57-78 | each recorded error carries the source's message, the end date's depending on which of its checks failed |
| TripForm.ValidExactly | src/components/Trips/TripForm.tsx:54-81 | the form is valid exactly when title and destination are non-blank, both dates given with the end after the start, and the budget positive |
| TripForm.TripData | src/components/Trips/TripForm.tsx:88-99 | the saved trip has trimmed title and destination and the form's dates, budget, image and status; an edit keeps spent, itinerary and packing list, a new trip starts with none |
| TripForm.TripPatchOf | src/components/Trips/TripForm.tsx:101-102 | the update keeps the id and payment method and sets every other field |
| TripForm.UnchangedEditIsNoOp | src/components/Trips/TripForm.tsx:34-102 | an already trimmed trip opened and saved unchanged leaves the trips as they were |
| TripForm.ChangeTouchesOneField | src/components/Trips/TripForm.tsx:110-112 | an input change sets its own field and no other |
| TripForm.ClearError | src/components/Trips/TripForm.tsx:113-115 | the changed field's error is blanked and the others are kept |
| TripForm.TripForm.constructor | src/components/Trips/TripForm.tsx:13-52 | the form is the initial form, with no errors |
| TripForm.TripForm.HandleInputChange | src/components/Trips/TripForm.tsx:110-116 | the field changes and its error is blanked |
| TripForm.TripForm.ValidateForm | src/components/Trips/TripForm.tsx:54-81 | the errors are recomputed and the result is whether there are none |
| TripForm.TripForm.HandleSubmit | src/components/Trips/TripForm.tsx:83-108 | an invalid form changes nothing but the errors; a valid one updates the edited trip or adds a new one, and the form closes |
| BudgetTracker.SubmitRoute | src/components/Budget/BudgetTracker.tsx:33-53 | no trip selected gives the alert; above 1000 the payment dialog; otherwise a direct expense |
| BudgetTracker.ExpenseOf | src/components/Budget/BudgetTracker.tsx:45-51 | the expense takes the trip, amount, the form's category, description and date, and the payment method if any |
| BudgetTracker.PaymentRequest | src/components/Budget/BudgetTracker.tsx:395-396 | the dialog charges the amount, or 0 when empty, under the description, or "Travel expense" when empty |
| BudgetTracker.BudgetTracker.constructor | src/components/Budget/BudgetTracker.tsx:8-16 | no form, no dialog, no trip, a fresh form dated today |
| BudgetTracker.BudgetTracker.ResetForm | src/components/Budget/BudgetTracker.tsx:20-28 | a fresh form dated today, and the form closed |
| BudgetTracker.BudgetTracker.SelectTrip | src/components/Budget/BudgetTracker.tsx:10 | only the selected trip changes |
| BudgetTracker.BudgetTracker.SetForm | src/components/Budget/BudgetTracker.tsx:11-16 | only the form changes |
| BudgetTracker.BudgetTracker.HandleSubmit | src/components/Budget/BudgetTracker.tsx:30-54 | the alert exactly when no trip is selected; above 1000 the dialog opens and nothing is stored; otherwise the expense is stored without payment method, charged, and the form reset |
| BudgetTracker.BudgetTracker.HandlePaymentSuccess | src/components/Budget/BudgetTracker.tsx:56-67 | the expense is stored with the payment method and charged; the form is reset and the dialog closed |
| BudgetTracker.BudgetTracker.ClosePaymentModal | src/components/Budget/BudgetTracker.tsx:394 | only the dialog closes |
| BudgetTracker.DirectExpensesAreSmall | src/components/Budget/BudgetTracker.tsx:40-45 | an expense recorded directly is at most 1000 and has a trip |
| BudgetTracker.ExpensesByCategory | src/components/Budget/BudgetTracker.tsx:75-78 | one total per category present, equal to the sum of that category's amounts |
| BudgetTracker.CategoryTotalsAddUp | src/components/Budget/BudgetTracker.tsx:75-78 | the category totals add up to the sum of all expenses |
| BudgetTracker.NewestFirstIsTotalPreorder | src/components/Budget/BudgetTracker.tsx:82 | the newest-first comparison is total and transitive |
| BudgetTracker.RecentExpensesInPlace | src/components/Budget/BudgetTracker.tsx:81-83 | as written: the stored expense list itself is reordered newest first, storage is not rewritten, and the first ten are shown |
| BudgetTracker.InPlaceSortDesyncs | src/components/Budget/BudgetTracker.tsx:81-83 | after that reorder, memory and storage disagree for two expenses stored oldest first |
| BudgetTracker.RecentExpenses | src/components/Budget/BudgetTracker.tsx:81-83 | corrected: up to ten expenses, newest first, drawn from the list, all of them when there are at most ten, and every expense left out is no newer than every one kept |
| BudgetTracker.ProgressBands | src/components/Budget/BudgetTracker.tsx:85-90 | with a positive budget: red exactly above 100 %, orange exactly above 80 % up to 100 %, blue otherwise |
| BudgetTracker.GetProgressColor | src/components/Budget/BudgetTracker.tsx:85-90 | red exactly when spent over budget exceeds 1, orange exactly when it lies in (0.8, 1], blue otherwise; with a zero budget, red exactly when anything is spent and never orange |
| BudgetTracker.ProgressZeroBudget | src/components/Budget/BudgetTracker.tsx:85-90 | with a zero budget: red exactly when something is spent, never orange |
| DestinationExplorer.FilteredDestinations | src/components/Destinations/DestinationExplorer.tsx:20-43 | the shown destinations keep catalog order and are exactly those matching the search, tags and price range |
| DestinationExplorer.MatchesSearch | src/components/Destinations/DestinationExplorer.tsx:21-22 | an empty search matches every destination, and a match needs the term to fit in the name or the country |
| DestinationExplorer.MatchesTags | src/components/Destinations/DestinationExplorer.tsx:24-25 | with no tag selected every destination passes; otherwise it passes exactly when it carries a selected tag |
| DestinationExplorer.MatchesPrice | src/components/Destinations/DestinationExplorer.tsx:27-40 | all prices pass everything; a band passes exactly the destinations whose card label names that band |
| DestinationExplorer.GetPriceLabel | src/components/Destinations/DestinationExplorer.tsx:82-86 | budget exactly below 8000 a day, mid-range exactly from 8000 to below 15000, luxury exactly from 15000 on |
| DestinationExplorer.EmptySearchMatchesAll | src/components/Destinations/DestinationExplorer.tsx:21-22 | an empty search matches every destination |
| DestinationExplorer.SearchIgnoresCase | src/components/Destinations/DestinationExplorer.tsx:21-22 | lower-casing the search term does not change what matches |
| DestinationExplorer.NoFilterShowsCatalog | src/components/Destinations/DestinationExplorer.tsx:20-43 | with no search, no tags and every price, the whole catalog is shown |
| DestinationExplorer.BandsPartition | src/components/Destinations/DestinationExplorer.tsx:27-40 | each destination falls in exactly one price band |
| DestinationExplorer.LabelText | src/components/Destinations/DestinationExplorer.tsx:82-86 | the label is one of Budget, Mid-range and Luxury |
| DestinationExplorer.LabelAgreesWithFilter | src/components/Destinations/DestinationExplorer.tsx:27-40 | a destination's label names exactly the price band the filter puts it in |
| DestinationExplorer.ToggleTag | src/components/Destinations/DestinationExplorer.tsx:45-51 | a selected tag is removed with the others kept; an unselected one is appended |
| DestinationExplorer.ToggleTwice | src/components/Destinations/DestinationExplorer.tsx:45-51 | toggling an unselected tag twice restores the selection |
| DestinationExplorer.ToggleFlips | src/components/Destinations/DestinationExplorer.tsx:45-51 | a toggle flips whether the tag is selected |
| DestinationExplorer.AllTags | src/components/Destinations/DestinationExplorer.tsx:18 | every tag of the catalog, once each |
| DestinationExplorer.BookingTrip | src/components/Destinations/DestinationExplorer.tsx:58-75 | the booked trip's title, destination, dates 30 and 37 days ahead, nothing spent, upcoming, the image and payment method |
| DestinationExplorer.BookingBudgetIsCharge | src/components/Destinations/DestinationExplorer.tsx:70 | the booked trip's budget equals the amount the dialog charged |
| DestinationExplorer.BookingAmount | src/components/Destinations/DestinationExplorer.tsx:358 | seven days at the destination's daily cost, and 0 when nothing is being booked |
| DestinationExplorer.DestinationExplorer.constructor | src/components/Destinations/DestinationExplorer.tsx:9-14 | no search, no tags, every price, nothing selected or booked |
| DestinationExplorer.DestinationExplorer.Shown | src/components/Destinations/DestinationExplorer.tsx:172 | the cards shown are a subsequence of the catalog holding exactly the destinations that pass the current search, tags and price band; the whole catalog with no filter set |
| DestinationExplorer.DestinationExplorer.SetSearchTerm | src/components/Destinations/DestinationExplorer.tsx:9 | only the search term changes |
| DestinationExplorer.DestinationExplorer.SetPriceRange | src/components/Destinations/DestinationExplorer.tsx:11 | only the price range changes |
| DestinationExplorer.DestinationExplorer.HandleToggleTag | src/components/Destinations/DestinationExplorer.tsx:45-51 | the selection becomes the toggled selection |
| DestinationExplorer.DestinationExplorer.SetSelectedDestination | src/components/Destinations/DestinationExplorer.tsx:241 | only the destination in the details view changes |
| DestinationExplorer.DestinationExplorer.HandleBookTrip | src/components/Destinations/DestinationExplorer.tsx:53-56 | the destination is being booked and the dialog is open |
| DestinationExplorer.DestinationExplorer.BookFromDetails | src/components/Destinations/DestinationExplorer.tsx:335-337 | the destination in the details view is booked and the details close |
| DestinationExplorer.DestinationExplorer.HandlePaymentSuccess | src/components/Destinations/DestinationExplorer.tsx:58-80 | with a booking pending, its trip is added and reported; without one nothing changes |
| DestinationExplorer.DestinationExplorer.ClosePaymentModal | src/components/Destinations/DestinationExplorer.tsx:354-357 | the dialog closes and nothing is being booked |
| PaymentModal.DefaultMethod | src/components/Payment/PaymentModal.tsx:21 | a default method of the list, and none exactly when no method is default |
| PaymentModal.DefaultId | src/components/Payment/PaymentModal.tsx:87 | a non-empty id is the id of a default method |
| PaymentModal.FindMethod | src/components/Payment/PaymentModal.tsx:51 | a method with the id, and none exactly when no method has it |
| PaymentModal.PaymentModal.constructor | src/components/Payment/PaymentModal.tsx:16-19 | nothing selected, idle, no message |
| PaymentModal.PaymentModal.SyncDefaultSelection | src/components/Payment/PaymentModal.tsx:23-27 | an empty selection takes the default method's id |
| PaymentModal.PaymentModal.Select | src/components/Payment/PaymentModal.tsx:16 | only the selection changes |
| PaymentModal.PaymentModal.CanPay | src/components/Payment/PaymentModal.tsx:214 | the pay button is enabled only with a selection, a stored method and no payment in flight, and never while processing |
| PaymentModal.PaymentModal.HandlePayment | src/components/Payment/PaymentModal.tsx:45-62 | no selection or an unknown id sets the matching message and starts nothing; otherwise processing starts for the found method |
| PaymentModal.PaymentModal.ResolvePayment | src/components/Payment/PaymentModal.tsx:62-80 | success schedules the completion; failure shows the failure message; processing ends either way |
| PaymentModal.PaymentModal.ResetModal | src/components/Payment/PaymentModal.tsx:83-88 | idle, no message, not processing, the default method selected |
| PaymentModal.PaymentModal.FinishSuccess | src/components/Payment/PaymentModal.tsx:66-70 | after a success, the paid method is handed on and the dialog resets |
| PaymentModal.PaymentModal.HandleClose | src/components/Payment/PaymentModal.tsx:90-95 | the dialog closes and resets exactly when no payment is processing |
| PaymentModal.PaymentModal.TryAgain | src/components/Payment/PaymentModal.tsx:72-73 | after a failure the dialog goes back to idle |
| PaymentModal.ResetSelectsDefault | src/components/Payment/PaymentModal.tsx:21-87 | a reset selects the first default method |
| PaymentModal.NoDefaultSelectsNothing | src/components/Payment/PaymentModal.tsx:87 | with no default method a reset selects nothing |
| PaymentMethodManager.LabelInFinds | src/components/Payment/PaymentMethodManager.tsx:98-101 | the label of the first table entry for the type, or "Unknown" |
| PaymentMethodManager.PaymentTypeLabels | src/components/Payment/PaymentMethodManager.tsx:19-25 | each type has the label its table entry lists |
| PaymentMethodManager.PaymentTypeLabelsDistinct | src/components/Payment/PaymentMethodManager.tsx:19-25 | no two types share a label |
| PaymentMethodManager.FormOf | src/components/Payment/PaymentMethodManager.tsx:40-51 | the form holds the method's fields, the card digits empty when absent |
| PaymentMethodManager.CardFieldsOnlyForCards | src/components/Payment/PaymentMethodManager.tsx:56-65 | saved data has card digits and expiry exactly for credit and debit cards |
| PaymentMethodManager.EditSaveRoundTrip | src/components/Payment/PaymentMethodManager.tsx:40-65 | a method opened and saved unchanged is unchanged, provided a card has its digits |
| PaymentMethodManager.NonCardEditKeepsCardDetails | src/components/Payment/PaymentMethodManager.tsx:56-68 | changing a card into a non-card type keeps its old card details |
| PaymentMethodManager.SetDefaultAsWritten | src/components/Payment/PaymentMethodManager.tsx:82-91 | as written: only the last update lands, so the chosen method becomes default and no default is cleared |
| PaymentMethodManager.OldDefaultSurvives | src/components/Payment/PaymentMethodManager.tsx:82-91 | as written, the old default stays default next to the new one |
| PaymentMethodManager.SeedSetDefaultExample | src/components/Payment/PaymentMethodManager.tsx:82-91 | on the seed methods, choosing the second leaves the first and second both default |
| PaymentMethodManager.DefaultBoxKeepsOldDefault | src/components/Payment/PaymentMethodManager.tsx:53-74 | adding a method with the default box ticked leaves two defaults |
| PaymentMethodManager.SoleDefault | src/components/Payment/PaymentMethodManager.tsx:82-91 | corrected: each method is default exactly when it has the chosen id, nothing else changes |
| PaymentMethodManager.SoleDefaultIsUnique | src/components/Payment/PaymentMethodManager.tsx:82-91 | with distinct ids, exactly the chosen method is default |
| PaymentMethodManager.ClearStep | src/components/Payment/PaymentMethodManager.tsx:84-88 | clearing one more default keeps the earlier ones cleared and changes nothing else |
| PaymentMethodManager.ClearedThenChosen | src/components/Payment/PaymentMethodManager.tsx:84-90 | once all defaults are cleared, marking the chosen method gives the sole-default list |
| PaymentMethodManager.PaymentMethodManager.constructor | src/components/Payment/PaymentMethodManager.tsx:8-17 | form closed, nothing edited, empty form |
| PaymentMethodManager.PaymentMethodManager.ResetForm | src/components/Payment/PaymentMethodManager.tsx:27-38 | the empty form, nothing edited, the form closed |
| PaymentMethodManager.PaymentMethodManager.HandleEdit | src/components/Payment/PaymentMethodManager.tsx:40-51 | the method is being edited and the form holds its fields |
| PaymentMethodManager.PaymentMethodManager.SetForm | src/components/Payment/PaymentMethodManager.tsx:10-17 | only the form changes |
| PaymentMethodManager.PaymentMethodManager.HandleSubmit | src/components/Payment/PaymentMethodManager.tsx:53-74 | an edit updates the method, otherwise a new one is added; the form is then reset |
| PaymentMethodManager.PaymentMethodManager.HandleDelete | src/components/Payment/PaymentMethodManager.tsx:76-80 | a confirmed delete removes the method; otherwise nothing changes |
| PaymentMethodManager.PaymentMethodManager.HandleSetDefault | src/components/Payment/PaymentMethodManager.tsx:82-91 | as written: the stored methods end up as SetDefaultAsWritten of the snapshot |
| PaymentMethodManager.PaymentMethodManager.HandleSetDefaultInSequence | src/components/Payment/PaymentMethodManager.tsx:82-91 | corrected: each update applies to the previous result, and exactly the chosen method ends up default |
| Dashboard.UpcomingTrips | src/components/Dashboard/Dashboard.tsx:14 | the upcoming trips in list order, exactly those with status upcoming |
| Dashboard.UpcomingAgreesWithTripList | src/components/Dashboard/Dashboard.tsx:14 | the dashboard shows the same upcoming trips as the trip list's upcoming filter |
| Dashboard.ShownUpcoming | src/components/Dashboard/Dashboard.tsx:98-112 | at most the first three upcoming trips, none exactly when no trip is upcoming |
| Dashboard.TripPacking | src/components/Dashboard/Dashboard.tsx:18-20 | one trip's packing share lies in 0..100 |
| Dashboard.AveragePacking | src/components/Dashboard/Dashboard.tsx:17-21 | the mean lies in 0..100; no trips give 0; all fully packed give 100; all unpacked give 0 |
| Dashboard.MeanOfTrips | src/components/Dashboard/Dashboard.tsx:17-21 | the mean over a non-empty list has the same bounds |
| Dashboard.TotalWithin | src/components/Dashboard/Dashboard.tsx:17-20 | the summed shares lie in 0..100 n, at the ends when every trip is |
| Dashboard.MeanWithin | src/components/Dashboard/Dashboard.tsx:21 | dividing such a total by n lands in 0..100 |
| Dashboard.NextTrip | src/components/Dashboard/Dashboard.tsx:47-50 | the first upcoming trip of the list; none exactly when no trip is upcoming |
| Dashboard.FirstUpcoming | src/components/Dashboard/Dashboard.tsx:47-50 | the head of the upcoming list is the first upcoming trip of the list |
| Dashboard.NextTripCard | src/components/Dashboard/Dashboard.tsx:45-51 | the day count and destination of the next trip, or 0 and "No upcoming trips" |
| Text.ToLower | src/components/Destinations/DestinationExplorer.tsx:21-22 | the lower-cased string has the same length, with each character lower-cased on its own |
| Text.Trim | src/components/Trips/TripForm.tsx:57-62 | the trimmed string neither starts nor ends with white space |
| Text.TrimCutsOnlySpace | src/components/Trips/TripForm.tsx:89-90 | the trimmed string is a slice of the input with only white space cut off before and after it |

## Left out

- Local storage holds JSON text. The model stores the lists themselves, so parsing, malformed JSON and quota errors are not modelled.
- Ids come from `Date.now()`. Each operation takes the new id as a parameter. Whether ids are unique is stated as a hypothesis where a lemma needs it (distinct trip ids, distinct item ids).
- Today's date and the day count to the next trip come from the clock. They are parameters (`today`, `isoDate`, `daysUntil`).
- processPayment (src/context/TripContext.tsx:277-286) is not modelled as a function. Its outcome is the unconstrained `success` argument of PaymentModal.PaymentModal.ResolvePayment. The two-second delay and the 95 % success rate are left out.
- PaymentModal.PaymentModal: the two-second success timer is a separate step, `FinishSuccess`. A thrown promise rejection, the catch branch, cannot happen with this store and is not modelled.
- `window.confirm` is a boolean parameter (`confirmed`), and `alert` is a returned flag or message.
- TripForm: the random pick of a sample image is a parameter (`pick`).
- Parsing numbers, `parseFloat`, `toString` and NaN are left out. A numeric form field is a number or empty.
- PaymentMethodManager: the expiry month and year are read with `parseInt` (src/components/Payment/PaymentMethodManager.tsx:62-63). `parseInt` accepts text after the digits ("12abc" reads as 12) and drops a fraction. The model takes the month and year as integers already read, so that leniency is not modelled.
- BudgetTracker.BudgetTracker.HandleSubmit requires a non-empty amount because the amount input is marked required (src/components/Budget/BudgetTracker.tsx:181-189). The NaN path of an empty amount is therefore not modelled. The same holds for HandlePaymentSuccess.
- Amounts are exact reals. Floating-point rounding, `Math.round` of the displayed percentages and `toLocaleString` formatting are left out.
- Dates and times compare as ISO strings. This agrees with `new Date(...)` for well-formed `YYYY-MM-DD` and `HH:MM` values. Invalid dates are not modelled.
- ItineraryManager.SortedItinerary and BudgetTracker.RecentExpenses use an insertion sort. They are proved sorted and a permutation of the input, but not stable. `Array.prototype.sort` is stable, so the order of equal keys is not modelled.
- The grouped maps (activities by day, packing items and expenses by category) are Dafny maps. The insertion order of object keys, which fixes the render order, is not modelled.
- Case-insensitive search lower-cases only ASCII letters. Trimming (`Text.IsSpace`) removes the space, tab, line feed, carriage return, form feed, vertical tab and U+00A0. It keeps the other characters that JavaScript `trim` removes: U+1680, U+2000 to U+200A, U+2028, U+2029, U+202F, U+205F, U+3000 and U+FEFF.
- The destination catalog (src/data/destinations.ts) is a parameter, not the fixed data.
- The trip prop that the trip list hands to the details page also goes stale for display. The model keeps the captured value (`const trip`) but does not model rendering.
- `currentTrip` is set and cleared as the source does, but no view in the model reads it.
- The JSX rendering, icons, colours of the status badges, the header, the navigation in src/App.tsx and src/components/Layout/Header.tsx, and the auth context are not part of this model.

## Findings

| source | as written | input that shows it | evidently intended | confidence | as-written member | corrected member |
|---|---|---|---|---|---|---|
| src/components/Payment/PaymentMethodManager.tsx:82-91 | each call to updatePaymentMethod maps over the list the handler closed over, and the last call ({ isDefault: true } for the chosen id) replaces the stored list | the seed methods, where method "1" is default, and a click on "Set Default" for method "2": both "1" and "2" end up default | only the chosen method is default | not executed | PaymentMethodManager.PaymentMethodManager.HandleSetDefault, PaymentMethodManager.SetDefaultAsWritten, PaymentMethodManager.OldDefaultSurvives, PaymentMethodManager.SeedSetDefaultExample | PaymentMethodManager.PaymentMethodManager.HandleSetDefaultInSequence, PaymentMethodManager.SoleDefault, PaymentMethodManager.SoleDefaultIsUnique |
| src/components/Budget/BudgetTracker.tsx:81-83 | `sort` reorders the store's expense array itself during render, and local storage is not rewritten | two expenses stored oldest first: after a render the list in memory is newest first, while storage still holds oldest first | a sorted copy for display, with the stored list left alone | not executed | BudgetTracker.RecentExpensesInPlace, BudgetTracker.InPlaceSortDesyncs | BudgetTracker.RecentExpenses |
| src/components/Trips/PackingList.tsx:61-63 | the toggle negates the flag of the item in the trip prop, which the trip list captured when the trip was opened (src/components/Trips/TripList.tsx:63-64, src/components/Trips/TripDetails.tsx:258) and which does not follow the store | an unpacked item clicked twice: both clicks store packed, so the second click does not unpack it | each click flips the stored flag | not executed | PackingList.PackingList.HandleTogglePacked, PackingList.StaleToggleTwice | PackingList.PackingList.HandleTogglePackedLive, PackingList.LiveToggleTwiceRestores |
