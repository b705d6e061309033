/**
 * The payment-method manager (src/components/Payment/PaymentMethodManager.tsx):
 * the add/edit form, the record it builds, the delete confirmation and the
 * "set default" action.
 */
module PaymentMethodManager {
  import opened Types
  import StoreOps
  import TripContext

  /** The form's state.  The card number digits and expiry fields hold what was typed; None is an empty field. */
  datatype MethodForm = MethodForm(
    kind: PaymentType,
    name: string,
    last4: string,
    expiryMonth: Option<int>,
    expiryYear: Option<int>,
    isDefault: bool)

  const EmptyForm := MethodForm(CreditCard, "", "", None, None, false)

  /** The label table of the form, in its order. */
  const PaymentTypes: seq<(PaymentType, string)> := [
    (CreditCard, "Credit Card"),
    (DebitCard, "Debit Card"),
    (Upi, "UPI"),
    (NetBanking, "Net Banking"),
    (Wallet, "Digital Wallet")
  ]

  /** `paymentTypes.find(t => t.value === type)?.label`, or 'Unknown'. */
  function LabelIn(table: seq<(PaymentType, string)>, kind: PaymentType): string
  {
    if table == [] then "Unknown"
    else if table[0].0 == kind then table[0].1
    else LabelIn(table[1..], kind)
  }

  /** The lookup answers with the label of the first entry for the type, or "Unknown" when there is none. */
  lemma {:induction false} LabelInFinds(table: seq<(PaymentType, string)>, kind: PaymentType)
    ensures (exists i :: 0 <= i < |table| && table[i].0 == kind) ==>
            exists i :: 0 <= i < |table| && table[i] == (kind, LabelIn(table, kind)) &&
                        forall j :: 0 <= j < i ==> table[j].0 != kind
    ensures (forall i :: 0 <= i < |table| ==> table[i].0 != kind) ==> LabelIn(table, kind) == "Unknown"
  {
    if table != [] && table[0].0 != kind {
      var rest := table[1..];
      LabelInFinds(rest, kind);
      assert forall i :: 1 <= i < |table| ==> table[i] == rest[i - 1];
      if exists i :: 0 <= i < |table| && table[i].0 == kind {
        var i :| 0 <= i < |table| && table[i].0 == kind;
        assert rest[i - 1].0 == kind;
        var n :| 0 <= n < |rest| && rest[n] == (kind, LabelIn(rest, kind)) &&
                 forall j :: 0 <= j < n ==> rest[j].0 != kind;
        assert table[n + 1] == (kind, LabelIn(table, kind));
      }
    }
  }

  function PaymentTypeLabel(kind: PaymentType): string
  {
    LabelIn(PaymentTypes, kind)
  }

  /** Every type has its configured label. */
  lemma PaymentTypeLabels()
    ensures PaymentTypeLabel(CreditCard) == "Credit Card"
    ensures PaymentTypeLabel(DebitCard) == "Debit Card"
    ensures PaymentTypeLabel(Upi) == "UPI"
    ensures PaymentTypeLabel(NetBanking) == "Net Banking"
    ensures PaymentTypeLabel(Wallet) == "Digital Wallet"
  {
    var t := PaymentTypes;
    assert t[0..] == t;
    LabelScan(t, 0);
    LabelScan(t, 1);
    LabelScan(t, 2);
    LabelScan(t, 3);
    LabelScan(t, 4);
  }

  /** One step of the lookup: the entry at k answers for its own type, and passes every other type on. */
  lemma LabelScan(table: seq<(PaymentType, string)>, k: nat)
    requires k < |table|
    ensures forall kind :: LabelIn(table[k..], kind) ==
                           if table[k].0 == kind then table[k].1 else LabelIn(table[k + 1..], kind)
  {
    assert table[k..][1..] == table[k + 1..];
  }

  /** No two types share a label, so the label shown identifies the type. */
  lemma PaymentTypeLabelsDistinct()
    ensures forall a, b :: a != b ==> PaymentTypeLabel(a) != PaymentTypeLabel(b)
  {
    PaymentTypeLabels();
    forall a, b | a != b ensures PaymentTypeLabel(a) != PaymentTypeLabel(b) {
      var la, lb := PaymentTypeLabel(a), PaymentTypeLabel(b);
      assert |la| != |lb| || la[0] != lb[0];
    }
  }

  /** Only card types ask for card number digits and expiry. */
  predicate RequiresCardDetails(kind: PaymentType)
  {
    kind == CreditCard || kind == DebitCard
  }

  /** handleEdit's form: absent card details become empty fields. */
  function FormOf(m: PaymentMethod): (f: MethodForm)
    ensures f.kind == m.kind && f.name == m.name && f.isDefault == m.isDefault
    ensures f.last4 == (if m.last4.Some? then m.last4.value else "")
    ensures f.expiryMonth == m.expiryMonth && f.expiryYear == m.expiryYear
  {
    MethodForm(m.kind, m.name, if m.last4.Some? then m.last4.value else "", m.expiryMonth, m.expiryYear, m.isDefault)
  }

  /**
   * methodData as a partial record: type, name and isDefault always; the
   * card fields only for a card type.
   */
  function MethodPatchOf(f: MethodForm): (p: MethodPatch)
  {
    if RequiresCardDetails(f.kind) then
      MethodPatch(Keep, Put(f.kind), Put(f.name), Put(Some(f.last4)), Put(f.expiryMonth), Put(f.expiryYear), Put(f.isDefault))
    else
      MethodPatch(Keep, Put(f.kind), Put(f.name), Keep, Keep, Keep, Put(f.isDefault))
  }

  /** methodData as the record addPaymentMethod completes with its id. */
  function MethodDraft(f: MethodForm): (m: PaymentMethod)
  {
    if RequiresCardDetails(f.kind) then
      PaymentMethod("", f.kind, f.name, Some(f.last4), f.expiryMonth, f.expiryYear, f.isDefault)
    else
      PaymentMethod("", f.kind, f.name, None, None, None, f.isDefault)
  }

  /**
   * methodData carries the card fields exactly for the two card types, both
   * as a new record and as an update; the rest of the form is always carried.
   */
  lemma CardFieldsOnlyForCards(f: MethodForm)
    ensures MethodDraft(f).last4.Some? <==> RequiresCardDetails(f.kind)
    ensures !RequiresCardDetails(f.kind) ==>
            MethodDraft(f).expiryMonth.None? && MethodDraft(f).expiryYear.None?
    ensures RequiresCardDetails(f.kind) ==>
            MethodDraft(f).expiryMonth == f.expiryMonth && MethodDraft(f).expiryYear == f.expiryYear
    ensures var p := MethodPatchOf(f);
            (p.last4.Put? <==> RequiresCardDetails(f.kind)) &&
            (p.expiryMonth.Put? <==> RequiresCardDetails(f.kind)) &&
            (p.expiryYear.Put? <==> RequiresCardDetails(f.kind)) &&
            p.id.Keep? && p.kind == Put(f.kind) && p.name == Put(f.name) && p.isDefault == Put(f.isDefault)
    ensures RequiresCardDetails(CreditCard) && RequiresCardDetails(DebitCard)
    ensures !RequiresCardDetails(Upi) && !RequiresCardDetails(NetBanking) && !RequiresCardDetails(Wallet)
  {
  }

  /**
   * Editing a method and saving the unchanged form gives back the same
   * method, provided a card method has its card digits recorded (an absent
   * value comes back as the empty string).
   */
  lemma EditSaveRoundTrip(m: PaymentMethod)
    requires RequiresCardDetails(m.kind) ==> m.last4.Some?
    ensures MergeMethod(m, MethodPatchOf(FormOf(m))) == m
  {
  }

  /**
   * Turning a card method into a non-card type keeps its old card digits and
   * expiry, since the update carries none of those keys.
   */
  lemma NonCardEditKeepsCardDetails(m: PaymentMethod, f: MethodForm)
    requires !RequiresCardDetails(f.kind)
    ensures var e := MergeMethod(m, MethodPatchOf(f));
            e.kind == f.kind && e.last4 == m.last4 &&
            e.expiryMonth == m.expiryMonth && e.expiryYear == m.expiryYear
  {
  }

  /**
   * The methods handleSetDefault leaves stored, as written: every update is
   * computed from the list the handler closed over, so the last one,
   * `{ isDefault: true }` for methodId, is the only one that lands.
   */
  function SetDefaultAsWritten(snapshot: seq<PaymentMethod>, methodId: string): (r: seq<PaymentMethod>)
    ensures |r| == |snapshot|
    ensures forall i :: 0 <= i < |snapshot| ==>
              r[i] == snapshot[i].(isDefault := snapshot[i].isDefault || snapshot[i].id == methodId)
  {
    StoreOps.UpdatePaymentMethod(snapshot, methodId, DefaultPatch(true))
  }

  /** As written, a method that was default stays default beside the newly chosen one. */
  lemma OldDefaultSurvives(snapshot: seq<PaymentMethod>, methodId: string, i: nat, j: nat)
    requires i < |snapshot| && j < |snapshot|
    requires snapshot[i].isDefault && snapshot[j].id == methodId && snapshot[i].id != methodId
    ensures var r := SetDefaultAsWritten(snapshot, methodId);
            r[i].isDefault && r[j].isDefault && i != j
  {
  }

  /** On the three seed methods, choosing the UPI method as default leaves two defaults. */
  lemma SeedSetDefaultExample()
    ensures var r := SetDefaultAsWritten(TripContext.SeedMethods, "2");
            r[0].isDefault && r[1].isDefault && !r[2].isDefault
  {
  }

  /**
   * Saving a new method with the default box ticked does not clear the
   * existing default either: both are default afterwards.
   */
  lemma DefaultBoxKeepsOldDefault(ms: seq<PaymentMethod>, f: MethodForm, newId: string, i: nat)
    requires i < |ms| && ms[i].isDefault && f.isDefault
    ensures var r := StoreOps.AddPaymentMethod(ms, MethodDraft(f), newId);
            r[i].isDefault && r[|ms|].isDefault
  {
  }

  /** The methods with only methodId marked as default: what handleSetDefault sets out to store. */
  function SoleDefault(ms: seq<PaymentMethod>, methodId: string): (r: seq<PaymentMethod>)
    ensures |r| == |ms|
    ensures forall i :: 0 <= i < |ms| ==> r[i] == ms[i].(isDefault := ms[i].id == methodId)
  {
    if ms == [] then []
    else SoleDefault(ms[..|ms| - 1], methodId) + [ms[|ms| - 1].(isDefault := ms[|ms| - 1].id == methodId)]
  }

  predicate UniqueIds(ms: seq<PaymentMethod>)
  {
    forall i, j :: 0 <= i < j < |ms| ==> ms[i].id != ms[j].id
  }

  /** With distinct ids, exactly the chosen method is default afterwards. */
  lemma SoleDefaultIsUnique(ms: seq<PaymentMethod>, methodId: string, j: nat)
    requires UniqueIds(ms) && j < |ms| && ms[j].id == methodId
    ensures var r := SoleDefault(ms, methodId);
            forall i :: 0 <= i < |r| ==> (r[i].isDefault <==> i == j)
  {
  }

  /**
   * ms is snapshot with some default flags cleared, among them those of the
   * first i methods.
   */
  predicate ClearedUpTo(ms: seq<PaymentMethod>, snapshot: seq<PaymentMethod>, i: nat)
  {
    && |ms| == |snapshot| && i <= |snapshot|
    && (forall k :: 0 <= k < |snapshot| ==> ms[k] == snapshot[k].(isDefault := ms[k].isDefault))
    && (forall k :: 0 <= k < |snapshot| && ms[k].isDefault ==> snapshot[k].isDefault)
    && (forall k :: 0 <= k < i && snapshot[k].isDefault ==> !ms[k].isDefault)
  }

  lemma ClearStep(ms: seq<PaymentMethod>, snapshot: seq<PaymentMethod>, i: nat)
    requires i < |snapshot| && ClearedUpTo(ms, snapshot, i)
    ensures ClearedUpTo(StoreOps.UpdatePaymentMethod(ms, snapshot[i].id, DefaultPatch(false)), snapshot, i + 1)
  {
    var r := StoreOps.UpdatePaymentMethod(ms, snapshot[i].id, DefaultPatch(false));
    assert ms[i].id == snapshot[i].id;
    forall k | 0 <= k < |snapshot|
      ensures r[k] == snapshot[k].(isDefault := r[k].isDefault)
      ensures r[k].isDefault ==> snapshot[k].isDefault
    {
      if ms[k].id == snapshot[i].id {
        assert r[k] == ms[k].(isDefault := false);
      }
    }
  }

  lemma ClearedThenChosen(ms: seq<PaymentMethod>, snapshot: seq<PaymentMethod>, methodId: string)
    requires ClearedUpTo(ms, snapshot, |snapshot|)
    ensures StoreOps.UpdatePaymentMethod(ms, methodId, DefaultPatch(true)) == SoleDefault(snapshot, methodId)
  {
    var r := StoreOps.UpdatePaymentMethod(ms, methodId, DefaultPatch(true));
    forall k | 0 <= k < |snapshot|
      ensures r[k] == SoleDefault(snapshot, methodId)[k]
    {
      assert ms[k].id == snapshot[k].id;
    }
  }

  class PaymentMethodManager {
    const store: TripContext.TripProvider
    var showForm: bool
    var editingMethod: Option<PaymentMethod>
    var form: MethodForm

    constructor (store: TripContext.TripProvider)
      ensures this.store == store
      ensures !showForm && editingMethod.None? && form == EmptyForm
    {
      this.store := store;
      showForm := false;
      editingMethod := None;
      form := EmptyForm;
    }

    method ResetForm()
      modifies this
      ensures form == EmptyForm && editingMethod.None? && !showForm
    {
      form := EmptyForm;
      editingMethod := None;
      showForm := false;
    }

    method HandleEdit(m: PaymentMethod)
      modifies this
      ensures editingMethod == Some(m) && form == FormOf(m) && showForm
    {
      editingMethod := Some(m);
      form := FormOf(m);
      showForm := true;
    }

    /** A change to one of the form's inputs. */
    method SetForm(f: MethodForm)
      modifies this
      ensures form == f && editingMethod == old(editingMethod) && showForm == old(showForm)
    {
      form := f;
    }

    /** Save the form: update the method being edited, or add a new one; then reset. */
    method HandleSubmit(newId: string)
      modifies this, store
      ensures old(editingMethod).Some? ==>
              store.paymentMethods ==
              StoreOps.UpdatePaymentMethod(old(store.paymentMethods), old(editingMethod).value.id, MethodPatchOf(old(form)))
      ensures old(editingMethod).None? ==>
              store.paymentMethods == StoreOps.AddPaymentMethod(old(store.paymentMethods), MethodDraft(old(form)), newId)
      ensures store.storage == old(store.storage)[TripContext.MethodsKey := TripContext.MethodsSnapshot(store.paymentMethods)]
      ensures store.trips == old(store.trips) && store.expenses == old(store.expenses)
      ensures store.currentTrip == old(store.currentTrip)
      ensures form == EmptyForm && editingMethod.None? && !showForm
    {
      if editingMethod.Some? {
        store.UpdatePaymentMethod(editingMethod.value.id, MethodPatchOf(form));
      } else {
        store.AddPaymentMethod(MethodDraft(form), newId);
      }
      ResetForm();
    }

    /** Delete after the user's confirmation (`confirmed` is the answer to the dialog). */
    method HandleDelete(methodId: string, confirmed: bool)
      modifies store
      ensures confirmed ==> store.paymentMethods == StoreOps.DeletePaymentMethod(old(store.paymentMethods), methodId)
      ensures confirmed ==>
              store.storage == old(store.storage)[TripContext.MethodsKey := TripContext.MethodsSnapshot(store.paymentMethods)]
      ensures !confirmed ==> store.paymentMethods == old(store.paymentMethods) && store.storage == old(store.storage)
      ensures store.trips == old(store.trips) && store.expenses == old(store.expenses)
      ensures store.currentTrip == old(store.currentTrip)
    {
      if confirmed {
        store.DeletePaymentMethod(methodId);
      }
    }

    /**
     * handleSetDefault as written: one update per method that was default,
     * then one for methodId, each computed from the list the handler closed
     * over and each replacing the stored list.
     */
    method HandleSetDefault(methodId: string)
      modifies store
      ensures store.paymentMethods == SetDefaultAsWritten(old(store.paymentMethods), methodId)
      ensures store.storage == old(store.storage)[TripContext.MethodsKey := TripContext.MethodsSnapshot(store.paymentMethods)]
      ensures store.trips == old(store.trips) && store.expenses == old(store.expenses)
      ensures store.currentTrip == old(store.currentTrip)
    {
      var snapshot := store.paymentMethods;
      var i := 0;
      while i < |snapshot|
        invariant 0 <= i <= |snapshot|
        invariant store.trips == old(store.trips) && store.expenses == old(store.expenses)
        invariant store.currentTrip == old(store.currentTrip)
        invariant store.storage == old(store.storage) ||
                  store.storage == old(store.storage)[TripContext.MethodsKey := TripContext.MethodsSnapshot(store.paymentMethods)]
      {
        if snapshot[i].isDefault {
          store.CommitPaymentMethods(StoreOps.UpdatePaymentMethod(snapshot, snapshot[i].id, DefaultPatch(false)));
        }
        i := i + 1;
      }
      store.CommitPaymentMethods(StoreOps.UpdatePaymentMethod(snapshot, methodId, DefaultPatch(true)));
    }

    /**
     * handleSetDefault with each update applied to the list the previous one
     * left: afterwards exactly the methods with id methodId are default, and
     * nothing else about any method changes.
     */
    method HandleSetDefaultInSequence(methodId: string)
      modifies store
      ensures store.paymentMethods == SoleDefault(old(store.paymentMethods), methodId)
      ensures store.storage == old(store.storage)[TripContext.MethodsKey := TripContext.MethodsSnapshot(store.paymentMethods)]
      ensures store.trips == old(store.trips) && store.expenses == old(store.expenses)
      ensures store.currentTrip == old(store.currentTrip)
    {
      var snapshot := store.paymentMethods;
      ClearDefaults();
      ClearedThenChosen(store.paymentMethods, snapshot, methodId);
      store.UpdatePaymentMethod(methodId, DefaultPatch(true));
    }

    /** The loop of the sequential handleSetDefault: every method that was default is cleared in turn. */
    method ClearDefaults()
      modifies store
      ensures ClearedUpTo(store.paymentMethods, old(store.paymentMethods), |old(store.paymentMethods)|)
      ensures store.trips == old(store.trips) && store.expenses == old(store.expenses)
      ensures store.currentTrip == old(store.currentTrip)
      ensures store.storage == old(store.storage) ||
              store.storage == old(store.storage)[TripContext.MethodsKey := TripContext.MethodsSnapshot(store.paymentMethods)]
    {
      var snapshot := store.paymentMethods;
      var i := 0;
      while i < |snapshot|
        invariant 0 <= i <= |snapshot|
        invariant ClearedUpTo(store.paymentMethods, snapshot, i)
        invariant store.trips == old(store.trips) && store.expenses == old(store.expenses)
        invariant store.currentTrip == old(store.currentTrip)
        invariant store.storage == old(store.storage) ||
                  store.storage == old(store.storage)[TripContext.MethodsKey := TripContext.MethodsSnapshot(store.paymentMethods)]
      {
        if snapshot[i].isDefault {
          ClearStep(store.paymentMethods, snapshot, i);
          store.UpdatePaymentMethod(snapshot[i].id, DefaultPatch(false));
        }
        i := i + 1;
      }
    }
  }
}
