/**
 * The payment dialog (src/components/Payment/PaymentModal.tsx): the chosen
 * method, the status machine idle → processing → success | error, the
 * messages it shows and the reset that closing performs.
 *
 * The asynchronous parts become separate steps: `ResolvePayment` is the
 * awaited outcome of processPayment arriving, `FinishSuccess` is the timer
 * that fires after a success.  The caller's `onSuccess` and `onClose`
 * callbacks are what the caller does with the results of those steps.
 */
module PaymentModal {
  import opened Types
  import Seqs
  import TripContext

  datatype PaymentStatus = Idle | Processing | Succeeded | Failed

  const SelectMessage := "Please select a payment method"
  const InvalidMessage := "Invalid payment method selected"
  const FailedMessage := "Payment failed. Please try again or use a different payment method."

  function IsDefault(m: PaymentMethod): bool { m.isDefault }

  function HasId(methodId: string): PaymentMethod -> bool
  {
    (m: PaymentMethod) => m.id == methodId
  }

  /** `paymentMethods.find(method => method.isDefault)` */
  function DefaultMethod(ms: seq<PaymentMethod>): (r: Option<PaymentMethod>)
    ensures r.Some? ==> r.value in ms && r.value.isDefault
    ensures r.None? <==> forall i :: 0 <= i < |ms| ==> !ms[i].isDefault
  {
    Seqs.Find(ms, IsDefault)
  }

  /** `defaultMethod?.id || ''` */
  function DefaultId(ms: seq<PaymentMethod>): (id: string)
    ensures id != "" ==> exists i :: 0 <= i < |ms| && ms[i].isDefault && ms[i].id == id
  {
    var d := DefaultMethod(ms);
    if d.Some? then d.value.id else ""
  }

  /** `paymentMethods.find(method => method.id === selectedMethodId)` */
  function FindMethod(ms: seq<PaymentMethod>, methodId: string): (r: Option<PaymentMethod>)
    ensures r.Some? ==> r.value in ms && r.value.id == methodId
    ensures r.None? <==> forall i :: 0 <= i < |ms| ==> ms[i].id != methodId
  {
    Seqs.Find(ms, HasId(methodId))
  }

  class PaymentModal {
    const store: TripContext.TripProvider
    const amount: real
    const description: string
    var selectedMethodId: string
    var isProcessing: bool
    var status: PaymentStatus
    var errorMessage: string
    /** The method of the payment in flight, as handlePayment found it. */
    var charging: Option<PaymentMethod>
    /** The timer that follows a success is set and has not fired yet. */
    var successPending: bool

    /** processing is shown exactly while a payment is in flight. */
    ghost predicate Valid()
      reads this
    {
      && (isProcessing <==> status == Processing)
      && (isProcessing ==> charging.Some?)
      && (successPending ==> charging.Some?)
    }

    constructor (store: TripContext.TripProvider, amount: real, description: string)
      ensures this.store == store && this.amount == amount && this.description == description
      ensures selectedMethodId == "" && !isProcessing && status == Idle && errorMessage == ""
      ensures charging.None? && !successPending
      ensures Valid()
    {
      this.store := store;
      this.amount := amount;
      this.description := description;
      selectedMethodId := "";
      isProcessing := false;
      status := Idle;
      errorMessage := "";
      charging := None;
      successPending := false;
    }

    /**
     * The pay button is enabled: nothing is in flight, a method is selected and
     * the store holds at least one.  It is off while a payment is processing.
     */
    predicate CanPay(): (b: bool)
      reads this, store
      ensures b ==> !isProcessing && selectedMethodId != "" && |store.paymentMethods| > 0
      ensures Valid() && status == Processing ==> !b
    {
      !isProcessing && selectedMethodId != "" && |store.paymentMethods| != 0
    }

    /** The effect that selects the default method while nothing is selected. */
    method SyncDefaultSelection()
      modifies this
      ensures var d := DefaultMethod(store.paymentMethods);
              selectedMethodId == if d.Some? && old(selectedMethodId) == "" then d.value.id else old(selectedMethodId)
      ensures isProcessing == old(isProcessing) && status == old(status) && errorMessage == old(errorMessage)
      ensures charging == old(charging) && successPending == old(successPending)
    {
      var d := DefaultMethod(store.paymentMethods);
      if d.Some? && selectedMethodId == "" {
        selectedMethodId := d.value.id;
      }
    }

    /** The user picks a method. */
    method Select(methodId: string)
      modifies this
      ensures selectedMethodId == methodId
      ensures isProcessing == old(isProcessing) && status == old(status) && errorMessage == old(errorMessage)
      ensures charging == old(charging) && successPending == old(successPending)
    {
      selectedMethodId := methodId;
    }

    /** handlePayment up to the await: check the selection, then start processing. */
    method HandlePayment() returns (started: bool)
      modifies this
      ensures var found := FindMethod(store.paymentMethods, old(selectedMethodId));
              started <==> old(selectedMethodId) != "" && found.Some?
      ensures old(selectedMethodId) == "" ==> errorMessage == SelectMessage
      ensures old(selectedMethodId) != "" && FindMethod(store.paymentMethods, old(selectedMethodId)).None? ==>
              errorMessage == InvalidMessage
      ensures !started ==> isProcessing == old(isProcessing) && status == old(status) && charging == old(charging)
      ensures started ==> isProcessing && status == Processing && errorMessage == "" &&
                          charging == FindMethod(store.paymentMethods, old(selectedMethodId))
      ensures selectedMethodId == old(selectedMethodId) && successPending == old(successPending)
      ensures old(Valid()) ==> Valid()
    {
      if selectedMethodId == "" {
        errorMessage := SelectMessage;
        return false;
      }
      var selected := FindMethod(store.paymentMethods, selectedMethodId);
      if selected.None? {
        errorMessage := InvalidMessage;
        return false;
      }
      isProcessing := true;
      status := Processing;
      errorMessage := "";
      charging := selected;
      return true;
    }

    /** processPayment's outcome arrives; `finally` ends processing either way. */
    method ResolvePayment(success: bool)
      requires status == Processing && charging.Some?
      modifies this
      ensures success ==> status == Succeeded && successPending && errorMessage == old(errorMessage)
      ensures !success ==> status == Failed && errorMessage == FailedMessage && successPending == old(successPending)
      ensures !isProcessing && charging == old(charging) && selectedMethodId == old(selectedMethodId)
      ensures Valid()
    {
      if success {
        status := Succeeded;
        successPending := true;
      } else {
        status := Failed;
        errorMessage := FailedMessage;
      }
      isProcessing := false;
    }

    method ResetModal()
      modifies this
      ensures status == Idle && errorMessage == "" && !isProcessing
      ensures selectedMethodId == DefaultId(store.paymentMethods)
      ensures charging == old(charging) && successPending == old(successPending)
      ensures old(Valid()) ==> Valid()
    {
      status := Idle;
      errorMessage := "";
      isProcessing := false;
      selectedMethodId := DefaultId(store.paymentMethods);
    }

    /**
     * The timer after a success fires: it hands the charged method to the
     * caller's onSuccess (and then onClose) and resets the dialog.  It fires
     * even when the dialog was closed in the meantime.
     */
    method FinishSuccess() returns (paid: Option<PaymentMethod>)
      modifies this
      ensures old(successPending) ==> paid == old(charging) && paid.Some? == old(charging).Some? &&
                                      status == Idle && errorMessage == "" && !isProcessing &&
                                      selectedMethodId == DefaultId(store.paymentMethods) && !successPending
      ensures !old(successPending) ==> paid.None? && status == old(status) &&
                                       errorMessage == old(errorMessage) && isProcessing == old(isProcessing) &&
                                       selectedMethodId == old(selectedMethodId) && !successPending
      ensures charging == old(charging)
      ensures old(Valid()) ==> Valid()
    {
      if !successPending {
        return None;
      }
      paid := charging;
      successPending := false;
      ResetModal();
    }

    /** Closing is refused while processing; otherwise it closes and resets. */
    method HandleClose() returns (closed: bool)
      modifies this
      ensures closed <==> !old(isProcessing)
      ensures closed ==> status == Idle && errorMessage == "" && !isProcessing &&
                         selectedMethodId == DefaultId(store.paymentMethods)
      ensures !closed ==> status == old(status) && errorMessage == old(errorMessage) &&
                          isProcessing == old(isProcessing) && selectedMethodId == old(selectedMethodId)
      ensures charging == old(charging) && successPending == old(successPending)
      ensures old(Valid()) ==> Valid()
    {
      if isProcessing {
        return false;
      }
      ResetModal();
      return true;
    }

    /** "Try Again" on the error screen: back to idle; the last message is kept. */
    method TryAgain()
      modifies this
      ensures status == Idle
      ensures errorMessage == old(errorMessage) && isProcessing == old(isProcessing)
      ensures selectedMethodId == old(selectedMethodId)
      ensures charging == old(charging) && successPending == old(successPending)
      ensures old(Valid()) && old(status) == Failed ==> Valid()
    {
      status := Idle;
    }
  }

  /** After a reset, the selection is the default method when there is one, and empty otherwise. */
  lemma ResetSelectsDefault(ms: seq<PaymentMethod>, i: nat)
    requires i < |ms| && ms[i].isDefault && ms[i].id != ""
    requires forall j :: 0 <= j < i ==> !ms[j].isDefault
    ensures DefaultId(ms) == ms[i].id
  {
    Seqs.FindFirst(ms, IsDefault, i);
  }

  /** With no default method, a reset leaves nothing selected. */
  lemma NoDefaultSelectsNothing(ms: seq<PaymentMethod>)
    requires forall i :: 0 <= i < |ms| ==> !ms[i].isDefault
    ensures DefaultId(ms) == ""
  {
  }
}
