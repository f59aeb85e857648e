/**
 * The payment-result page (src/app/payment/success/page.tsx). It polls the
 * order-status endpoint: PENDING or PROCESSING schedules one more check,
 * COMPLETED clears the cart and the pending order code, anything else or a
 * thrown request stops. The endpoint's successive answers are an input
 * sequence; the 2-second timer becomes the next loop iteration.
 */
module PaymentSuccess {
  import opened Wrappers
  import opened CartContext
  import opened Storage

  const PendingOrderKey := "pendingOrderCode"

  datatype StatusData = StatusData(
    orderCode: string, orderNumber: string, status: string, paymentStatus: string,
    amount: int, paidAt: Option<string>, transactionId: Option<string>)

  /** One answer of `paymentAPI.getStatus`: a response, or a thrown request. */
  datatype StatusReply = Threw | Replied(success: bool, data: StatusData)

  /** A successful answer that asks for another check. */
  predicate Pending(r: StatusReply) {
    r.Replied? && r.success && (r.data.paymentStatus == "PENDING" || r.data.paymentStatus == "PROCESSING")
  }

  predicate Completed(r: StatusReply) {
    r.Replied? && r.success && r.data.paymentStatus == "COMPLETED"
  }

  /** An answer that stops polling and ends loading: a throw, COMPLETED, or any other status. */
  predicate Terminal(r: StatusReply) {
    r.Threw? || (r.success && !Pending(r))
  }

  /** The number of leading answers that ask for another check. */
  function Settled(replies: seq<StatusReply>): (n: nat)
    ensures n <= |replies|
    ensures forall i :: 0 <= i < n ==> Pending(replies[i])
    ensures n < |replies| ==> !Pending(replies[n])
  {
    if replies == [] || !Pending(replies[0]) then 0 else 1 + Settled(replies[1..])
  }

  /** How many status requests a run over `replies` issues: every pending answer leads to one
      more request, the first non-pending one ends the run. */
  function RequestCount(replies: seq<StatusReply>): nat {
    var n := Settled(replies);
    if n < |replies| then n + 1 else n
  }

  /** Whether the run saw the answer that ends it with COMPLETED. */
  predicate SawCompleted(replies: seq<StatusReply>) {
    Settled(replies) < |replies| && Completed(replies[Settled(replies)])
  }

  /** Whether the run ended loading (a terminal answer was reached). */
  predicate Finished(replies: seq<StatusReply>) {
    Settled(replies) < |replies| && Terminal(replies[Settled(replies)])
  }

  /** The paymentInfo a run leaves: the data of the last successful answer it consumed. */
  function LastInfo(replies: seq<StatusReply>, before: Option<StatusData>): Option<StatusData> {
    var n := Settled(replies);
    if n < |replies| && replies[n].Replied? && replies[n].success then Some(replies[n].data)
    else if n > 0 then Some(replies[n - 1].data)
    else before
  }

  /** `!orderCode`: the query parameter is absent or empty. */
  predicate MissingCode(orderCode: Option<string>) {
    orderCode.None? || orderCode.value == ""
  }

  /** What the page shows once rendering runs. */
  datatype View = Spinner | Redirect(target: string) | Confirmation(info: StatusData)

  class PaymentSuccessPage {
    var paymentInfo: Option<StatusData>
    var loading: bool
    var isPolling: bool
    var requests: nat
    const cart: CartStore
    const storage: KeyValueStore

    constructor (cart: CartStore, storage: KeyValueStore)
      ensures this.cart == cart && this.storage == storage
      ensures paymentInfo == None && loading && isPolling && requests == 0
    {
      this.cart := cart;
      this.storage := storage;
      paymentInfo := None;
      loading := true;
      isPolling := true;
      requests := 0;
    }

    /** The effect: without an order code (absent or empty) go home; once polling has stopped, check nothing;
        otherwise check, and check again while the answer is PENDING or PROCESSING. */
    method Poll(orderCode: Option<string>, replies: seq<StatusReply>) returns (redirect: Option<string>)
      modifies this, cart, storage
      ensures MissingCode(orderCode) ==> redirect == Some("/")
      ensures !MissingCode(orderCode) ==> redirect == None
      ensures MissingCode(orderCode) || !old(isPolling) ==>
        && requests == old(requests) && paymentInfo == old(paymentInfo)
        && cart.items == old(cart.items) && storage.entries == old(storage.entries)
        && loading == old(loading) && isPolling == old(isPolling)
      ensures !MissingCode(orderCode) && old(isPolling) ==>
        && requests == old(requests) + RequestCount(replies)
        && cart.items == (if SawCompleted(replies) then [] else old(cart.items))
        && storage.entries == (if SawCompleted(replies) then old(storage.entries) - {PendingOrderKey} else old(storage.entries))
        && isPolling == !Finished(replies)
        && loading == (old(loading) && !Finished(replies))
        && paymentInfo == LastInfo(replies, old(paymentInfo))
    {
      if MissingCode(orderCode) {
        return Some("/");
      }
      // `if (!isPolling) return;`
      if !isPolling {
        return None;
      }
      redirect := None;
      var k := 0;
      var scheduled := true;
      while scheduled && k < |replies|
        invariant 0 <= k <= |replies|
        invariant forall i :: 0 <= i < k ==> Pending(replies[i]) || i == k - 1
        invariant scheduled ==> forall i :: 0 <= i < k ==> Pending(replies[i])
        invariant !scheduled ==> 0 < k && !Pending(replies[k - 1])
        invariant requests == old(requests) + k
        invariant isPolling == !(0 < k && Terminal(replies[k - 1]))
        invariant loading == (old(loading) && !(0 < k && Terminal(replies[k - 1])))
        invariant cart.items == if 0 < k && Completed(replies[k - 1]) then [] else old(cart.items)
        invariant storage.entries ==
          if 0 < k && Completed(replies[k - 1]) then old(storage.entries) - {PendingOrderKey} else old(storage.entries)
        invariant paymentInfo ==
          if 0 < k && replies[k - 1].Replied? && replies[k - 1].success then Some(replies[k - 1].data)
          else if 1 < k then Some(replies[k - 2].data) else old(paymentInfo)
        decreases |replies| - k
      {
        // each scheduled check finds polling still on: only a terminal answer stops it
        var reply := replies[k];
        k := k + 1;
        requests := requests + 1;
        match reply {
          case Threw =>
            isPolling := false;
            loading := false;
            scheduled := false;
          case Replied(success, data) =>
            if success {
              paymentInfo := Some(data);
              if data.paymentStatus == "COMPLETED" {
                isPolling := false;
                cart.ClearCart();
                storage.RemoveItem(PendingOrderKey);
                loading := false;
                scheduled := false;
              } else if data.paymentStatus == "PENDING" || data.paymentStatus == "PROCESSING" {
                scheduled := true;
              } else {
                isPolling := false;
                loading := false;
                scheduled := false;
              }
            } else {
              // nothing is set and nothing is scheduled
              scheduled := false;
            }
        }
      }
      SettledIsLoopExit(replies, k, scheduled);
    }

    /** The render after the effect: the spinner while loading, then the failure page unless
        the last status seen is COMPLETED. */
    function Render(orderCode: string): (v: View)
      reads this
      ensures v.Spinner? <==> loading
      ensures v.Confirmation? <==> !loading && paymentInfo.Some? && paymentInfo.value.paymentStatus == "COMPLETED"
      ensures v.Redirect? ==> v.target == "/payment/failed?orderCode=" + orderCode
    {
      if loading then Spinner
      else if paymentInfo.None? || paymentInfo.value.paymentStatus != "COMPLETED" then
        Redirect("/payment/failed?orderCode=" + orderCode)
      else Confirmation(paymentInfo.value)
    }
  }

  /** The loop above stops after exactly RequestCount(replies) answers. */
  lemma SettledIsLoopExit(replies: seq<StatusReply>, k: nat, scheduled: bool)
    requires k <= |replies|
    requires scheduled ==> forall i :: 0 <= i < k ==> Pending(replies[i])
    requires !scheduled ==> 0 < k && !Pending(replies[k - 1]) && forall i :: 0 <= i < k - 1 ==> Pending(replies[i])
    requires scheduled ==> k == |replies|
    ensures Settled(replies) == (if scheduled then k else k - 1)
    ensures RequestCount(replies) == k
  {
    SettledIsFirstStop(replies, if scheduled then k else k - 1);
  }

  /** `Settled` is the index of the first answer that is not pending (or the length). */
  lemma {:induction false} SettledIsFirstStop(replies: seq<StatusReply>, n: nat)
    requires n <= |replies|
    requires forall i :: 0 <= i < n ==> Pending(replies[i])
    requires n < |replies| ==> !Pending(replies[n])
    ensures Settled(replies) == n
  {
    if n > 0 {
      SettledIsFirstStop(replies[1..], n - 1);
    }
  }

  /** The cart is emptied exactly when a COMPLETED answer is reached, and then the page
      confirms rather than redirecting. */
  lemma CompletedIffCleared(replies: seq<StatusReply>)
    ensures SawCompleted(replies) ==> Finished(replies)
    ensures SawCompleted(replies) <==>
      Finished(replies) && LastInfo(replies, None).Some? && LastInfo(replies, None).value.paymentStatus == "COMPLETED"
  {
  }

  /** Scenario: PENDING, PENDING, COMPLETED gives three requests, then the cart is cleared. */
  lemma PendingTwiceThenCompleted(a: StatusData, b: StatusData, c: StatusData)
    requires a.paymentStatus == "PENDING" && b.paymentStatus == "PENDING" && c.paymentStatus == "COMPLETED"
    ensures RequestCount([Replied(true, a), Replied(true, b), Replied(true, c)]) == 3
    ensures SawCompleted([Replied(true, a), Replied(true, b), Replied(true, c)])
  {
    var rs := [Replied(true, a), Replied(true, b), Replied(true, c)];
    SettledIsFirstStop(rs, 2);
  }

  /** Scenario: FAILED on the first check gives one request, no clearing, and the failure page. */
  lemma FailedAtOnce(a: StatusData, later: seq<StatusReply>)
    requires a.paymentStatus == "FAILED"
    ensures RequestCount([Replied(true, a)] + later) == 1
    ensures !SawCompleted([Replied(true, a)] + later) && Finished([Replied(true, a)] + later)
    ensures LastInfo([Replied(true, a)] + later, None) == Some(a)
  {
    SettledIsFirstStop([Replied(true, a)] + later, 0);
  }

  /** An answer with success false ends the run with loading still on: the spinner stays. */
  lemma UnsuccessfulAnswerStalls(replies: seq<StatusReply>)
    requires Settled(replies) < |replies|
    requires replies[Settled(replies)].Replied? && !replies[Settled(replies)].success
    ensures !Finished(replies) && !SawCompleted(replies)
    ensures RequestCount(replies) == Settled(replies) + 1
  {
  }
}
