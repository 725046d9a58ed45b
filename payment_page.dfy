/** The order-confirmation page of src/app/pages/payment-page/payment-page.component.ts:
    its loading state and the label and class lookups it renders with. */
module PaymentPage {
  import opened Wrappers
  import opened ProductModel

  /** The parts of `IOrder` the page shows. */
  datatype Order = Order(id: string, quantity: int, price: int, deliveryWay: DeliveryWay)

  /** `getDeliveryLabel`: a fixed label for each enum value, the input
      itself for anything else. */
  function DeliveryLabel(deliveryWay: string): (text: string)
    ensures deliveryWay == "COURIER" ==> text == "Courier Delivery"
    ensures deliveryWay == "POSTAL" ==> text == "Postal Service"
    ensures deliveryWay == "PICKUP" ==> text == "Self Pickup"
    ensures deliveryWay != "COURIER" && deliveryWay != "POSTAL" && deliveryWay != "PICKUP" ==> text == deliveryWay
  {
    if deliveryWay == "COURIER" then "Courier Delivery"
    else if deliveryWay == "POSTAL" then "Postal Service"
    else if deliveryWay == "PICKUP" then "Self Pickup"
    else deliveryWay
  }

  /** Every delivery way gets its own label, different from its raw value. */
  lemma DeliveryLabelsDistinguishWays(a: DeliveryWay, b: DeliveryWay)
    ensures DeliveryLabel(WayName(a)) != WayName(a)
    ensures DeliveryLabel(WayName(a)) == DeliveryLabel(WayName(b)) ==> a == b
  {
    assert DeliveryLabel(WayName(a))[0] != WayName(a)[1];
    if DeliveryLabel(WayName(a)) == DeliveryLabel(WayName(b)) {
      assert DeliveryLabel(WayName(a))[0] == DeliveryLabel(WayName(b))[0];
    }
  }

  /** `status || "pending"`: the key both status lookups use. */
  function StatusKey(status: Option<string>): (key: string)
    ensures key != ""
  {
    if Truthy(status) then status.value else "pending"
  }

  /** A key the status tables know. */
  predicate KnownStatus(key: string) {
    key == "pending" || key == "paid" || key == "failed"
  }

  /** `getPaymentStatusLabel`: "Pending" when the status is missing or
      empty, a fixed label for each known status, the status itself
      otherwise. */
  function PaymentStatusLabel(status: Option<string>): (text: string)
    ensures !Truthy(status) ==> text == "Pending"
    ensures status == Some("pending") ==> text == "Pending"
    ensures status == Some("paid") ==> text == "Paid"
    ensures status == Some("failed") ==> text == "Failed"
    ensures Truthy(status) && !KnownStatus(status.value) ==> text == status.value
  {
    var key := StatusKey(status);
    if key == "pending" then "Pending"
    else if key == "paid" then "Paid"
    else if key == "failed" then "Failed"
    else key
  }

  /** `getPaymentStatusClass`: always one of the three classes; an unknown
      or missing status looks pending. */
  function PaymentStatusClass(status: Option<string>): (cls: string)
    ensures cls == "status-pending" || cls == "status-paid" || cls == "status-failed"
    ensures cls == "status-paid" <==> status == Some("paid")
    ensures cls == "status-failed" <==> status == Some("failed")
  {
    var key := StatusKey(status);
    if key == "paid" then "status-paid"
    else if key == "failed" then "status-failed"
    else "status-pending"
  }

  /** The class and the label come from the same key: for a known key the
      class is "status-" followed by that key; for an unknown one the class
      is the pending one while the label is the key itself. */
  lemma StatusClassFollowsLabel(status: Option<string>)
    ensures KnownStatus(StatusKey(status)) ==> PaymentStatusClass(status) == "status-" + StatusKey(status)
    ensures !KnownStatus(StatusKey(status)) ==>
      PaymentStatusClass(status) == "status-pending" && PaymentStatusLabel(status) == StatusKey(status)
  {
  }

  /** `PaymentPageComponent`'s signals. */
  class PaymentPageComponent {
    var order: Option<Order>
    var isLoading: bool
    var error: Option<string>

    constructor ()
      ensures order.None? && isLoading && error.None?
    {
      order := None;
      isLoading := true;
      error := None;
    }

    /** `ngOnInit` with the `orderId` query parameter: the order it requests,
        or None, in which case loading ends at once with no order and no
        error. */
    method NgOnInit(orderId: Option<string>) returns (request: Option<string>)
      modifies this`isLoading
      ensures Truthy(orderId) ==> request == orderId && isLoading == old(isLoading)
      ensures !Truthy(orderId) ==> request.None? && !isLoading
    {
      if Truthy(orderId) {
        request := orderId;
      } else {
        request := None;
        isLoading := false;
      }
    }

    /** The order request's `next` callback. */
    method OnOrderLoaded(o: Order)
      modifies this`order, this`isLoading
      ensures order == Some(o) && !isLoading
    {
      order := Some(o);
      isLoading := false;
    }

    /** The order request's `error` callback. */
    method OnOrderLoadFailed()
      modifies this`error, this`isLoading
      ensures error == Some("Failed to load order details") && !isLoading
    {
      error := Some("Failed to load order details");
      isLoading := false;
    }
  }
}
