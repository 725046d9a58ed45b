/** The product card of src/app/components/product-item/product-item.component.ts:
    the stock band shown for a quantity, the "pickup only" flag and the
    guard on ordering. */
module ProductItem {
  import opened Wrappers
  import opened ProductModel

  /** `quantityCalc`: the first band of the `switch (true)` whose lower bound
      the quantity reaches. */
  function QuantityCalc(quantity: int): (text: string)
    ensures text == "100+" <==> quantity >= 100
    ensures text == "50+" <==> 50 <= quantity < 100
    ensures text == "10+" <==> 10 <= quantity < 50
    ensures text == "1+" <==> 1 <= quantity < 10
    ensures text == "not available" <==> quantity < 1
  {
    if quantity >= 100 then "100+"
    else if quantity >= 50 then "50+"
    else if quantity >= 10 then "10+"
    else if quantity >= 1 then "1+"
    else "not available"
  }

  /** The order of the bands, from "not available" up to "100+". */
  function BandRank(text: string): nat {
    if text == "100+" then 4
    else if text == "50+" then 3
    else if text == "10+" then 2
    else if text == "1+" then 1
    else 0
  }

  /** A larger quantity never shows a lower band. */
  lemma QuantityCalcMonotone(a: int, b: int)
    requires a <= b
    ensures BandRank(QuantityCalc(a)) <= BandRank(QuantityCalc(b))
  {
  }

  /** The `isHasDelivery` flag: the product offers pickup and nothing else. */
  function IsHasDelivery(options: seq<DeliveryOption>): (r: bool)
    ensures r <==> |options| == 1 && options[0].way == Pickup
  {
    Pickup in Ways(options) && |options| == 1
  }

  /** A new product (whose only option is the default one) is pickup only;
      adding a second option of any kind ends that. */
  lemma PickupOnlyDefaults(extra: DeliveryOption)
    ensures IsHasDelivery(DefaultProduct().deliveryOptions)
    ensures !IsHasDelivery(DefaultProduct().deliveryOptions + [extra])
  {
  }

  /** `ProductItemComponent`. The `product` input is declared non-null, so
      `ngOnInit`'s test of it always passes. */
  class ProductItemComponent {
    var product: Product
    var isHasDelivery: bool

    constructor (product: Product)
      ensures this.product == product && !isHasDelivery
    {
      this.product := product;
      isHasDelivery := false;
    }

    /** `ngOnInit` */
    method NgOnInit()
      modifies this`isHasDelivery
      ensures isHasDelivery <==> |product.deliveryOptions| == 1 && product.deliveryOptions[0].way == Pickup
    {
      isHasDelivery := Pickup in Ways(product.deliveryOptions) && |product.deliveryOptions| == 1;
    }

    /** `navigateToOrder`: the route it navigates to, or None when the
        product has no stock (exactly 0; another value still navigates). */
    method NavigateToOrder(productId: string) returns (route: Option<string>)
      ensures route.None? <==> product.quantity == 0
      ensures route.Some? ==> route.value == "order/" + productId
    {
      if product.quantity == 0 {
        return None;
      }
      route := Some("order/" + productId);
    }
  }
}
