/** Products and their delivery options (src/app/models/product.model.ts). */
module ProductModel {

  /** `EnumDeliveryWay` */
  datatype DeliveryWay = Courier | Postal | Pickup

  /** The enum member's string value, which is also its key. */
  function WayName(w: DeliveryWay): (s: string)
    ensures |s| >= 6
  {
    match w
    case Courier => "COURIER"
    case Postal => "POSTAL"
    case Pickup => "PICKUP"
  }

  /** Distinct members carry distinct string values. */
  lemma WayNameInjective(a: DeliveryWay, b: DeliveryWay)
    ensures WayName(a) == WayName(b) ==> a == b
  {
    if a != b {
      assert WayName(a)[0] != WayName(b)[0] || WayName(a)[1] != WayName(b)[1];
    }
  }

  /** `Object.values(EnumDeliveryWay)`, in declaration order. */
  const AllWays: seq<DeliveryWay> := [Courier, Postal, Pickup]

  /** The enum has exactly three members, each listed once. */
  lemma AllWaysEnumeratesTheEnum()
    ensures |AllWays| == 3
    ensures forall w :: w in AllWays
    ensures forall i, j :: 0 <= i < j < |AllWays| ==> AllWays[i] != AllWays[j]
  {
    forall w ensures w in AllWays {
      match w
      case Courier => assert AllWays[0] == w;
      case Postal => assert AllWays[1] == w;
      case Pickup => assert AllWays[2] == w;
    }
  }

  /** `IDeliveryOption`: a way of delivery, its lead time and its surcharge
      (prices are integers in the smallest currency unit). */
  datatype DeliveryOption = DeliveryOption(way: DeliveryWay, period: string, price: int)

  /** `IProduct` as the server returns it. The interface types the options as
      a one-element tuple, but the array has any length at run time. The
      optional `description` is the empty string when the server omits it. */
  datatype Product = Product(
    id: string,
    name: string,
    description: string,
    price: int,
    image: string,
    deliveryOptions: seq<DeliveryOption>,
    quantity: int)

  /** `options.map(option => option.type)` */
  function Ways(options: seq<DeliveryOption>): (r: seq<DeliveryWay>)
    ensures |r| == |options|
    ensures forall i :: 0 <= i < |options| ==> r[i] == options[i].way
  {
    seq(|options|, i requires 0 <= i < |options| => options[i].way)
  }

  /** `new DeliveryOption(way)`: the constructor's defaults for the period
      and the price. */
  function NewDeliveryOption(way: DeliveryWay): DeliveryOption {
    DeliveryOption(way, "immediate", 0)
  }

  /** `new DeliveryOption()` */
  function DefaultDeliveryOption(): DeliveryOption {
    NewDeliveryOption(Pickup)
  }

  /** The `Product` class: a product draft before the server assigns an id,
      with the extra `deliveryPrice` and `deliveryPeriod` fields. */
  datatype ProductDraft = ProductDraft(
    name: string,
    description: string,
    price: int,
    image: string,
    deliveryOptions: seq<DeliveryOption>,
    quantity: int,
    deliveryPrice: int,
    deliveryPeriod: string)

  /** `new Product()` */
  function DefaultProduct(): ProductDraft {
    ProductDraft("", "", 0, "", [DefaultDeliveryOption()], 1, 0, "")
  }

  /** A default delivery option is free, immediate pickup; an option made for
      a chosen way keeps that way and the same defaults. */
  lemma NewDeliveryOptionDefaults(way: DeliveryWay)
    ensures NewDeliveryOption(way).way == way
    ensures NewDeliveryOption(way).period == "immediate" && NewDeliveryOption(way).price == 0
    ensures DefaultDeliveryOption() == DeliveryOption(Pickup, "immediate", 0)
  {
  }

  /** A default product offers exactly one delivery option, free immediate
      pickup, costs nothing, has one unit in stock and empty texts. */
  lemma DefaultProductShape()
    ensures Ways(DefaultProduct().deliveryOptions) == [Pickup]
    ensures DefaultProduct().deliveryOptions == [DefaultDeliveryOption()]
    ensures DefaultProduct().price == 0 && DefaultProduct().quantity == 1
    ensures DefaultProduct().name == "" && DefaultProduct().description == "" && DefaultProduct().image == ""
  {
  }
}
