/** The admin product page of
    src/app/pages/admin/admin-product-details-page/admin-product-details-page.component.ts:
    the product's edit form, its array of delivery options, and the two lists
    of delivery ways the page keeps beside it (the ways the product offers and
    the ways still available to add). Requests to the products service are
    method results; their replies are method calls. */
module ProductDetailsPage {
  import opened Wrappers
  import opened ProductModel

  /** `a` is `b` with some elements dropped and the rest in their order. */
  predicate SubsequenceOf(a: seq<DeliveryWay>, b: seq<DeliveryWay>)
    decreases |b|
  {
    if a == [] then true
    else if b == [] then false
    else (a[0] == b[0] && SubsequenceOf(a[1..], b[1..])) || SubsequenceOf(a, b[1..])
  }

  /** The delivery ways of `all` that do not occur in `present`, in the order
      of `all` (`all.filter(way => !present.includes(way))`). */
  function Without(all: seq<DeliveryWay>, present: seq<DeliveryWay>): (r: seq<DeliveryWay>)
    ensures forall w :: w in r <==> w in all && w !in present
    ensures |r| <= |all|
    ensures SubsequenceOf(r, all)
  {
    if all == [] then []
    else if all[0] in present then Without(all[1..], present)
    else [all[0]] + Without(all[1..], present)
  }

  /** Every enum member is either offered or available, never both. */
  lemma AvailableComplementsOffered(present: seq<DeliveryWay>)
    ensures forall w :: w in Without(AllWays, present) <==> w !in present
  {
    AllWaysEnumeratesTheEnum();
  }

  /** Removing every way of `all` leaves the empty list. */
  lemma {:induction false} NothingLeftWhenAllPresent(all: seq<DeliveryWay>, present: seq<DeliveryWay>)
    requires forall w :: w in all ==> w in present
    ensures Without(all, present) == []
  {
    if all != [] {
      assert all[0] in all;
      NothingLeftWhenAllPresent(all[1..], present);
    }
  }

  /** A product that already offers every way leaves nothing to add, and one
      that offers none can add every way. */
  lemma AvailableExtremes(options: seq<DeliveryOption>)
    ensures (forall w :: w in Ways(options)) ==> Without(AllWays, Ways(options)) == []
    ensures options == [] ==> Without(AllWays, Ways(options)) == AllWays
  {
    if forall w :: w in Ways(options) {
      NothingLeftWhenAllPresent(AllWays, Ways(options));
    }
    if options == [] {
      assert Ways(options) == [];
      assert Without(AllWays, []) == AllWays;
    }
  }

  /** A form control: its current value and whether the user has touched it. */
  datatype Control<T> = Control(value: T, touched: bool)

  /** The value a control contributes to the update request. */
  datatype FieldValue =
    | Text(text: string)
    | Number(number: int)
    | Way(way: Option<DeliveryWay>)
    | Options(options: seq<DeliveryOption>)

  /** The names of the form's controls, in the order the form declares them
      (`Object.keys(productData.controls)`). */
  const ControlNames: seq<string> :=
    ["name", "description", "deliveryWay", "deliveryOptions", "quantity", "price", "image"]

  /** The `deliveryOptions` FormArray: one group per option. */
  class OptionsArray {
    var controls: seq<DeliveryOption>
    var touched: bool

    /** `fb.array(createDeliveryOptions(options))` */
    constructor (options: seq<DeliveryOption>)
      ensures controls == options && !touched
    {
      controls := options;
      touched := false;
    }

    /** `clear()` */
    method Clear()
      modifies this`controls
      ensures controls == []
    {
      controls := [];
    }

    /** `push(fb.group(...))` */
    method Push(option: DeliveryOption)
      modifies this`controls
      ensures controls == old(controls) + [option]
    {
      controls := controls + [option];
    }
  }

  class AdminProductDetailsPage {
    /** The `id` route parameter. */
    const productId: string
    /** Set once the product has arrived and `productData` exists. */
    var loaded: bool
    var name: Control<string>
    var description: Control<string>
    /** The way selected for adding; the control starts empty. */
    var deliveryWay: Control<Option<DeliveryWay>>
    var options: OptionsArray
    var quantity: Control<int>
    var price: Control<int>
    var image: Control<string>
    var deliveryWays: seq<DeliveryWay>
    var availableDeliveryWays: seq<DeliveryWay>
    var allDeliveryWays: seq<DeliveryWay>

    /** Once loaded, the offered ways are those of the option controls and the
        available ways are the rest of the enum. */
    ghost predicate Valid()
      reads this, options
    {
      loaded ==>
        && allDeliveryWays == AllWays
        && deliveryWays == Ways(options.controls)
        && availableDeliveryWays == Without(allDeliveryWays, deliveryWays)
    }

    constructor (productId: string)
      ensures this.productId == productId && !loaded && Valid()
    {
      this.productId := productId;
      loaded := false;
      name := Control("", false);
      description := Control("", false);
      deliveryWay := Control(None, false);
      options := new OptionsArray([]);
      quantity := Control(0, false);
      price := Control(0, false);
      image := Control("", false);
      deliveryWays := [];
      availableDeliveryWays := [];
      allDeliveryWays := [];
    }

    /** Empty the option array and push one control per option, in order. */
    method FillOptions(newOptions: seq<DeliveryOption>)
      modifies options
      ensures options.controls == newOptions
      ensures options.touched == old(options.touched)
    {
      options.Clear();
      var i := 0;
      while i < |newOptions|
        invariant 0 <= i <= |newOptions|
        invariant options.controls == newOptions[..i]
        invariant options.touched == old(options.touched)
      {
        options.Push(newOptions[i]);
        i := i + 1;
      }
    }

    /** The `getById` reply handled in `ngOnInit`: a fresh, untouched form
        holding the product's fields and options, and the way lists derived
        from those options. */
    method OnProductLoaded(product: Product)
      modifies this
      ensures loaded && Valid() && fresh(options)
      ensures name == Control(product.name, false) && description == Control(product.description, false)
      ensures quantity == Control(product.quantity, false) && price == Control(product.price, false)
      ensures image == Control(product.image, false) && deliveryWay == Control(None, false)
      ensures options.controls == product.deliveryOptions && !options.touched
      ensures deliveryWays == Ways(product.deliveryOptions)
      ensures forall w :: w in availableDeliveryWays <==> w !in deliveryWays
    {
      name := Control(product.name, false);
      description := Control(product.description, false);
      deliveryWay := Control(None, false);
      options := new OptionsArray(product.deliveryOptions);
      quantity := Control(product.quantity, false);
      price := Control(product.price, false);
      image := Control(product.image, false);
      deliveryWays := Ways(product.deliveryOptions);
      allDeliveryWays := AllWays;
      availableDeliveryWays := Without(allDeliveryWays, deliveryWays);
      FillOptions(product.deliveryOptions);
      loaded := true;
      AvailableComplementsOffered(deliveryWays);
    }

    /** `addDeliveryWay`: the option it asks the server to add, or None when
        no way is selected or the selected way is not available. The new
        option carries the default period and price, and its way is one the
        product does not offer yet. */
    method AddDeliveryWay() returns (request: Option<DeliveryOption>)
      requires Valid() && loaded
      ensures request.Some? <==> deliveryWay.value.Some? && deliveryWay.value.value in availableDeliveryWays
      ensures request.Some? ==> request.value == NewDeliveryOption(deliveryWay.value.value)
      ensures request.Some? ==> request.value.way !in deliveryWays
    {
      var selected := deliveryWay.value;
      if selected.None? || selected.value !in availableDeliveryWays {
        return None;
      }
      request := Some(NewDeliveryOption(selected.value));
    }

    /** `deleteDeliveryWay`: the option id it asks the server to delete, or
        None for the pickup option, which cannot be removed. */
    method DeleteDeliveryWay(deliveryOptionId: string) returns (request: Option<string>)
      ensures request.None? <==> deliveryOptionId == WayName(Pickup)
      ensures request.Some? ==> request.value == deliveryOptionId
    {
      if deliveryOptionId == WayName(Pickup) {
        return None;
      }
      request := Some(deliveryOptionId);
    }

    /** `updateDeliveryOptions`, run on the reply to an add or a delete: the
        option array holds exactly the returned options in order, and the two
        way lists are recomputed from them. */
    method UpdateDeliveryOptions(newOptions: seq<DeliveryOption>)
      requires Valid() && loaded
      modifies this`deliveryWays, this`availableDeliveryWays, options
      ensures Valid() && loaded
      ensures options.controls == newOptions && options.touched == old(options.touched)
      ensures deliveryWays == Ways(newOptions)
      ensures forall w :: w in availableDeliveryWays <==> w !in deliveryWays
    {
      FillOptions(newOptions);
      deliveryWays := Ways(newOptions);
      availableDeliveryWays := Without(allDeliveryWays, deliveryWays);
      AvailableComplementsOffered(deliveryWays);
    }

    /** The control registered under `controlName`, if any
        (`productData.get(controlName)`). */
    function Field(controlName: string): (r: Option<Control<FieldValue>>)
      reads this, options
      ensures r.Some? <==> controlName in ControlNames
    {
      if controlName == "name" then Some(Control(Text(name.value), name.touched))
      else if controlName == "description" then Some(Control(Text(description.value), description.touched))
      else if controlName == "deliveryWay" then Some(Control(Way(deliveryWay.value), deliveryWay.touched))
      else if controlName == "deliveryOptions" then Some(Control(Options(options.controls), options.touched))
      else if controlName == "quantity" then Some(Control(Number(quantity.value), quantity.touched))
      else if controlName == "price" then Some(Control(Number(price.value), price.touched))
      else if controlName == "image" then Some(Control(Text(image.value), image.touched))
      else None
    }

    /** A control the user has touched. */
    predicate Touched(controlName: string)
      reads this, options
    {
      Field(controlName).Some? && Field(controlName).value.touched
    }

    /** `onProductUpdate`: the partial product it sends holds exactly the
        touched controls, each with its current value; an untouched form
        sends an empty update. */
    method OnProductUpdate() returns (updated: map<string, FieldValue>)
      ensures forall n :: n in updated <==> n in ControlNames && Touched(n)
      ensures forall n :: n in updated ==> updated[n] == Field(n).value.value
      ensures (forall n :: n in ControlNames ==> !Touched(n)) ==> updated == map[]
    {
      updated := map[];
      var i := 0;
      while i < |ControlNames|
        invariant 0 <= i <= |ControlNames|
        invariant forall n :: n in updated <==> n in ControlNames[..i] && Touched(n)
        invariant forall n :: n in updated ==> Field(n).Some? && updated[n] == Field(n).value.value
      {
        var controlName := ControlNames[i];
        var control := Field(controlName);
        if control.Some? && control.value.touched {
          updated := updated[controlName := control.value.value];
        }
        assert ControlNames[..i + 1] == ControlNames[..i] + [controlName];
        i := i + 1;
      }
      assert ControlNames[..i] == ControlNames;
    }
  }
}
