/** The order page of src/app/pages/order-page/order-page.component.ts: a
    two-step checkout (review, then payment) for one product, where a new
    customer signs an agreement and receives a client token, and a returning
    customer orders with a token validated beforehand. Each request the page
    sends is a method result and each reply a method call; the current
    instant is a parameter. */
module OrderPage {
  import opened Wrappers
  import opened Http
  import opened Storage
  import opened ProductModel
  import opened AgreementModel
  import opened AgreementServices
  import opened OrderRules

  /** `OrderStep` */
  datatype OrderStep = Review | Payment | Success

  /** `OrderMode` */
  datatype OrderMode = New | Returning

  /** The page's form groups, for `markFormGroupTouched`. */
  datatype FormName = CustomerData | ProductData | LegalEntityData | AgreementData | PaymentData

  /** The values of `customerData`. A reset control holds `null`, which
      every validator here treats as the empty string. */
  datatype CustomerFields = CustomerFields(
    name: string,
    contactPerson: string,
    phone: string,
    street: string,
    city: string,
    state: string,
    zip: string)

  const EmptyCustomer: CustomerFields := CustomerFields("", "", "", "", "", "", "")

  /** Every control of `customerData` passes `required`, and the phone its
      pattern. */
  predicate CustomerFieldsValid(c: CustomerFields) {
    && c.name != "" && c.contactPerson != "" && c.phone != "" && PhoneValid(c.phone)
    && c.street != "" && c.city != "" && c.state != "" && c.zip != ""
  }

  /** `customerData.patchValue(customer)`: the controls whose names the
      customer record shares take its values; `contactPerson` only when the
      record has one, and `zip` never, since the record calls it `code`. */
  function PatchCustomer(form: CustomerFields, c: Customer): (r: CustomerFields)
    ensures r.name == c.name && r.street == c.street && r.city == c.city && r.state == c.state && r.phone == c.phone
    ensures r.contactPerson == c.contactPerson.GetOr(form.contactPerson)
    ensures r.zip == form.zip
  {
    var contact := if c.contactPerson.Some? then c.contactPerson.value else form.contactPerson;
    CustomerFields(c.name, contact, c.phone, c.street, c.city, c.state, form.zip)
  }

  /** A patched form whose zip was empty still fails validation, whatever the
      customer record holds; only disabling it lets the order through. */
  lemma PatchLeavesZipEmpty(form: CustomerFields, c: Customer)
    requires form.zip == ""
    ensures !CustomerFieldsValid(PatchCustomer(form, c))
  {
  }

  /** Every control of `legalEntityData` passes `required`. */
  predicate LegalEntityComplete(e: LegalEntity) {
    && e.name != "" && e.registrationNumber != "" && e.directorName != ""
    && e.street != "" && e.city != "" && e.state != "" && e.zip != ""
    && e.bankName != "" && e.iban != ""
  }

  const EmptyLegalEntity: LegalEntity := LegalEntity("", "", "", "", "", "", "", "", "")

  /** The order body: the product form's values with the total as price and
      a missing or zero quantity read as 1. */
  datatype OrderDraft = OrderDraft(quantity: int, deliveryWay: string, price: int)

  /** The agreement part of a first order. */
  datatype AgreementDraft = AgreementDraft(endsAt: CalendarDate, legalEntity: LegalEntity)

  /** What `onPlaceOrder` asks of the server. */
  datatype PlaceOrderRequest =
    | NoRequest
    | CreateCustomer(customer: CustomerFields)
    | CreateWithToken(order: OrderDraft, productId: string, clientToken: string)

  /** `createWithAgreement(order, customerId, productId, agreementData)` */
  datatype AgreementOrderRequest =
    AgreementOrderRequest(order: OrderDraft, customerId: string, productId: string, agreement: AgreementDraft)

  /** `payOrder(orderId, cardDetails)` */
  datatype PaymentRequest = PaymentRequest(orderId: string, card: PaymentForm)

  const PaymentSuccessRoute: string := "/order/payment/success"

  class OrderPageComponent {
    const agreements: AgreementService

    var isLoading: bool
    var currentStep: OrderStep
    var createdOrderId: Option<string>
    var paymentError: Option<string>
    var orderMode: OrderMode
    var hasExistingToken: bool
    var currentAgreement: Option<Agreement>
    var newClientToken: Option<string>
    var tokenValidationError: Option<string>
    var isValidatingToken: bool
    var totalPrice: int
    var quantityLimit: int
    var currentDeliveryOption: Option<DeliveryOption>
    /** The products service's `productById$`. The subject is shared by the
        whole application, so the page starts with whatever product was last
        fetched (by the admin product page, say), and the product reply
        replaces it. */
    var product: Option<Product>

    var customer: CustomerFields
    var customerDisabled: bool
    /** `productData`: the quantity (an empty input reads as 0) and the chosen
        way; the quantity is bounded by the stock once the product arrives. */
    var quantity: int
    var deliveryWay: string
    var quantityBounded: bool
    var payment: PaymentForm
    var clientTokenField: string
    var period: string
    var legalEntity: LegalEntity
    var touched: set<FormName>

    /** A page that shows a token's agreement has a validated token and is in
        returning mode; the payment step always has an order; the page never
        reaches the success step, which lives on a page of its own. */
    ghost predicate Valid()
      reads this, agreements, agreements.store
    {
      && (hasExistingToken <==> currentAgreement.Some?)
      && (hasExistingToken ==> orderMode == Returning)
      && (currentStep == Payment ==> createdOrderId.Some?)
      && currentStep != OrderStep.Success
      && agreements.Valid()
    }

    /** `productData.valid`: the way is required; once the product has
        arrived, the quantity lies within 1 and the stock, so a valid order
        is never clamped by `calcTotal`. */
    function ProductFormValid(): (r: bool)
      reads this
      ensures r ==> deliveryWay != ""
      ensures r && quantityBounded ==> quantity >= 1 && Min(quantity, quantityLimit) == quantity
      ensures !quantityBounded ==> (r <==> deliveryWay != "")
    {
      deliveryWay != "" && (!quantityBounded || 1 <= quantity <= quantityLimit)
    }

    /** `customerData.invalid` is false: a disabled group is never invalid,
        and an enabled one needs a ten-digit phone and a zip. */
    function CustomerFormValid(): (r: bool)
      reads this
      ensures customerDisabled ==> r
      ensures !customerDisabled && r ==> |customer.phone| == 10 && AllDigits(customer.phone) && customer.zip != ""
      ensures customer == EmptyCustomer && !customerDisabled ==> !r
    {
      customerDisabled || CustomerFieldsValid(customer)
    }

    /** The four forms a new customer fills are valid. */
    predicate NewCustomerFormsValid()
      reads this
    {
      CustomerFormValid() && ProductFormValid() && LegalEntityComplete(legalEntity) && period != ""
    }

    /** `onPlaceOrder` orders with the token. */
    predicate TakesTokenPath()
      reads this
    {
      orderMode == Returning && hasExistingToken
    }

    /** The order body built from the current forms. */
    function CurrentOrder(): (o: OrderDraft)
      reads this
      ensures o.quantity != 0 && o.deliveryWay == deliveryWay && o.price == totalPrice
      ensures quantity != 0 ==> o.quantity == quantity
    {
      OrderDraft(if quantity != 0 then quantity else 1, deliveryWay, totalPrice)
    }

    /** `product$.getValue()?._id`, when truthy. */
    function ProductId(): (r: Option<string>)
      reads this
      ensures r.Some? <==> product.Some? && product.value.id != ""
      ensures r.Some? ==> r.value == product.value.id
    {
      if product.Some? && product.value.id != "" then Some(product.value.id) else None
    }

    constructor (agreements: AgreementService, lastFetched: Option<Product>)
      requires agreements.Valid()
      ensures this.agreements == agreements && Valid() && product == lastFetched
      ensures !isLoading && currentStep == Review && createdOrderId.None? && paymentError.None?
      ensures orderMode == New && !hasExistingToken && newClientToken.None?
      ensures tokenValidationError.None? && !isValidatingToken && totalPrice == 0 && quantityLimit == 0
      ensures customer == EmptyCustomer && !customerDisabled && quantity == 1 && deliveryWay == "" && !quantityBounded
      ensures payment == DefaultPaymentForm && clientTokenField == "" && period == "1_year"
      ensures legalEntity == EmptyLegalEntity && touched == {}
    {
      this.agreements := agreements;
      isLoading := false;
      currentStep := Review;
      createdOrderId := None;
      paymentError := None;
      orderMode := New;
      hasExistingToken := false;
      currentAgreement := None;
      newClientToken := None;
      tokenValidationError := None;
      isValidatingToken := false;
      totalPrice := 0;
      quantityLimit := 0;
      currentDeliveryOption := None;
      product := lastFetched;
      customer := EmptyCustomer;
      customerDisabled := false;
      quantity := 1;
      deliveryWay := "";
      quantityBounded := false;
      payment := DefaultPaymentForm;
      clientTokenField := "";
      period := "1_year";
      legalEntity := EmptyLegalEntity;
      touched := {};
    }

    /** `ngOnInit`: the product to fetch, when the route names one, and the
        stored token to validate, when there is one. */
    method NgOnInit(productId: Option<string>) returns (productRequest: Option<string>, tokenRequest: Option<string>)
      modifies this`clientTokenField, this`isValidatingToken, this`tokenValidationError
      ensures productRequest == (if Truthy(productId) then productId else None)
      ensures tokenRequest.Some? <==> agreements.HasClientToken()
      ensures tokenRequest.Some? ==> tokenRequest == agreements.clientToken && clientTokenField == tokenRequest.value
      ensures tokenRequest.Some? ==> isValidatingToken && tokenValidationError.None?
      ensures tokenRequest.None? ==> unchanged(this`clientTokenField, this`isValidatingToken, this`tokenValidationError)
    {
      productRequest := if Truthy(productId) then productId else None;
      tokenRequest := CheckExistingToken();
    }

    /** The product reply: the total starts at the unit price and the quantity
        becomes bounded by the stock. */
    method OnProductLoaded(p: Product)
      modifies this`product, this`totalPrice, this`quantityLimit, this`quantityBounded
      ensures product == Some(p) && totalPrice == p.price && quantityLimit == p.quantity && quantityBounded
    {
      product := Some(p);
      totalPrice := p.price;
      quantityLimit := p.quantity;
      quantityBounded := true;
    }

    /** `checkExistingToken`: validate the stored token, if any. */
    method CheckExistingToken() returns (request: Option<string>)
      modifies this`clientTokenField, this`isValidatingToken, this`tokenValidationError
      ensures request.Some? <==> agreements.HasClientToken()
      ensures request.Some? ==> request == agreements.clientToken && clientTokenField == request.value
      ensures request.Some? ==> isValidatingToken && tokenValidationError.None?
      ensures request.None? ==> unchanged(this`clientTokenField, this`isValidatingToken, this`tokenValidationError)
    {
      var stored := agreements.GetClientToken();
      request := None;
      if Truthy(stored) {
        clientTokenField := stored.value;
        request := ValidateClientToken(stored.value);
      }
    }

    /** `validateClientToken`: an empty token is refused with a message and no
        request; any other is sent for validation. */
    method ValidateClientToken(token: string) returns (request: Option<string>)
      modifies this`isValidatingToken, this`tokenValidationError
      ensures token == "" ==> request.None? && tokenValidationError == Some("Please enter a token")
      ensures token == "" ==> isValidatingToken == old(isValidatingToken)
      ensures token != "" ==> request == Some(token) && isValidatingToken && tokenValidationError.None?
    {
      if token == "" {
        tokenValidationError := Some("Please enter a token");
        return None;
      }
      isValidatingToken := true;
      tokenValidationError := None;
      request := Some(token);
    }

    /** The validation reply (after the service's own effect): an accepted
        token switches the page to returning mode with its agreement, and
        fills and locks the customer form when the agreement names a
        customer; a refused one changes nothing but the spinner. */
    method OnTokenValidated(response: TokenValidationResponse)
      requires Valid()
      modifies this`hasExistingToken, this`currentAgreement, this`orderMode, this`customer, this`customerDisabled,
        this`isValidatingToken, agreements`currentAgreement
      ensures Valid() && !isValidatingToken
      ensures response.valid ==> hasExistingToken && currentAgreement == Some(response.agreement) && orderMode == Returning
      ensures response.valid ==> agreements.currentAgreement == Some(response.agreement) && TakesTokenPath()
      ensures response.valid && response.agreement.customer.Some? ==>
        customer == PatchCustomer(old(customer), response.agreement.customer.value) && customerDisabled
      ensures !(response.valid && response.agreement.customer.Some?) ==> unchanged(this`customer, this`customerDisabled)
      ensures !response.valid ==> unchanged(this`hasExistingToken, this`currentAgreement, this`orderMode, agreements`currentAgreement)
    {
      agreements.OnValidateTokenReply(response);
      if response.valid {
        hasExistingToken := true;
        currentAgreement := Some(response.agreement);
        orderMode := Returning;
        if response.agreement.customer.Some? {
          customer := PatchCustomer(customer, response.agreement.customer.value);
          customerDisabled := true;
        }
      }
      isValidatingToken := false;
    }

    /** A failed validation: the message, and no token or agreement. The
        mode and the customer form are left as they were. */
    method OnTokenValidationFailed()
      requires Valid()
      modifies this`tokenValidationError, this`hasExistingToken, this`currentAgreement, this`isValidatingToken
      ensures Valid()
      ensures tokenValidationError == Some("Invalid or expired token")
      ensures !hasExistingToken && currentAgreement.None? && !isValidatingToken
    {
      tokenValidationError := Some("Invalid or expired token");
      hasExistingToken := false;
      currentAgreement := None;
      isValidatingToken := false;
    }

    /** `switchToNewCustomer`: new mode with no token, and the customer and
        token forms enabled and emptied. */
    method SwitchToNewCustomer()
      requires Valid()
      modifies this`orderMode, this`hasExistingToken, this`currentAgreement, this`customerDisabled, this`customer,
        this`clientTokenField, this`tokenValidationError
      ensures Valid() && !TakesTokenPath()
      ensures orderMode == New && !hasExistingToken && currentAgreement.None?
      ensures !customerDisabled && customer == EmptyCustomer && !CustomerFormValid()
      ensures clientTokenField == "" && tokenValidationError.None?
    {
      orderMode := New;
      hasExistingToken := false;
      currentAgreement := None;
      customerDisabled := false;
      customer := EmptyCustomer;
      clientTokenField := "";
      tokenValidationError := None;
    }

    /** `switchToReturningCustomer`: returning mode, and the stored token
        validated if there is one. Without a stored token nothing else
        changes, so a page with no validated token still orders as a new
        customer. */
    method SwitchToReturningCustomer() returns (request: Option<string>)
      requires Valid()
      modifies this`orderMode, this`clientTokenField, this`isValidatingToken, this`tokenValidationError
      ensures Valid() && orderMode == Returning
      ensures request.Some? <==> agreements.HasClientToken()
      ensures request.Some? ==> request == agreements.clientToken && isValidatingToken && tokenValidationError.None?
      ensures TakesTokenPath() <==> hasExistingToken
    {
      orderMode := Returning;
      request := CheckExistingToken();
    }

    /** `onPlaceOrder`: the token path when in returning mode with a
        validated token; otherwise, with all four forms valid, the customer is
        created first, and with any form invalid they are all marked touched
        and nothing is sent. */
    method OnPlaceOrder() returns (request: PlaceOrderRequest)
      modifies this`touched, this`tokenValidationError, this`isLoading, this`paymentError
      ensures TakesTokenPath() ==> !request.CreateCustomer?
      ensures TakesTokenPath() && !ProductFormValid() ==>
        request.NoRequest? && touched == old(touched) + {ProductData}
        && unchanged(this`tokenValidationError, this`isLoading, this`paymentError)
      ensures TakesTokenPath() && ProductFormValid() && clientTokenField == "" ==>
        request.NoRequest? && tokenValidationError == Some("Client token is required")
        && unchanged(this`touched, this`isLoading, this`paymentError)
      ensures TakesTokenPath() && ProductFormValid() && clientTokenField != "" ==>
        isLoading && paymentError.None? && unchanged(this`touched, this`tokenValidationError)
        && request == (if ProductId().Some? then CreateWithToken(CurrentOrder(), ProductId().value, clientTokenField) else NoRequest)
      ensures !TakesTokenPath() ==> !request.CreateWithToken? && unchanged(this`tokenValidationError)
      ensures !TakesTokenPath() && !NewCustomerFormsValid() ==>
        request.NoRequest? && touched == old(touched) + {CustomerData, ProductData, LegalEntityData, AgreementData}
        && unchanged(this`isLoading, this`paymentError)
      ensures !TakesTokenPath() && NewCustomerFormsValid() ==>
        request == CreateCustomer(customer) && isLoading && paymentError.None? && unchanged(this`touched)
    {
      if orderMode == Returning && hasExistingToken {
        request := PlaceOrderWithToken();
        return;
      }
      if !CustomerFormValid() || !ProductFormValid() || !LegalEntityComplete(legalEntity) || period == "" {
        touched := touched + {CustomerData, ProductData, LegalEntityData, AgreementData};
        return NoRequest;
      }
      isLoading := true;
      paymentError := None;
      request := CreateCustomer(customer);
    }

    /** `placeOrderWithToken`. When the product is not known the page stays
        loading and sends nothing. */
    method PlaceOrderWithToken() returns (request: PlaceOrderRequest)
      modifies this`touched, this`tokenValidationError, this`isLoading, this`paymentError
      ensures !request.CreateCustomer?
      ensures !ProductFormValid() ==>
        request.NoRequest? && touched == old(touched) + {ProductData}
        && unchanged(this`tokenValidationError, this`isLoading, this`paymentError)
      ensures ProductFormValid() && clientTokenField == "" ==>
        request.NoRequest? && tokenValidationError == Some("Client token is required")
        && unchanged(this`touched, this`isLoading, this`paymentError)
      ensures ProductFormValid() && clientTokenField != "" ==>
        isLoading && paymentError.None? && unchanged(this`touched, this`tokenValidationError)
        && request == (if ProductId().Some? then CreateWithToken(CurrentOrder(), ProductId().value, clientTokenField) else NoRequest)
    {
      if !ProductFormValid() {
        touched := touched + {ProductData};
        return NoRequest;
      }
      if clientTokenField == "" {
        tokenValidationError := Some("Client token is required");
        return NoRequest;
      }
      isLoading := true;
      paymentError := None;
      var productId := ProductId();
      request := NoRequest;
      if productId.Some? {
        request := CreateWithToken(CurrentOrder(), productId.value, clientTokenField);
      }
    }

    /** The customer-created reply: the first order, with an agreement that
        ends the chosen number of months after `now` (12 for an unknown
        period), or no request when the product is not known, in which case
        the page stays loading. */
    method OnCustomerCreated(customerId: string, now: CalendarDate) returns (request: Option<AgreementOrderRequest>)
      requires 0 <= now.month < 12
      ensures request.Some? <==> ProductId().Some?
      ensures request.Some? ==> request.value.order == CurrentOrder() && request.value.customerId == customerId
      ensures request.Some? ==> request.value.productId == ProductId().value
      ensures request.Some? ==> request.value.agreement == AgreementDraft(AddMonths(now, AgreementMonths(period)), legalEntity)
      ensures request.Some? ==> request.value.agreement.endsAt.year * 12 + request.value.agreement.endsAt.month
                                  > now.year * 12 + now.month
    {
      var order := CurrentOrder();
      var productId := ProductId();
      var endsAt := AddMonths(now, AgreementMonths(period));
      if productId.Some? {
        request := Some(AgreementOrderRequest(order, customerId, productId.value, AgreementDraft(endsAt, legalEntity)));
      } else {
        request := None;
      }
    }

    /** A failed request while creating the customer or the first order. */
    method OnCreateFailed()
      modifies this`isLoading
      ensures !isLoading
    {
      isLoading := false;
    }

    /** The first order was created: the page keeps its id, shows and stores
        the client token, and moves to payment. */
    method OnOrderWithAgreementCreated(orderId: string, clientToken: string)
      requires Valid()
      modifies this`createdOrderId, this`newClientToken, this`currentStep, this`isLoading, agreements, agreements.store
      ensures Valid()
      ensures createdOrderId == Some(orderId) && newClientToken == Some(clientToken)
      ensures currentStep == Payment && !isLoading
      ensures agreements.GetClientToken() == Some(clientToken)
      ensures agreements.store.items == old(agreements.store.items)[ClientTokenKey := clientToken]
      ensures agreements.currentAgreement == old(agreements.currentAgreement)
    {
      createdOrderId := Some(orderId);
      newClientToken := Some(clientToken);
      agreements.SaveClientToken(clientToken);
      currentStep := Payment;
      isLoading := false;
    }

    /** An order placed with a token was created: keep its id and move to
        payment. */
    method OnOrderWithTokenCreated(orderId: string)
      requires Valid()
      modifies this`createdOrderId, this`currentStep, this`isLoading
      ensures Valid()
      ensures createdOrderId == Some(orderId) && currentStep == Payment && !isLoading
    {
      createdOrderId := Some(orderId);
      currentStep := Payment;
      isLoading := false;
    }

    /** An order placed with a token failed: the server's message, or a fixed
        one, is shown beside the token. */
    method OnOrderWithTokenFailed(err: HttpError)
      modifies this`tokenValidationError, this`isLoading
      ensures tokenValidationError == Some(ServerMessageOr(err, "Failed to create order with token")) && !isLoading
    {
      tokenValidationError := Some(ServerMessageOr(err, "Failed to create order with token"));
      isLoading := false;
    }

    /** `onConfirmPayment`: nothing is sent while the card form is invalid
        (it is marked touched) or when there is no order ("Order not found");
        otherwise the order's id and the card are sent. */
    method OnConfirmPayment() returns (request: Option<PaymentRequest>)
      modifies this`touched, this`paymentError, this`isLoading
      ensures !PaymentFormValid(payment) ==>
        request.None? && touched == old(touched) + {PaymentData} && unchanged(this`paymentError, this`isLoading)
      ensures PaymentFormValid(payment) && !Truthy(createdOrderId) ==>
        request.None? && paymentError == Some("Order not found") && unchanged(this`touched, this`isLoading)
      ensures PaymentFormValid(payment) && Truthy(createdOrderId) ==>
        request == Some(PaymentRequest(createdOrderId.value, payment)) && isLoading && paymentError.None?
        && unchanged(this`touched)
    {
      if !PaymentFormValid(payment) {
        touched := touched + {PaymentData};
        return None;
      }
      var orderId := createdOrderId;
      if !Truthy(orderId) {
        paymentError := Some("Order not found");
        return None;
      }
      isLoading := true;
      paymentError := None;
      request := Some(PaymentRequest(orderId.value, payment));
    }

    /** The payment reply: a successful payment leaves for the success page
        with the order's id; an unsuccessful one does nothing, and in neither
        case does loading end. */
    method OnPaymentReply(orderId: string, success: bool) returns (navigate: Option<(string, string)>)
      ensures navigate.Some? <==> success
      ensures navigate.Some? ==> navigate.value == (PaymentSuccessRoute, orderId)
    {
      navigate := if success then Some((PaymentSuccessRoute, orderId)) else None;
    }

    /** A failed payment: the server's message, or a fixed one. */
    method OnPaymentFailed(err: HttpError)
      modifies this`paymentError, this`isLoading
      ensures paymentError == Some(ServerMessageOr(err, "Payment failed. Please try again.")) && !isLoading
    {
      paymentError := Some(ServerMessageOr(err, "Payment failed. Please try again."));
      isLoading := false;
    }

    /** `onBackToReview`: back to the review step without the payment error;
        the created order is kept, so paying again needs no new order. */
    method OnBackToReview()
      requires Valid()
      modifies this`currentStep, this`paymentError
      ensures Valid() && currentStep == Review && paymentError.None?
    {
      currentStep := Review;
      paymentError := None;
    }

    /** The unit price `calcTotal` reads from the product, if known. */
    function UnitPrice(): (r: Option<int>)
      reads this
      ensures r.Some? <==> product.Some?
      ensures r.Some? ==> r.value == product.value.price
    {
      if product.Some? then Some(product.value.price) else None
    }

    /** The option `calcTotal` charges for: the one given, or else the one of
        the product matching the chosen way. */
    function ChargedOption(currentOption: Option<DeliveryOption>): (r: Option<DeliveryOption>)
      reads this
      requires currentOption.Some? || product.Some?
      ensures currentOption.Some? ==> r == currentOption
      ensures currentOption.None? ==> r == FindDeliveryOption(deliveryWay, product.value.deliveryOptions)
    {
      if currentOption.Some? then currentOption else FindDeliveryOption(deliveryWay, product.value.deliveryOptions)
    }

    /** `calcTotal`: with a quantity below 1 the total is left as it is, and
        so it is when no option is given and the product is not known (the
        non-null assertion on it throws); otherwise the total is the clamped
        quantity times the unit price plus the option's surcharge. The source's
        `!quantity` branch is never taken once the quantity is at least 1. */
    method CalcTotal(currentOption: Option<DeliveryOption>)
      modifies this`totalPrice
      ensures quantity < 1 ==> totalPrice == old(totalPrice)
      ensures quantity >= 1 && currentOption.None? && product.None? ==> totalPrice == old(totalPrice)
      ensures quantity >= 1 && (currentOption.Some? || product.Some?) ==>
        totalPrice == OrderTotal(quantity, quantityLimit, UnitPrice(), Surcharge(ChargedOption(currentOption)))
    {
      var goods := 0;
      if quantity < 1 {
        return;
      }
      var unitPrice := UnitPrice();
      var option := currentOption;
      if option.None? {
        if product.None? {
          return;
        }
        option := FindDeliveryOption(deliveryWay, product.value.deliveryOptions);
      }
      var deliveryPrice := if option.Some? && option.value.price != 0 then option.value.price else 0;
      if unitPrice.Some? && unitPrice.value != 0 {
        if quantity <= quantityLimit {
          goods := quantity * unitPrice.value;
        } else {
          goods := quantityLimit * unitPrice.value;
        }
      }
      totalPrice := goods + deliveryPrice;
    }

    /** `onDeliveryWayChange`: the option of the chosen way becomes current
        and the total is recomputed with it; when the way is not among the
        given options, `calcTotal` charges the product's option for the way
        selected in the form instead. When the product is not known either,
        `calcTotal` throws before the option is set, so the current option
        stays as it was. */
    method OnDeliveryWayChange(way: string, options: seq<DeliveryOption>)
      modifies this`totalPrice, this`currentDeliveryOption
      ensures !(quantity >= 1 && FindDeliveryOption(way, options).None? && product.None?) ==>
        currentDeliveryOption == FindDeliveryOption(way, options)
      ensures quantity >= 1 && FindDeliveryOption(way, options).None? && product.None? ==>
        currentDeliveryOption == old(currentDeliveryOption)
      ensures quantity < 1 ==> totalPrice == old(totalPrice)
      ensures quantity >= 1 && FindDeliveryOption(way, options).None? && product.None? ==> totalPrice == old(totalPrice)
      ensures quantity >= 1 && FindDeliveryOption(way, options).Some? ==>
        totalPrice == OrderTotal(quantity, quantityLimit, UnitPrice(), FindDeliveryOption(way, options).value.price)
      ensures quantity >= 1 && FindDeliveryOption(way, options).None? && product.Some? ==>
        totalPrice == OrderTotal(quantity, quantityLimit, UnitPrice(), Surcharge(FindDeliveryOption(deliveryWay, product.value.deliveryOptions)))
    {
      var currentOption := FindDeliveryOption(way, options);
      CalcTotal(currentOption);
      if quantity >= 1 && currentOption.None? && product.None? {
        return;
      }
      currentDeliveryOption := currentOption;
    }
  }

  /** A scenario over the page's methods, not a function of the page: a
      returning customer whose stored token the server accepts orders with
      that token and never creates a customer. */
  method ReturningCustomerFlow(page: OrderPageComponent, agreement: Agreement)
    requires page.Valid() && page.agreements.HasClientToken()
    modifies page, page.agreements
  {
    var productRequest, tokenRequest := page.NgOnInit(None);
    assert tokenRequest == page.agreements.clientToken;
    page.OnTokenValidated(TokenValidationResponse(true, agreement));
    var request := page.OnPlaceOrder();
    assert !request.CreateCustomer?;
  }

  /** A scenario over the page's methods, not a function of the page:
      switching to a new customer empties the customer form, so the next
      attempt to order sends nothing at all. */
  method NewCustomerMustFillTheForm(page: OrderPageComponent)
    requires page.Valid()
    modifies page
  {
    page.SwitchToNewCustomer();
    var request := page.OnPlaceOrder();
    assert request.NoRequest?;
  }
}
