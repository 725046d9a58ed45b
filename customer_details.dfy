/** The admin customer page of
    src/app/pages/admin/admin-customer-details-page/admin-customer-details-page.component.ts:
    it loads a customer, then that customer's agreement, and says whether
    the agreement is in force. "Now" is a parameter. */
module CustomerDetailsPage {
  import opened Wrappers
  import opened AgreementModel

  /** The request the page is waiting on, if any. */
  datatype Pending = Idle | AwaitingCustomer(customerId: string) | AwaitingAgreement(customerId: string)

  /** An agreement is in force while it is active and its end lies strictly
      after `now`; no agreement is never in force. */
  function AgreementActive(agreement: Option<Agreement>, now: int): (r: bool)
    ensures r <==> agreement.Some? && agreement.value.isActive && now < agreement.value.endsAt
    ensures agreement.None? ==> !r
  {
    match agreement
    case None => false
    case Some(a) => a.isActive && a.endsAt > now
  }

  /** An active agreement stays in force at every earlier instant. */
  lemma ActiveAtEarlierInstants(agreement: Option<Agreement>, earlier: int, now: int)
    requires earlier <= now && AgreementActive(agreement, now)
    ensures AgreementActive(agreement, earlier)
  {
  }

  class AdminCustomerDetailsPage {
    var customer: Option<Customer>
    var agreement: Option<Agreement>
    var isLoading: bool
    var error: Option<string>
    /** Which reply the page awaits (the subscriptions it holds). */
    var pending: Pending

    /** Loading lasts while a request is outstanding; the agreement is only
        asked for once the customer is in; an error leaves nothing pending. */
    ghost predicate Valid()
      reads this
    {
      && (!pending.Idle? ==> isLoading)
      && (pending.AwaitingAgreement? ==> customer.Some? && error.None?)
      && (error.Some? ==> pending.Idle? && !isLoading)
    }

    constructor ()
      ensures Valid()
      ensures customer.None? && agreement.None? && isLoading && error.None? && pending.Idle?
    {
      customer := None;
      agreement := None;
      isLoading := true;
      error := None;
      pending := Idle;
    }

    /** `ngOnInit` with the route's `id`: the customer it requests (through
        `loadCustomerData`), or None, which leaves the page loading. */
    method NgOnInit(customerId: Option<string>) returns (request: Option<string>)
      requires Valid() && pending.Idle? && error.None?
      modifies this`isLoading, this`pending
      ensures Valid()
      ensures request.Some? <==> Truthy(customerId)
      ensures request.Some? ==> request == customerId && isLoading && pending == AwaitingCustomer(customerId.value)
      ensures request.None? ==> isLoading == old(isLoading) && pending == old(pending)
    {
      if Truthy(customerId) {
        LoadCustomerData(customerId.value);
        request := customerId;
      } else {
        request := None;
      }
    }

    /** `loadCustomerData`: loading starts and the customer is asked for. */
    method LoadCustomerData(customerId: string)
      requires Valid() && error.None?
      modifies this`isLoading, this`pending
      ensures Valid()
      ensures isLoading && pending == AwaitingCustomer(customerId)
    {
      isLoading := true;
      pending := AwaitingCustomer(customerId);
    }

    /** The customer request's `next` callback: the customer is kept and the
        agreement asked for (`loadAgreement`); loading goes on. */
    method OnCustomerLoaded(c: Customer) returns (agreementRequest: string)
      requires Valid() && pending.AwaitingCustomer?
      modifies this`customer, this`pending
      ensures Valid()
      ensures customer == Some(c)
      ensures agreementRequest == old(pending).customerId && pending == AwaitingAgreement(agreementRequest)
      ensures isLoading
    {
      customer := Some(c);
      agreementRequest := pending.customerId;
      pending := AwaitingAgreement(agreementRequest);
    }

    /** The customer request's `error` callback: "Customer not found", loading
        ends, and no agreement is asked for. */
    method OnCustomerLoadFailed()
      requires Valid() && pending.AwaitingCustomer?
      modifies this`error, this`isLoading, this`pending
      ensures Valid()
      ensures error == Some("Customer not found") && !isLoading && pending.Idle?
    {
      error := Some("Customer not found");
      isLoading := false;
      pending := Idle;
    }

    /** The agreement request's `next` callback. */
    method OnAgreementLoaded(a: Agreement)
      requires Valid() && pending.AwaitingAgreement?
      modifies this`agreement, this`isLoading, this`pending
      ensures Valid()
      ensures agreement == Some(a) && !isLoading && pending.Idle? && error.None?
    {
      agreement := Some(a);
      isLoading := false;
      pending := Idle;
    }

    /** The agreement request's `error` callback: a customer without an
        agreement is not an error; loading ends and the agreement stays as it
        was. */
    method OnAgreementLoadFailed()
      requires Valid() && pending.AwaitingAgreement?
      modifies this`isLoading, this`pending
      ensures Valid()
      ensures !isLoading && pending.Idle? && error.None? && agreement == old(agreement)
    {
      isLoading := false;
      pending := Idle;
    }

    /** `isAgreementActive` at the instant `now`. */
    function IsAgreementActive(now: int): (r: bool)
      reads this
      ensures r <==> agreement.Some? && agreement.value.isActive && now < agreement.value.endsAt
    {
      AgreementActive(agreement, now)
    }
  }
}
