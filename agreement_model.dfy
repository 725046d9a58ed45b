/** Customers, legal entities, agreements and the agreement-period table
    (src/app/models/agreement.model.ts, with the customer shape of
    src/app/models/customer.model.ts). */
module AgreementModel {
  import opened Wrappers

  /** `ICustomer`; `contactPerson` is optional. */
  datatype Customer = Customer(
    id: string,
    name: string,
    street: string,
    city: string,
    state: string,
    code: int,
    phone: string,
    contactPerson: Option<string>)

  /** `ILegalEntity`, flattened; the order page fills every field. */
  datatype LegalEntity = LegalEntity(
    name: string,
    registrationNumber: string,
    directorName: string,
    street: string,
    city: string,
    state: string,
    zip: string,
    bankName: string,
    iban: string)

  /** `IAgreement`. Instants are milliseconds since the epoch. The interface
      declares `customer` as always present, but the order page tests it, so
      the model lets it be absent. */
  datatype Agreement = Agreement(
    id: string,
    createdAt: int,
    endsAt: int,
    customer: Option<Customer>,
    legalEntity: Option<LegalEntity>,
    clientToken: string,
    isActive: bool)

  /** `ITokenValidationResponse`: a verdict always travels with an agreement. */
  datatype TokenValidationResponse = TokenValidationResponse(valid: bool, agreement: Agreement)

  /** `AgreementPeriod` */
  datatype AgreementPeriod = ThreeMonths | SixMonths | OneYear | TwoYears

  /** The string literal of each period. */
  function PeriodValue(p: AgreementPeriod): string {
    match p
    case ThreeMonths => "3_months"
    case SixMonths => "6_months"
    case OneYear => "1_year"
    case TwoYears => "2_years"
  }

  /** `IAgreementPeriodOption` (its `label` is `caption` here, `label` being a Dafny keyword) */
  datatype PeriodOption = PeriodOption(value: AgreementPeriod, caption: string, months: int)

  /** `AGREEMENT_PERIOD_OPTIONS` */
  const PeriodOptions: seq<PeriodOption> := [
    PeriodOption(ThreeMonths, "3 Months", 3),
    PeriodOption(SixMonths, "6 Months", 6),
    PeriodOption(OneYear, "1 Year", 12),
    PeriodOption(TwoYears, "2 Years", 24)
  ]

  /** `options.find(opt => opt.value === value)`: the first entry whose
      period literal is `value`. */
  function FindPeriod(options: seq<PeriodOption>, value: string): (r: Option<PeriodOption>)
    ensures r.None? <==> forall i :: 0 <= i < |options| ==> PeriodValue(options[i].value) != value
    ensures r.Some? ==> exists i :: 0 <= i < |options| && options[i] == r.value
                          && PeriodValue(options[i].value) == value
                          && forall j :: 0 <= j < i ==> PeriodValue(options[j].value) != value
  {
    if |options| == 0 then None
    else if PeriodValue(options[0].value) == value then Some(options[0])
    else
      var r := FindPeriod(options[1..], value);
      assert forall i :: 1 <= i < |options| ==> options[i] == options[1..][i - 1];
      r
  }

  /** The table holds exactly the four periods with their month counts. */
  lemma PeriodTableContents()
    ensures |PeriodOptions| == 4
    ensures forall p :: FindPeriod(PeriodOptions, PeriodValue(p)) == Some(PeriodOption(p, PeriodLabel(p), PeriodMonths(p)))
  {
    forall p ensures FindPeriod(PeriodOptions, PeriodValue(p)) == Some(PeriodOption(p, PeriodLabel(p), PeriodMonths(p))) {
      var k := match p case ThreeMonths => 0 case SixMonths => 1 case OneYear => 2 case TwoYears => 3;
      assert PeriodOptions[k].value == p;
      var r := FindPeriod(PeriodOptions, PeriodValue(p));
      var i :| 0 <= i < |PeriodOptions| && PeriodOptions[i] == r.value && PeriodValue(PeriodOptions[i].value) == PeriodValue(p);
      PeriodValueInjective(PeriodOptions[i].value, p);
    }
  }

  /** The label of each period in the table. */
  function PeriodLabel(p: AgreementPeriod): string {
    match p
    case ThreeMonths => "3 Months"
    case SixMonths => "6 Months"
    case OneYear => "1 Year"
    case TwoYears => "2 Years"
  }

  /** The month count of each period in the table. */
  function PeriodMonths(p: AgreementPeriod): int {
    match p
    case ThreeMonths => 3
    case SixMonths => 6
    case OneYear => 12
    case TwoYears => 24
  }

  /** Distinct periods have distinct literals, so a lookup by literal is
      unambiguous. */
  lemma PeriodValueInjective(a: AgreementPeriod, b: AgreementPeriod)
    ensures PeriodValue(a) == PeriodValue(b) ==> a == b
  {
    if PeriodValue(a) == PeriodValue(b) {
      assert PeriodValue(a)[0] == PeriodValue(b)[0] && PeriodValue(a)[2] == PeriodValue(b)[2];
    }
  }

  /** Each period appears exactly once in the table; month counts are
      positive and strictly increase in table order. */
  lemma PeriodTableOrdered()
    ensures forall i, j :: 0 <= i < j < |PeriodOptions| ==> PeriodValue(PeriodOptions[i].value) != PeriodValue(PeriodOptions[j].value)
    ensures forall i :: 0 <= i < |PeriodOptions| ==> PeriodOptions[i].months > 0
    ensures forall i, j :: 0 <= i < j < |PeriodOptions| ==> PeriodOptions[i].months < PeriodOptions[j].months
  {
  }
}
