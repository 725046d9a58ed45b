/** The pure rules of src/app/pages/order-page/order-page.component.ts: the
    phone and payment-card validators, the lookup of a delivery option by
    its way, the order total, and the agreement's end date. Regular
    expressions become predicates on characters; JavaScript's `\d` and
    `[0-9]` are the ASCII digits and its `\s` is the whitespace list of the
    ECMAScript standard. */
module OrderRules {
  import opened Wrappers
  import opened ProductModel
  import opened AgreementModel

  predicate IsAsciiDigit(c: char) {
    '0' <= c <= '9'
  }

  predicate AllDigits(s: string) {
    forall i :: 0 <= i < |s| ==> IsAsciiDigit(s[i])
  }

  /** A character `\s` matches: WhiteSpace and LineTerminator of ECMAScript. */
  predicate IsJsWhitespace(c: char) {
    || c == '\t' || c == '\n' || c == '\U{000B}' || c == '\U{000C}' || c == '\r' || c == ' '
    || c == '\U{00A0}' || c == '\U{1680}' || ('\U{2000}' <= c <= '\U{200A}')
    || c == '\U{2028}' || c == '\U{2029}' || c == '\U{202F}' || c == '\U{205F}'
    || c == '\U{3000}' || c == '\U{FEFF}'
  }

  /** `^\d{lo,hi}$` run as a matcher that consumes one digit at a time: it
      accepts exactly the all-digit strings whose length lies in [lo, hi]. */
  function MatchDigitRun(s: string, lo: nat, hi: nat): (r: bool)
    ensures r <==> lo <= |s| <= hi && AllDigits(s)
    decreases |s|
  {
    if |s| == 0 then lo == 0
    else
      hi > 0 && IsAsciiDigit(s[0]) &&
      var rest := MatchDigitRun(s[1..], if lo > 0 then lo - 1 else 0, hi - 1);
      assert AllDigits(s) <==> IsAsciiDigit(s[0]) && AllDigits(s[1..]) by {
        assert forall i :: 1 <= i < |s| ==> s[i] == s[1..][i - 1];
      }
      rest
  }

  /** `value.replace(/\s/g, "")` */
  function StripWhitespace(s: string): (r: string)
    ensures |r| <= |s|
    ensures forall i :: 0 <= i < |r| ==> !IsJsWhitespace(r[i])
    ensures forall c :: c in r <==> c in s && !IsJsWhitespace(c)
  {
    if s == [] then []
    else if IsJsWhitespace(s[0]) then StripWhitespace(s[1..])
    else
      assert forall c :: c in s <==> c == s[0] || c in s[1..] by {
        assert s == [s[0]] + s[1..];
      }
      [s[0]] + StripWhitespace(s[1..])
  }

  /** Stripping works piecewise. */
  lemma {:induction false} StripConcat(a: string, b: string)
    ensures StripWhitespace(a + b) == StripWhitespace(a) + StripWhitespace(b)
  {
    if a == [] {
      assert a + b == b;
    } else {
      assert (a + b)[0] == a[0] && (a + b)[1..] == a[1..] + b;
      StripConcat(a[1..], b);
    }
  }

  /** A string with no whitespace is left as it is. */
  lemma {:induction false} StripKeepsPlainText(s: string)
    requires forall i :: 0 <= i < |s| ==> !IsJsWhitespace(s[i])
    ensures StripWhitespace(s) == s
  {
    if s != [] {
      StripKeepsPlainText(s[1..]);
    }
  }

  /** A single whitespace character strips to nothing. */
  lemma StripSpace(c: char)
    requires IsJsWhitespace(c)
    ensures StripWhitespace([c]) == []
  {
    assert [c][1..] == [];
  }

  /** `phoneNumberValidator`: `/^[0-9]{10}$/` */
  function PhoneValid(phone: string): (r: bool)
    ensures r <==> |phone| == 10 && AllDigits(phone)
  {
    MatchDigitRun(phone, 10, 10)
  }

  /** `cardNumberValidator`: 13 to 19 digits once whitespace is removed
      (the length range of a primary account number in ISO/IEC 7812, with no
      Luhn check). */
  function CardNumberValid(cardNumber: string): (r: bool)
    ensures r <==> 13 <= |StripWhitespace(cardNumber)| <= 19 && AllDigits(StripWhitespace(cardNumber))
    ensures r ==> |cardNumber| >= 13
    ensures r ==> forall i :: 0 <= i < |cardNumber| ==> IsAsciiDigit(cardNumber[i]) || IsJsWhitespace(cardNumber[i])
  {
    var digits := StripWhitespace(cardNumber);
    assert AllDigits(digits) ==> forall i :: 0 <= i < |cardNumber| ==> IsAsciiDigit(cardNumber[i]) || IsJsWhitespace(cardNumber[i]) by {
      if AllDigits(digits) {
        forall i | 0 <= i < |cardNumber| && !IsJsWhitespace(cardNumber[i])
          ensures IsAsciiDigit(cardNumber[i])
        {
          assert cardNumber[i] in cardNumber;
          assert cardNumber[i] in digits;
        }
      }
    }
    MatchDigitRun(digits, 13, 19)
  }

  /** The pattern of the expiry month: `^(0[1-9]|1[0-2])$` */
  function ExpMonthValid(month: string): (r: bool)
    ensures r <==> |month| == 2 && AllDigits(month)
                   && 1 <= (month[0] as int - '0' as int) * 10 + (month[1] as int - '0' as int) <= 12
  {
    |month| == 2 &&
    ((month[0] == '0' && '1' <= month[1] <= '9') || (month[0] == '1' && '0' <= month[1] <= '2'))
  }

  /** The pattern of the expiry year: `^\d{2}$` */
  function ExpYearValid(year: string): (r: bool)
    ensures r <==> |year| == 2 && AllDigits(year)
  {
    MatchDigitRun(year, 2, 2)
  }

  /** The pattern of the card's security code: `^\d{3,4}$` */
  function CvcValid(cvc: string): (r: bool)
    ensures r <==> 3 <= |cvc| <= 4 && AllDigits(cvc)
  {
    MatchDigitRun(cvc, 3, 4)
  }

  /** The two-digit, zero-padded form of 0 <= n < 100. */
  function TwoDigits(n: nat): (s: string)
    requires n < 100
    ensures |s| == 2 && AllDigits(s)
  {
    [(('0' as int) + n / 10) as char, (('0' as int) + n % 10) as char]
  }

  /** The month pattern accepts exactly "01" to "12". */
  lemma ExpMonthIsTwoDigitMonth(month: string)
    ensures ExpMonthValid(month) <==> exists m :: 1 <= m <= 12 && month == TwoDigits(m)
  {
    if ExpMonthValid(month) {
      var m := (month[0] as int - '0' as int) * 10 + (month[1] as int - '0' as int);
      assert 1 <= m <= 12;
      assert month == TwoDigits(m);
    }
    if exists m :: 1 <= m <= 12 && month == TwoDigits(m) {
      var m :| 1 <= m <= 12 && month == TwoDigits(m);
      assert m / 10 == 0 || (m / 10 == 1 && m % 10 <= 2);
    }
  }

  /** The card form's fields, as strings. */
  datatype PaymentForm = PaymentForm(cardNumber: string, expMonth: string, expYear: string, cvc: string)

  /** `paymentData` is valid: `required` and each pattern hold. An empty
      value fails `required`, and a value that passes a pattern is never
      empty, so each control is valid exactly when its pattern holds. */
  function PaymentFormValid(f: PaymentForm): (r: bool)
    ensures r <==> CardNumberValid(f.cardNumber) && ExpMonthValid(f.expMonth) && ExpYearValid(f.expYear) && CvcValid(f.cvc)
  {
    && f.cardNumber != "" && CardNumberValid(f.cardNumber)
    && f.expMonth != "" && ExpMonthValid(f.expMonth)
    && f.expYear != "" && ExpYearValid(f.expYear)
    && f.cvc != "" && CvcValid(f.cvc)
  }

  /** The form's initial values (a test card). */
  const DefaultPaymentForm: PaymentForm := PaymentForm("4242424242424242", "12", "25", "123")

  /** The form's prefilled values, a test card, pass every validator of the
      payment form, so the page starts with a payable form. */
  lemma DefaultPaymentFormIsValid()
    ensures PaymentFormValid(DefaultPaymentForm)
  {
    var f := DefaultPaymentForm;
    assert AllDigits(f.cardNumber) && AllDigits(f.expYear) && AllDigits(f.cvc);
    DigitFieldsMakeValidForm(f);
  }

  /** A form of digit strings of the right lengths and a month in range is
      valid. */
  lemma DigitFieldsMakeValidForm(f: PaymentForm)
    requires AllDigits(f.cardNumber) && 13 <= |f.cardNumber| <= 19
    requires ExpMonthValid(f.expMonth)
    requires AllDigits(f.expYear) && |f.expYear| == 2
    requires AllDigits(f.cvc) && 3 <= |f.cvc| <= 4
    ensures PaymentFormValid(f)
  {
    DigitStringIsCardNumber(f.cardNumber);
  }

  /** A run of 13 to 19 digits with no spaces is a valid card number. */
  lemma DigitStringIsCardNumber(s: string)
    requires AllDigits(s) && 13 <= |s| <= 19
    ensures CardNumberValid(s)
  {
    StripKeepsPlainText(s);
  }

  /** Whitespace anywhere in the card number is ignored by its validator. */
  lemma CardNumberIgnoresWhitespace(before: string, c: char, after: string)
    requires IsJsWhitespace(c)
    ensures CardNumberValid(before + [c] + after) == CardNumberValid(before + after)
  {
    StripConcat(before + [c], after);
    StripConcat(before, [c]);
    StripSpace(c);
    StripConcat(before, after);
  }

  /** `findDeliveryOptionByDeliveryWay`: the first option whose way is
      spelled `deliveryWay`, or None when there is none. */
  function FindDeliveryOption(deliveryWay: string, options: seq<DeliveryOption>): (r: Option<DeliveryOption>)
    ensures r.None? <==> forall i :: 0 <= i < |options| ==> WayName(options[i].way) != deliveryWay
    ensures r.Some? ==> exists i :: 0 <= i < |options| && options[i] == r.value
                          && WayName(options[i].way) == deliveryWay
                          && forall j :: 0 <= j < i ==> WayName(options[j].way) != deliveryWay
  {
    if |options| == 0 then None
    else if WayName(options[0].way) == deliveryWay then Some(options[0])
    else
      var r := FindDeliveryOption(deliveryWay, options[1..]);
      assert forall i :: 1 <= i < |options| ==> options[i] == options[1..][i - 1];
      r
  }

  /** An option found by way has that way. */
  lemma FoundOptionHasTheWay(way: DeliveryWay, options: seq<DeliveryOption>)
    ensures FindDeliveryOption(WayName(way), options).Some? ==> FindDeliveryOption(WayName(way), options).value.way == way
    ensures FindDeliveryOption(WayName(way), options).None? <==> way !in Ways(options)
  {
    var r := FindDeliveryOption(WayName(way), options);
    if r.Some? {
      var i :| 0 <= i < |options| && options[i] == r.value && WayName(options[i].way) == WayName(way);
      WayNameInjective(options[i].way, way);
    }
    if way in Ways(options) {
      var i :| 0 <= i < |options| && Ways(options)[i] == way;
      assert WayName(options[i].way) == WayName(way);
    }
    forall i | 0 <= i < |options| && WayName(options[i].way) == WayName(way)
      ensures way in Ways(options)
    {
      WayNameInjective(options[i].way, way);
      assert Ways(options)[i] == way;
    }
  }

  /** `currentOption?.price ? currentOption?.price : 0`: a missing option
      and a zero price both give no surcharge, so the surcharge is simply the
      option's price. */
  function Surcharge(option: Option<DeliveryOption>): (r: int)
    ensures r == (if option.Some? then option.value.price else 0)
  {
    if option.Some? && option.value.price != 0 then option.value.price else 0
  }

  function Min(a: int, b: int): int {
    if a <= b then a else b
  }

  /** The total `calcTotal` sets once the quantity is at least 1: the goods
      are charged for at most the stock limit, and nothing when the unit price
      is absent or zero; the surcharge is added in every case. */
  function OrderTotal(quantity: int, quantityLimit: int, unitPrice: Option<int>, surcharge: int): (r: int)
    requires quantity >= 1
    ensures r == Min(quantity, quantityLimit) * unitPrice.GetOr(0) + surcharge
  {
    var goods :=
      if unitPrice.Some? && unitPrice.value != 0 then
        if quantity <= quantityLimit then quantity * unitPrice.value else quantityLimit * unitPrice.value
      else 0;
    goods + surcharge
  }

  /** Ordering more never costs less, and ordering beyond the stock costs the
      same as ordering the whole stock. */
  lemma OrderTotalClamped(q1: int, q2: int, quantityLimit: int, unitPrice: int, surcharge: int)
    requires 1 <= q1 <= q2 && unitPrice >= 0
    ensures OrderTotal(q1, quantityLimit, Some(unitPrice), surcharge) <= OrderTotal(q2, quantityLimit, Some(unitPrice), surcharge)
    ensures q1 >= quantityLimit ==>
      OrderTotal(q1, quantityLimit, Some(unitPrice), surcharge) == OrderTotal(q2, quantityLimit, Some(unitPrice), surcharge)
  {
    assert Min(q1, quantityLimit) <= Min(q2, quantityLimit);
  }

  /** Worked examples of the total: three units of 100 with a surcharge of
      10 come to 310; seven units against a stock of five come to 510; without
      a unit price only the surcharge is charged. */
  lemma OrderTotalExamples()
    ensures OrderTotal(3, 5, Some(100), Surcharge(Some(DeliveryOption(Courier, "1 day", 10)))) == 310
    ensures OrderTotal(7, 5, Some(100), 10) == 510
    ensures OrderTotal(2, 5, None, 10) == 10
  {
  }

  /** The months an agreement runs: those of the chosen period, or 12 when
      the value names no period (`selectedPeriod?.months || 12`). */
  function AgreementMonths(period: string): (r: int)
    ensures r > 0
    ensures forall p :: period == PeriodValue(p) ==> r == PeriodMonths(p)
    ensures (forall p :: period != PeriodValue(p)) ==> r == 12
  {
    PeriodTableContents();
    PeriodTableOrdered();
    var selected := FindPeriod(PeriodOptions, period);
    if selected.Some? && selected.value.months != 0 then selected.value.months else 12
  }

  /** The default period of the form, "1_year", runs as long as the fallback. */
  lemma DefaultPeriodRunsAYear()
    ensures AgreementMonths("1_year") == 12 == AgreementMonths("")
  {
    assert PeriodValue(OneYear) == "1_year";
  }

  /** A calendar date as JavaScript's `Date` keeps it: the year, the month
      counted from 0 and the rest of the instant within the month. */
  datatype CalendarDate = CalendarDate(year: int, month: int, withinMonth: int)

  /** `d.setMonth(d.getMonth() + months)`: the month index overflows into the
      year in both directions and the rest of the date is kept. */
  function AddMonths(d: CalendarDate, months: int): (r: CalendarDate)
    requires 0 <= d.month < 12
    ensures 0 <= r.month < 12
    ensures r.year * 12 + r.month == d.year * 12 + d.month + months
    ensures r.withinMonth == d.withinMonth
  {
    var total := d.year * 12 + d.month + months;
    CalendarDate(total / 12, total % 12, d.withinMonth)
  }

  /** Adding months twice is adding their sum. */
  lemma AddMonthsTwice(d: CalendarDate, a: int, b: int)
    requires 0 <= d.month < 12
    ensures AddMonths(AddMonths(d, a), b) == AddMonths(d, a + b)
  {
    var x := AddMonths(AddMonths(d, a), b);
    var y := AddMonths(d, a + b);
    MonthIndexDetermines(x, y);
  }

  /** Two dates with a month in range and the same month count are equal. */
  lemma MonthIndexDetermines(x: CalendarDate, y: CalendarDate)
    requires 0 <= x.month < 12 && 0 <= y.month < 12
    requires x.year * 12 + x.month == y.year * 12 + y.month && x.withinMonth == y.withinMonth
    ensures x == y
  {
  }

  /** `ends_at` of a new agreement: every period ends the same month of a
      later year or a later month, and a whole number of years keeps the
      month. */
  lemma AgreementEndDate(now: CalendarDate, period: AgreementPeriod)
    requires 0 <= now.month < 12
    ensures AddMonths(now, AgreementMonths(PeriodValue(period))).year >= now.year
    ensures period == OneYear ==> AddMonths(now, AgreementMonths(PeriodValue(period))) == now.(year := now.year + 1)
    ensures period == TwoYears ==> AddMonths(now, AgreementMonths(PeriodValue(period))) == now.(year := now.year + 2)
  {
    var r := AddMonths(now, AgreementMonths(PeriodValue(period)));
    if period == OneYear {
      MonthIndexDetermines(r, now.(year := now.year + 1));
    } else if period == TwoYears {
      MonthIndexDetermines(r, now.(year := now.year + 2));
    }
  }
}
