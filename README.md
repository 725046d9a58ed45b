# Ordify storefront: a verified model of its front-end rules

Ordify is an Angular storefront. Customers browse products, order one with a delivery option, and pay by card. A first order signs a supply agreement, and the customer receives a client token for later orders. Administrators edit products and look at customers.

This project models in Dafny the parts of the front end that follow exact rules:

- the order page: its validators, pricing, and checkout state machine;
- the client-token store;
- the authentication state, the role guard and the two HTTP interceptors;
- the sign-in form;
- the admin product editor's delivery-option management;
- the admin customer page;
- the label and band lookups of the product card and the payment page.

Each TypeScript file becomes one Dafny module, in the file's own style:

- Pure code (models, lookups, validators, the guard's decision, header rewriting) becomes datatypes, functions and lemmas.
- Components and services whose signals or fields change become classes. Their methods carry `modifies` frames and the invariants they preserve (`Valid()`).
- Every HTTP request a component sends is a method result, and every `next`/`error` callback is a method taking the reply as a parameter.
- Browser storage is the `Storage.LocalStorage` class. The current instant is a parameter.
- Prices are integers in the smallest currency unit.
- Strings are `seq<char>`. Regular expressions become predicates on characters.

Files:

| file | models |
|---|---|
| wrappers.dfy | Option/Result, JavaScript truthiness, `startsWith` and `includes` |
| http.dfy | request, reply and error shapes; `err.error?.message \|\| fallback` |
| storage.dfy | `localStorage` |
| product_model.dfy | src/app/models/product.model.ts |
| agreement_model.dfy | src/app/models/agreement.model.ts |
| agreement_service.dfy | src/app/services/agreement.service.ts |
| auth_service.dfy | src/app/services/auth.service.ts |
| role_guard.dfy | src/app/has-role.guard.ts |
| auth_interceptor.dfy | src/app/interceptors/auth.interceptor.ts |
| error_interceptor.dfy | src/app/interceptors/error.interceptor.ts |
| product_item.dfy | src/app/components/product-item/product-item.component.ts |
| payment_page.dfy | src/app/pages/payment-page/payment-page.component.ts |
| customer_details.dfy | src/app/pages/admin/admin-customer-details-page/admin-customer-details-page.component.ts |
| auth_page.dfy | src/app/pages/auth-page/auth-page.component.ts |
| product_details.dfy | src/app/pages/admin/admin-product-details-page/admin-product-details-page.component.ts |
| order_rules.dfy | the pure rules of src/app/pages/order-page/order-page.component.ts |
| order_page.dfy | the state of src/app/pages/order-page/order-page.component.ts |

Three methods are scenarios over the modelled methods, not functions of the application, and have no row in the table: `AgreementServices.SaveThenClear`, `OrderPage.ReturningCustomerFlow` and `OrderPage.NewCustomerMustFillTheForm`.

Three behaviours of the code that a reader might not expect; the model follows the code:

- The order page declares the step type `"review" | "payment" | "success"` (src/app/pages/order-page/order-page.component.ts:42) but never sets its `success` step. A successful payment navigates to `/order/payment/success` instead, and `OrderPage.OrderPageComponent.Valid` records that the step is never reached.
- `switchToReturningCustomer` with no stored token sets the mode to returning but leaves `hasExistingToken` false. `onPlaceOrder` then takes the new-customer path.
- A failed resend after a successful refresh hands back the original 401, because the `catchError` after `switchMap` catches both failures (`AuthInterceptor.ResendOutcome`).

## Model

| member | source | states |
|---|---|---|
| Wrappers.ContainsAt | src/app/interceptors/error.interceptor.ts:11 | `includes` holds when the part occurs at some offset |
| Wrappers.NotContainsMissingChar | src/app/interceptors/error.interceptor.ts:11 | `includes` fails when a character of the part never occurs in the string |
| Http.ServerMessageOr | src/app/pages/order-page/order-page.component.ts:471-473 | the server's message when the error body has a truthy `message`, the fallback otherwise |
| Storage.LocalStorage.GetItem | src/app/services/agreement.service.ts:39 | the stored value exactly when the key is present, null otherwise |
| Storage.LocalStorage.SetItem | src/app/services/agreement.service.ts:49 | the key maps to the value and every other key is kept |
| Storage.LocalStorage.RemoveItem | src/app/services/agreement.service.ts:64 | the key is gone and every other key is kept |
| ProductModel.WayNameInjective | src/app/models/product.model.ts:18-22 | the three enum members have distinct string values |
| ProductModel.AllWaysEnumeratesTheEnum | src/app/models/product.model.ts:18-22 | `Object.values` lists exactly the three members, each once |
| ProductModel.NewDeliveryOptionDefaults | src/app/models/product.model.ts:43-53 | a new option keeps its way, has period "immediate" and price 0, and the default way is PICKUP |
| ProductModel.DefaultProductShape | src/app/models/product.model.ts:30-41 | a default product has exactly the default PICKUP option, price 0, quantity 1 and empty texts |
| AgreementModel.FindPeriod | src/app/pages/order-page/order-page.component.ts:400-402 | the first table entry with the given literal, or none exactly when no entry has it |
| AgreementModel.PeriodTableContents | src/app/models/agreement.model.ts:50-55 | four entries, and a lookup of each period gives its label and 3, 6, 12 or 24 months |
| AgreementModel.PeriodValueInjective | src/app/models/agreement.model.ts:42 | distinct periods have distinct literals, so a lookup by literal is unambiguous |
| AgreementModel.PeriodTableOrdered | src/app/models/agreement.model.ts:50-55 | each period appears once; month counts are positive and strictly increasing |
| AgreementServices.AgreementService.constructor | src/app/services/agreement.service.ts:16-19 | the holder takes the stored token only if it is non-empty; no agreement; holder and storage agree |
| AgreementServices.AgreementService.LoadStoredToken | src/app/services/agreement.service.ts:38-43 | a truthy stored token is published; otherwise the holder is unchanged |
| AgreementServices.AgreementService.GetClientToken | src/app/services/agreement.service.ts:56-58 | the held token; while the holder mirrors storage it is the stored token, and a non-empty stored token is always held |
| AgreementServices.AgreementService.HasClientToken | src/app/services/agreement.service.ts:72-74 | true exactly when a non-empty token is held |
| AgreementServices.AgreementService.SaveClientToken | src/app/services/agreement.service.ts:48-51 | storage holds the token under `ordify_client_token`, and `getClientToken` returns it |
| AgreementServices.AgreementService.ClearClientToken | src/app/services/agreement.service.ts:63-67 | no stored entry, no token, no agreement |
| AgreementServices.AgreementService.OnValidateTokenReply | src/app/services/agreement.service.ts:104-116 | the agreement is published only when the reply says valid |
| AgreementServices.AgreementService.ValidateStoredToken | src/app/services/agreement.service.ts:121-127 | no request exactly when no non-empty token is held; otherwise it validates that token |
| AgreementServices.AgreementService.GetTokenHeaders | src/app/services/agreement.service.ts:165-171 | `x-client-token` is present exactly when a token is held, carries it, and is the only header |
| AuthServices.AuthService.constructor | src/app/services/auth.service.ts:20-21 | not signed in, not loading |
| AuthServices.AuthService.OnLoginReply | src/app/services/auth.service.ts:36-39 | the access token is stored and the session is on |
| AuthServices.AuthService.OnLogoutReply | src/app/services/auth.service.ts:47-50 | the access token is removed and the session is off |
| AuthServices.AuthService.OnRefreshReply | src/app/services/auth.service.ts:54-66 | success turns the session on, a 401 turns it off, another error leaves it; the reply passes on unchanged |
| AuthServices.AuthService.CheckAuth | src/app/services/auth.service.ts:68-69 | loading starts |
| AuthServices.AuthService.OnCheckAuthReply | src/app/services/auth.service.ts:68-76 | the refresh effect, the new token stored on success only, and loading ends whatever the outcome |
| AuthServices.AuthService.GetUserRole | src/app/services/auth.service.ts:78-80 | USER exactly when signed in, CUSTOMER otherwise |
| RoleGuard.SomeRoleMatches | src/app/has-role.guard.ts:17 | `some` holds exactly when the role is in the list |
| RoleGuard.Decide | src/app/has-role.guard.ts:11-24 | waits while loading; allows exactly the listed roles; otherwise redirects to "products" |
| RoleGuard.HasRoleGuard | src/app/has-role.guard.ts:7-26 | waits exactly while the auth status loads; afterwards allows exactly the listed roles and otherwise redirects to "products" |
| RoleGuard.EmptyRolesDeny | src/app/has-role.guard.ts:17 | an empty role list never allows |
| RoleGuard.AdminRoutesNeedSession | src/app/app.routes.ts:30-37 | on a `[USER]` route the guard admits exactly a signed-in session |
| AuthInterceptor.BearerRoundTrip | src/app/interceptors/auth.interceptor.ts:20 | the Bearer value reads back as its token |
| AuthInterceptor.AuthRequest | src/app/interceptors/auth.interceptor.ts:13-28 | credentials always; a Bearer header exactly for a truthy token; url and other headers kept |
| AuthInterceptor.AuthRequestIdempotent | src/app/interceptors/auth.interceptor.ts:13-28 | passing a request through twice equals once |
| AuthInterceptor.OtherRepliesPassThrough | src/app/interceptors/auth.interceptor.ts:42-64 | a success or a non-401 error passes unchanged, with no refresh and the flag kept |
| AuthInterceptor.UnauthorizedRefreshesOnce | src/app/interceptors/auth.interceptor.ts:42-60 | a first 401 refreshes once; success resends with the new Bearer token and clears the flag; failure rethrows the original 401 and keeps the flag set |
| AuthInterceptor.InterceptAsWritten | src/app/interceptors/auth.interceptor.ts:36-67 | the original request goes first; one refresh exactly for a 401 while the flag is clear; a resend exactly after a successful refresh; the caller gets the first or the resent reply, never the refresh error; the flag ends set exactly when it was set and no refresh ran, or a refresh failed |
| AuthInterceptor.StuckAfterFailedRefresh | src/app/interceptors/auth.interceptor.ts:42-60 | after a failed refresh, a later 401 is not refreshed even when a refresh would succeed |
| AuthInterceptor.InterceptPerRequest | src/app/interceptors/auth.interceptor.ts:42-60 | the same trace as the code as written, but a call that starts with the flag clear always leaves it clear |
| AuthInterceptor.EveryUnauthorizedGetsOneRefresh | src/app/interceptors/auth.interceptor.ts:42-60 | with the flag cleared on failure too, the flag is never left set and every 401 gets one refresh |
| AuthInterceptor.AuthResponseInterceptor.constructor | src/app/interceptors/auth.interceptor.ts:32-34 | the flag starts cleared |
| AuthInterceptor.AuthResponseInterceptor.Intercept | src/app/interceptors/auth.interceptor.ts:36-67 | trace and flag as the as-written function gives; refresh effects on the session and on the stored token |
| ErrorInterceptor.Silenced | src/app/interceptors/error.interceptor.ts:11-13 | only 400s and 401s are left to the caller: every 401, and a 400 exactly when the URL contains "/auth" |
| ErrorInterceptor.ReportMessage | src/app/interceptors/error.interceptor.ts:16-18 | the body's truthy `message`, otherwise the error's own message |
| ErrorInterceptor.HandleAsWritten | src/app/interceptors/error.interceptor.ts:10-20 | as written: a TypeError exactly for an error that is not silenced and has no body; otherwise the original error is rethrown, and `ReportMessage` is reported exactly for an error that is not silenced and has a body |
| ErrorInterceptor.NullBodyLosesTheError | src/app/interceptors/error.interceptor.ts:16-18 | a 500 with no body is not reported, and the caller gets a TypeError |
| ErrorInterceptor.Handle | src/app/interceptors/error.interceptor.ts:16-18 | the corrected handler of the null-body finding (the body read with `?.`): always rethrows the original error, and reports exactly the errors that are not silenced |
| ErrorInterceptor.HandleClassification | src/app/interceptors/error.interceptor.ts:11-19 | 401s and 400s on "/auth" URLs go unreported; every other error is reported once with `ReportMessage`; the as-written code agrees wherever it does not crash |
| ErrorInterceptor.AuthEndpointsSilenceBadRequest | src/app/interceptors/error.interceptor.ts:11-13 | a 400 on any URL containing "/auth/login" is not reported |
| ProductItem.QuantityCalc | src/app/components/product-item/product-item.component.ts:77-90 | each band is given exactly for its quantity range |
| ProductItem.QuantityCalcMonotone | src/app/components/product-item/product-item.component.ts:77-90 | a larger quantity never gets a lower band |
| ProductItem.IsHasDelivery | src/app/components/product-item/product-item.component.ts:51-56 | true exactly for a single option that is PICKUP |
| ProductItem.PickupOnlyDefaults | src/app/components/product-item/product-item.component.ts:51-56 | a default product is pickup-only; adding any option ends that |
| ProductItem.ProductItemComponent.constructor | src/app/components/product-item/product-item.component.ts:43 | the flag starts false |
| ProductItem.ProductItemComponent.NgOnInit | src/app/components/product-item/product-item.component.ts:49-58 | the flag is set exactly for a single PICKUP option |
| ProductItem.ProductItemComponent.NavigateToOrder | src/app/components/product-item/product-item.component.ts:71-75 | no navigation exactly when the quantity is 0; otherwise to `order/<id>` |
| PaymentPage.DeliveryLabel | src/app/pages/payment-page/payment-page.component.ts:61-68 | fixed labels for the three ways, and any other input unchanged |
| PaymentPage.DeliveryLabelsDistinguishWays | src/app/pages/payment-page/payment-page.component.ts:61-68 | each way's label differs from its raw value and from the other ways' labels |
| PaymentPage.StatusKey | src/app/pages/payment-page/payment-page.component.ts:76 | the lookup key is never empty |
| PaymentPage.PaymentStatusLabel | src/app/pages/payment-page/payment-page.component.ts:70-77 | "Pending" for a missing or empty status, fixed labels for known ones, an unknown status unchanged |
| PaymentPage.PaymentStatusClass | src/app/pages/payment-page/payment-page.component.ts:79-86 | always one of three classes; paid or failed exactly for those statuses |
| PaymentPage.StatusClassFollowsLabel | src/app/pages/payment-page/payment-page.component.ts:70-86 | a known key's class is "status-" plus the key; an unknown key shows as pending with its own label |
| PaymentPage.PaymentPageComponent.constructor | src/app/pages/payment-page/payment-page.component.ts:27-29 | no order, loading, no error |
| PaymentPage.PaymentPageComponent.NgOnInit | src/app/pages/payment-page/payment-page.component.ts:37-55 | requests the order for a truthy id; otherwise loading ends with no order and no error |
| PaymentPage.PaymentPageComponent.OnOrderLoaded | src/app/pages/payment-page/payment-page.component.ts:42-45 | the order is shown and loading ends |
| PaymentPage.PaymentPageComponent.OnOrderLoadFailed | src/app/pages/payment-page/payment-page.component.ts:46-49 | "Failed to load order details" is shown and loading ends |
| CustomerDetailsPage.AgreementActive | src/app/pages/admin/admin-customer-details-page/admin-customer-details-page.component.ts:85-89 | in force exactly when an agreement is loaded, active, and ends strictly after now |
| CustomerDetailsPage.ActiveAtEarlierInstants | src/app/pages/admin/admin-customer-details-page/admin-customer-details-page.component.ts:88 | an agreement in force now was in force at every earlier instant |
| CustomerDetailsPage.AdminCustomerDetailsPage.constructor | src/app/pages/admin/admin-customer-details-page/admin-customer-details-page.component.ts:32-35 | nothing loaded, loading, no error |
| CustomerDetailsPage.AdminCustomerDetailsPage.NgOnInit | src/app/pages/admin/admin-customer-details-page/admin-customer-details-page.component.ts:44-49 | requests the customer exactly for a truthy id |
| CustomerDetailsPage.AdminCustomerDetailsPage.LoadCustomerData | src/app/pages/admin/admin-customer-details-page/admin-customer-details-page.component.ts:51-55 | loading, waiting on the customer |
| CustomerDetailsPage.AdminCustomerDetailsPage.OnCustomerLoaded | src/app/pages/admin/admin-customer-details-page/admin-customer-details-page.component.ts:56-60 | the customer is kept and the same id's agreement requested; still loading |
| CustomerDetailsPage.AdminCustomerDetailsPage.OnCustomerLoadFailed | src/app/pages/admin/admin-customer-details-page/admin-customer-details-page.component.ts:61-64 | "Customer not found", loading ends, no agreement request |
| CustomerDetailsPage.AdminCustomerDetailsPage.OnAgreementLoaded | src/app/pages/admin/admin-customer-details-page/admin-customer-details-page.component.ts:70-73 | the agreement is kept and loading ends |
| CustomerDetailsPage.AdminCustomerDetailsPage.OnAgreementLoadFailed | src/app/pages/admin/admin-customer-details-page/admin-customer-details-page.component.ts:74-77 | loading ends with no error and the agreement unchanged |
| CustomerDetailsPage.AdminCustomerDetailsPage.IsAgreementActive | src/app/pages/admin/admin-customer-details-page/admin-customer-details-page.component.ts:85-89 | in force exactly when the loaded agreement is active and ends after now |
| AuthPage.AuthPageComponent.constructor | src/app/pages/auth-page/auth-page.component.ts:69-84 | empty fields, registration mode, no messages, not loading |
| AuthPage.AuthPageComponent.ToggleAuth | src/app/pages/auth-page/auth-page.component.ts:78-81 | the mode flips and the server message is cleared |
| AuthPage.AuthPageComponent.UpdateErrorMessage | src/app/pages/auth-page/auth-page.component.ts:98-117 | a missing email outranks everything, then a malformed one; the password length message is set only when the email is fine; with none of these errors both messages are cleared; a branch that sets one message keeps the other |
| AuthPage.AuthPageComponent.OnEmailChange | src/app/pages/auth-page/auth-page.component.ts:44-51 | the email message after a change of the email |
| AuthPage.AuthPageComponent.OnPasswordChange | src/app/pages/auth-page/auth-page.component.ts:44-51 | the password message after a change of the password |
| AuthPage.AuthPageComponent.Login | src/app/pages/auth-page/auth-page.component.ts:125-139 | no request exactly when a control has errors or the page is in registration mode; otherwise the credentials are sent and loading starts |
| AuthPage.AuthPageComponent.OnLoginReply | src/app/pages/auth-page/auth-page.component.ts:140-151 | success signs in and goes to "/products"; a 400 shows "Incorrect email or password"; loading always ends |
| ProductDetailsPage.Without | src/app/pages/admin/admin-product-details-page/admin-product-details-page.component.ts:65-67 | a way is kept exactly when it is in the list and not offered, and the kept ways stay in the order of the list |
| ProductDetailsPage.AvailableComplementsOffered | src/app/pages/admin/admin-product-details-page/admin-product-details-page.component.ts:63-67 | every enum way is available exactly when it is not offered |
| ProductDetailsPage.NothingLeftWhenAllPresent | src/app/pages/admin/admin-product-details-page/admin-product-details-page.component.ts:65-67 | filtering out every listed way leaves nothing |
| ProductDetailsPage.AvailableExtremes | src/app/pages/admin/admin-product-details-page/admin-product-details-page.component.ts:63-67 | nothing is available when all ways are offered; all are available when none is |
| ProductDetailsPage.OptionsArray.constructor | src/app/pages/admin/admin-product-details-page/admin-product-details-page.component.ts:56-58 | the array holds the options, untouched |
| ProductDetailsPage.OptionsArray.Clear | src/app/pages/admin/admin-product-details-page/admin-product-details-page.component.ts:80 | the array is empty |
| ProductDetailsPage.OptionsArray.Push | src/app/pages/admin/admin-product-details-page/admin-product-details-page.component.ts:82-88 | the option is appended |
| ProductDetailsPage.AdminProductDetailsPage.constructor | src/app/pages/admin/admin-product-details-page/admin-product-details-page.component.ts:93-97 | not loaded yet |
| ProductDetailsPage.AdminProductDetailsPage.FillOptions | src/app/pages/admin/admin-product-details-page/admin-product-details-page.component.ts:195-204 | after clear-and-push the array holds exactly the options, in order |
| ProductDetailsPage.AdminProductDetailsPage.OnProductLoaded | src/app/pages/admin/admin-product-details-page/admin-product-details-page.component.ts:49-90 | a fresh, untouched form with the product's values; the offered and available ways partition the enum |
| ProductDetailsPage.AdminProductDetailsPage.AddDeliveryWay | src/app/pages/admin/admin-product-details-page/admin-product-details-page.component.ts:159-177 | a request exactly when an available way is selected; the new option has the defaults and a way not yet offered |
| ProductDetailsPage.AdminProductDetailsPage.DeleteDeliveryWay | src/app/pages/admin/admin-product-details-page/admin-product-details-page.component.ts:179-189 | no request exactly for "PICKUP" |
| ProductDetailsPage.AdminProductDetailsPage.UpdateDeliveryOptions | src/app/pages/admin/admin-product-details-page/admin-product-details-page.component.ts:191-209 | the array holds exactly the returned options in order; offered and available ways are recomputed and stay complementary |
| ProductDetailsPage.AdminProductDetailsPage.Field | src/app/pages/admin/admin-product-details-page/admin-product-details-page.component.ts:147-148 | a control exists exactly for the seven form names |
| ProductDetailsPage.AdminProductDetailsPage.OnProductUpdate | src/app/pages/admin/admin-product-details-page/admin-product-details-page.component.ts:144-153 | the update holds exactly the touched controls, each with its current value |
| OrderRules.MatchDigitRun | src/app/pages/order-page/order-page.component.ts:123-124 | `^\d{lo,hi}$` accepts exactly all-digit strings with a length in range |
| OrderRules.StripWhitespace | src/app/pages/order-page/order-page.component.ts:355 | the result has no whitespace and keeps every other character of the input |
| OrderRules.StripConcat | src/app/pages/order-page/order-page.component.ts:355 | stripping a concatenation strips each part |
| OrderRules.StripKeepsPlainText | src/app/pages/order-page/order-page.component.ts:355 | a string without whitespace is unchanged |
| OrderRules.StripSpace | src/app/pages/order-page/order-page.component.ts:355 | a single whitespace character strips to nothing |
| OrderRules.PhoneValid | src/app/pages/order-page/order-page.component.ts:346-351 | a phone is valid exactly when it is ten ASCII digits |
| OrderRules.CardNumberValid | src/app/pages/order-page/order-page.component.ts:353-359 | valid exactly when the number without whitespace is 13 to 19 ASCII digits; a valid number holds only digits and whitespace |
| OrderRules.ExpMonthValid | src/app/pages/order-page/order-page.component.ts:121 | valid exactly when the month is two digits denoting 1 to 12 |
| OrderRules.ExpYearValid | src/app/pages/order-page/order-page.component.ts:123 | valid exactly when the year is two ASCII digits |
| OrderRules.CvcValid | src/app/pages/order-page/order-page.component.ts:124 | valid exactly when the code is three or four ASCII digits |
| OrderRules.PaymentFormValid | src/app/pages/order-page/order-page.component.ts:114-125 | `required` adds nothing to the patterns: the form is valid exactly when every field passes its pattern |
| OrderRules.ExpMonthIsTwoDigitMonth | src/app/pages/order-page/order-page.component.ts:119-122 | the month pattern accepts exactly "01" to "12" |
| OrderRules.DefaultPaymentFormIsValid | src/app/pages/order-page/order-page.component.ts:114-125 | the prefilled test card passes every payment validator, so the page starts with a payable form |
| OrderRules.DigitFieldsMakeValidForm | src/app/pages/order-page/order-page.component.ts:114-125 | digit fields of the right lengths and a month in range make a valid payment form |
| OrderRules.DigitStringIsCardNumber | src/app/pages/order-page/order-page.component.ts:353-359 | 13 to 19 plain digits are a valid card number |
| OrderRules.CardNumberIgnoresWhitespace | src/app/pages/order-page/order-page.component.ts:353-359 | inserting whitespace anywhere leaves the card's validity unchanged |
| OrderRules.FindDeliveryOption | src/app/pages/order-page/order-page.component.ts:543-548 | the first option of the given way, or none exactly when no option has it |
| OrderRules.FoundOptionHasTheWay | src/app/pages/order-page/order-page.component.ts:543-548 | a found option has the way searched for; nothing is found exactly when the way is not offered |
| OrderRules.Surcharge | src/app/pages/order-page/order-page.component.ts:564 | the option's price, or 0 without an option |
| OrderRules.OrderTotal | src/app/pages/order-page/order-page.component.ts:565-577 | the quantity clamped to the stock, times the unit price (0 if missing), plus the surcharge |
| OrderRules.OrderTotalClamped | src/app/pages/order-page/order-page.component.ts:571-575 | ordering more never costs less; beyond the stock, the total stops growing |
| OrderRules.OrderTotalExamples | src/app/pages/order-page/order-page.component.ts:550-578 | worked examples: 3 × 100 + 10 = 310; 7 against a stock of 5 gives 510; no price gives the surcharge only |
| OrderRules.AgreementMonths | src/app/pages/order-page/order-page.component.ts:400-404 | the chosen period's months, or 12 for an unknown value; always positive |
| OrderRules.DefaultPeriodRunsAYear | src/app/pages/order-page/order-page.component.ts:134 | the default "1_year" runs 12 months, the same as the fallback |
| OrderRules.AddMonths | src/app/pages/order-page/order-page.component.ts:403-404 | the month count grows by exactly the months added; the month stays in range; the rest of the date is kept |
| OrderRules.AddMonthsTwice | src/app/pages/order-page/order-page.component.ts:404 | adding months twice adds their sum |
| OrderRules.MonthIndexDetermines | src/app/pages/order-page/order-page.component.ts:404 | a normalised date is fixed by its month count |
| OrderRules.AgreementEndDate | src/app/pages/order-page/order-page.component.ts:399-404 | the end date is never earlier, and one- and two-year agreements end in the same month one or two years on |
| OrderPage.PatchCustomer | src/app/pages/order-page/order-page.component.ts:215-217 | the shared fields take the customer's values, contact person only if present, and zip is kept |
| OrderPage.PatchLeavesZipEmpty | src/app/pages/order-page/order-page.component.ts:215-217 | a patched form with an empty zip still fails validation |
| OrderPage.OrderPageComponent.CurrentOrder | src/app/pages/order-page/order-page.component.ts:451-457 | the order body carries the total and the way; a missing or zero quantity becomes 1 |
| OrderPage.OrderPageComponent.ProductId | src/app/pages/order-page/order-page.component.ts:459 | the product's id exactly when the product is known and its id is non-empty |
| OrderPage.OrderPageComponent.ProductFormValid | src/app/pages/order-page/order-page.component.ts:108-111 | the way is required; once the product has arrived a valid quantity lies within 1 and the stock, so it is never clamped; before that only the way counts |
| OrderPage.OrderPageComponent.CustomerFormValid | src/app/pages/order-page/order-page.component.ts:98-106 | a disabled form always passes; an enabled valid one has a ten-digit phone and a zip; the emptied form fails |
| OrderPage.OrderPageComponent.constructor | src/app/pages/order-page/order-page.component.ts:98-152 | the initial forms (test card, period "1_year") and signals; the product is whatever the shared `productById$` last held |
| OrderPage.OrderPageComponent.NgOnInit | src/app/pages/order-page/order-page.component.ts:164-183 | fetches the product for a truthy id and validates a stored token if one is held |
| OrderPage.OrderPageComponent.OnProductLoaded | src/app/pages/order-page/order-page.component.ts:167-178 | the total starts at the unit price, and the quantity is bounded by the stock |
| OrderPage.OrderPageComponent.CheckExistingToken | src/app/pages/order-page/order-page.component.ts:188-194 | validates exactly when a non-empty token is held, and fills the token field |
| OrderPage.OrderPageComponent.ValidateClientToken | src/app/pages/order-page/order-page.component.ts:199-207 | an empty token sets "Please enter a token" and sends nothing; any other is sent, with the spinner on and the error cleared |
| OrderPage.OrderPageComponent.OnTokenValidated | src/app/pages/order-page/order-page.component.ts:208-221 | an accepted token: returning mode with its agreement, customer form filled and locked; a refused one changes nothing |
| OrderPage.OrderPageComponent.OnTokenValidationFailed | src/app/pages/order-page/order-page.component.ts:222-227 | "Invalid or expired token", no token, no agreement |
| OrderPage.OrderPageComponent.SwitchToNewCustomer | src/app/pages/order-page/order-page.component.ts:234-242 | new mode with no token or agreement; forms enabled and emptied |
| OrderPage.OrderPageComponent.SwitchToReturningCustomer | src/app/pages/order-page/order-page.component.ts:247-250 | returning mode; the stored token is validated if held; the token path opens only with a validated token |
| OrderPage.OrderPageComponent.OnPlaceOrder | src/app/pages/order-page/order-page.component.ts:362-386 | the token path exactly in returning mode with a validated token; otherwise any invalid form sends nothing and marks all four touched, and valid forms create the customer |
| OrderPage.OrderPageComponent.PlaceOrderWithToken | src/app/pages/order-page/order-page.component.ts:435-478 | an invalid product form or an empty token sends nothing; otherwise the order is sent with the token if the product is known |
| OrderPage.OrderPageComponent.OnCustomerCreated | src/app/pages/order-page/order-page.component.ts:388-414 | the first order, with an agreement ending the chosen months after now, sent exactly when the product is known |
| OrderPage.OrderPageComponent.OnCreateFailed | src/app/pages/order-page/order-page.component.ts:424-428 | loading ends |
| OrderPage.OrderPageComponent.OnOrderWithAgreementCreated | src/app/pages/order-page/order-page.component.ts:416-423 | the order id and the new token are kept, the token is saved, and the page moves to payment |
| OrderPage.OrderPageComponent.OnOrderWithTokenCreated | src/app/pages/order-page/order-page.component.ts:465-469 | the order id is kept and the page moves to payment |
| OrderPage.OrderPageComponent.OnOrderWithTokenFailed | src/app/pages/order-page/order-page.component.ts:470-475 | the server's message or "Failed to create order with token"; loading ends |
| OrderPage.OrderPageComponent.OnConfirmPayment | src/app/pages/order-page/order-page.component.ts:481-502 | an invalid card form or no order ("Order not found") sends nothing; otherwise the order id and the card are sent |
| OrderPage.OrderPageComponent.OnPaymentReply | src/app/pages/order-page/order-page.component.ts:504-510 | navigates to the success page with the order id exactly on success |
| OrderPage.OrderPageComponent.OnPaymentFailed | src/app/pages/order-page/order-page.component.ts:511-516 | the server's message or "Payment failed. Please try again."; loading ends |
| OrderPage.OrderPageComponent.OnBackToReview | src/app/pages/order-page/order-page.component.ts:521-524 | back to review, no payment error, and the created order kept |
| OrderPage.OrderPageComponent.UnitPrice | src/app/pages/order-page/order-page.component.ts:554 | the product's price exactly when the product is known |
| OrderPage.OrderPageComponent.ChargedOption | src/app/pages/order-page/order-page.component.ts:555-562 | the given option, or else the product's option for the chosen way |
| OrderPage.OrderPageComponent.CalcTotal | src/app/pages/order-page/order-page.component.ts:550-578 | unchanged below quantity 1 or when nothing can be looked up; otherwise `OrderTotal` with the option's surcharge |
| OrderPage.OrderPageComponent.OnDeliveryWayChange | src/app/pages/order-page/order-page.component.ts:533-541 | the chosen way's option becomes current and the total is recomputed with its price, or, when the way is not among the options, with the product's option for the way selected in the form; below quantity 1 the total is unchanged; with quantity at least 1 and neither option nor product, `calcTotal` throws, so the total and the current option both stay as they were |

## Left out

- HTTP transport, the backend, and the product, order, customer and payment services. Their replies are method parameters. `createWithAgreement` and `createWithToken` are not part of this model's sources, so their request shapes come from the order page's calls.
- Reactive timing: each `next`/`error` callback is one method call. Concurrent requests interleaving on `isRetry` are left out. So is the refresh request passing through the same interceptor again.
- The error interceptor is not registered in src/app/app.config.ts. The model describes the function as written, whether or not it is installed.
- Date arithmetic: `setMonth` is modelled on the month count. The day-of-month overflow (31 January plus one month) and time zones are left out. "Now" is a parameter.
- Prices and quantities are integers. Floating point and non-numeric input are left out. An empty quantity input (null) behaves as 0, as `null < 1` does in JavaScript.
- A reset form control holds `null`, and a control built from a product without its optional `description` holds `undefined`. The model uses the empty string for a missing or reset value, which every validator here treats the same way.
- `Validators.email` is an input (`emailWellFormed`). `required` and `minLength(4)` are derived from the values.
- The label tables are plain object literals. Prototype keys such as "constructor" that they would also match are left out.
- The order page's `updateErrorMessages`, `copyToken`, the clipboard and the snack bar, the customer-form error messages, and which message the template shows are left out. `markFormGroupTouched` is modelled only as the set of touched forms.
- The auth page's `ngOnInit` subscription (navigate to "" once signed in), `consoleInput` and `clickEvent` are left out.
- `AuthService.register` (src/app/services/auth.service.ts:25-30), which no page calls, is left out.
- The admin product page's `confirmCancelDialog`, `toggleIsImgInputDisplay` and the navigation after an update are left out. Which controls are touched is an input, set by the template.
- The agreement service's `getAll`, `getById`, `getByCustomer`, `create`, `deactivate` and `renew` are plain HTTP calls and are left out.
- Lengths are counted in characters, not UTF-16 code units. `Validators.minLength(4)` on the password counts code units, so a password of two characters outside the Basic Multilingual Plane passes in the page but fails `AuthPage.AuthPageComponent.PasswordLengthError`.
- src/app/roles.ts is not part of this model. `Role` is the two members the source uses (USER, CUSTOMER).
- OrderPage.OrderPageComponent.CalcTotal: when no option is given and the product is unknown, the source throws a TypeError. The model leaves the total unchanged and does not model the exception.
- OrderPage.OrderPageComponent.OnDeliveryWayChange: the same TypeError, raised by its `calcTotal` call, ends the handler before the option is set. The model leaves the total and the current option unchanged and does not model the exception reaching the template.

## Findings

| source | as written | input that shows it | evidently intended | confidence | as-written member | corrected member |
|---|---|---|---|---|---|---|
| src/app/interceptors/error.interceptor.ts:16-18 | `error.error.message` dereferences the error body without a null check | a 500 reply with no body (`error.error` is null) to "/products" | report `error.message` and rethrow the original error, as `error.error?.message` would | high; not executed | ErrorInterceptor.NullBodyLosesTheError | ErrorInterceptor.HandleClassification |
| src/app/interceptors/auth.interceptor.ts:42-60 | `isRetry` is cleared only after a successful refresh | a 401 whose refresh fails, then a later 401 on another request that a refresh would fix | one refresh attempt per failed request, so the flag is cleared after a failed refresh too | medium; not executed | AuthInterceptor.StuckAfterFailedRefresh | AuthInterceptor.EveryUnauthorizedGetsOneRefresh |
