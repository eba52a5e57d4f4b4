# Checkout wizard — a verified model

This project models the decision logic of a four-step checkout wizard
(account, shipping, payment, review, then a success page) written as a React
application: the step registry and navigation, the shipping and payment field
rules, the form engine that every step uses, the session store with its
browser-storage persistence, the controller logic of each step, and the card
formatters. Each piece is stated in Dafny and proved against the promises the
code makes.

Modules, one per source file (plus three shared ones):

- `Wrappers` — `Option` and `Remote` (`Ok(response)` or `Err(message?)`), the
  outcome of a call to the checkout service.
- `Text` — the string operations the code uses: stripping non-digits,
  `includes`, ASCII `toUpperCase`, `trim`.
- `StepNavigation`, `CheckoutNavigation`, `StepIndicator` — the step table,
  next/previous moves, navigation targets and the "step n" label.
- `Validation`, `ShippingSchema`, `PaymentSchema`, `AccountSchema` — fields,
  records, issues, and the schemas as functions from a record to the ordered
  issues zod would report.
- `FormEngine` — the `useForm` hook: a `Form` class with `values`, `errors`
  and `touched`, each handler proved against a function on the form state.
- `CheckoutStore`, `CheckoutPersistence` — the store class with its four
  slots; browser storage as a class over a map; the load and save effects.
- `AccountStep`, `ShippingStep`, `PaymentStep`, `ReviewStep`, `SuccessPage` —
  the step controllers as classes over the form and the store.
- `Formatters` — `formatCardNumber` and `maskCardNumber`.

Modelling choices:

- Form values and the data committed to the store are records
  `map<Field, string>`: the steps hand the raw form values to the store, and
  the store hands them to storage. An absent key is `undefined`.
- A schema is a function from a record to a sequence of `Issue(field,
  message)` in the order zod reports them. A required key that is absent
  gives zod's default message "Required".
- `touched` only ever holds `true`, so it is a set of fields.
- Every asynchronous call is split at the `await`: the service's answer is a
  `Remote` parameter, and the method performs the state updates that follow
  it. The email check is split into `BeginEmailCheck` and
  `CompleteEmailCheck` so the in-flight state is visible.
- Navigation is the path a handler navigates to, `None` when it issues none.
- Effects are methods the caller runs at the point React would: the shipping
  quote effect (`ShippingStep.ShippingStep.RunQuoteEffect`) once after the
  constructor and again whenever a keystroke changes one of its dependencies
  (`HandleFieldChange` does the latter itself); the storage load effect
  (`CheckoutPersistence.Load`) once on mount and the save effect after each
  change of a step slot.
- Prices are integer cents: 599, 1299 and 2499.
- The error summaries are multisets: the order of JavaScript object keys is
  not modelled.
- The account schema's source file is not part of this model. The account step
  takes the schema as a parameter. `AgreesWithSchemaTests` states the five
  examples its tests check (tests/unit/schemas.test.ts), and one password
  policy is proved to meet them.

Where the code does something other than one might expect, the model follows
the code:

- The review step never looks at the `authorized` flag of the authorisation
  response: any answer that is not an error goes on to create the order
  (`ReviewStep.DeclinedAuthorisationStillOrders`).
- `handleNewOrder` on the success page resets the store and never calls the
  storage clear function. The persistence hook is mounted for the whole app
  (src/app/App.tsx:7), so its save effect then writes the null slots over the
  saved draft, and a reload restores nothing
  (`SuccessPage.NewOrderThenReload`).
- `validateAll` writes every issue in turn, so a later issue for a field
  overwrites an earlier one; `handleChange` reports the first. With the
  shipping and payment schemas, which name no field twice, the two agree
  (`FormEngine.LastIsFirstWhenDistinct`).
- `validateAll` on an invalid object replaces `touched` by the keys of
  `values`; it does not merge.
- An edit of the email leaves a standing email-check error in place, so the
  account step stays blocked until another check succeeds.
- The shipping step restores the saved option id after a quote without
  checking that the new quote offers it.
- The shipping quote is triggered by address, city, state and ZIP code only;
  the names play no part.
- The review cost is the standard price for any id other than `overnight`
  and `express`, and for no id at all.

## Model

| member | source | states |
|---|---|---|
| StepNavigation.IndexOf | src/features/checkout/utils/stepNavigation.ts:18-30 | -1 exactly when the step is absent; otherwise the first index holding it |
| StepNavigation.NextStep | src/features/checkout/utils/stepNavigation.ts:17-22 | None exactly for review; otherwise the step whose index in the order is one higher |
| StepNavigation.PrevStep | src/features/checkout/utils/stepNavigation.ts:24-27 | None exactly for account; otherwise the step whose index in the order is one lower |
| StepNavigation.StepNumber | src/features/checkout/utils/stepNavigation.ts:29-31 | the number is in 1..4 and the order holds the step at position number-1 |
| StepNavigation.StepOrderIsComplete | src/features/checkout/utils/stepNavigation.ts:10-15 | the order has four entries, contains every step and repeats none |
| StepNavigation.StepPathsDistinct | src/features/checkout/utils/stepNavigation.ts:3-8 | different steps have different paths; account's path is /checkout |
| StepNavigation.NextStepChain | src/features/checkout/utils/stepNavigation.ts:17-27 | account, shipping, payment, review follow each other; review has no next and account no previous |
| StepNavigation.PrevOfNext | src/features/checkout/utils/stepNavigation.ts:17-27 | next then previous, and previous then next, return to the starting step |
| StepNavigation.StepNumbersAreOneToFour | src/features/checkout/utils/stepNavigation.ts:29-31 | the numbers are 1, 2, 3, 4 in order and pairwise distinct |
| CheckoutNavigation.GoToNext | src/features/checkout/hooks/useCheckoutNavigation.ts:12-17 | no navigation exactly from review; otherwise the next step's path |
| CheckoutNavigation.GoToPrev | src/features/checkout/hooks/useCheckoutNavigation.ts:19-24 | no navigation exactly from account; otherwise the previous step's path |
| CheckoutNavigation.GoToStep | src/features/checkout/hooks/useCheckoutNavigation.ts:26-28 | always one navigation, and its path belongs to the chosen step and to no other |
| CheckoutNavigation.GoToStepAgreesWithMoves | src/features/checkout/hooks/useCheckoutNavigation.ts:12-28 | going to the next (previous) step directly lands where the next (previous) move does |
| CheckoutNavigation.HasNext | src/features/checkout/hooks/useCheckoutNavigation.ts:34 | false exactly for review |
| CheckoutNavigation.HasPrev | src/features/checkout/hooks/useCheckoutNavigation.ts:35 | false exactly for account |
| CheckoutNavigation.NavigationFollowsNumbering | src/features/checkout/hooks/useCheckoutNavigation.ts:12-24 | moving forward reaches the step numbered one higher, moving back the one numbered one lower |
| StepIndicator.CurrentStep | src/features/checkout/components/StepIndicator.tsx:8-13 | the number is in 1..4; a path containing /shipping gives 2; 1 exactly when none of the three names occurs |
| StepIndicator.GoToStepShowsItsNumber | src/features/checkout/components/StepIndicator.tsx:9-12 | after going to a step, the indicator's label is that step's number |
| StepIndicator.CurrentStepOfStepPath | src/features/checkout/components/StepIndicator.tsx:9-12 | on every step's own path the label equals the registry's step number |
| StepIndicator.ShippingTestedFirst | src/features/checkout/components/StepIndicator.tsx:9-11 | "/checkout/shipping/review" gives 2, because /shipping is tested before /review, and "/checkout/payment" gives 3 |
| Text.DigitsOnly | src/features/checkout/pages/PaymentStep.tsx:38 | the result has only digits and is no longer than the input |
| Text.DigitsOnlyAppend | src/features/checkout/pages/PaymentStep.tsx:38 | stripping a concatenation strips each part |
| Text.DigitsOnlyOfDigits | src/features/checkout/pages/PaymentStep.tsx:38 | a digit string is kept as it is |
| Text.DigitsOnlyIdempotent | src/features/checkout/pages/PaymentStep.tsx:112 | the card and CVV sanitiser is idempotent |
| Text.DigitsOnlyCounts | src/features/checkout/pages/PaymentStep.tsx:36-40 | the result holds every digit of the input as often as the input does, and nothing else |
| Text.NotContainsByChar | src/features/checkout/components/StepIndicator.tsx:9-11 | a string lacking a character of the searched part does not contain it |
| Text.ToUpper | src/features/checkout/pages/ShippingStep.tsx:129 | same length; every character is upper-cased one by one |
| Text.TrimStart | src/features/checkout/utils/formatters.ts:9 | the result is a suffix of the input, starts with no whitespace, and everything removed was whitespace |
| Text.TrimEnd | src/features/checkout/utils/formatters.ts:9 | the result is a prefix of the input, ends with no whitespace, and only whitespace was removed |
| Text.TrimKeepsDigits | src/features/checkout/utils/formatters.ts:9 | `trim` keeps exactly the input's digits, in order |
| Text.Trim | src/features/checkout/utils/formatters.ts:9 | the result is a slice of the input with only whitespace before and after it, and neither starts nor ends with whitespace |
| Validation.FirstIssueFor | src/features/checkout/pages/useForm.ts:38 | None exactly when no issue names the field; otherwise the message of the first issue naming it |
| Validation.FirstIssueForAppend | src/features/checkout/pages/useForm.ts:38 | searching a concatenation searches the first part first |
| Validation.CollectPerKey | src/features/checkout/schemas/shippingSchema.ts:3-16 | when keys are distinct and each key's rules report at most one issue about that key, the issue found for a field is that field's own rule's, and no field is named twice |
| ShippingSchema.ShippingFieldIssues | src/features/checkout/schemas/shippingSchema.ts:4-15 | each key reports at most one issue, about that key |
| ShippingSchema.ShippingRulesWellFormed | src/features/checkout/schemas/shippingSchema.ts:3-16 | the keys are distinct and every key's rules are mutually exclusive |
| ShippingSchema.ShippingFieldRule | src/features/checkout/schemas/shippingSchema.ts:4-15 | each key's rule on its own gives the expected message |
| ShippingSchema.ShippingIssueIsFieldRule | src/features/checkout/schemas/shippingSchema.ts:3-16 | the issue reported for each field is its own rule's: names, address and city fail exactly when empty; state exactly when its length is not 2, "State is required" when short and "State must be 2 characters" when long; ZIP exactly when it misses the pattern; selectedOption never; a missing key gives "Required" |
| ShippingSchema.ShippingValidIff | src/features/checkout/schemas/shippingSchema.ts:3-16 | the schema reports nothing exactly when every field rule holds |
| ShippingSchema.StateTooLongExample | src/features/checkout/schemas/shippingSchema.ts:8-11 | "NEW YORK" is rejected as too long |
| ShippingSchema.ZipCodeExamples | src/features/checkout/schemas/shippingSchema.ts:12-14 | "10001-1234" and "10001" pass, "123" fails |
| PaymentSchema.IsExpiryMeansMonthSlashYear | src/features/checkout/schemas/paymentSchema.ts:8-10 | the expiry pattern is two digits naming a month 1..12, a slash, and two digits |
| PaymentSchema.PaymentFieldIssues | src/features/checkout/schemas/paymentSchema.ts:4-13 | each key reports at most one issue, about that key |
| PaymentSchema.PaymentRulesWellFormed | src/features/checkout/schemas/paymentSchema.ts:3-14 | the keys are distinct and each has a single check |
| PaymentSchema.PaymentFieldRule | src/features/checkout/schemas/paymentSchema.ts:4-13 | each key's check on its own gives the expected message |
| PaymentSchema.PaymentIssueIsFieldRule | src/features/checkout/schemas/paymentSchema.ts:3-14 | the issue reported for each field is its fixed message exactly when its check fails (16 digits, non-empty name, MM/YY, 3 or 4 digits) |
| PaymentSchema.PaymentValidIff | src/features/checkout/schemas/paymentSchema.ts:3-14 | the schema reports nothing exactly when every check holds |
| PaymentSchema.PaymentExamples | src/features/checkout/schemas/paymentSchema.ts:4-13 | "4111" fails and 16 digits pass; "13/25" and "00/25" fail and "12/25" passes; "123" and "1234" pass as CVV |
| AccountSchema.PolicyIssuesOfPair | tests/unit/schemas.test.ts:6-61 | on an email-and-password record the policy reports the email's issue, then the password's |
| AccountSchema.PolicyPasswordVerdicts | tests/unit/schemas.test.ts:6-61 | the policy accepts the valid account and rejects the passwords without an upper-case letter or a digit |
| AccountSchema.PolicyBadEmailMessage | tests/unit/schemas.test.ts:17-28 | a rejected email is reported first, with "Invalid email" in its message |
| AccountSchema.PolicyShortPasswordFirst | tests/unit/schemas.test.ts:30-41 | next to an accepted email, any password under 8 characters is reported first for its length |
| AccountSchema.PolicyShortPasswordMessage | tests/unit/schemas.test.ts:30-41 | the short test password's first message contains "at least 8 characters" |
| AccountSchema.PolicyAgreesWithSchemaTests | tests/unit/schemas.test.ts:6-61 | with an email check that accepts the valid address and rejects "not-an-email", the policy meets all five schema examples |
| FormEngine.ChangeTouchesOneField | src/features/checkout/pages/useForm.ts:19-53 | a change stores exactly the new value; the field's error becomes the first issue for it or disappears; other errors and touched are unchanged |
| FormEngine.ChangeIdempotent | src/features/checkout/pages/useForm.ts:19-53 | the same change twice equals it once |
| FormEngine.BlurOnlyTouches | src/features/checkout/pages/useForm.ts:56-59 | a blur adds only the field to touched and keeps values and errors |
| FormEngine.LastMessagesSpec | src/features/checkout/pages/useForm.ts:68-72 | the error map's keys are the fields the issues name; each maps to the message of the last issue naming it |
| FormEngine.ValidateAllAccepts | src/features/checkout/pages/useForm.ts:61-65 | on a valid object: true, no errors, touched unchanged |
| FormEngine.ValidateAllRejects | src/features/checkout/pages/useForm.ts:66-82 | on an invalid object: false, errors for exactly the named fields with the last issue winning, every key of values touched |
| FormEngine.LastIsFirstWhenDistinct | src/features/checkout/pages/useForm.ts:66-72 | when no field is named twice, validate-all reports per field what a change would |
| FormEngine.CollectErrors | src/features/checkout/pages/useForm.ts:68-72 | the loop builds the last-message-per-field map |
| FormEngine.CollectTouched | src/features/checkout/pages/useForm.ts:76-79 | the loop marks exactly the keys of values |
| FormEngine.Form.constructor | src/features/checkout/pages/useForm.ts:15-17 | the form starts from the initial values with no errors and nothing touched |
| FormEngine.Form.ValidateField | src/features/checkout/pages/useForm.ts:27-54 | only the field's error changes: the first issue for it, or removed |
| FormEngine.Form.HandleChange | src/features/checkout/pages/useForm.ts:19-25 | the new state is the change function applied to the old one |
| FormEngine.Form.HandleBlur | src/features/checkout/pages/useForm.ts:56-59 | the new state is the blur function applied to the old one |
| FormEngine.Form.ValidateAll | src/features/checkout/pages/useForm.ts:61-84 | the answer and the new state are those of the validate-all function |
| FormEngine.Form.HandleSubmit | src/features/checkout/pages/useForm.ts:86-91 | the values are handed over exactly when validate-all succeeds, and unchanged |
| FormEngine.Form.SetFieldValue | src/features/checkout/pages/useForm.ts:93-95 | one value changes; errors and touched do not |
| FormEngine.Form.Reset | src/features/checkout/pages/useForm.ts:97-101 | initial values, no errors, nothing touched |
| FormEngine.SubmitIffValid | src/features/checkout/pages/useForm.ts:86-91 | submission happens exactly when the schema reports nothing, with the values unchanged |
| FormEngine.TouchedErrors | src/features/checkout/pages/ShippingStep.tsx:67-69 | the summary lists an entry exactly for each touched field with an error, with that error, and each entry once |
| CheckoutStore.Store.constructor | src/features/checkout/store/checkoutStore.ts:19-23 | all four slots start null |
| CheckoutStore.Store.SetAccount | src/features/checkout/store/checkoutStore.ts:24 | only the account slot changes |
| CheckoutStore.Store.SetShipping | src/features/checkout/store/checkoutStore.ts:25 | only the shipping slot changes |
| CheckoutStore.Store.SetPayment | src/features/checkout/store/checkoutStore.ts:26 | only the payment slot changes |
| CheckoutStore.Store.SetOrderId | src/features/checkout/store/checkoutStore.ts:27 | only the order id changes |
| CheckoutStore.Store.Reset | src/features/checkout/store/checkoutStore.ts:28 | all four slots become null |
| CheckoutStore.Store.GetState | src/features/checkout/store/checkoutStore.ts:29 | the current slot values, and no change |
| CheckoutPersistence.LocalStorage.constructor | src/lib/storage.ts:7-32 | storage holds the given entries |
| CheckoutPersistence.LocalStorage.Get | src/lib/storage.ts:8-15 | the stored value, or null for a missing key |
| CheckoutPersistence.LocalStorage.Set | src/lib/storage.ts:17-23 | a successful write replaces the key's value; a failed write changes nothing |
| CheckoutPersistence.LocalStorage.Remove | src/lib/storage.ts:25-27 | only that key is removed |
| CheckoutPersistence.Load | src/features/checkout/hooks/useCheckoutPersistence.ts:9-21 | the store becomes the selective restore of what the checkout key holds |
| CheckoutPersistence.Save | src/features/checkout/hooks/useCheckoutPersistence.ts:24-30 | the checkout key is overwritten with exactly account, shipping and payment; a failed write changes nothing |
| CheckoutPersistence.ClearPersistedData | src/features/checkout/hooks/useCheckoutPersistence.ts:33 | only the checkout key is removed |
| CheckoutPersistence.LoadIgnoresNonDrafts | src/features/checkout/hooks/useCheckoutPersistence.ts:10-11 | nothing saved, or a non-object, leaves the session as it was |
| CheckoutPersistence.LoadIsSelective | src/features/checkout/hooks/useCheckoutPersistence.ts:12-19 | loading never writes the order id, and a slot the draft lacks keeps its value |
| CheckoutPersistence.SaveThenLoad | src/features/checkout/hooks/useCheckoutPersistence.ts:9-30 | save then load restores every non-null step slot and keeps the loader's order id |
| CheckoutPersistence.OrderIdNotResurrected | src/features/checkout/hooks/useCheckoutPersistence.ts:24-30 | loading into an empty session never brings an order id back |
| CheckoutPersistence.SaveAndReload | src/features/checkout/hooks/useCheckoutPersistence.ts:9-30 | saving one store and loading into a new one brings back every committed step slot, and no order id |
| AccountStep.CheckCompleted | src/features/checkout/pages/AccountStep.tsx:39-53 | a completed check never shows an error and a status together, and shows no error for an available address |
| AccountStep.SummaryErrors | src/features/checkout/pages/AccountStep.tsx:63-69 | every entry is a touched field's error or the email-check error; every touched field with an error is listed; the email-check error is listed whether or not email was touched; every other entry appears once, and the email-check entry once more if the touched email field has the same error |
| AccountStep.AccountStep.constructor | src/features/checkout/pages/AccountStep.tsx:19-30 | the form starts from the committed account or blank values; no check error or status |
| AccountStep.AccountStep.BeginEmailCheck | src/features/checkout/pages/AccountStep.tsx:39-40 | the error is cleared and the status is "Checking availability..." |
| AccountStep.AccountStep.CompleteEmailCheck | src/features/checkout/pages/AccountStep.tsx:42-53 | unavailable: the service's message and no status; available: "Email is available"; failure: the retry message and no status |
| AccountStep.AccountStep.CheckEmailAvailability | src/features/checkout/pages/AccountStep.tsx:38-54 | the cells end as the completed-check function of the outcome |
| AccountStep.AccountStep.HandleEmailChange | src/features/checkout/pages/AccountStep.tsx:87 | only the form changes; the check's error and status are kept |
| AccountStep.AccountStep.HandleEmailBlur | src/features/checkout/pages/AccountStep.tsx:56-61 | email becomes touched; a check of the current email runs exactly when it is non-empty without a schema error; otherwise the cells are kept |
| AccountStep.SchemaTestsDecideValidation | src/features/checkout/pages/AccountStep.tsx:27-36 | with any schema that meets its tests, validating the valid test account succeeds and the short-password account fails |
| AccountStep.SubmitValidTestAccount | src/features/checkout/pages/AccountStep.tsx:31-35 | submitting the valid test account commits it and moves to shipping |
| AccountStep.SubmitShortPassword | src/features/checkout/pages/AccountStep.tsx:31-35 | submitting the short-password account leaves the store unchanged and stays on the step |
| AccountStep.AccountStep.Submit | src/features/checkout/pages/AccountStep.tsx:31-35 | the account is committed and the step advances exactly when the form validates and no email error shows; otherwise the store is untouched |
| AccountStep.CompletedCheckOutcomes | src/features/checkout/pages/AccountStep.tsx:39-53 | the cells after each kind of answer, and never both an error and a status |
| AccountStep.EditKeepsEmailError | src/features/checkout/pages/AccountStep.tsx:87 | after an edit of the email a standing check error is still listed |
| ShippingStep.AfterQuote | src/features/checkout/pages/ShippingStep.tsx:55-65 | success replaces the options and selects a saved option id; failure changes nothing |
| ShippingStep.Entered | src/features/checkout/pages/ShippingStep.tsx:129 | fields other than the state keep the typed value; the state's value is the typed one upper-cased character by character, with no lower-case ASCII letter left |
| ShippingStep.Committed | src/features/checkout/pages/ShippingStep.tsx:42 | the validated values with the selection added, nothing else changed |
| ShippingStep.ShippingStep.constructor | src/features/checkout/pages/ShippingStep.tsx:22-45 | the form starts from the committed shipping data or blank values; no options, nothing selected |
| ShippingStep.ShippingStep.FetchShippingQuote | src/features/checkout/pages/ShippingStep.tsx:55-65 | the request carries the current values; options and selection follow the quote function |
| ShippingStep.ShippingStep.RunQuoteEffect | src/features/checkout/pages/ShippingStep.tsx:48-53 | a quote is requested exactly when address, city, state and ZIP are filled and error-free |
| ShippingStep.ShippingStep.HandleFieldChange | src/features/checkout/pages/ShippingStep.tsx:48-53 | the form takes the change (state upper-cased); a quote is requested exactly when a dependency changed and the trigger holds |
| ShippingStep.ShippingStep.SelectOption | src/features/checkout/pages/ShippingStep.tsx:159 | only the selection changes |
| ShippingStep.ShippingStep.Submit | src/features/checkout/pages/ShippingStep.tsx:40-44 | shipping data with the selection is committed and the step advances exactly when the form validates and an option is selected; otherwise the store is untouched |
| ShippingStep.QuoteIgnoresNames | src/features/checkout/pages/ShippingStep.tsx:49-50 | changing a name or its error never changes whether a quote is requested |
| ShippingStep.RestoredOptionNeedNotBeOffered | src/features/checkout/pages/ShippingStep.tsx:59-61 | a saved option id is selected even when the new quote does not offer it |
| PaymentStep.FormatExpiry | src/features/checkout/pages/PaymentStep.tsx:42-50 | at most one character longer than the input's digits |
| PaymentStep.FormatExpiryShape | src/features/checkout/pages/PaymentStep.tsx:44-49 | under two digits: those digits and no slash; otherwise two digits, a slash at index 2 and at most two digits, at most 5 long |
| PaymentStep.FormatExpiryKeepsDigits | src/features/checkout/pages/PaymentStep.tsx:42-50 | the digits of the result are the input's first four digits |
| PaymentStep.FormatExpiryIdempotent | src/features/checkout/pages/PaymentStep.tsx:42-50 | formatting a formatted expiry changes nothing |
| PaymentStep.FormatExpiryValidIff | src/features/checkout/pages/PaymentStep.tsx:42-50 | the formatted expiry passes the schema exactly when the input has at least four digits and the first two name a month |
| PaymentStep.FormatExpiryOfFourDigits | src/features/checkout/pages/PaymentStep.tsx:44-49 | four digits become the first two, a slash, and the last two |
| PaymentStep.FormatExpiryExample | src/features/checkout/pages/PaymentStep.tsx:42-50 | "1225" gives "12/25", and formatting that again gives "12/25" |
| PaymentStep.InvalidMonthExample | src/features/checkout/pages/PaymentStep.tsx:42-50 | "1325" gives an expiry the schema rejects |
| PaymentStep.SeparatedGroup | src/features/checkout/pages/PaymentStep.tsx:38 | a separator and a digit group contribute just the group |
| PaymentStep.CardNumberWithSeparators | src/features/checkout/pages/PaymentStep.tsx:36-40 | four groups of four digits with any non-digit separator become the sixteen digits, a valid card number |
| PaymentStep.PaymentStep.constructor | src/features/checkout/pages/PaymentStep.tsx:17-33 | the form starts from the committed payment data or blank values |
| PaymentStep.PaymentStep.HandleCardNumberChange | src/features/checkout/pages/PaymentStep.tsx:36-40 | the form takes the input's digits; the stored card number is all digits |
| PaymentStep.PaymentStep.HandleExpiryChange | src/features/checkout/pages/PaymentStep.tsx:42-50 | the form takes the formatted expiry |
| PaymentStep.PaymentStep.HandleCvvChange | src/features/checkout/pages/PaymentStep.tsx:112 | the form takes the input's digits; the stored CVV is all digits |
| PaymentStep.PaymentStep.Submit | src/features/checkout/pages/PaymentStep.tsx:30-33 | the validated values are committed and the step advances exactly when the form validates; otherwise the store is untouched |
| ReviewStep.ShippingCost | src/features/checkout/pages/ReviewStep.tsx:26-27 | 2499 exactly for overnight, 1299 exactly for express, 599 for any other id or none |
| ReviewStep.FailureMessage | src/features/checkout/pages/ReviewStep.tsx:46-50 | the error's message, or the generic message when there is none |
| ReviewStep.OrderOnlyAfterAuthorisation | src/features/checkout/pages/ReviewStep.tsx:33-41 | authorisation is requested first; an order is requested exactly when it succeeded, carrying shipping, payment and the table's cost |
| ReviewStep.SuccessIffBothSucceed | src/features/checkout/pages/ReviewStep.tsx:43-44 | the order id is written and the step moves to the success page exactly when both calls succeed, with the created order's id |
| ReviewStep.FailureShowsMessage | src/features/checkout/pages/ReviewStep.tsx:45-51 | a failure shows the failing call's message or the generic one; success leaves the error empty |
| ReviewStep.DeclinedAuthorisationStillOrders | src/features/checkout/pages/ReviewStep.tsx:34-44 | an answer with authorized false still leads to the order |
| ReviewStep.ReviewStep.constructor | src/features/checkout/pages/ReviewStep.tsx:24 | no error shown |
| ReviewStep.ReviewStep.BeginPlaceOrder | src/features/checkout/pages/ReviewStep.tsx:30-34 | the error is cleared before the first request, which is the authorisation of the stored payment |
| ReviewStep.ReviewStep.CompletePlaceOrder | src/features/checkout/pages/ReviewStep.tsx:33-51 | the remaining requests, target and error follow the place-order function; the store changes only by the order id, and only on success |
| ReviewStep.ReviewStep.HandlePlaceOrder | src/features/checkout/pages/ReviewStep.tsx:29-52 | requests, target and error follow the place-order function; the store changes only by the order id, and only on success |
| ReviewStep.ReviewStep.HandleRetry | src/features/checkout/pages/ReviewStep.tsx:54-56 | a retry is a full new attempt |
| ReviewStep.FailThenRetry | src/features/checkout/pages/ReviewStep.tsx:29-56 | a failed authorisation then a successful retry ends on the success page with the order id written, after two authorisations and one order |
| SuccessPage.GuardRedirect | src/features/checkout/pages/SuccessPage.tsx:10-14 | navigation to /checkout exactly when the order id is missing or empty; none otherwise |
| SuccessPage.Shown | src/features/checkout/pages/SuccessPage.tsx:21 | the page shows content exactly when no redirect is issued, and then the order id |
| SuccessPage.HandleNewOrder | src/features/checkout/pages/SuccessPage.tsx:16-19 | every store slot becomes null and the target is / |
| SuccessPage.NewOrderThenReload | src/features/checkout/pages/SuccessPage.tsx:16-19 | after a new order the save effect stores an all-null draft, and a reload restores the empty session |
| SuccessPage.NewOrderThenRevisit | src/features/checkout/pages/SuccessPage.tsx:10-19 | after a new order is started, the guard sends the visitor back to /checkout |
| Formatters.GroupDigits | src/features/checkout/utils/formatters.ts:9 | the replacement never shortens the text |
| Formatters.FormatCardNumber | src/features/checkout/utils/formatters.ts:8-10 | the result neither starts nor ends with whitespace |
| Formatters.GroupDigitsKeepsDigits | src/features/checkout/utils/formatters.ts:9 | on any input the replacement keeps exactly the input's digits, in order |
| Formatters.FormatCardNumberKeepsDigits | src/features/checkout/utils/formatters.ts:8-10 | on any input the formatted number has exactly the input's digits, in order |
| Formatters.RemoveSpaces | src/features/checkout/utils/formatters.ts:9 | the result has no space |
| Formatters.GroupDigitsOfDigits | src/features/checkout/utils/formatters.ts:9 | on digits the replacement is the space-separated groups of four, plus one space when the length is a positive multiple of four |
| Formatters.FormatCardNumberOfDigits | src/features/checkout/utils/formatters.ts:8-10 | on digits the formatted number is the groups of four separated by single spaces |
| Formatters.FormatCardNumberRoundTrip | src/features/checkout/utils/formatters.ts:8-10 | on digits, removing the spaces gives the input back, and there is no trailing space |
| Formatters.FormatCardNumberExample | src/features/checkout/utils/formatters.ts:8-10 | "4111111111111111" becomes "4111 1111 1111 1111" |
| Formatters.FormatCardNumberOfEmpty | src/features/checkout/utils/formatters.ts:8-10 | the empty string stays empty |
| Formatters.LastFour | src/features/checkout/utils/formatters.ts:13 | the last four characters, or the whole of a shorter string |
| Formatters.MaskCardNumber | src/features/checkout/utils/formatters.ts:12-14 | "**** **** **** " followed by the last four characters |
| Formatters.MaskHidesCardNumber | src/features/checkout/utils/formatters.ts:12-14 | a masked 16-digit number ends with its last four digits and does not contain the number |

## Left out

- Rendering, styling, focus handling and the markup of the option list and order summary: no state logic.
- The HTTP requests and react-query plumbing: each call is a `Remote` outcome parameter.
- Asynchronous timing, pending spinners and responses that arrive out of order: every call completes before the next event.
- The zod email format and the account schema file, which is not part of this model: the account step takes the schema as a parameter.
- `formatCurrency` and the order total: they use `Intl.NumberFormat` and floating-point amounts.
- JSON encoding in storage: a draft of string records reads back as written; a value that does not parse reads as a non-object.
- Draft slots holding something other than a record or null (a number, a string): the load effect would set them; only records and null are modelled.
- The input `maxLength` limits on the state, card, expiry and CVV inputs: they bound what a browser lets through and are not part of the handlers.
- Text.ToUpper: upper-cases ASCII letters only; the case mapping of other characters is not modelled.
- ShippingSchema.StateIssues: counts the state's length in Unicode code points, while zod's min and max count UTF-16 code units, so a state holding a character outside the Basic Multilingual Plane is measured differently.
- Formatters.LastFour: takes the last four code points, while `slice(-4)` takes the last four UTF-16 code units; they differ for characters outside the Basic Multilingual Plane.
- The order of entries in the error summaries and of keys in error maps: summaries are multisets.
- The scheduling of React effects: the quote effect runs right after the change that alters its dependencies, on the values after that change.
