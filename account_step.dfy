/** The account step controller (src/features/checkout/pages/AccountStep.tsx):
    the account form, the email-availability check with its own error and
    status cells, and the submit gate. */
module AccountStep {
  import opened Wrappers
  import opened Validation
  import opened FormEngine
  import opened CheckoutStore
  import AccountSchema
  import StepNavigation
  import CheckoutNavigation

  const CheckingStatus := "Checking availability..."
  const AvailableStatus := "Email is available"
  const CheckFailedError := "Failed to validate email. Please try again."

  /** The email-check service's answer. */
  datatype EmailResponse = EmailResponse(available: bool, message: string)

  /** The two cells the check drives. */
  datatype EmailCheck = EmailCheck(error: string, status: string)

  /** The form's values before anything was committed. */
  const BlankAccount: Record := map[Email := "", Password := ""]

  /** The cells while a check is in flight. */
  const CheckInFlight := EmailCheck("", CheckingStatus)

  /** The cells once the check that started from `CheckInFlight` has completed. */
  function CheckCompleted(outcome: Remote<EmailResponse>): (c: EmailCheck)
    ensures c.error == "" || c.status == ""
    ensures c.error != "" ==> !(outcome.Ok? && outcome.response.available)
  {
    match outcome
    case Ok(response) =>
      if !response.available then EmailCheck(response.message, "")
      else EmailCheck(CheckInFlight.error, AvailableStatus)
    case Err(_) => EmailCheck(CheckFailedError, "")
  }

  /** Blur starts a check only for a non-empty email without a schema error. */
  predicate ShouldCheckEmail(values: Record, errors: map<Field, string>) {
    Truthy(values, Email) && !HasError(errors, Email)
  }

  /** `formErrors`: the touched fields' errors plus the email-check error,
      which is listed whether or not the email field was touched. */
  function SummaryErrors(errors: map<Field, string>, touched: set<Field>, emailError: string): (r: multiset<FieldError>)
    ensures emailError != "" ==> FieldError(Email, emailError) in r
    ensures forall f :: f in touched && f in errors ==> FieldError(f, errors[f]) in r
    ensures forall e :: e in r ==> (e.field in touched && e.field in errors && errors[e.field] == e.message)
                                   || e == FieldError(Email, emailError)
    ensures forall e :: e in r && e != FieldError(Email, emailError) ==> r[e] == 1
    ensures r[FieldError(Email, emailError)]
         == (if emailError != "" then 1 else 0)
          + (if Email in touched && Email in errors && errors[Email] == emailError then 1 else 0)
  {
    TouchedErrors(errors, touched) + (if emailError != "" then multiset{FieldError(Email, emailError)} else multiset{})
  }

  class AccountStep {
    const store: Store
    const form: Form
    var emailError: string
    var emailStatus: string

    /** Mounting: the form starts from the committed account, if any. */
    constructor (store: Store, schema: Record -> seq<Issue>)
      ensures this.store == store && fresh(form)
      ensures form.schema == schema && form.initial == store.account.GetOr(BlankAccount)
      ensures form.State() == InitialState(store.account.GetOr(BlankAccount))
      ensures emailError == "" && emailStatus == ""
    {
      this.store := store;
      form := new Form(store.account.GetOr(BlankAccount), schema);
      emailError, emailStatus := "", "";
    }

    /** The synchronous part of `checkEmailAvailability`, before the request. */
    method BeginEmailCheck()
      modifies this
      ensures EmailCheck(emailError, emailStatus) == CheckInFlight
    {
      emailError := "";
      emailStatus := CheckingStatus;
    }

    /** The part of `checkEmailAvailability` after the request settled. */
    method CompleteEmailCheck(outcome: Remote<EmailResponse>)
      modifies this
      ensures EmailCheck(emailError, emailStatus) ==
        match outcome
        case Ok(r) => if !r.available then EmailCheck(r.message, "") else EmailCheck(old(emailError), AvailableStatus)
        case Err(_) => EmailCheck(CheckFailedError, "")
    {
      match outcome
      case Ok(result) =>
        if !result.available {
          emailError := result.message;
          emailStatus := "";
        } else {
          emailStatus := AvailableStatus;
        }
      case Err(_) =>
        emailError := CheckFailedError;
        emailStatus := "";
    }

    /** `checkEmailAvailability`, with the service's answer as `outcome`. */
    method CheckEmailAvailability(outcome: Remote<EmailResponse>)
      modifies this
      ensures EmailCheck(emailError, emailStatus) == CheckCompleted(outcome)
    {
      BeginEmailCheck();
      CompleteEmailCheck(outcome);
    }

    /** Typing in the email field: `handleChange` only; the check's cells are kept. */
    method HandleEmailChange(v: string)
      modifies form
      ensures form.State() == AfterChange(old(form.State()), form.schema, Email, v)
    {
      form.HandleChange(Email, v);
    }

    /** `handleEmailBlur`: mark touched, then check when allowed. `requested`
        is the email sent to the service, None when no request was made. */
    method HandleEmailBlur(outcome: Remote<EmailResponse>) returns (requested: Option<string>)
      modifies form, this
      ensures form.State() == AfterBlur(old(form.State()), Email)
      ensures requested.Some? <==> ShouldCheckEmail(old(form.values), old(form.errors))
      ensures requested.Some? ==> requested.value == form.values[Email]
      ensures requested.Some? ==> EmailCheck(emailError, emailStatus) == CheckCompleted(outcome)
      ensures requested.None? ==> emailError == old(emailError) && emailStatus == old(emailStatus)
    {
      form.HandleBlur(Email);
      if ShouldCheckEmail(form.values, form.errors) {
        requested := Some(form.values[Email]);
        CheckEmailAvailability(outcome);
      } else {
        requested := None;
      }
    }

    /** `handleSubmit` with this step's `onSubmit`: commit and move on only
        when the form validates and no email-check error is showing. */
    method Submit() returns (target: Option<string>)
      modifies form, store
      ensures AfterValidateAll(old(form.State()), form.schema).state == form.State()
      ensures var committed := AfterValidateAll(old(form.State()), form.schema).ok && emailError == "";
        && (committed ==> store.State() == old(store.State()).(account := Some(old(form.values))))
        && (!committed ==> store.State() == old(store.State()))
        && target == (if committed then CheckoutNavigation.GoToNext(StepNavigation.Account) else None)
    {
      var submitted := form.HandleSubmit();
      target := None;
      if submitted.Some? {
        if emailError != "" {
          return;
        }
        store.SetAccount(submitted.value);
        target := CheckoutNavigation.GoToNext(StepNavigation.Account);
      }
    }

    /** The error summary shown above the form. */
    function FormErrors(): multiset<FieldError>
      reads this, form
    {
      SummaryErrors(form.errors, form.touched, emailError)
    }
  }

  /** Whatever the service answers, a completed check never shows an error
      and a status together; an unavailable address shows the service's
      message, an available one the positive status, a failure the retry text. */
  lemma CompletedCheckOutcomes(outcome: Remote<EmailResponse>)
    ensures var c := CheckCompleted(outcome); c.error == "" || c.status == ""
    ensures outcome.Ok? && !outcome.response.available ==> CheckCompleted(outcome) == EmailCheck(outcome.response.message, "")
    ensures outcome.Ok? && outcome.response.available ==> CheckCompleted(outcome) == EmailCheck("", AvailableStatus)
    ensures outcome.Err? ==> CheckCompleted(outcome) == EmailCheck(CheckFailedError, "")
  {
  }

  /** An edit of the email does not clear a standing email-check error, so the
      submit gate stays closed until another check succeeds. */
  lemma EditKeepsEmailError(st: FormState, schema: Record -> seq<Issue>, v: string, emailError: string)
    requires emailError != ""
    ensures var s := AfterChange(st, schema, Email, v);
      FieldError(Email, emailError) in SummaryErrors(s.errors, s.touched, emailError)
  {
  }

  /** For any schema that behaves as its tests say, validation accepts the
      tests' valid account and rejects the short password, whatever the
      errors and touched fields were. */
  lemma SchemaTestsDecideValidation(schema: Record -> seq<Issue>, st: FormState)
    requires AccountSchema.AgreesWithSchemaTests(schema)
    ensures st.values == AccountSchema.ValidTestAccount ==> AfterValidateAll(st, schema).ok
    ensures st.values == AccountSchema.ShortPasswordAccount ==> !AfterValidateAll(st, schema).ok
  {
  }

  /** Submitting the tests' valid account with no email-check error commits
      it and moves on to the shipping step. */
  method SubmitValidTestAccount(step: AccountStep) returns (target: Option<string>)
    requires AccountSchema.AgreesWithSchemaTests(step.form.schema)
    requires step.form.values == AccountSchema.ValidTestAccount && step.emailError == ""
    modifies step.form, step.store
    ensures step.store.account == Some(AccountSchema.ValidTestAccount)
    ensures target == Some(StepNavigation.StepPath(StepNavigation.Shipping))
  {
    SchemaTestsDecideValidation(step.form.schema, step.form.State());
    target := step.Submit();
  }

  /** Submitting the short password commits nothing and stays on the step. */
  method SubmitShortPassword(step: AccountStep) returns (target: Option<string>)
    requires AccountSchema.AgreesWithSchemaTests(step.form.schema)
    requires step.form.values == AccountSchema.ShortPasswordAccount
    modifies step.form, step.store
    ensures step.store.State() == old(step.store.State())
    ensures target == None
  {
    SchemaTestsDecideValidation(step.form.schema, step.form.State());
    target := step.Submit();
  }
}
