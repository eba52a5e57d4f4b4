/** The shipping step controller (src/features/checkout/pages/ShippingStep.tsx):
    the address form, the shipping-quote trigger and its result cells, and the
    submit gate on a chosen option. */
module ShippingStep {
  import opened Wrappers
  import opened Text
  import opened Validation
  import opened FormEngine
  import opened CheckoutStore
  import ShippingSchema
  import StepNavigation
  import CheckoutNavigation

  /** One quoted option; prices are in cents. */
  datatype ShippingOption = ShippingOption(id: string, name: string, priceCents: int, estimatedDays: string)

  /** The quote service's answer. */
  datatype Quote = Quote(options: seq<ShippingOption>)

  /** The form's values before anything was committed. */
  const BlankShipping: Record :=
    map[FirstName := "", LastName := "", Address := "", City := "", State := "", ZipCode := ""]

  /** A quote is requested when address, city, state and ZIP code are all
      filled in and none of them has an error; the names play no part. */
  predicate ShouldRequestQuote(values: Record, errors: map<Field, string>) {
    && Truthy(values, Address) && Truthy(values, City) && Truthy(values, State) && Truthy(values, ZipCode)
    && !HasError(errors, Address) && !HasError(errors, City) && !HasError(errors, State) && !HasError(errors, ZipCode)
  }

  function Lookup(values: Record, f: Field): Option<string> {
    if f in values then Some(values[f]) else None
  }

  /** The quote effect's dependency list. */
  function QuoteDeps(values: Record): seq<Option<string>> {
    [Lookup(values, Address), Lookup(values, City), Lookup(values, State), Lookup(values, ZipCode)]
  }

  /** `shipping?.selectedOption` used as a condition: the committed option id, if non-empty. */
  function SavedOption(shipping: Option<Record>): Option<string> {
    if shipping.Some? && Truthy(shipping.value, SelectedOption) then Some(shipping.value[SelectedOption]) else None
  }

  /** The offered options and the selection. */
  datatype QuoteView = QuoteView(options: seq<ShippingOption>, selected: string)

  /** The view after a quote settled: a success replaces the options and, if
      an option was committed before, selects its id as it is; a failure
      changes nothing. */
  function AfterQuote(view: QuoteView, saved: Option<string>, outcome: Remote<Quote>): (r: QuoteView)
    ensures outcome.Err? ==> r == view
    ensures outcome.Ok? ==> r.options == outcome.response.options
    ensures outcome.Ok? && saved.Some? ==> r.selected == saved.value
    ensures saved.None? ==> r.selected == view.selected
  {
    match outcome
    case Ok(result) => QuoteView(result.options, if saved.Some? then saved.value else view.selected)
    case Err(_) => view
  }

  /** The value that reaches `handleChange` for a keystroke in field `f`:
      the state input is upper-cased first. */
  function Entered(f: Field, raw: string): (v: string)
    ensures |v| == |raw|
    ensures f != State ==> v == raw
    ensures f == State ==> forall i :: 0 <= i < |v| ==> v[i] == UpperChar(raw[i]) && !('a' <= v[i] <= 'z')
  {
    if f == State then ToUpper(raw) else raw
  }

  /** The record `onSubmit` commits: the validated values with the selection. */
  function Committed(values: Record, selected: string): (r: Record)
    ensures r.Keys == values.Keys + {SelectedOption} && r[SelectedOption] == selected
    ensures forall f :: f in values && f != SelectedOption ==> r[f] == values[f]
  {
    values[SelectedOption := selected]
  }

  class ShippingStep {
    const store: Store
    const form: Form
    var shippingOptions: seq<ShippingOption>
    var selectedOption: string

    /** Mounting: the form starts from the committed shipping data, if any,
        with no options offered and nothing selected. */
    constructor (store: Store)
      ensures this.store == store && fresh(form)
      ensures form.initial == store.shipping.GetOr(BlankShipping)
      ensures form.State() == InitialState(store.shipping.GetOr(BlankShipping))
      ensures form.schema == ShippingSchema.ShippingIssues
      ensures shippingOptions == [] && selectedOption == ""
    {
      this.store := store;
      form := new Form(store.shipping.GetOr(BlankShipping), ShippingSchema.ShippingIssues);
      shippingOptions, selectedOption := [], "";
    }

    function View(): QuoteView
      reads this
    {
      QuoteView(shippingOptions, selectedOption)
    }

    /** `fetchShippingQuote`, with the service's answer as `outcome`; the
        request carries the whole of the current values. */
    method FetchShippingQuote(outcome: Remote<Quote>) returns (request: Record)
      modifies this
      ensures request == form.values
      ensures View() == AfterQuote(old(View()), SavedOption(store.shipping), outcome)
    {
      request := form.values;
      match outcome
      case Ok(result) =>
        shippingOptions := result.options;
        if SavedOption(store.shipping).Some? {
          selectedOption := store.shipping.value[SelectedOption];
        }
      case Err(_) =>
    }

    /** One run of the quote effect: fetch when the trigger holds. React runs
        it once after mounting, too, which is this method called right after
        the constructor (so returning with committed shipping data re-fetches
        the quote and restores the committed option). */
    method RunQuoteEffect(outcome: Remote<Quote>) returns (request: Option<Record>)
      modifies this
      ensures request.Some? <==> ShouldRequestQuote(form.values, form.errors)
      ensures request.Some? ==> request.value == form.values
      ensures View() == if request.Some? then AfterQuote(old(View()), SavedOption(store.shipping), outcome) else old(View())
    {
      if ShouldRequestQuote(form.values, form.errors) {
        var sent := FetchShippingQuote(outcome);
        request := Some(sent);
      } else {
        request := None;
      }
    }

    /** A keystroke in field `f`: `handleChange` with the entered value, then
        the quote effect if one of its dependencies changed. */
    method HandleFieldChange(f: Field, raw: string, outcome: Remote<Quote>) returns (request: Option<Record>)
      modifies form, this
      ensures form.State() == AfterChange(old(form.State()), form.schema, f, Entered(f, raw))
      ensures request.Some? <==> QuoteDeps(form.values) != QuoteDeps(old(form.values))
                                 && ShouldRequestQuote(form.values, form.errors)
      ensures View() == if request.Some? then AfterQuote(old(View()), SavedOption(store.shipping), outcome) else old(View())
    {
      var before := QuoteDeps(form.values);
      form.HandleChange(f, Entered(f, raw));
      if QuoteDeps(form.values) != before {
        request := RunQuoteEffect(outcome);
      } else {
        request := None;
      }
    }

    /** `onSelect` of the options list. */
    method SelectOption(id: string)
      modifies this
      ensures View() == old(View()).(selected := id)
    {
      selectedOption := id;
    }

    /** `handleSubmit` with this step's `onSubmit`: commit and move on only
        when the form validates and an option is selected. */
    method Submit() returns (target: Option<string>)
      modifies form, store
      ensures AfterValidateAll(old(form.State()), form.schema).state == form.State()
      ensures var committed := AfterValidateAll(old(form.State()), form.schema).ok && selectedOption != "";
        && (committed ==> store.State() == old(store.State()).(shipping := Some(Committed(old(form.values), selectedOption))))
        && (!committed ==> store.State() == old(store.State()))
        && target == (if committed then CheckoutNavigation.GoToNext(StepNavigation.Shipping) else None)
    {
      var submitted := form.HandleSubmit();
      target := None;
      if submitted.Some? {
        if selectedOption == "" {
          return;
        }
        store.SetShipping(Committed(submitted.value, selectedOption));
        target := CheckoutNavigation.GoToNext(StepNavigation.Shipping);
      }
    }

    /** The error summary: touched fields only. */
    function FormErrors(): multiset<FieldError>
      reads form
    {
      TouchedErrors(form.errors, form.touched)
    }
  }

  /** The trigger ignores the names: editing them, or their errors, never
      changes whether a quote is requested. */
  lemma QuoteIgnoresNames(values: Record, errors: map<Field, string>, f: Field, v: string, e: Option<string>)
    requires f == FirstName || f == LastName
    ensures ShouldRequestQuote(values[f := v], WithFieldError(errors, f, e)) == ShouldRequestQuote(values, errors)
  {
  }

  /** The committed option id is restored even when the new quote does not
      offer it. */
  lemma RestoredOptionNeedNotBeOffered(view: QuoteView)
    ensures var r := AfterQuote(view, Some("overnight"), Ok(Quote([ShippingOption("standard", "Standard", 599, "5-7")])));
      r.selected == "overnight" && forall o :: o in r.options ==> o.id != r.selected
  {
  }
}
