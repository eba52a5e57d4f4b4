/** The payment step controller (src/features/checkout/pages/PaymentStep.tsx):
    the input sanitisers in front of the form and the commit on submit. */
module PaymentStep {
  import opened Wrappers
  import opened Text
  import opened Validation
  import opened FormEngine
  import opened CheckoutStore
  import PaymentSchema
  import StepNavigation
  import CheckoutNavigation

  /** The form's values before anything was committed. */
  const BlankPayment: Record := map[CardNumber := "", CardName := "", ExpiryDate := "", Cvv := ""]

  function Min(a: int, b: int): int {
    if a <= b then a else b
  }

  /** `handleExpiryChange`'s formatting: keep the digits; from two digits on,
      write the first two, a slash, and the next (at most) two. */
  function FormatExpiry(raw: string): (r: string)
    ensures |r| <= |DigitsOnly(raw)| + 1
  {
    var cleaned := DigitsOnly(raw);
    if |cleaned| >= 2 then cleaned[..2] + "/" + cleaned[2..Min(4, |cleaned|)] else cleaned
  }

  /** The shape of a formatted expiry: under two digits it is those digits;
      otherwise a slash sits at index 2 and the text is at most 5 long. */
  lemma FormatExpiryShape(raw: string)
    ensures var d, r := DigitsOnly(raw), FormatExpiry(raw);
      && |r| <= 5
      && (|d| < 2 ==> r == d && '/' !in r)
      && (|d| >= 2 ==> |r| == 3 + Min(2, |d| - 2) && r[2] == '/' && AllDigits(r[..2]) && AllDigits(r[3..]))
  {
    var d, r := DigitsOnly(raw), FormatExpiry(raw);
    if |d| >= 2 {
      assert r[..2] == d[..2];
      assert r[3..] == d[2..Min(4, |d|)];
    }
  }

  /** Formatting keeps exactly the first four digits of the input. */
  lemma FormatExpiryKeepsDigits(raw: string)
    ensures var d := DigitsOnly(raw); DigitsOnly(FormatExpiry(raw)) == d[..Min(4, |d|)]
  {
    var d := DigitsOnly(raw);
    if |d| >= 2 {
      var tail := d[2..Min(4, |d|)];
      DigitsOnlyOfDigits(d[..2]);
      DigitsOnlyOfDigits(tail);
      DigitsOnlyAppend(d[..2], "/");
      DigitsOnlyAppend(d[..2] + "/", tail);
      assert d[..2] + tail == d[..Min(4, |d|)];
    } else {
      DigitsOnlyOfDigits(d);
    }
  }

  /** Re-formatting a formatted expiry changes nothing, so the value shown
      in the input is stable under the next keystroke-free render. */
  lemma FormatExpiryIdempotent(raw: string)
    ensures FormatExpiry(FormatExpiry(raw)) == FormatExpiry(raw)
  {
    var d := DigitsOnly(raw);
    FormatExpiryKeepsDigits(raw);
    var d4 := d[..Min(4, |d|)];
    assert DigitsOnly(FormatExpiry(raw)) == d4;
    if |d| >= 2 {
      assert d4[..2] == d[..2];
      assert d4[2..Min(4, |d4|)] == d[2..Min(4, |d|)];
    }
  }

  /** A formatted expiry passes the schema exactly when the input held at
      least four digits and the first two name a month 01..12. */
  lemma FormatExpiryValidIff(raw: string)
    ensures var d := DigitsOnly(raw);
      PaymentSchema.IsExpiry(FormatExpiry(raw)) <==>
        |d| >= 4 && 1 <= 10 * PaymentSchema.DigitValue(d[0]) + PaymentSchema.DigitValue(d[1]) <= 12
  {
    var d, r := DigitsOnly(raw), FormatExpiry(raw);
    if |d| >= 2 {
      assert r[0] == d[0] && r[1] == d[1];
      if |d| >= 4 {
        assert r[3] == d[2] && r[4] == d[3];
      }
    }
  }

  /** Four typed digits become month, slash, year. */
  lemma FormatExpiryOfFourDigits(raw: string)
    requires |raw| == 4 && AllDigits(raw)
    ensures FormatExpiry(raw) == raw[..2] + "/" + raw[2..]
  {
    DigitsOnlyOfDigits(raw);
  }

  /** '1225' becomes '12/25', which formatting again leaves as it is. */
  lemma FormatExpiryExample(raw: string)
    requires raw == "1225"
    ensures FormatExpiry(raw) == "12/25"
    ensures FormatExpiry(FormatExpiry(raw)) == "12/25"
  {
    assert AllDigits(raw);
    FormatExpiryOfFourDigits(raw);
    FormatExpiryIdempotent(raw);
  }

  /** '1325' formats to an expiry the schema rejects: there is no month 13. */
  lemma InvalidMonthExample(raw: string)
    requires raw == "1325"
    ensures !PaymentSchema.IsExpiry(FormatExpiry(raw))
  {
    assert AllDigits(raw);
    DigitsOnlyOfDigits(raw);
    FormatExpiryValidIff(raw);
  }

  /** Appending a separator and a group of digits appends just the group. */
  lemma SeparatedGroup(x: string, sep: char, g: string)
    requires AllDigits(g) && !IsDigit(sep)
    ensures DigitsOnly(x + [sep] + g) == DigitsOnly(x) + g
  {
    DigitsOnlyOfDigits(g);
    DigitsOnlyAppend(x, [sep]);
    DigitsOnlyAppend(x + [sep], g);
  }

  /** A card number pasted as four groups with any non-digit separator
      (such as 4111-1111-1111-1111) reaches the form as its sixteen digits. */
  lemma CardNumberWithSeparators(a: string, b: string, c: string, d: string, sep: char)
    requires |a| == |b| == |c| == |d| == 4
    requires AllDigits(a) && AllDigits(b) && AllDigits(c) && AllDigits(d) && !IsDigit(sep)
    ensures DigitsOnly(a + [sep] + b + [sep] + c + [sep] + d) == a + b + c + d
    ensures PaymentSchema.IsCardNumber(a + b + c + d)
  {
    DigitsOnlyOfDigits(a);
    var ab := a + [sep] + b;
    var abc := ab + [sep] + c;
    SeparatedGroup(a, sep, b);
    SeparatedGroup(ab, sep, c);
    SeparatedGroup(abc, sep, d);
    var r := a + b + c + d;
    forall i | 0 <= i < |r|
      ensures IsDigit(r[i])
    {
      if i < 4 { assert r[i] == a[i]; }
      else if i < 8 { assert r[i] == b[i - 4]; }
      else if i < 12 { assert r[i] == c[i - 8]; }
      else { assert r[i] == d[i - 12]; }
    }
  }

  class PaymentStep {
    const store: Store
    const form: Form

    /** Mounting: the form starts from the committed payment data, if any. */
    constructor (store: Store)
      ensures this.store == store && fresh(form)
      ensures form.initial == store.payment.GetOr(BlankPayment)
      ensures form.State() == InitialState(store.payment.GetOr(BlankPayment))
      ensures form.schema == PaymentSchema.PaymentIssues
    {
      this.store := store;
      form := new Form(store.payment.GetOr(BlankPayment), PaymentSchema.PaymentIssues);
    }

    /** `handleCardNumberChange`: only the digits reach the form. */
    method HandleCardNumberChange(raw: string)
      modifies form
      ensures form.State() == AfterChange(old(form.State()), form.schema, CardNumber, DigitsOnly(raw))
      ensures AllDigits(form.values[CardNumber])
    {
      form.HandleChange(CardNumber, DigitsOnly(raw));
    }

    /** `handleExpiryChange`: the formatted expiry reaches the form. */
    method HandleExpiryChange(raw: string)
      modifies form
      ensures form.State() == AfterChange(old(form.State()), form.schema, ExpiryDate, FormatExpiry(raw))
    {
      form.HandleChange(ExpiryDate, FormatExpiry(raw));
    }

    /** The CVV input's change handler: only the digits reach the form. */
    method HandleCvvChange(raw: string)
      modifies form
      ensures form.State() == AfterChange(old(form.State()), form.schema, Cvv, DigitsOnly(raw))
      ensures AllDigits(form.values[Cvv])
    {
      form.HandleChange(Cvv, DigitsOnly(raw));
    }

    /** `handleSubmit` with this step's `onSubmit`: commit the values and move
        on exactly when the form validates. */
    method Submit() returns (target: Option<string>)
      modifies form, store
      ensures AfterValidateAll(old(form.State()), form.schema).state == form.State()
      ensures var ok := AfterValidateAll(old(form.State()), form.schema).ok;
        && (ok ==> store.State() == old(store.State()).(payment := Some(old(form.values))))
        && (!ok ==> store.State() == old(store.State()))
        && target == (if ok then CheckoutNavigation.GoToNext(StepNavigation.Payment) else None)
    {
      var submitted := form.HandleSubmit();
      target := None;
      if submitted.Some? {
        store.SetPayment(submitted.value);
        target := CheckoutNavigation.GoToNext(StepNavigation.Payment);
      }
    }

    /** The error summary: touched fields only. */
    function FormErrors(): multiset<FieldError>
      reads form
    {
      TouchedErrors(form.errors, form.touched)
    }
  }
}
