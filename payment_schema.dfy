/** The payment form's field rules (src/features/checkout/schemas/paymentSchema.ts).
    Every key has one check, so every key yields at most one issue. */
module PaymentSchema {
  import opened Wrappers
  import opened Text
  import opened Validation

  const RequiredMessage := "Required"

  /** /^\d{16}$/ */
  predicate IsCardNumber(s: string) {
    |s| == 16 && AllDigits(s)
  }

  /** /^(0[1-9]|1[0-2])\/\d{2}$/ */
  predicate IsExpiry(s: string) {
    && |s| == 5
    && ((s[0] == '0' && '1' <= s[1] <= '9') || (s[0] == '1' && '0' <= s[1] <= '2'))
    && s[2] == '/' && IsDigit(s[3]) && IsDigit(s[4])
  }

  /** /^\d{3,4}$/ */
  predicate IsCvv(s: string) {
    (|s| == 3 || |s| == 4) && AllDigits(s)
  }

  function DigitValue(c: char): int
    requires IsDigit(c)
  {
    c as int - '0' as int
  }

  /** The expiry pattern read as a date: two digits naming a month 1..12,
      a slash, and a two-digit year. */
  lemma IsExpiryMeansMonthSlashYear(s: string)
    ensures IsExpiry(s) <==>
      && |s| == 5 && AllDigits(s[..2]) && AllDigits(s[3..]) && s[2] == '/'
      && 1 <= 10 * DigitValue(s[0]) + DigitValue(s[1]) <= 12
  {
    if |s| == 5 && AllDigits(s[..2]) && AllDigits(s[3..]) && s[2] == '/' {
      assert s[..2][0] == s[0] && s[..2][1] == s[1];
      assert s[3..][0] == s[3] && s[3..][1] == s[4];
    }
  }

  function Check(v: Record, f: Field, ok: string -> bool, message: string): seq<Issue> {
    if f !in v then [Issue(f, RequiredMessage)]
    else if ok(v[f]) then []
    else [Issue(f, message)]
  }

  /** The keys the schema constrains, in declaration order. */
  const PaymentKeyOrder: seq<Field> := [CardNumber, CardName, ExpiryDate, Cvv]
  const PaymentKeys: set<Field> := {CardNumber, CardName, ExpiryDate, Cvv}

  function PaymentFieldIssues(v: Record, f: Field): (issues: seq<Issue>)
    ensures |issues| <= 1 && forall i :: 0 <= i < |issues| ==> issues[i].field == f
  {
    match f
    case CardNumber => Check(v, f, IsCardNumber, "Card number must be 16 digits")
    case CardName => Check(v, f, s => |s| >= 1, "Cardholder name is required")
    case ExpiryDate => Check(v, f, IsExpiry, "Expiry date must be MM/YY format")
    case Cvv => Check(v, f, IsCvv, "CVV must be 3 or 4 digits")
    case _ => []
  }

  /** `paymentSchema.parse`: every violation, in key order. */
  function PaymentIssues(v: Record): seq<Issue> {
    Collect(f => PaymentFieldIssues(v, f), PaymentKeyOrder)
  }

  /** A payment record that the schema accepts, stated field by field. */
  predicate ValidPayment(v: Record) {
    && PaymentKeys <= v.Keys
    && IsCardNumber(v[CardNumber]) && v[CardName] != "" && IsExpiry(v[ExpiryDate]) && IsCvv(v[Cvv])
  }

  function PaymentIssueFor(v: Record, f: Field): Option<string> {
    FirstIssueFor(PaymentIssues(v), f)
  }

  /** What each key's single check reports. */
  function ExpectedPaymentIssue(v: Record, f: Field): Option<string> {
    if f !in PaymentKeys then None
    else if f !in v then Some(RequiredMessage)
    else match f
      case CardNumber => if IsCardNumber(v[f]) then None else Some("Card number must be 16 digits")
      case CardName => if v[f] != "" then None else Some("Cardholder name is required")
      case ExpiryDate => if IsExpiry(v[f]) then None else Some("Expiry date must be MM/YY format")
      case Cvv => if IsCvv(v[f]) then None else Some("CVV must be 3 or 4 digits")
      case _ => None
  }

  lemma PaymentRulesWellFormed(v: Record)
    ensures KeysDistinct(PaymentKeyOrder)
    ensures OneIssuePerKey(g => PaymentFieldIssues(v, g), PaymentKeyOrder)
  {
  }

  lemma PaymentFieldRule(v: Record, f: Field)
    ensures f in PaymentKeys ==> FirstIssueFor(PaymentFieldIssues(v, f), f) == ExpectedPaymentIssue(v, f)
    ensures f !in PaymentKeys ==> ExpectedPaymentIssue(v, f) == None
  {
  }

  /** Each field yields at most one issue, with its fixed message, exactly
      when its single check fails. */
  lemma PaymentIssueIsFieldRule(v: Record, f: Field)
    ensures PaymentIssueFor(v, f) == ExpectedPaymentIssue(v, f)
    ensures FieldsDistinct(PaymentIssues(v))
    ensures forall i :: 0 <= i < |PaymentIssues(v)| ==> PaymentIssues(v)[i].field in PaymentKeys
  {
    var rule := g => PaymentFieldIssues(v, g);
    PaymentRulesWellFormed(v);
    CollectPerKey(rule, PaymentKeyOrder, f);
    assert f in PaymentKeyOrder <==> f in PaymentKeys;
    PaymentFieldRule(v, f);
  }

  /** The schema accepts a record exactly when every check holds. */
  lemma PaymentValidIff(v: Record)
    ensures PaymentIssues(v) == [] <==> ValidPayment(v)
  {
    PaymentIssueIsFieldRule(v, CardNumber);
    PaymentIssueIsFieldRule(v, CardName);
    PaymentIssueIsFieldRule(v, ExpiryDate);
    PaymentIssueIsFieldRule(v, Cvv);
    if PaymentIssues(v) != [] {
      var f := PaymentIssues(v)[0].field;
      assert PaymentIssueFor(v, f).Some?;
      assert f in PaymentKeys;
    }
  }

  /** Examples from the schema's tests. */
  lemma PaymentExamples()
    ensures !IsCardNumber("4111") && IsCardNumber("4111111111111111")
    ensures !IsExpiry("13/25") && !IsExpiry("00/25") && IsExpiry("12/25")
    ensures IsCvv("123") && IsCvv("1234") && !IsCvv("12")
  {
  }
}
