/** The shipping form's field rules (src/features/checkout/schemas/shippingSchema.ts).
    zod checks the keys in declaration order; a missing key gives its default
    "Required" issue and skips the key's other checks. */
module ShippingSchema {
  import opened Wrappers
  import opened Text
  import opened Validation

  const RequiredMessage := "Required"

  /** `z.string().min(1, message)`. */
  function NonEmpty(v: Record, f: Field, message: string): seq<Issue> {
    if f !in v then [Issue(f, RequiredMessage)]
    else if |v[f]| < 1 then [Issue(f, message)]
    else []
  }

  /** `z.string().min(2, ...).max(2, ...)`: both checks run, at most one fails. */
  function StateIssues(v: Record): seq<Issue> {
    if State !in v then [Issue(State, RequiredMessage)]
    else
      (if |v[State]| < 2 then [Issue(State, "State is required")] else [])
      + (if |v[State]| > 2 then [Issue(State, "State must be 2 characters")] else [])
  }

  /** The pattern /^\d{5}(-\d{4})?$/. */
  predicate IsZipCode(s: string) {
    (|s| == 5 && AllDigits(s))
    || (|s| == 10 && AllDigits(s[..5]) && s[5] == '-' && AllDigits(s[6..]))
  }

  function ZipIssues(v: Record): seq<Issue> {
    if ZipCode !in v then [Issue(ZipCode, RequiredMessage)]
    else if IsZipCode(v[ZipCode]) then []
    else [Issue(ZipCode, "Invalid ZIP code format")]
  }

  /** The keys the schema constrains, in declaration order. */
  const ShippingKeyOrder: seq<Field> := [FirstName, LastName, Address, City, State, ZipCode]
  const ShippingKeys: set<Field> := {FirstName, LastName, Address, City, State, ZipCode}

  /** The rules of one key. `selectedOption` is an optional string, which
      every value of this record satisfies. */
  function ShippingFieldIssues(v: Record, f: Field): (issues: seq<Issue>)
    ensures |issues| <= 1 && forall i :: 0 <= i < |issues| ==> issues[i].field == f
  {
    match f
    case FirstName => NonEmpty(v, f, "First name is required")
    case LastName => NonEmpty(v, f, "Last name is required")
    case Address => NonEmpty(v, f, "Address is required")
    case City => NonEmpty(v, f, "City is required")
    case State => StateIssues(v)
    case ZipCode => ZipIssues(v)
    case _ => []
  }

  /** `shippingSchema.parse`: every violation, in key order. */
  function ShippingIssues(v: Record): seq<Issue> {
    Collect(f => ShippingFieldIssues(v, f), ShippingKeyOrder)
  }

  /** A shipping record that the schema accepts, stated field by field. */
  predicate ValidShipping(v: Record) {
    && ShippingKeys <= v.Keys
    && v[FirstName] != "" && v[LastName] != "" && v[Address] != "" && v[City] != ""
    && |v[State]| == 2
    && IsZipCode(v[ZipCode])
  }

  /** The issue, if any, reported for field `f`. */
  function ShippingIssueFor(v: Record, f: Field): Option<string> {
    FirstIssueFor(ShippingIssues(v), f)
  }

  /** What each key's rule reports, on its own. */
  function ExpectedShippingIssue(v: Record, f: Field): Option<string> {
    if f !in ShippingKeys then None
    else if f !in v then Some(RequiredMessage)
    else match f
      case FirstName => if v[f] == "" then Some("First name is required") else None
      case LastName => if v[f] == "" then Some("Last name is required") else None
      case Address => if v[f] == "" then Some("Address is required") else None
      case City => if v[f] == "" then Some("City is required") else None
      case State =>
        if |v[f]| < 2 then Some("State is required")
        else if |v[f]| > 2 then Some("State must be 2 characters")
        else None
      case ZipCode => if IsZipCode(v[f]) then None else Some("Invalid ZIP code format")
      case _ => None
  }

  /** Each field yields at most one issue, and that issue is exactly the one
      its own rule gives: the names, address and city fail exactly when empty,
      state exactly when its length is not 2 (with a message telling short from
      long), the ZIP code exactly when it misses the pattern, and nothing else
      (notably `selectedOption`) ever fails. */
  lemma ShippingIssueIsFieldRule(v: Record, f: Field)
    ensures ShippingIssueFor(v, f) == ExpectedShippingIssue(v, f)
    ensures FieldsDistinct(ShippingIssues(v))
    ensures forall i :: 0 <= i < |ShippingIssues(v)| ==> ShippingIssues(v)[i].field in ShippingKeys
  {
    var rule := g => ShippingFieldIssues(v, g);
    ShippingRulesWellFormed(v);
    CollectPerKey(rule, ShippingKeyOrder, f);
    assert f in ShippingKeyOrder <==> f in ShippingKeys;
    ShippingFieldRule(v, f);
  }

  lemma ShippingRulesWellFormed(v: Record)
    ensures KeysDistinct(ShippingKeyOrder)
    ensures OneIssuePerKey(g => ShippingFieldIssues(v, g), ShippingKeyOrder)
  {
  }

  lemma ShippingFieldRule(v: Record, f: Field)
    ensures f in ShippingKeys ==> FirstIssueFor(ShippingFieldIssues(v, f), f) == ExpectedShippingIssue(v, f)
    ensures f !in ShippingKeys ==> ExpectedShippingIssue(v, f) == None
  {
  }

  /** The schema accepts a record exactly when every field rule holds. */
  lemma ShippingValidIff(v: Record)
    ensures ShippingIssues(v) == [] <==> ValidShipping(v)
  {
    if ShippingIssues(v) == [] {
      forall f | f in ShippingKeys ensures f in v && ExpectedShippingIssue(v, f).None? {
        ShippingIssueIsFieldRule(v, f);
      }
    } else {
      var f := ShippingIssues(v)[0].field;
      ShippingIssueIsFieldRule(v, f);
    }
  }

  /** Examples from the schema's tests: a spelled-out state is too long. */
  lemma StateTooLongExample(v: Record)
    requires State in v && v[State] == "NEW YORK"
    ensures ShippingIssueFor(v, State) == Some("State must be 2 characters")
  {
    ShippingIssueIsFieldRule(v, State);
  }

  /** The ZIP+4 form is accepted and a three-digit code is not. */
  lemma ZipCodeExamples()
    ensures IsZipCode("10001-1234")
    ensures IsZipCode("10001")
    ensures !IsZipCode("123")
  {
    assert "10001-1234"[..5] == "10001" && "10001-1234"[6..] == "1234";
  }
}
