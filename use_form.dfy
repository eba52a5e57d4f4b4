/** The form engine (src/features/checkout/pages/useForm.ts): three state
    cells, `values`, `errors` and `touched`, driven by change, blur,
    validate-all, submit, set-value and reset. The schema is a parameter. */
module FormEngine {
  import opened Wrappers
  import opened Validation

  /** `touched` only ever stores `true`, so it is kept as the set of touched keys. */
  datatype FormState = FormState(values: Record, errors: map<Field, string>, touched: set<Field>)

  /** The result of `validateAll` and the state it leaves. */
  datatype Validated = Validated(ok: bool, state: FormState)

  /** The state a form mounts with. */
  function InitialState(initial: Record): FormState {
    FormState(initial, map[], {})
  }

  /** The error map after `validateField(f, …)` found `issue` for `f`. */
  function WithFieldError(errors: map<Field, string>, f: Field, issue: Option<string>): map<Field, string> {
    match issue
    case Some(m) => errors[f := m]
    case None => errors - {f}
  }

  /** `handleChange(f, v)`: store the value, then re-validate only `f`. */
  function AfterChange(st: FormState, schema: Record -> seq<Issue>, f: Field, v: string): FormState {
    var values := st.values[f := v];
    st.(values := values, errors := WithFieldError(st.errors, f, FirstIssueFor(schema(values), f)))
  }

  /** `handleBlur(f)`. */
  function AfterBlur(st: FormState, f: Field): FormState {
    st.(touched := st.touched + {f})
  }

  /** The error map `validateAll` builds: every issue written in turn, so a
      later issue for a field overwrites an earlier one. */
  function LastMessages(issues: seq<Issue>): map<Field, string> {
    if issues == [] then map[]
    else
      var k := |issues| - 1;
      LastMessages(issues[..k])[issues[k].field := issues[k].message]
  }

  /** `validateAll`. A valid object clears the errors and keeps `touched`; an
      invalid one gets the last message per field and touches exactly the keys
      of `values`. */
  function AfterValidateAll(st: FormState, schema: Record -> seq<Issue>): Validated {
    var issues := schema(st.values);
    if issues == [] then Validated(true, st.(errors := map[]))
    else Validated(false, FormState(st.values, LastMessages(issues), st.values.Keys))
  }

  /** `setFieldValue(f, v)`: no validation. */
  function AfterSetFieldValue(st: FormState, f: Field, v: string): FormState {
    st.(values := st.values[f := v])
  }

  /** A change stores exactly the new value and decides exactly the changed
      field's error, from the first issue the schema reports for it. */
  lemma ChangeTouchesOneField(st: FormState, schema: Record -> seq<Issue>, f: Field, v: string)
    ensures var s := AfterChange(st, schema, f, v);
      && s.values.Keys == st.values.Keys + {f} && s.values[f] == v
      && (forall g :: g in st.values && g != f ==> s.values[g] == st.values[g])
      && (f in s.errors <==> exists i :: 0 <= i < |schema(s.values)| && schema(s.values)[i].field == f)
      && (f in s.errors ==> exists i :: 0 <= i < |schema(s.values)| && schema(s.values)[i] == Issue(f, s.errors[f])
                                   && forall j :: 0 <= j < i ==> schema(s.values)[j].field != f)
      && (forall g :: g != f ==> (g in s.errors <==> g in st.errors))
      && (forall g :: g != f && g in st.errors ==> s.errors[g] == st.errors[g])
      && s.touched == st.touched
  {
  }

  /** Repeating a change with the same value changes nothing more. */
  lemma ChangeIdempotent(st: FormState, schema: Record -> seq<Issue>, f: Field, v: string)
    ensures AfterChange(AfterChange(st, schema, f, v), schema, f, v) == AfterChange(st, schema, f, v)
  {
    var s := AfterChange(st, schema, f, v);
    assert s.values[f := v] == s.values;
  }

  /** A blur marks the field touched and leaves values and errors alone. */
  lemma BlurOnlyTouches(st: FormState, f: Field)
    ensures var s := AfterBlur(st, f);
      s.values == st.values && s.errors == st.errors && f in s.touched && s.touched - {f} == st.touched - {f}
  {
  }

  /** The keys of `LastMessages` are the fields the issues name, and each maps
      to the message of the last issue naming it. */
  lemma {:induction false} LastMessagesSpec(issues: seq<Issue>)
    ensures forall f :: f in LastMessages(issues) <==> exists i :: 0 <= i < |issues| && issues[i].field == f
    ensures forall f :: f in LastMessages(issues) ==>
      exists i :: 0 <= i < |issues| && issues[i] == Issue(f, LastMessages(issues)[f])
                  && forall j :: i < j < |issues| ==> issues[j].field != f
  {
    if issues != [] {
      var k := |issues| - 1;
      var front := issues[..k];
      LastMessagesSpec(front);
      var m := LastMessages(issues);
      var mf := LastMessages(front);
      assert m == mf[issues[k].field := issues[k].message];
      forall f ensures f in m <==> exists i :: 0 <= i < |issues| && issues[i].field == f {
        if f in m && f != issues[k].field {
          assert f in mf;
          var i :| 0 <= i < |front| && front[i].field == f;
          assert issues[i] == front[i];
        }
        if exists i :: 0 <= i < |issues| && issues[i].field == f {
          var i :| 0 <= i < |issues| && issues[i].field == f;
          if i < k { assert front[i] == issues[i]; }
        }
      }
      forall f | f in m
        ensures exists i :: 0 <= i < |issues| && issues[i] == Issue(f, m[f]) && (forall j :: i < j < |issues| ==> issues[j].field != f)
      {
        if f == issues[k].field {
          assert issues[k] == Issue(f, m[f]);
        } else {
          assert f in mf && m[f] == mf[f];
          var i :| 0 <= i < |front| && front[i] == Issue(f, m[f])
                   && forall j :: i < j < |front| ==> front[j].field != f;
          assert issues[i] == front[i];
          forall j | i < j < |issues| ensures issues[j].field != f {
            if j < k { assert issues[j] == front[j]; }
          }
        }
      }
    }
  }

  /** `validateAll` on a valid object: success, no errors, `touched` unchanged. */
  lemma ValidateAllAccepts(st: FormState, schema: Record -> seq<Issue>)
    requires schema(st.values) == []
    ensures var r := AfterValidateAll(st, schema);
      r.ok && r.state.values == st.values && r.state.errors == map[] && r.state.touched == st.touched
  {
  }

  /** `validateAll` on an invalid object: failure; an error for exactly the
      fields the issues name, the last issue per field winning; every key of
      `values` touched. */
  lemma ValidateAllRejects(st: FormState, schema: Record -> seq<Issue>)
    requires schema(st.values) != []
    ensures var r := AfterValidateAll(st, schema); var issues := schema(st.values);
      && !r.ok && r.state.values == st.values && r.state.touched == st.values.Keys
      && (forall f :: f in r.state.errors <==> exists i :: 0 <= i < |issues| && issues[i].field == f)
      && (forall f :: f in r.state.errors ==>
            exists i :: 0 <= i < |issues| && issues[i] == Issue(f, r.state.errors[f])
                        && forall j :: i < j < |issues| ==> issues[j].field != f)
  {
    LastMessagesSpec(schema(st.values));
  }

  /** When no field is named twice (as with the shipping and payment schemas),
      the last issue per field is also the first, so `validateAll` reports for
      each field what a change of that field would. */
  lemma {:induction false} LastIsFirstWhenDistinct(issues: seq<Issue>, f: Field)
    requires FieldsDistinct(issues)
    ensures f in LastMessages(issues) <==> FirstIssueFor(issues, f).Some?
    ensures f in LastMessages(issues) ==> LastMessages(issues)[f] == FirstIssueFor(issues, f).value
  {
    LastMessagesSpec(issues);
    if f in LastMessages(issues) {
      var i :| 0 <= i < |issues| && issues[i] == Issue(f, LastMessages(issues)[f])
               && forall j :: i < j < |issues| ==> issues[j].field != f;
      var i' :| 0 <= i' < |issues| && issues[i'] == Issue(f, FirstIssueFor(issues, f).value)
               && forall j :: 0 <= j < i' ==> issues[j].field != f;
      assert i == i';
    }
  }

  /** The loop of `validateAll` that fills the new error map. */
  method CollectErrors(issues: seq<Issue>) returns (newErrors: map<Field, string>)
    ensures newErrors == LastMessages(issues)
  {
    newErrors := map[];
    var n := 0;
    while n < |issues|
      invariant 0 <= n <= |issues|
      invariant newErrors == LastMessages(issues[..n])
    {
      assert issues[..n + 1][..n] == issues[..n];
      newErrors := newErrors[issues[n].field := issues[n].message];
      n := n + 1;
    }
    assert issues[..n] == issues;
  }

  /** The loop of `validateAll` that marks every key of `values` touched. */
  method CollectTouched(values: Record) returns (allTouched: set<Field>)
    ensures allTouched == values.Keys
  {
    allTouched := {};
    var pending := values.Keys;
    while pending != {}
      invariant allTouched + pending == values.Keys
      decreases pending
    {
      var key :| key in pending;
      allTouched := allTouched + {key};
      pending := pending - {key};
    }
  }

  /** One mounted form. */
  class Form {
    const initial: Record
    const schema: Record -> seq<Issue>
    var values: Record
    var errors: map<Field, string>
    var touched: set<Field>

    function State(): FormState
      reads this
    {
      FormState(values, errors, touched)
    }

    constructor (initial: Record, schema: Record -> seq<Issue>)
      ensures this.initial == initial && this.schema == schema
      ensures State() == InitialState(initial)
    {
      this.initial := initial;
      this.schema := schema;
      values, errors, touched := initial, map[], {};
    }

    /** `validateField`. */
    method ValidateField(f: Field, valuesToValidate: Record)
      modifies this`errors
      ensures errors == WithFieldError(old(errors), f, FirstIssueFor(schema(valuesToValidate), f))
    {
      var issues := schema(valuesToValidate);
      if issues == [] {
        errors := errors - {f};
      } else {
        var fieldError := FirstIssueFor(issues, f);
        match fieldError
        case Some(message) => errors := errors[f := message];
        case None => errors := errors - {f};
      }
    }

    /** `handleChange`. */
    method HandleChange(f: Field, v: string)
      modifies this
      ensures State() == AfterChange(old(State()), schema, f, v)
    {
      var newValues := values[f := v];
      values := newValues;
      ValidateField(f, newValues);
    }

    /** `handleBlur`. */
    method HandleBlur(f: Field)
      modifies this
      ensures State() == AfterBlur(old(State()), f)
    {
      touched := touched + {f};
    }

    /** `validateAll`. */
    method ValidateAll() returns (ok: bool)
      modifies this
      ensures Validated(ok, State()) == AfterValidateAll(old(State()), schema)
    {
      var issues := schema(values);
      if issues == [] {
        errors := map[];
        ok := true;
      } else {
        errors := CollectErrors(issues);
        touched := CollectTouched(values);
        ok := false;
      }
    }

    /** `handleSubmit`: the values handed to the step's `onSubmit`, if any. */
    method HandleSubmit() returns (submitted: Option<Record>)
      modifies this
      ensures AfterValidateAll(old(State()), schema) == Validated(submitted.Some?, State())
      ensures submitted.Some? ==> submitted.value == values == old(values)
    {
      var ok := ValidateAll();
      submitted := if ok then Some(values) else None;
    }

    /** `setFieldValue`. */
    method SetFieldValue(f: Field, v: string)
      modifies this
      ensures State() == AfterSetFieldValue(old(State()), f, v)
    {
      values := values[f := v];
    }

    /** `reset`. */
    method Reset()
      modifies this
      ensures State() == InitialState(initial)
    {
      values, errors, touched := initial, map[], {};
    }
  }

  /** `handleSubmit` hands over the values exactly when they satisfy the schema,
      and then hands them over unchanged. */
  lemma SubmitIffValid(st: FormState, schema: Record -> seq<Issue>)
    ensures AfterValidateAll(st, schema).ok <==> schema(st.values) == []
    ensures AfterValidateAll(st, schema).state.values == st.values
  {
  }

  /** An entry of a step's error summary. */
  datatype FieldError = FieldError(field: Field, message: string)

  /** The `formErrors` every step builds: the errors of touched fields, one
      entry per key of `errors` (the order of entries is not modelled). */
  function TouchedErrors(errors: map<Field, string>, touched: set<Field>): (r: multiset<FieldError>)
    ensures forall e :: e in r ==> e.field in touched && e.field in errors && errors[e.field] == e.message
    ensures forall f :: f in touched && f in errors ==> FieldError(f, errors[f]) in r
    ensures forall e :: e in r ==> r[e] == 1
  {
    multiset(set f | f in errors && f in touched :: FieldError(f, errors[f]))
  }
}
