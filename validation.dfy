/** The vocabulary shared by the forms and their schemas: field names, the
    field -> string records the forms edit, and the issues a schema reports. */
module Validation {
  import opened Wrappers

  /** The keys of the account, shipping and payment forms. */
  datatype Field =
    | Email | Password
    | FirstName | LastName | Address | City | State | ZipCode | SelectedOption
    | CardNumber | CardName | ExpiryDate | Cvv

  /** A form's values object; a key that is absent is `undefined`. */
  type Record = map<Field, string>

  /** One schema violation: `path[0]` and `message` of a zod issue. */
  datatype Issue = Issue(field: Field, message: string)

  /** `values.f` used as a condition: present and not the empty string. */
  predicate Truthy(r: Record, f: Field) {
    f in r && r[f] != ""
  }

  /** `errors.f` used as a condition. */
  predicate HasError(errors: map<Field, string>, f: Field) {
    f in errors && errors[f] != ""
  }

  /** `issues.find(err => err.path[0] === f)?.message`. */
  function FirstIssueFor(issues: seq<Issue>, f: Field): (m: Option<string>)
    ensures m.None? <==> forall i :: 0 <= i < |issues| ==> issues[i].field != f
    ensures m.Some? ==> exists i :: 0 <= i < |issues| && issues[i] == Issue(f, m.value)
                                   && forall j :: 0 <= j < i ==> issues[j].field != f
  {
    if issues == [] then None
    else if issues[0].field == f then Some(issues[0].message)
    else
      var rest := FirstIssueFor(issues[1..], f);
      if rest.Some? then
        ghost var k :| 0 <= k < |issues| - 1 && issues[1..][k] == Issue(f, rest.value)
                       && forall j :: 0 <= j < k ==> issues[1..][j].field != f;
        assert issues[k + 1] == Issue(f, rest.value);
        rest
      else rest
  }

  /** Searching a concatenation: the first part is searched first. */
  lemma {:induction false} FirstIssueForAppend(a: seq<Issue>, b: seq<Issue>, f: Field)
    ensures FirstIssueFor(a + b, f) == if FirstIssueFor(a, f).Some? then FirstIssueFor(a, f) else FirstIssueFor(b, f)
  {
    if a == [] {
      assert a + b == b;
    } else {
      assert (a + b)[1..] == a[1..] + b;
      FirstIssueForAppend(a[1..], b, f);
    }
  }

  /** No two issues name the same field. */
  predicate FieldsDistinct(issues: seq<Issue>) {
    forall i, j :: 0 <= i < j < |issues| ==> issues[i].field != issues[j].field
  }

  /** A zod object schema: each key's rules run in declaration order and
      their issues are concatenated. */
  function Collect(rule: Field -> seq<Issue>, keys: seq<Field>): seq<Issue> {
    if keys == [] then [] else rule(keys[0]) + Collect(rule, keys[1..])
  }

  /** Each key's rules report at most one issue, and only about that key. */
  predicate OneIssuePerKey(rule: Field -> seq<Issue>, keys: seq<Field>) {
    forall k :: k in keys ==> |rule(k)| <= 1 && forall i :: 0 <= i < |rule(k)| ==> rule(k)[i].field == k
  }

  predicate KeysDistinct(keys: seq<Field>) {
    forall i, j :: 0 <= i < j < |keys| ==> keys[i] != keys[j]
  }

  /** With distinct keys whose rules are mutually exclusive, the issue found
      for a field is its own rule's, and no field is named twice. */
  lemma {:induction false} CollectPerKey(rule: Field -> seq<Issue>, keys: seq<Field>, f: Field)
    requires KeysDistinct(keys) && OneIssuePerKey(rule, keys)
    ensures FirstIssueFor(Collect(rule, keys), f) == if f in keys then FirstIssueFor(rule(f), f) else None
    ensures forall i :: 0 <= i < |Collect(rule, keys)| ==> Collect(rule, keys)[i].field in keys
    ensures FieldsDistinct(Collect(rule, keys))
  {
    if keys != [] {
      var k, rest := keys[0], keys[1..];
      assert forall x :: x in rest ==> x in keys;
      CollectPerKey(rule, rest, f);
      FirstIssueForAppend(rule(k), Collect(rule, rest), f);
      assert k !in rest by {
        forall j | 0 <= j < |rest| ensures rest[j] != k {
          assert rest[j] == keys[j + 1];
        }
      }
      var c := Collect(rule, keys);
      assert c == rule(k) + Collect(rule, rest);
      forall i | 0 <= i < |c| ensures c[i].field in keys {
        if i >= |rule(k)| {
          assert c[i] == Collect(rule, rest)[i - |rule(k)|];
        }
      }
    }
  }
}
