/** The account form's schema. Its source file is not part of this model, so
    the account step takes the schema as a parameter; the schema's tests
    (tests/unit/schemas.test.ts) are the only constraint on it, stated here as
    a predicate, together with one schema shown to satisfy them. */
module AccountSchema {
  import opened Text
  import opened Validation

  const AccountKeyOrder: seq<Field> := [Email, Password]

  /** The tests' accepted account, and the one rejected for a short password. */
  const ValidTestAccount: Record := map[Email := "test@example.com", Password := "Password123"]
  const ShortPasswordAccount: Record := map[Email := "test@example.com", Password := "Short1"]

  /** The text the tests look for in a short password's message, and the
      policy's message that carries it. */
  const LengthText := "at least 8 characters"
  const ShortPasswordMessage := "Password must be " + LengthText

  /** The five examples the schema's tests check. */
  ghost predicate AgreesWithSchemaTests(schema: Record -> seq<Issue>) {
    && schema(ValidTestAccount) == []
    && (var r := schema(map[Email := "not-an-email", Password := "Password123"]);
        r != [] && Contains(r[0].message, "Invalid email"))
    && (var r := schema(ShortPasswordAccount);
        r != [] && Contains(r[0].message, LengthText))
    && schema(map[Email := "test@example.com", Password := "password123"]) != []
    && schema(map[Email := "test@example.com", Password := "PasswordABC"]) != []
  }

  predicate HasCharIn(s: string, lo: char, hi: char) {
    exists i :: 0 <= i < |s| && lo <= s[i] <= hi
  }

  /** A password policy of the form the account step describes to the user
      (at least 8 characters with an upper-case letter, a lower-case letter and
      a digit); the email format is the parameter `emailValid`. */
  function PolicyFieldIssues(emailValid: string -> bool, v: Record, f: Field): seq<Issue> {
    if f !in v then [Issue(f, "Required")]
    else match f
      case Email => if emailValid(v[f]) then [] else [Issue(f, "Invalid email")]
      case Password =>
        var p := v[f];
        (if |p| < 8 then [Issue(f, ShortPasswordMessage)] else [])
        + (if HasCharIn(p, 'A', 'Z') then [] else [Issue(f, "Password must contain an uppercase letter")])
        + (if HasCharIn(p, 'a', 'z') then [] else [Issue(f, "Password must contain a lowercase letter")])
        + (if HasCharIn(p, '0', '9') then [] else [Issue(f, "Password must contain a number")])
      case _ => []
  }

  function PolicyIssues(emailValid: string -> bool, v: Record): seq<Issue> {
    Collect(f => PolicyFieldIssues(emailValid, v, f), AccountKeyOrder)
  }

  /** The issues of a two-key record: the email's, then the password's. */
  lemma PolicyIssuesOfPair(emailValid: string -> bool, e: string, p: string)
    ensures PolicyIssues(emailValid, map[Email := e, Password := p])
         == (if emailValid(e) then [] else [Issue(Email, "Invalid email")])
            + PolicyFieldIssues(emailValid, map[Email := e, Password := p], Password)
  {
    var v := map[Email := e, Password := p];
    var rule := f => PolicyFieldIssues(emailValid, v, f);
    assert Collect(rule, [Password]) == rule(Password) + Collect(rule, []);
  }

  /** The policy accepts the tests' valid account and rejects the two
      passwords that lack an upper-case letter or a digit. */
  lemma PolicyPasswordVerdicts(emailValid: string -> bool)
    requires emailValid("test@example.com")
    ensures PolicyIssues(emailValid, ValidTestAccount) == []
    ensures PolicyIssues(emailValid, map[Email := "test@example.com", Password := "password123"]) != []
    ensures PolicyIssues(emailValid, map[Email := "test@example.com", Password := "PasswordABC"]) != []
  {
    assert "Password123"[0] == 'P' && "Password123"[1] == 'a' && "Password123"[8] == '1';
    assert !HasCharIn("password123", 'A', 'Z') && !HasCharIn("PasswordABC", '0', '9');
    PolicyIssuesOfPair(emailValid, "test@example.com", "Password123");
    PolicyIssuesOfPair(emailValid, "test@example.com", "password123");
    PolicyIssuesOfPair(emailValid, "test@example.com", "PasswordABC");
  }

  /** A bad email's first message carries the text the tests look for. */
  lemma PolicyBadEmailMessage(emailValid: string -> bool)
    requires !emailValid("not-an-email")
    ensures var r := PolicyIssues(emailValid, map[Email := "not-an-email", Password := "Password123"]);
      r != [] && Contains(r[0].message, "Invalid email")
  {
    PolicyIssuesOfPair(emailValid, "not-an-email", "Password123");
    assert Contains("Invalid email", "Invalid email") by {
      ContainsSuffix("", "Invalid email");
      assert "" + "Invalid email" == "Invalid email";
    }
  }

  /** Any password under 8 characters, next to an accepted email, is reported
      first for its length. */
  lemma PolicyShortPasswordFirst(emailValid: string -> bool, e: string, p: string)
    requires emailValid(e) && |p| < 8
    ensures var r := PolicyIssues(emailValid, map[Email := e, Password := p]);
      r != [] && r[0] == Issue(Password, ShortPasswordMessage)
  {
    PolicyIssuesOfPair(emailValid, e, p);
  }

  /** A short password's first message carries the text the tests look for. */
  lemma PolicyShortPasswordMessage(emailValid: string -> bool)
    requires emailValid("test@example.com")
    ensures var r := PolicyIssues(emailValid, ShortPasswordAccount);
      r != [] && Contains(r[0].message, LengthText)
  {
    PolicyShortPasswordFirst(emailValid, "test@example.com", "Short1");
    ContainsSuffix("Password must be ", LengthText);
  }

  /** The tests can be met: with an email check that accepts the tests' valid
      address and rejects 'not-an-email', the policy agrees with every example. */
  lemma PolicyAgreesWithSchemaTests(emailValid: string -> bool)
    requires emailValid("test@example.com") && !emailValid("not-an-email")
    ensures AgreesWithSchemaTests(v => PolicyIssues(emailValid, v))
  {
    PolicyPasswordVerdicts(emailValid);
    PolicyBadEmailMessage(emailValid);
    PolicyShortPasswordMessage(emailValid);
  }
}
