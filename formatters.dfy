/** The card formatters (src/features/checkout/utils/formatters.ts). */
module Formatters {
  import opened Text

  /** `replace(/(\d{4})/g, '$1 ')`: scanning from the left, every run of four
      digits found is followed by a space; other characters are kept.
      On any input the digits survive in order (`GroupDigitsKeepsDigits`); on
      digit input the result is given exactly by `GroupDigitsOfDigits`. */
  function GroupDigits(s: string): (r: string)
    ensures |r| >= |s|
  {
    if |s| >= 4 && AllDigits(s[..4]) then s[..4] + " " + GroupDigits(s[4..])
    else if s == [] then []
    else [s[0]] + GroupDigits(s[1..])
  }

  /** `formatCardNumber`. On any input the digits survive in order
      (`FormatCardNumberKeepsDigits`); on digit input the result is the
      space-separated groups (`FormatCardNumberOfDigits`,
      `FormatCardNumberRoundTrip`). */
  function FormatCardNumber(s: string): (r: string)
    ensures r == [] || (!IsWhitespace(r[0]) && !IsWhitespace(r[|r| - 1]))
  {
    Trim(GroupDigits(s))
  }

  /** The replacement only inserts spaces, so the digits come out unchanged. */
  lemma {:induction false} GroupDigitsKeepsDigits(s: string)
    ensures DigitsOnly(GroupDigits(s)) == DigitsOnly(s)
    decreases |s|
  {
    if |s| >= 4 && AllDigits(s[..4]) {
      GroupDigitsKeepsDigits(s[4..]);
      assert s == s[..4] + s[4..];
      DigitsOnlyAppend(s[..4] + " ", GroupDigits(s[4..]));
      DigitsOnlyAppend(s[..4], " ");
      DigitsOnlyAppend(s[..4], s[4..]);
    } else if s != [] {
      GroupDigitsKeepsDigits(s[1..]);
      assert s == [s[0]] + s[1..];
      DigitsOnlyAppend([s[0]], GroupDigits(s[1..]));
      DigitsOnlyAppend([s[0]], s[1..]);
    }
  }

  /** Formatting never adds, drops or reorders a digit, whatever the input. */
  lemma FormatCardNumberKeepsDigits(s: string)
    ensures DigitsOnly(FormatCardNumber(s)) == DigitsOnly(s)
  {
    TrimKeepsDigits(GroupDigits(s));
    GroupDigitsKeepsDigits(s);
  }

  /** The intended display of a digit string: its groups of four, separated
      by single spaces. */
  function Spaced(s: string): (r: string)
    decreases |s|
  {
    if |s| <= 4 then s else s[..4] + " " + Spaced(s[4..])
  }

  function RemoveSpaces(s: string): (r: string)
    ensures ' ' !in r && |r| <= |s|
  {
    if s == [] then [] else (if s[0] == ' ' then [] else [s[0]]) + RemoveSpaces(s[1..])
  }

  lemma {:induction false} RemoveSpacesAppend(a: string, b: string)
    ensures RemoveSpaces(a + b) == RemoveSpaces(a) + RemoveSpaces(b)
  {
    if a == [] {
      assert a + b == b;
    } else {
      assert (a + b)[0] == a[0] && (a + b)[1..] == a[1..] + b;
      RemoveSpacesAppend(a[1..], b);
    }
  }

  lemma {:induction false} RemoveSpacesOfDigits(s: string)
    requires AllDigits(s)
    ensures RemoveSpaces(s) == s
  {
    if s != [] {
      RemoveSpacesOfDigits(s[1..]);
    }
  }

  /** Under four digits there is nothing to group. */
  lemma {:induction false} GroupShortDigits(s: string)
    requires AllDigits(s) && |s| < 4
    ensures GroupDigits(s) == s
  {
    if s != [] {
      GroupShortDigits(s[1..]);
    }
  }

  /** On a digit string, the regex replace yields the spaced form, plus one
      trailing space when the length is a positive multiple of four. */
  lemma {:induction false} GroupDigitsOfDigits(s: string)
    requires AllDigits(s)
    ensures GroupDigits(s) == Spaced(s) + (if |s| > 0 && |s| % 4 == 0 then " " else "")
    decreases |s|
  {
    if |s| >= 4 {
      GroupDigitsOfDigits(s[4..]);
      if |s| == 4 {
        assert GroupDigits(s[4..]) == [];
      }
    } else {
      GroupShortDigits(s);
    }
  }

  /** The spaced form of a digit string starts and ends with a digit and
      drops back to the string when its spaces are removed. */
  lemma {:induction false} SpacedOfDigits(s: string)
    requires AllDigits(s)
    ensures RemoveSpaces(Spaced(s)) == s
    ensures |s| > 0 ==> |Spaced(s)| > 0 && IsDigit(Spaced(s)[0]) && IsDigit(Spaced(s)[|Spaced(s)| - 1])
    decreases |s|
  {
    if |s| <= 4 {
      RemoveSpacesOfDigits(s);
    } else {
      SpacedOfDigits(s[4..]);
      RemoveSpacesAppend(s[..4] + " ", Spaced(s[4..]));
      RemoveSpacesAppend(s[..4], " ");
      RemoveSpacesOfDigits(s[..4]);
      assert s[..4] + s[4..] == s;
    }
  }

  lemma TrimKeeps(x: string)
    requires x == [] || (!IsWhitespace(x[0]) && !IsWhitespace(x[|x| - 1]))
    ensures Trim(x) == x
  {
  }

  lemma TrimDropsTrailingSpace(x: string)
    requires x != [] && !IsWhitespace(x[0]) && !IsWhitespace(x[|x| - 1])
    ensures Trim(x + " ") == x
  {
    assert TrimStart(x + " ") == x + " ";
    assert (x + " ")[..|x + " "| - 1] == x;
  }

  lemma DigitIsNotWhitespace(c: char)
    requires IsDigit(c)
    ensures !IsWhitespace(c)
  {
  }

  /** For a digit string, `formatCardNumber` is exactly the spaced form. */
  lemma FormatCardNumberOfDigits(s: string)
    requires AllDigits(s)
    ensures FormatCardNumber(s) == Spaced(s)
  {
    GroupDigitsOfDigits(s);
    SpacedOfDigits(s);
    if s == [] {
    } else {
      DigitIsNotWhitespace(Spaced(s)[0]);
      DigitIsNotWhitespace(Spaced(s)[|Spaced(s)| - 1]);
      if |s| % 4 == 0 {
        TrimDropsTrailingSpace(Spaced(s));
      } else {
        TrimKeeps(Spaced(s));
      }
    }
  }

  /** For a digit string, removing the spaces of the formatted number gives
      the number back, and the formatted number has no trailing space. */
  lemma FormatCardNumberRoundTrip(s: string)
    requires AllDigits(s)
    ensures RemoveSpaces(FormatCardNumber(s)) == s
    ensures FormatCardNumber(s) == [] || FormatCardNumber(s)[|FormatCardNumber(s)| - 1] != ' '
  {
    FormatCardNumberOfDigits(s);
    SpacedOfDigits(s);
  }

  lemma FormatCardNumberExample(s: string)
    requires s == "4111111111111111"
    ensures FormatCardNumber(s) == "4111 1111 1111 1111"
  {
    assert AllDigits(s);
    FormatCardNumberOfDigits(s);
    SpacedExample();
  }

  lemma SpacedExample()
    ensures Spaced("4111111111111111") == "4111 1111 1111 1111"
  {
  }

  lemma FormatCardNumberOfEmpty()
    ensures FormatCardNumber("") == ""
  {
    FormatCardNumberOfDigits("");
  }

  const MaskPrefix := "**** **** **** "

  /** `slice(-4)`: the last four characters, or all of a shorter string. */
  function LastFour(s: string): (r: string)
    ensures |r| == if |s| < 4 then |s| else 4
    ensures r == s[|s| - |r|..]
  {
    if |s| < 4 then s else s[|s| - 4..]
  }

  /** `maskCardNumber`. */
  function MaskCardNumber(s: string): (r: string)
    ensures |r| == |MaskPrefix| + |LastFour(s)|
    ensures r[..|MaskPrefix|] == MaskPrefix && r[|MaskPrefix|..] == LastFour(s)
  {
    MaskPrefix + LastFour(s)
  }

  /** A masked 16-digit number ends with the number's last four digits and
      does not contain the number itself. */
  lemma MaskHidesCardNumber(s: string)
    requires |s| == 16 && AllDigits(s)
    ensures var r := MaskCardNumber(s); r[|r| - 4..] == s[12..] && !Contains(r, s)
  {
    var r := MaskCardNumber(s);
    assert |r| == 19;
    forall i | 0 <= i <= |r| - |s|
      ensures !OccursAt(r, s, i)
    {
      assert r[i] == '*' && IsDigit(s[0]);
    }
  }
}
