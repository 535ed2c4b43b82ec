/** The string and number helpers of client/src/lib/utils.ts. */
module Utils {
  import opened Strings

  /** `principal + principal * (roi / 100) * years`: simple interest. */
  function CalculateProjectedAmount(principal: real, roi: real, years: real): (r: real)
    ensures r - principal == principal * (roi / 100.0) * years
  {
    var interest := principal * (roi / 100.0) * years;
    principal + interest
  }

  /** No interest accrues at a zero rate or over zero years. */
  lemma ProjectionWithoutInterest(principal: real, roi: real, years: real)
    requires roi == 0.0 || years == 0.0
    ensures CalculateProjectedAmount(principal, roi, years) == principal
  {
  }

  /** With a non-negative principal and rate, a longer period never projects less. */
  lemma ProjectionMonotoneInYears(principal: real, roi: real, y1: real, y2: real)
    requires principal >= 0.0 && roi >= 0.0 && y1 <= y2
    ensures CalculateProjectedAmount(principal, roi, y1) <= CalculateProjectedAmount(principal, roi, y2)
  {
    var rate := principal * (roi / 100.0);
    assert rate >= 0.0;
    assert rate * y2 - rate * y1 == rate * (y2 - y1);
  }

  /** `formatPhoneNumber`: empty stays empty, a `+91` number is kept, anything else gets `+91 `. */
  function FormatPhoneNumber(phone: string): (r: string)
    ensures phone == "" ==> r == ""
    ensures phone != "" && StartsWith(phone, "+91") ==> r == phone
    ensures phone != "" && !StartsWith(phone, "+91") ==> r == "+91 " + phone
  {
    if phone == "" then ""
    else if StartsWith(phone, "+91") then phone
    else "+91 " + phone
  }

  /** Every non-empty formatted number starts with `+91`. */
  lemma FormattedStartsWithCode(phone: string)
    requires phone != ""
    ensures StartsWith(FormatPhoneNumber(phone), "+91")
  {
    var r := FormatPhoneNumber(phone);
    if !StartsWith(phone, "+91") {
      assert r[..3] == "+91";
    }
  }

  /** Formatting a formatted number changes nothing. */
  lemma FormatPhoneNumberIdempotent(phone: string)
    ensures FormatPhoneNumber(FormatPhoneNumber(phone)) == FormatPhoneNumber(phone)
  {
    if phone != "" {
      FormattedStartsWithCode(phone);
    }
  }

  /** What `getInitials` evaluates to: a string, or a thrown `TypeError`. */
  datatype Initials = Initials(text: string) | Throws

  /** JavaScript's `word[0]` inside `+`: the first character, or the text "undefined" when the
      word is empty. */
  function FirstCharOrUndefined(word: string): (r: string)
    ensures word != "" ==> r == [word[0]]
    ensures word == "" ==> r == "undefined"
  {
    if word == "" then "undefined" else [word[0]]
  }

  /** `getInitials` as written: the name is split at every single space, so a leading, trailing or
      doubled space leaves an empty first or last piece, whose `[0]` is `undefined`. One undefined
      operand is concatenated as the text "undefined"; two add up to NaN, whose `toUpperCase` throws. */
  function GetInitialsAsWritten(name: string): (r: Initials)
    ensures name == "" ==> r == Initials("")
  {
    if name == "" then Initials("")
    else
      var names := SplitOn(name, ' ');
      if |names| == 1 then
        var first := names[0];
        Initials(ToUpper(first[..if |first| < 2 then |first| else 2]))
      else
        var first := names[0];
        var last := names[|names| - 1];
        if first == "" && last == "" then Throws
        else Initials(ToUpper(FirstCharOrUndefined(first) + FirstCharOrUndefined(last)))
  }

  /** A name without spaces gives its first two characters, upper-cased. */
  lemma AsWrittenSingleWord(name: string)
    requires name != "" && ' ' !in name
    ensures GetInitialsAsWritten(name) == Initials(ToUpper(name[..if |name| < 2 then |name| else 2]))
  {
    SplitSingleIff(name, ' ');
  }

  /** Several pieces whose first and last are words give two upper-cased initials. */
  lemma AsWrittenSeveralWords(name: string)
    requires |SplitOn(name, ' ')| >= 2
    requires SplitOn(name, ' ')[0] != "" && SplitOn(name, ' ')[|SplitOn(name, ' ')| - 1] != ""
    ensures name != ""
    ensures var names := SplitOn(name, ' ');
      GetInitialsAsWritten(name) == Initials(ToUpper([names[0][0], names[|names| - 1][0]]))
  {
  }

  /** A trailing space makes the last piece empty: "Ada " gives "AUNDEFINED". */
  lemma AsWrittenTrailingSpace()
    ensures GetInitialsAsWritten("Ada ") == Initials("AUNDEFINED")
  {
    SplitAdaSpace();
  }

  /** A word followed by one space splits into the word and an empty piece. */
  lemma {:induction false} SplitWordSpace(w: string)
    requires ' ' !in w
    ensures SplitOn(w + " ", ' ') == [w, ""]
  {
    if w == [] {
      assert w + " " == " " && " "[1..] == "";
    } else {
      SplitWordSpace(w[1..]);
      assert (w + " ")[1..] == w[1..] + " ";
      assert [w[0]] + w[1..] == w;
    }
  }

  lemma SplitAdaSpace()
    ensures SplitOn("Ada ", ' ') == ["Ada", ""]
  {
    SplitWordSpace("Ada");
    assert "Ada" + " " == "Ada ";
  }

  /** A name of one space throws. */
  lemma AsWrittenSingleSpace()
    ensures GetInitialsAsWritten(" ") == Throws
  {
    assert " "[1..] == "";
    assert SplitOn(" ", ' ') == ["", ""];
  }

  /** The non-empty words of `parts`, in order. */
  function NonEmpty(parts: seq<string>): (words: seq<string>)
    ensures forall w :: w in words ==> w != "" && w in parts
    ensures |words| <= |parts|
  {
    if parts == [] then []
    else (if parts[0] == "" then [] else [parts[0]]) + NonEmpty(parts[1..])
  }

  lemma {:induction false} NonEmptyOfNonEmpty(parts: seq<string>)
    requires forall k :: 0 <= k < |parts| ==> parts[k] != ""
    ensures NonEmpty(parts) == parts
  {
    if parts != [] {
      NonEmptyOfNonEmpty(parts[1..]);
    }
  }

  /** The space-separated words of a name. */
  function Words(name: string): (words: seq<string>)
    ensures forall w :: w in words ==> w != "" && ' ' !in w
  {
    SplitPiecesHaveNoSeparator(name, ' ');
    NonEmpty(SplitOn(name, ' '))
  }

  /** `getInitials` as evidently intended: empty pieces are not words, so the initials come from
      the first and last actual words and a name of spaces has none. */
  function GetInitials(name: string): (r: string)
    ensures |r| <= 2
    ensures |Words(name)| >= 2 ==> |r| == 2
    ensures Words(name) == [] ==> r == ""
  {
    var words := Words(name);
    if words == [] then ""
    else if |words| == 1 then
      var w := words[0];
      ToUpper(w[..if |w| < 2 then |w| else 2])
    else
      assert words[0] in words && words[|words| - 1] in words;
      ToUpper([words[0][0], words[|words| - 1][0]])
  }

  /** Where the name has no empty piece (no leading, trailing or doubled space), the code as
      written already computes the intended initials. */
  lemma AsWrittenAgreesWithoutEmptyPieces(name: string)
    requires name != ""
    requires forall k :: 0 <= k < |SplitOn(name, ' ')| ==> SplitOn(name, ' ')[k] != ""
    ensures GetInitialsAsWritten(name) == Initials(GetInitials(name))
  {
    NonEmptyOfNonEmpty(SplitOn(name, ' '));
  }

  /** Trailing and doubled spaces no longer matter: "Ada " and "Ada" have the same initials. */
  lemma InitialsIgnoreTrailingSpace()
    ensures GetInitials("Ada ") == GetInitials("Ada") == "AD"
  {
    SplitAdaSpace();
    SplitSingleIff("Ada", ' ');
    assert NonEmpty([""]) == [];
    assert NonEmpty(["Ada", ""]) == ["Ada"];
  }
}
