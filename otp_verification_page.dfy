/** The OTP entry page (client/src/pages/auth/OtpVerificationPage.tsx): six one-character input
    cells with automatic focus movement, a paste that fills the cells from the left, and a verify
    button that submits only a complete code. */
module OtpVerificationPage {
  import opened Options
  import opened Strings

  const CellCount := 6

  /** What `handleOtpChange` keeps of a typed value: its last character when it is longer than one. */
  function KeptValue(value: string): (r: string)
    ensures |r| <= 1
    ensures |value| > 1 ==> r == [value[|value| - 1]]
    ensures |value| <= 1 ==> r == value
  {
    if |value| > 1 then [value[|value| - 1]] else value
  }

  /** The cells' text, as `otp.join("")`. */
  function Join(cells: seq<string>): string {
    if cells == [] then "" else cells[0] + Join(cells[1..])
  }

  /** Every cell holds at most one character. */
  predicate CellsOk(cells: seq<string>) {
    |cells| == CellCount && forall i :: 0 <= i < |cells| ==> |cells[i]| <= 1
  }

  /** With cells of at most one character, the joined text is six long iff no cell is empty. */
  lemma {:induction false} JoinLength(cells: seq<string>)
    requires forall i :: 0 <= i < |cells| ==> |cells[i]| <= 1
    ensures |Join(cells)| <= |cells|
    ensures |Join(cells)| == |cells| <==> forall i :: 0 <= i < |cells| ==> cells[i] != ""
  {
    if cells != [] {
      JoinLength(cells[1..]);
      assert forall i :: 1 <= i < |cells| ==> cells[i] == cells[1..][i - 1];
    }
  }

  /** A paste is taken when the trimmed text is one to six ASCII digits (`/^\d+$/`). */
  predicate PasteAccepted(pasted: string) {
    |pasted| <= CellCount && pasted != "" && AllDigits(pasted)
  }

  /** The cells after an accepted paste: the pasted characters from the left, the rest kept. */
  function PastedCells(cells: seq<string>, pasted: string): (r: seq<string>)
    requires |cells| == CellCount && |pasted| <= CellCount
    ensures |r| == CellCount
  {
    seq(CellCount, k requires 0 <= k < CellCount => if k < |pasted| then [pasted[k]] else cells[k])
  }

  /** One cell per character. */
  function Chars(s: string): (cells: seq<string>)
    ensures |cells| == |s|
  {
    seq(|s|, k requires 0 <= k < |s| => [s[k]])
  }

  lemma {:induction false} JoinChars(s: string)
    ensures Join(Chars(s)) == s
  {
    if s != [] {
      assert Chars(s)[1..] == Chars(s[1..]);
      JoinChars(s[1..]);
      assert [s[0]] + s[1..] == s;
    }
  }

  /** Pasting a whole six-digit code makes the joined cells that code. */
  lemma PasteFullCode(cells: seq<string>, pasted: string)
    requires |cells| == CellCount && |pasted| == CellCount
    ensures Join(PastedCells(cells, pasted)) == pasted
  {
    assert PastedCells(cells, pasted) == Chars(pasted);
    JoinChars(pasted);
  }

  /** The loop of `handlePaste`: a copy of the cells with the first `|pasted|` overwritten. */
  method Overwrite(current: seq<string>, pasted: string) returns (cells: seq<string>)
    requires |current| == CellCount && |pasted| <= CellCount
    ensures cells == PastedCells(current, pasted)
  {
    var newOtp := new string[CellCount];
    var k := 0;
    while k < CellCount
      invariant 0 <= k <= CellCount
      invariant forall m :: 0 <= m < k ==> newOtp[m] == current[m]
    {
      newOtp[k] := current[k];
      k := k + 1;
    }
    var i := 0;
    while i < |pasted| && i < CellCount
      invariant 0 <= i <= |pasted|
      invariant forall m :: 0 <= m < i ==> newOtp[m] == [pasted[m]]
      invariant forall m :: i <= m < CellCount ==> newOtp[m] == current[m]
    {
      newOtp[i] := [pasted[i]];
      i := i + 1;
    }
    cells := newOtp[..];
  }

  /** What the verify button does: `Some(code)` hands the joined code to `verifyOtp`; `None` is
      the "Please enter a complete 6-digit OTP" toast. */
  function VerifyRequest(cells: seq<string>): (r: Option<string>)
    requires CellsOk(cells)
    ensures r.Some? <==> forall i :: 0 <= i < |cells| ==> cells[i] != ""
    ensures r.Some? ==> r.value == Join(cells) && |r.value| == CellCount
  {
    JoinLength(cells);
    var code := Join(cells);
    if |code| != CellCount then None else Some(code)
  }

  class OtpEntry {
    var cells: seq<string>
    /** The index of the focused cell. */
    var focused: int
    var location: string

    ghost predicate Valid()
      reads this
    {
      CellsOk(cells) && 0 <= focused < CellCount
    }

    constructor (location: string)
      ensures Valid() && cells == ["", "", "", "", "", ""] && focused == 0 && this.location == location
    {
      cells := ["", "", "", "", "", ""];
      focused := 0;
      this.location := location;
    }

    /** The mount effect: without a phone number in the session, go back to `/login`; otherwise
        focus the first cell. */
    method MountEffect(phoneNumber: string)
      requires Valid()
      modifies this
      ensures Valid() && cells == old(cells)
      ensures phoneNumber == "" ==> location == "/login" && focused == old(focused)
      ensures phoneNumber != "" ==> location == old(location) && focused == 0
    {
      if phoneNumber == "" {
        location := "/login";
        return;
      }
      focused := 0;
    }

    /** `handleOtpChange`: only cell `index` changes, to the last typed character; a non-empty
        value moves the focus on unless this is the last cell. */
    method HandleOtpChange(index: int, value: string)
      requires Valid() && 0 <= index < CellCount
      modifies this
      ensures Valid()
      ensures cells == old(cells)[index := KeptValue(value)]
      ensures value != "" && index < CellCount - 1 ==> focused == index + 1
      ensures !(value != "" && index < CellCount - 1) ==> focused == old(focused)
      ensures location == old(location)
    {
      var v := value;
      if |v| > 1 {
        v := [v[|v| - 1]];
      }
      cells := cells[index := v];
      if v != "" && index < CellCount - 1 {
        focused := index + 1;
      }
    }

    /** `handleKeyDown`: Backspace in an empty cell other than the first moves the focus back. */
    method HandleKeyDown(index: int, key: string)
      requires Valid() && 0 <= index < CellCount
      modifies this
      ensures Valid() && cells == old(cells) && location == old(location)
      ensures key == "Backspace" && cells[index] == "" && index > 0 ==> focused == index - 1
      ensures !(key == "Backspace" && cells[index] == "" && index > 0) ==> focused == old(focused)
    {
      if key == "Backspace" && cells[index] == "" && index > 0 {
        focused := index - 1;
      }
    }

    /** `handlePaste`: an accepted paste overwrites the first cells and focuses the cell after it
        (the last cell for a full code); anything else changes nothing. */
    method HandlePaste(clipboard: string)
      requires Valid()
      modifies this
      ensures Valid() && location == old(location)
      ensures PasteAccepted(Trim(clipboard)) ==>
        cells == PastedCells(old(cells), Trim(clipboard)) &&
        focused == (if |Trim(clipboard)| < CellCount - 1 then |Trim(clipboard)| else CellCount - 1)
      ensures !PasteAccepted(Trim(clipboard)) ==> cells == old(cells) && focused == old(focused)
    {
      var pasted := Trim(clipboard);
      if |pasted| <= CellCount && pasted != "" && AllDigits(pasted) {
        cells := Overwrite(cells, pasted);
        focused := if |pasted| < CellCount - 1 then |pasted| else CellCount - 1;
      }
    }

    /** `handleBack`. */
    method HandleBack()
      requires Valid()
      modifies this
      ensures Valid() && location == "/login" && cells == old(cells) && focused == old(focused)
    {
      location := "/login";
    }
  }

  /** The verify button is disabled while loading or while any cell is empty, so a click always
      finds a complete code. */
  predicate VerifyDisabled(isLoading: bool, cells: seq<string>) {
    isLoading || exists i :: 0 <= i < |cells| && cells[i] == ""
  }

  lemma EnabledVerifySubmits(cells: seq<string>)
    requires CellsOk(cells) && !VerifyDisabled(false, cells)
    ensures VerifyRequest(cells).Some?
  {
  }
}
