/** The six-cell OTP entry page: typing into a cell, pasting a code, and submitting
    the joined digits. */
module OtpPage {
  import opened Api
  import opened Text

  const Cells := 6
  const Incomplete := "Please enter the complete OTP"

  /** Every cell holds nothing or one ASCII digit. */
  predicate WellFormed(otp: seq<string>) {
    |otp| == Cells && forall i :: 0 <= i < |otp| ==> |otp[i]| <= 1 && AllDigits(otp[i])
  }

  /** `otp.some(digit => !digit)`. */
  predicate HasEmpty(otp: seq<string>) {
    exists i :: 0 <= i < |otp| && otp[i] == ""
  }

  /** `Array(6).fill("")`. */
  function Initial(): (otp: seq<string>)
    ensures WellFormed(otp) && |otp| == Cells
    ensures forall i :: 0 <= i < |otp| ==> otp[i] == ""
  {
    ["", "", "", "", "", ""]
  }

  /** `newOtp.findIndex(val => !val)`: the first empty cell, or -1. */
  method FirstEmpty(otp: seq<string>) returns (index: int)
    ensures -1 <= index < |otp|
    ensures index == -1 <==> !HasEmpty(otp)
    ensures index != -1 ==> otp[index] == "" && forall j :: 0 <= j < index ==> otp[j] != ""
  {
    index := 0;
    while index < |otp| && otp[index] != ""
      invariant 0 <= index <= |otp|
      invariant forall j :: 0 <= j < index ==> otp[j] != ""
    {
      index := index + 1;
    }
    if index == |otp| {
      index := -1;
    }
  }

  /** The cells after pasting `digits` (already checked to be digits): the first
      `min(6, |digits|)` cells take one digit each, in order; the rest keep their value. */
  method PasteDigits(otp: seq<string>, digits: string) returns (r: seq<string>)
    requires |otp| == Cells
    ensures |r| == Cells
    ensures forall i :: 0 <= i < Cells && i < |digits| ==> r[i] == [digits[i]]
    ensures forall i :: |digits| <= i < Cells ==> r[i] == otp[i]
  {
    var k := if |digits| < Cells then |digits| else Cells;
    var first := digits[..k];
    r := otp;
    var index := 0;
    while index < |first|
      invariant 0 <= index <= |first| && |r| == Cells
      invariant forall i :: 0 <= i < index ==> r[i] == [digits[i]]
      invariant forall i :: index <= i < Cells ==> r[i] == otp[i]
    {
      if index < Cells {
        r := r[index := [first[index]]];
      }
      index := index + 1;
    }
  }

  /** The cells joined into the code that is submitted. */
  function Code(otp: seq<string>): string {
    Join(otp, "")
  }

  /** A complete, well-formed entry submits exactly six digits. */
  lemma {:induction false} CompleteCode(otp: seq<string>)
    requires forall i :: 0 <= i < |otp| ==> |otp[i]| == 1 && IsDigit(otp[i][0])
    ensures |Code(otp)| == |otp|
    ensures forall k :: 0 <= k < |otp| ==> Code(otp)[k] == otp[k][0]
  {
    if |otp| > 1 {
      CompleteCode(otp[1..]);
      assert Code(otp) == otp[0] + "" + Code(otp[1..]);
      forall k | 0 <= k < |otp|
        ensures Code(otp)[k] == otp[k][0]
      {
        if k > 0 { assert otp[1..][k - 1] == otp[k]; }
      }
    }
  }

  class OtpPage {
    var otp: seq<string>
    var error: string

    constructor ()
      ensures otp == Initial() && error == ""
    {
      otp, error := Initial(), "";
    }

    /** `handleChange(index, value)` for the input at `index`; `focus` is the cell
        that receives focus next, if any. */
    method HandleChange(index: nat, value: string) returns (focus: Option<nat>)
      requires index < Cells && |otp| == Cells
      modifies this
      ensures error == old(error) && |otp| == Cells
      ensures !AllDigits(value) ==> otp == old(otp) && focus == None
      ensures AllDigits(value) ==>
        && otp == old(otp)[index := if value == "" then "" else value[..1]]
        && focus == (if value != "" && index < 5 then Some(index + 1) else None)
      ensures old(WellFormed(otp)) ==> WellFormed(otp)
    {
      if !AllDigits(value) {
        return None;
      }
      otp := otp[index := if value == "" then "" else value[..1]];
      focus := if value != "" && index < 5 then Some(index + 1) else None;
    }

    /** `handlePaste(text)`; `focus` is the cell that receives focus, if any. */
    method HandlePaste(text: string) returns (focus: Option<nat>)
      requires |otp| == Cells
      modifies this
      ensures error == old(error) && |otp| == Cells
      ensures var pasted := Trim(text);
        && (pasted == "" || !AllDigits(pasted) ==> otp == old(otp) && focus == None)
        && (pasted != "" && AllDigits(pasted) ==>
              && (forall i :: 0 <= i < Cells && i < |pasted| ==> otp[i] == [pasted[i]])
              && (forall i :: |pasted| <= i < Cells ==> otp[i] == old(otp)[i])
              && focus.Some? && focus.value < Cells
              && (HasEmpty(otp) ==> otp[focus.value] == "" && forall j :: 0 <= j < focus.value ==> otp[j] != "")
              && (!HasEmpty(otp) ==> focus == Some(5)))
      ensures old(WellFormed(otp)) ==> WellFormed(otp)
    {
      var pasted := Trim(text);
      if pasted == "" || !AllDigits(pasted) {
        return None;
      }
      var before := otp;
      otp := PasteDigits(otp, pasted);
      assert forall i :: 0 <= i < Cells && i < |pasted| ==> AllDigits(otp[i]) by {
        forall i | 0 <= i < Cells && i < |pasted|
          ensures AllDigits(otp[i])
        {
          assert otp[i] == [pasted[i]];
        }
      }
      var next := FirstEmpty(otp);
      focus := if next != -1 then Some(next) else Some(5);
    }

    /** `handleSubmit`: `verify` is the code handed to verification, if any. */
    method HandleSubmit() returns (verify: Option<string>)
      modifies this
      ensures otp == old(otp)
      ensures HasEmpty(otp) ==> error == Incomplete && verify == None
      ensures !HasEmpty(otp) ==> error == old(error) && verify == Some(Code(otp))
    {
      var index := FirstEmpty(otp);
      if index != -1 {
        error := Incomplete;
        verify := None;
      } else {
        verify := Some(Code(otp));
      }
    }
  }

  /** What a well-formed page submits is six digits. */
  lemma SubmittedCodeIsSixDigits(otp: seq<string>)
    requires WellFormed(otp) && !HasEmpty(otp)
    ensures |Code(otp)| == Cells && AllDigits(Code(otp))
  {
    forall i | 0 <= i < |otp|
      ensures |otp[i]| == 1 && IsDigit(otp[i][0])
    {
      assert otp[i] != "";
    }
    CompleteCode(otp);
  }
}
