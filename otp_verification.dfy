/**
 * The six-box OTP input: typing, backspace and paste handlers over an array
 * of six slots, the form value they keep equal to the slots' concatenation,
 * and the `skipOtp` shortcut.
 */
module OtpVerification {
  import opened JsText

  const OtpLength: nat := 6
  const DummyOtp: string := "000000"

  /** A slot holds nothing or one digit. */
  predicate SlotOk(s: string) { |s| <= 1 && AllDigits(s) }

  /** The slots after pasting `p`: the first `|p|` slots take its characters, the rest keep theirs. */
  function Pasted(slots: seq<string>, p: string): (r: seq<string>)
    requires |p| <= |slots|
    ensures |r| == |slots|
    ensures forall i :: 0 <= i < |p| ==> r[i] == [p[i]]
    ensures forall i :: |p| <= i < |slots| ==> r[i] == slots[i]
  {
    seq(|slots|, i requires 0 <= i < |slots| => if i < |p| then [p[i]] else slots[i])
  }

  /** `otpFormSchema`: the OTP must be exactly six characters. */
  predicate OtpAccepted(otp: string) { |otp| == OtpLength }

  /** The concatenation of slots holding at most one character each is as long as the number of filled slots. */
  function Filled(slots: seq<string>): nat {
    if slots == [] then 0 else (if slots[0] == "" then 0 else 1) + Filled(slots[1..])
  }

  lemma {:induction false} ConcatLength(slots: seq<string>)
    requires forall i :: 0 <= i < |slots| ==> |slots[i]| <= 1
    ensures |Concat(slots)| == Filled(slots) <= |slots|
  {
    if slots != [] {
      ConcatLength(slots[1..]);
    }
  }

  /** The six-slot value passes the schema exactly when every slot is filled. */
  lemma {:induction false} AcceptedIffAllFilled(slots: seq<string>)
    requires |slots| == OtpLength && forall i :: 0 <= i < |slots| ==> SlotOk(slots[i])
    ensures OtpAccepted(Concat(slots)) <==> forall i :: 0 <= i < |slots| ==> slots[i] != ""
  {
    ConcatLength(slots);
    if forall i :: 0 <= i < |slots| ==> slots[i] != "" {
      FilledAll(slots);
    } else {
      var k :| 0 <= k < |slots| && slots[k] == "";
      FilledMissing(slots, k);
    }
  }

  lemma {:induction false} FilledAll(slots: seq<string>)
    requires forall i :: 0 <= i < |slots| ==> slots[i] != ""
    ensures Filled(slots) == |slots|
  {
    if slots != [] {
      FilledAll(slots[1..]);
    }
  }

  lemma {:induction false} FilledMissing(slots: seq<string>, k: int)
    requires 0 <= k < |slots| && slots[k] == ""
    ensures Filled(slots) < |slots|
  {
    if k > 0 {
      FilledMissing(slots[1..], k - 1);
    } else {
      FilledAtMost(slots[1..]);
    }
  }

  lemma {:induction false} FilledAtMost(slots: seq<string>)
    ensures Filled(slots) <= |slots|
  {
    if slots != [] {
      FilledAtMost(slots[1..]);
    }
  }

  /** Pasting six digits fills the form with exactly those digits, which the schema accepts. */
  lemma {:induction false} PastingSixDigits(slots: seq<string>, p: string)
    requires |slots| == OtpLength && |p| == OtpLength && AllDigits(p)
    ensures Concat(Pasted(slots, p)) == p && OtpAccepted(Concat(Pasted(slots, p)))
  {
    ConcatOfSingles(Pasted(slots, p), p);
  }

  lemma {:induction false} ConcatOfSingles(slots: seq<string>, p: string)
    requires |slots| == |p| && forall i :: 0 <= i < |p| ==> slots[i] == [p[i]]
    ensures Concat(slots) == p
  {
    if p != [] {
      ConcatOfSingles(slots[1..], p[1..]);
      assert p == [p[0]] + p[1..];
    }
  }

  lemma {:induction false} ConcatOfEmpties(slots: seq<string>)
    requires forall i :: 0 <= i < |slots| ==> slots[i] == ""
    ensures Concat(slots) == ""
  {
    if slots != [] {
      ConcatOfEmpties(slots[1..]);
    }
  }

  class OtpInput {
    /** `otpValues` */
    const slots: array<string>
    /** The form's `otp` value. */
    var otp: string
    /** The box holding the keyboard focus, if one was focused by a handler. */
    var focus: Option<int>
    /** False when `skipOtp` hides the inputs. */
    const rendered: bool
    /** The codes handed to `onVerify` so far. */
    var verifyCalls: seq<string>

    predicate Valid()
      reads this, slots
    {
      && slots.Length == OtpLength
      && (forall i :: 0 <= i < slots.Length ==> SlotOk(slots[i]))
      && (rendered ==> otp == Concat(slots[..]))
      && (!rendered ==> otp == DummyOtp)
      && (focus.Some? ==> 0 <= focus.value < OtpLength)
    }

    /**
     * Mounting the component. With `skipOtp` the form value is set to the
     * dummy code, `onVerify` is called with it, and nothing is rendered.
     */
    constructor(skipOtp: bool)
      ensures Valid() && fresh(slots)
      ensures slots[..] == seq(OtpLength, _ => "")
      ensures rendered <==> !skipOtp
      ensures verifyCalls == if skipOtp then [DummyOtp] else []
      ensures focus.None?
    {
      slots := new string[OtpLength](_ => "");
      rendered := !skipOtp;
      focus := None;
      new;
      if skipOtp {
        otp := DummyOtp;
        verifyCalls := [DummyOtp];
      } else {
        ConcatOfEmpties(slots[..]);
        otp := "";
        verifyCalls := [];
      }
    }

    /** `form.handleSubmit(onSubmit)`: `onVerify` receives the form value when the schema accepts it. */
    method Submit()
      requires Valid() && rendered
      modifies this
      ensures Valid() && otp == old(otp) && focus == old(focus)
      ensures verifyCalls == old(verifyCalls) + (if OtpAccepted(otp) then [otp] else [])
      ensures OtpAccepted(otp) <==> forall i :: 0 <= i < OtpLength ==> slots[i] != ""
    {
      AcceptedIffAllFilled(slots[..]);
      if OtpAccepted(otp) {
        verifyCalls := verifyCalls + [otp];
      }
    }

    /** `handleOtpChange(index, value)`, fired by the box at `index`. */
    method HandleOtpChange(index: int, value: string)
      requires Valid() && rendered && 0 <= index < OtpLength
      modifies this, slots
      ensures Valid() && verifyCalls == old(verifyCalls)
      ensures !AllDigits(value) ==> slots[..] == old(slots[..]) && otp == old(otp) && focus == old(focus)
      ensures AllDigits(value) ==>
                && slots[..] == old(slots[..])[index := if value == "" then "" else value[..1]]
                && focus == (if value != "" && index < 5 then Some(index + 1) else old(focus))
    {
      if !AllDigits(value) {
        return;
      }
      slots[index] := if value == "" then "" else value[..1];
      otp := Concat(slots[..]);
      if value != "" && index < 5 {
        focus := Some(index + 1);
      }
    }

    /** `handleKeyDown(index, e)` */
    method HandleKeyDown(index: int, key: string)
      requires Valid() && rendered && 0 <= index < OtpLength
      modifies this
      ensures Valid() && otp == old(otp) && verifyCalls == old(verifyCalls)
      ensures focus == if key == "Backspace" && slots[index] == "" && index > 0 then Some(index - 1) else old(focus)
    {
      if key == "Backspace" && slots[index] == "" && index > 0 {
        focus := Some(index - 1);
      }
    }

    /**
     * `handlePaste`, fired by the first box: the first six characters of the
     * clipboard text, when they are one or more digits, overwrite the first
     * slots in turn.
     */
    method HandlePaste(text: string)
      requires Valid() && rendered
      modifies this, slots
      ensures Valid() && verifyCalls == old(verifyCalls)
      ensures var p := text[..if |text| < OtpLength then |text| else OtpLength];
              if p == [] || !AllDigits(p) then
                slots[..] == old(slots[..]) && otp == old(otp) && focus == old(focus)
              else
                slots[..] == Pasted(old(slots[..]), p)
                && focus == Some(if |p| < 5 then |p| else 5)
    {
      var p := text[..if |text| < OtpLength then |text| else OtpLength];
      if p == [] || !AllDigits(p) {
        return;
      }
      var i := 0;
      while i < |p|
        invariant 0 <= i <= |p|
        invariant slots[..] == Pasted(old(slots[..]), p[..i])
        invariant forall j :: 0 <= j < slots.Length ==> SlotOk(slots[j])
        invariant verifyCalls == old(verifyCalls) && focus == old(focus)
      {
        slots[i] := [p[i]];
        i := i + 1;
      }
      assert p[..i] == p;
      otp := Concat(slots[..]);
      focus := Some(if |p| < 5 then |p| else 5);
    }
  }
}
