/**
 * The client's OTP step: a buffer of four one-character slots, each edited by
 * index, and a submit that checks the joined code against the prototype's
 * mock code before moving on to the dice.
 */
module OtpVerificationModal {
  import opened Text
  import opened GameContext

  const Slots := 4
  const MockOtp := "1234"
  const IncompleteMessage := "Please enter complete 4-digit OTP"
  const WrongOtpMessage := "Invalid OTP. Please try again."

  /** `value.slice(-1)`: the last character, or nothing for an empty value. */
  function LastChar(value: string): (r: string)
    ensures |r| <= 1 && (r == "" <==> value == "")
    ensures value != "" ==> r[0] == value[|value| - 1]
  {
    if value == "" then "" else [value[|value| - 1]]
  }

  /** Every slot holds at most one digit. */
  predicate SlotsValid(slots: seq<string>) {
    |slots| == Slots && forall i :: 0 <= i < |slots| ==> |slots[i]| <= 1 && AllDigits(slots[i])
  }

  /** Every slot holds a digit. */
  predicate Complete(slots: seq<string>) {
    forall i :: 0 <= i < |slots| ==> slots[i] != ""
  }

  /** `otp.join("")` on four slots is their concatenation. */
  lemma JoinFour(slots: seq<string>)
    requires |slots| == 4
    ensures Join(slots, "") == slots[0] + slots[1] + slots[2] + slots[3]
  {
    assert slots[1..][1..] == slots[2..] && slots[2..][1..] == slots[3..];
    assert Join(slots[3..], "") == slots[3];
    assert Join(slots[2..], "") == slots[2] + "" + slots[3];
    assert Join(slots[1..], "") == slots[1] + "" + (slots[2] + "" + slots[3]);
    assert Join(slots, "") == slots[0] + "" + (slots[1] + "" + (slots[2] + "" + slots[3]));
  }

  /** The joined code has four characters exactly when every slot is
      filled. */
  lemma JoinedLength(slots: seq<string>)
    requires SlotsValid(slots)
    ensures |Join(slots, "")| == 4 <==> Complete(slots)
  {
    JoinFour(slots);
  }

  /** The mock code is accepted from one buffer only: the digits 1, 2, 3, 4
      in that order. */
  lemma MockOtpBuffer(slots: seq<string>)
    requires SlotsValid(slots)
    ensures Join(slots, "") == MockOtp <==> slots == ["1", "2", "3", "4"]
  {
    JoinFour(slots);
    if Join(slots, "") == MockOtp {
      JoinedLength(slots);
      assert |slots[0]| == |slots[1]| == |slots[2]| == |slots[3]| == 1;
      var joined := slots[0] + slots[1] + slots[2] + slots[3];
      assert slots[0] == [joined[0]] && slots[1] == [joined[1]];
      assert slots[2] == [joined[2]] && slots[3] == [joined[3]];
    }
  }

  /** The modal's own state (`otp`, `error`) and the game state it
      dispatches to. */
  class Modal {
    var otp: array<string>
    var error: string
    var game: GameState

    predicate Valid()
      reads this, otp
    {
      otp.Length == Slots && SlotsValid(otp[..])
    }

    /** `useState(["", "", "", ""])`. */
    constructor (game0: GameState)
      ensures Valid() && otp[..] == ["", "", "", ""] && error == "" && game == game0
    {
      var slots := new string[Slots](_ => "");
      assert slots[..] == ["", "", "", ""];
      otp := slots;
      error := "";
      game := game0;
    }

    /** `handleClose`: back to the phone-number step. */
    method HandleClose()
      modifies this
      ensures game == old(game).(currentStep := PhoneNumber)
      ensures otp == old(otp) && error == old(error)
    {
      game := GameReducer(game, SetCurrentStep(PhoneNumber));
    }

    /** `handleOtpChange`: a value with a non-digit is ignored; otherwise a
        copy of the buffer gets the value's last character (or nothing) in
        slot `index`, replaces the buffer, and any error shown is cleared. */
    method HandleOtpChange(index: nat, value: string)
      requires Valid() && index < Slots
      modifies this
      ensures Valid() && game == old(game)
      ensures !AllDigits(value) ==> otp == old(otp) && error == old(error)
      ensures AllDigits(value) ==> fresh(otp) && otp[..] == old(otp[..])[index := LastChar(value)] && error == ""
    {
      if !AllDigits(value) {
        return;
      }
      var newOtp := new string[Slots];
      for i := 0 to Slots
        modifies newOtp
        invariant newOtp[..i] == otp[..i]
      {
        newOtp[i] := otp[i];
      }
      assert newOtp[..] == otp[..];
      newOtp[index] := LastChar(value);
      otp := newOtp;
      if error != "" {
        error := "";
      }
    }

    /** `handleStartGame`: an incomplete code shows the first error; the mock
        code clears the error, marks the game verified and leads to the dice;
        any other complete code shows the second error. The buffer stays as
        it is. */
    method HandleStartGame()
      requires Valid()
      modifies this
      ensures otp == old(otp) && Valid()
      ensures !Complete(otp[..]) ==> error == IncompleteMessage && game == old(game)
      ensures Complete(otp[..]) && otp[..] == ["1", "2", "3", "4"] ==>
                error == "" && game == old(game).(isVerified := true, currentStep := RollDice)
      ensures Complete(otp[..]) && otp[..] != ["1", "2", "3", "4"] ==>
                error == WrongOtpMessage && game == old(game)
    {
      var otpValue := Join(otp[..], "");
      JoinedLength(otp[..]);
      MockOtpBuffer(otp[..]);
      if |otpValue| != 4 {
        error := IncompleteMessage;
        return;
      }
      if otpValue == MockOtp {
        error := "";
        game := GameReducer(game, SetVerified(true));
        game := GameReducer(game, SetCurrentStep(RollDice));
      } else {
        error := WrongOtpMessage;
      }
    }
  }
}
