/**
 * The client's phone-number step: the input is sanitised on every change to
 * its first ten digits, and "Next" accepts exactly ten digits, stores them in
 * the game state and moves on to the OTP step.
 */
module PhoneNumberModal {
  import opened Text
  import opened GameContext

  /** The digits of `value`, in order (`replace(/\D/g, "")`). */
  function Digits(value: string): (r: string)
    ensures AllDigits(r) && |r| <= |value|
    ensures AllDigits(value) ==> r == value
  {
    if value == [] then []
    else if IsDigit(value[0]) then [value[0]] + Digits(value[1..])
    else Digits(value[1..])
  }

  /** The digits of two pieces are the digits of the first followed by the
      digits of the second: `Digits` keeps the digits in their order. */
  lemma {:induction false} DigitsOfConcat(a: string, b: string)
    ensures Digits(a + b) == Digits(a) + Digits(b)
    decreases |a|
  {
    if a == [] {
      assert a + b == b;
    } else {
      assert (a + b)[0] == a[0] && (a + b)[1..] == a[1..] + b;
      DigitsOfConcat(a[1..], b);
    }
  }

  /** The longest number the field holds. */
  const MaxDigits := 10

  /** `handlePhoneChange`'s sanitiser: `replace(/\D/g, "").slice(0, 10)`. */
  function Sanitize(value: string): (r: string)
    ensures AllDigits(r) && |r| <= MaxDigits
    ensures r <= Digits(value)
    ensures |r| == if |Digits(value)| < MaxDigits then |Digits(value)| else MaxDigits
  {
    var d := Digits(value);
    if |d| <= MaxDigits then d else d[..MaxDigits]
  }

  /** Sanitising a sanitised value changes nothing. */
  lemma SanitizeIdempotent(value: string)
    ensures Sanitize(Sanitize(value)) == Sanitize(value)
  {
  }

  /** Typing one more character into a sanitised field appends it when it is
      a digit and the field is not full, and changes nothing otherwise. */
  lemma TypingOneCharacter(phone: string, c: char)
    requires Sanitize(phone) == phone
    ensures Sanitize(phone + [c]) == if IsDigit(c) && |phone| < MaxDigits then phone + [c] else phone
  {
    DigitsOfConcat(phone, [c]);
    assert Digits([c]) == if IsDigit(c) then [c] else [] by {
      assert [c][1..] == [];
    }
  }

  /** `/^\d{10}$/`. */
  predicate TenDigits(phone: string) {
    |phone| == 10 && AllDigits(phone)
  }

  /** What the field holds passes the validator exactly when the typed text
      holds at least ten digits. */
  lemma SanitizedAccepted(value: string)
    ensures TenDigits(Sanitize(value)) <==> |Digits(value)| >= 10
  {
  }

  const InvalidPhoneMessage := "Please enter a valid 10-digit mobile number"

  /** The modal's own state (`phone`, `error`) and the game state it
      dispatches to. */
  class Modal {
    var phone: string
    var error: string
    var game: GameState

    constructor (game0: GameState)
      ensures phone == "" && error == "" && game == game0
    {
      phone := "";
      error := "";
      game := game0;
    }

    /** `handleClose`: back to the landing page. */
    method HandleClose()
      modifies this
      ensures game == old(game).(currentStep := Landing)
      ensures phone == old(phone) && error == old(error)
    {
      game := GameReducer(game, SetCurrentStep(Landing));
    }

    /** `handleNext`: anything but ten digits shows the error and stores
        nothing; ten digits clear the error, are stored in the game state and
        lead to the OTP step. */
    method HandleNext()
      modifies this
      ensures phone == old(phone)
      ensures !TenDigits(phone) ==> error == InvalidPhoneMessage && game == old(game)
      ensures TenDigits(phone) ==>
                error == "" && game == old(game).(phoneNumber := phone, currentStep := OtpVerification)
    {
      if !TenDigits(phone) {
        error := InvalidPhoneMessage;
        return;
      }
      error := "";
      game := GameReducer(game, SetPhoneNumber(phone));
      game := GameReducer(game, SetCurrentStep(OtpVerification));
    }

    /** `handlePhoneChange`: the field takes the sanitised value and any
        error shown is cleared. */
    method HandlePhoneChange(value: string)
      modifies this
      ensures phone == Sanitize(value) && error == "" && game == old(game)
    {
      phone := Sanitize(value);
      if error != "" {
        error := "";
      }
    }
  }
}
