/** The account verification form (src/components/Verify.js): six one-character
    code slots, the rule that enables the Verify button, the resend countdown,
    and the outcomes of verifying and of asking for a new code. */
module VerifyFlow {
  import opened Base
  import opened Js
  import opened Seqs
  import opened Effects
  import Api

  const CodeLength := 6

  /** The countdown that gates the resend button: seconds left and whether
      the button is disabled. */
  datatype Cooldown = Cooldown(timer: nat, resendDisabled: bool)

  /** On mount the countdown starts at 60 with the button disabled. */
  const InitialCooldown := Cooldown(60, true)

  /** A consistent countdown: never above 60, and the button is enabled
      once it has run out. */
  predicate CooldownOk(c: Cooldown)
  {
    c.timer <= 60 && (c.timer == 0 ==> !c.resendDisabled)
  }

  /** One second of the timer effect: a running countdown goes down by one;
      when it reaches 0 the effect enables the resend button. */
  function Tick(c: Cooldown): (r: Cooldown)
    ensures c.timer > 0 ==> r.timer == c.timer - 1
    ensures c.timer == 0 ==> r.timer == 0 && !r.resendDisabled
    ensures r.timer > 0 ==> r.resendDisabled == c.resendDisabled
    ensures CooldownOk(c) ==> CooldownOk(r)
  {
    if c.timer > 1 then Cooldown(c.timer - 1, c.resendDisabled)
    else Cooldown(0, false)
  }

  function Ticks(c: Cooldown, k: nat): Cooldown
    decreases k
  {
    if k == 0 then c else Ticks(Tick(c), k - 1)
  }

  /** `handleResendOtp`'s effect on the countdown: it restarts at 30, not 60,
      and the button is enabled again only when the request failed. */
  function Resend(c: Cooldown, failed: bool): (r: Cooldown)
    ensures r.timer == 30
    ensures r.resendDisabled <==> !failed
    ensures CooldownOk(r)
  {
    Cooldown(30, !failed)
  }

  /** After `k` seconds the countdown has gone down by `k`, stopping at 0; the
      button stays as it was while time remains and is enabled once it has
      run out. */
  lemma {:induction false} TicksElapse(c: Cooldown, k: nat)
    requires CooldownOk(c)
    ensures Ticks(c, k).timer == if k >= c.timer then 0 else c.timer - k
    ensures k < c.timer ==> Ticks(c, k).resendDisabled == c.resendDisabled
    ensures k >= c.timer ==> !Ticks(c, k).resendDisabled
    ensures CooldownOk(Ticks(c, k))
    decreases k
  {
    if k > 0 {
      TicksElapse(Tick(c), k - 1);
    }
  }

  /** From mount, the resend button is disabled for 59 seconds and enabled
      at the 60th. */
  lemma MountCountdown()
    ensures Ticks(InitialCooldown, 59) == Cooldown(1, true)
    ensures Ticks(InitialCooldown, 60) == Cooldown(0, false)
  {
    TicksElapse(InitialCooldown, 59);
    TicksElapse(InitialCooldown, 60);
  }

  /** After a successful resend the button comes back after 30 seconds. */
  lemma ResendCountdown(c: Cooldown)
    ensures Ticks(Resend(c, false), 29) == Cooldown(1, true)
    ensures Ticks(Resend(c, false), 30) == Cooldown(0, false)
  {
    TicksElapse(Resend(c, false), 29);
    TicksElapse(Resend(c, false), 30);
  }

  /** The code slots the form keeps: six, each at most one UTF-16 code unit
      long (the length `value.length` and `maxLength` measure). */
  predicate CodeOk(otp: seq<string>)
  {
    |otp| == CodeLength && forall i :: 0 <= i < |otp| ==> Utf16Length(otp[i]) <= 1
  }

  /** A pasted emoji is two UTF-16 code units long, so the slot ignores it. */
  lemma AstralCharacterIgnored()
    ensures Utf16Length("\U{1F600}") == 2
  {
  }

  /** The Verify button is enabled when the email is filled in and no slot is
      empty (`disabled={!email || otp.includes('')}`). */
  predicate VerifyEnabled(email: string, otp: seq<string>)
  {
    email != "" && "" !in otp
  }

  /** When the button is enabled the joined code is exactly six characters. */
  lemma EnabledCodeLength(email: string, otp: seq<string>)
    requires CodeOk(otp) && VerifyEnabled(email, otp)
    ensures |Concat(otp)| == CodeLength
  {
    forall i | 0 <= i < |otp|
      ensures |otp[i]| == 1
    {
      assert otp[i] in otp;
      assert |otp[i]| <= Utf16Length(otp[i]);
    }
    ConcatOfSingles(otp);
  }

  /** The form's state. */
  class VerifyForm {
    var email: string
    var otp: seq<string>
    var message: JsValue
    var isSuccess: bool
    var timer: nat
    var isResendDisabled: bool
    var error: bool
    var effects: seq<Effect>

    predicate Valid()
      reads this
    {
      CodeOk(otp) && CooldownOk(Cooldown(timer, isResendDisabled))
    }

    constructor ()
      ensures Valid()
      ensures email == "" && otp == seq(CodeLength, _ => "") && message == Str("")
      ensures !isSuccess && !error && Cooldown(timer, isResendDisabled) == InitialCooldown && effects == []
    {
      email, otp, message := "", seq(CodeLength, _ => ""), Str("");
      isSuccess, error := false, false;
      timer, isResendDisabled := 60, true;
      effects := [];
    }

    method SetEmail(value: string)
      modifies this
      ensures email == value
      ensures otp == old(otp) && message == old(message) && isSuccess == old(isSuccess) && error == old(error)
      ensures timer == old(timer) && isResendDisabled == old(isResendDisabled) && effects == old(effects)
    {
      email := value;
    }

    /** `handleOtpChange`: a value longer than one UTF-16 code unit is
        ignored (so is a single character outside the Basic Multilingual
        Plane); otherwise only slot `index` changes. */
    method HandleOtpChange(index: nat, value: string)
      requires Valid() && index < CodeLength
      modifies this
      ensures Valid()
      ensures Utf16Length(value) > 1 ==> otp == old(otp)
      ensures Utf16Length(value) <= 1 ==> otp == old(otp)[index := value]
      ensures email == old(email) && message == old(message) && isSuccess == old(isSuccess) && error == old(error)
      ensures timer == old(timer) && isResendDisabled == old(isResendDisabled) && effects == old(effects)
    {
      if Utf16Length(value) > 1 {
        return;
      }
      var updated := otp;
      updated := updated[index := value];
      otp := updated;
    }

    /** One second of the timer effect. */
    method TimerTick()
      requires Valid()
      modifies this
      ensures Valid()
      ensures Cooldown(timer, isResendDisabled) == Tick(old(Cooldown(timer, isResendDisabled)))
      ensures email == old(email) && otp == old(otp) && message == old(message)
      ensures isSuccess == old(isSuccess) && error == old(error) && effects == old(effects)
    {
      if timer > 0 {
        timer := timer - 1;
      }
      if timer == 0 {
        isResendDisabled := false;
      }
    }

    /** `handleSubmit`: sends the email and the joined code. On success the
        message is the server's result or a default and the login page is
        scheduled; on failure it is the rejection value, which is never falsy,
        so the 'Invalid OTP' default is never shown. */
    method HandleSubmit(outcome: Api.AxiosOutcome<JsValue>)
      requires Valid()
      modifies this
      ensures Valid()
      ensures outcome.Resolved? ==>
                isSuccess && !error && message == Or(outcome.data, Str("Verification successful!"))
                && effects == old(effects) + [Send(VerifyAccountRequest(email, Concat(otp))), NavigateLater("/login", 2000)]
      ensures outcome.Rejected? ==>
                !isSuccess && error && message == Api.VerifyAccount(outcome).error && Truthy(message)
                && effects == old(effects) + [Send(VerifyAccountRequest(email, Concat(otp)))]
      ensures email == old(email) && otp == old(otp)
      ensures timer == old(timer) && isResendDisabled == old(isResendDisabled)
    {
      message, isSuccess, error := Str(""), false, false;
      var enteredOtp := Concat(otp);
      effects := effects + [Send(VerifyAccountRequest(email, enteredOtp))];
      match Api.VerifyAccount(outcome) {
        case Success(result) =>
          isSuccess := true;
          message := Or(result, Str("Verification successful!"));
          effects := effects + [NavigateLater("/login", 2000)];
        case Failure(errMessage) =>
          isSuccess := false;
          error := true;
          message := Or(errMessage, Str("Invalid OTP. Please try again."));
      }
    }

    /** `handleResendOtp`: restarts the countdown at 30 with the button
        disabled, asks for a new code, and enables the button again only
        when that request fails. */
    method HandleResendOtp(outcome: Api.AxiosOutcome<JsValue>)
      requires Valid()
      modifies this
      ensures Valid()
      ensures Cooldown(timer, isResendDisabled) == Resend(old(Cooldown(timer, isResendDisabled)), outcome.Rejected?)
      ensures effects == old(effects) + [Send(RegenerateOtpRequest(email))]
      ensures outcome.Resolved? ==>
                !error && message == Or(outcome.data, Str("OTP resent successfully. Please check your email."))
      ensures outcome.Rejected? ==> error && message == Api.RegenerateOtp(outcome).error && Truthy(message)
      ensures email == old(email) && otp == old(otp) && isSuccess == old(isSuccess)
    {
      isResendDisabled := true;
      timer := 30;
      message := Str("");
      error := false;
      effects := effects + [Send(RegenerateOtpRequest(email))];
      match Api.RegenerateOtp(outcome) {
        case Success(result) =>
          message := Or(result, Str("OTP resent successfully. Please check your email."));
        case Failure(errMessage) =>
          isResendDisabled := false;
          error := true;
          message := Or(errMessage, Str("Failed to resend OTP. Please try again."));
      }
    }
  }
}
