/**
 * The sign-in / sign-up page: the mobile field and its validity, the six OTP
 * slots, the resend countdown and the submit handler. The one-time code is the
 * fixed demo code "123456"; the user lookups and inserts of the submit handler
 * are replaced by their outcomes.
 */
module Login {
  import opened Wrappers
  import opened Text
  import opened Phone

  const StaticOtp := "123456"
  const OtpLength := 6
  const ResendSeconds := 10

  datatype Tab = SignIn | SignUp
  datatype StatusKind = Success | Error | Loading
  datatype Status = Status(kind: StatusKind, message: string)

  /** `isMobileValid`. */
  predicate IsMobileValid(mobile: string) { IsTenDigits(mobile) }

  /** `showMobileError`: something was typed and it is not a valid number. */
  predicate ShowMobileError(mobile: string) { |mobile| > 0 && !IsMobileValid(mobile) }

  /** For the sanitised field, the error shows exactly while one to nine digits are typed. */
  lemma MobileErrorOnSanitized(raw: string)
    ensures ShowMobileError(Sanitize(raw)) <==> 0 < |Sanitize(raw)| < MaxDigits
  {
  }

  /** One OTP slot as `handleOtpChange` admits it: `/^\d?$/`. */
  predicate IsSlotInput(v: string) { v == "" || (|v| == 1 && IsDigit(v[0])) }

  /** `isOtpComplete`: every slot matches `/^\d$/`. */
  predicate IsOtpComplete(otp: seq<string>) {
    forall i :: 0 <= i < |otp| ==> |otp[i]| == 1 && IsDigit(otp[i][0])
  }

  /** `otp.join("")`. */
  function Join(otp: seq<string>): (r: string)
    ensures |otp| == 0 ==> r == ""
  {
    if otp == [] then "" else otp[0] + Join(otp[1..])
  }

  /** `isOtpValid`. */
  predicate IsOtpValid(otp: seq<string>) { Join(otp) == StaticOtp }

  /** The shape the page keeps: six slots, each empty or one digit. */
  predicate WellFormedOtp(otp: seq<string>) {
    |otp| == OtpLength && forall i :: 0 <= i < |otp| ==> IsSlotInput(otp[i])
  }

  /** Slots of at most one character join to at most one character per slot, and to exactly that many exactly when none is empty. */
  lemma {:induction false} JoinLength(otp: seq<string>)
    requires forall i :: 0 <= i < |otp| ==> |otp[i]| <= 1
    ensures |Join(otp)| <= |otp|
    ensures |Join(otp)| == |otp| <==> forall i :: 0 <= i < |otp| ==> |otp[i]| == 1
  {
    if otp != [] {
      JoinLength(otp[1..]);
      assert forall i :: 1 <= i < |otp| ==> otp[i] == otp[1..][i - 1];
    }
  }

  /** On the slots the page can hold, a valid code is a complete one. */
  lemma ValidOtpIsComplete(otp: seq<string>)
    requires WellFormedOtp(otp)
    ensures IsOtpValid(otp) ==> IsOtpComplete(otp)
  {
    JoinLength(otp);
  }

  /** The six empty slots. */
  function EmptyOtp(): (otp: seq<string>)
    ensures WellFormedOtp(otp) && !IsOtpComplete(otp)
    ensures forall i :: 0 <= i < |otp| ==> otp[i] == ""
  {
    var otp := seq(OtpLength, _ => "");
    assert |otp[0]| == 0;
    otp
  }

  /** One tick of the resend countdown: down by one, and to zero from one or below. */
  function CountdownStep(n: int): (r: int)
    ensures r >= 0
    ensures r <= n || n < 0
    ensures r == 0 <==> n <= 1
  {
    if n <= 1 then 0 else n - 1
  }

  /** The countdown after `k` ticks. */
  function Ticks(n: int, k: nat): int
    decreases k
  {
    if k == 0 then n else Ticks(CountdownStep(n), k - 1)
  }

  /** From `n`, the countdown shows `n - k` after `k < n` ticks and reaches zero after exactly `n`. */
  lemma {:induction false} CountdownReachesZero(n: nat, k: nat)
    requires k <= n
    ensures Ticks(n, k) == n - k
  {
    if k > 0 {
      if n == 1 {
        assert Ticks(n, k) == Ticks(0, k - 1);
        CountdownStaysAtZero(k - 1);
      } else {
        CountdownReachesZero(n - 1, k - 1);
      }
    }
  }

  /** Once at zero, the countdown stays there. */
  lemma {:induction false} CountdownStaysAtZero(k: nat)
    ensures Ticks(0, k) == 0
  {
    if k > 0 {
      CountdownStaysAtZero(k - 1);
    }
  }

  /** The status after a valid code was submitted and the backend answered. */
  function SubmitStatus(tab: Tab, userFound: bool, alreadyRegistered: bool, insertError: Option<string>): (s: Status)
    ensures s.kind != Loading
    ensures s.kind == Success <==> (if tab == SignIn then userFound else !alreadyRegistered && insertError.None?)
    ensures s.kind == Success ==> s.message == "Logging you in"
    ensures tab == SignIn && !userFound ==> s == Status(Error, "Please sign up first.")
    ensures tab == SignUp && alreadyRegistered ==> s == Status(Error, "Account already exists with this mobile number.")
    ensures tab == SignUp && !alreadyRegistered && insertError.Some? ==>
      s.kind == Error && s.message == (if insertError.value != "" then insertError.value else "Something went wrong.")
  {
    match tab
    case SignIn =>
      if !userFound then Status(Error, "Please sign up first.") else Status(Success, "Logging you in")
    case SignUp =>
      if alreadyRegistered then Status(Error, "Account already exists with this mobile number.")
      else if insertError.Some? then Status(Error, if insertError.value == "" then "Something went wrong." else insertError.value)
      else Status(Success, "Logging you in")
  }

  class LoginPage {
    var tab: Tab
    var mobile: string
    var otp: seq<string>
    var fullName: string
    var status: Option<Status>
    var resendCountdown: int

    ghost predicate Valid()
      reads this
    {
      WellFormedOtp(otp) && resendCountdown >= 0 && AllDigits(mobile) && |mobile| <= MaxDigits
    }

    constructor ()
      ensures Valid()
      ensures tab == SignIn && mobile == "" && otp == EmptyOtp() && fullName == ""
      ensures status == None && resendCountdown == 0
    {
      tab := SignIn;
      mobile := "";
      otp := EmptyOtp();
      fullName := "";
      status := None;
      resendCountdown := 0;
    }

    /** The Sign In / Sign Up tabs. */
    method SetTab(t: Tab)
      requires Valid()
      modifies this
      ensures Valid() && tab == t
      ensures status == old(status) && mobile == old(mobile) && otp == old(otp)
      ensures resendCountdown == old(resendCountdown) && fullName == old(fullName)
    {
      tab := t;
    }

    /** The full-name field of the Sign Up tab, stored as typed. */
    method SetFullName(value: string)
      requires Valid()
      modifies this
      ensures Valid() && fullName == value
      ensures status == old(status) && mobile == old(mobile) && otp == old(otp)
      ensures resendCountdown == old(resendCountdown) && tab == old(tab)
    {
      fullName := value;
    }

    /** `sendOtp`: nothing for an invalid number; otherwise a success status and a ten-second countdown. */
    method SendOtp()
      requires Valid()
      modifies this
      ensures Valid()
      ensures !IsMobileValid(old(mobile)) ==> status == old(status) && resendCountdown == old(resendCountdown)
      ensures IsMobileValid(old(mobile)) ==>
        status == Some(Status(Success, "OTP sent to +91 " + old(mobile))) && resendCountdown == ResendSeconds
      ensures mobile == old(mobile) && otp == old(otp) && tab == old(tab) && fullName == old(fullName)
    {
      if !IsMobileValid(mobile) {
        return;
      }
      status := Some(Status(Success, "OTP sent to +91 " + mobile));
      resendCountdown := ResendSeconds;
    }

    /**
     * The mobile field's `onChange` followed by the effect that watches it: the
     * field keeps the sanitised digits; if they changed, a valid number sends
     * the code and an invalid one clears the status and the countdown.
     */
    method SetMobile(raw: string)
      requires Valid()
      modifies this
      ensures Valid()
      ensures mobile == Sanitize(raw)
      ensures mobile == old(mobile) ==> status == old(status) && resendCountdown == old(resendCountdown)
      ensures mobile != old(mobile) && IsMobileValid(mobile) ==>
        status == Some(Status(Success, "OTP sent to +91 " + mobile)) && resendCountdown == ResendSeconds
      ensures mobile != old(mobile) && !IsMobileValid(mobile) ==> status == None && resendCountdown == 0
      ensures otp == old(otp) && tab == old(tab) && fullName == old(fullName)
    {
      var previous := mobile;
      mobile := Sanitize(raw);
      if mobile != previous {
        if IsMobileValid(mobile) {
          SendOtp();
        } else {
          status := None;
          resendCountdown := 0;
        }
      }
    }

    /** A tick of the timer started by the countdown effect. */
    method CountdownTick()
      requires Valid()
      modifies this
      ensures Valid()
      ensures resendCountdown == CountdownStep(old(resendCountdown))
      ensures status == old(status) && mobile == old(mobile) && otp == old(otp) && tab == old(tab) && fullName == old(fullName)
    {
      resendCountdown := CountdownStep(resendCountdown);
    }

    /** A tick of the timer started by `sendOtp`, which also hides the status when the countdown ends. */
    method SendOtpTick()
      requires Valid()
      modifies this
      ensures Valid()
      ensures resendCountdown == CountdownStep(old(resendCountdown))
      ensures status == if old(resendCountdown) <= 1 then None else old(status)
      ensures mobile == old(mobile) && otp == old(otp) && tab == old(tab) && fullName == old(fullName)
    {
      if resendCountdown <= 1 {
        status := None;
      }
      resendCountdown := CountdownStep(resendCountdown);
    }

    /** `handleOtpChange`: only an empty string or a single digit is taken, and only into slot `index`. */
    method HandleOtpChange(index: nat, value: string)
      requires Valid() && index < OtpLength
      modifies this
      ensures Valid()
      ensures otp == if IsSlotInput(value) then old(otp)[index := value] else old(otp)
      ensures status == old(status) && mobile == old(mobile) && resendCountdown == old(resendCountdown)
      ensures tab == old(tab) && fullName == old(fullName)
    {
      if !IsSlotInput(value) {
        return;
      }
      otp := otp[index := value];
    }

    /** `clearOtpInputs`. */
    method ClearOtpInputs()
      requires Valid()
      modifies this
      ensures Valid() && otp == EmptyOtp()
      ensures status == old(status) && mobile == old(mobile) && resendCountdown == old(resendCountdown)
      ensures tab == old(tab) && fullName == old(fullName)
    {
      otp := EmptyOtp();
    }

    /**
     * `handleSubmit`. A wrong code makes no backend call, reports "Invalid OTP."
     * and empties the slots. A right code runs the tab's backend steps, given
     * here by their outcomes, and leads to the chats page on success.
     */
    method HandleSubmit(userFound: bool, alreadyRegistered: bool, insertError: Option<string>)
      returns (backendCalled: bool, goToChats: bool)
      requires Valid()
      modifies this
      ensures Valid()
      ensures !IsOtpValid(old(otp)) ==>
        && !backendCalled && !goToChats
        && status == Some(Status(Error, "Invalid OTP."))
        && otp == EmptyOtp()
      ensures IsOtpValid(old(otp)) ==>
        && backendCalled
        && status == Some(SubmitStatus(tab, userFound, alreadyRegistered, insertError))
        && goToChats == (status.value.kind == Success)
        && otp == old(otp)
      ensures mobile == old(mobile) && resendCountdown == old(resendCountdown)
      ensures tab == old(tab) && fullName == old(fullName)
    {
      if !IsOtpValid(otp) {
        status := Some(Status(Error, "Invalid OTP."));
        ClearOtpInputs();
        return false, false;
      }
      status := Some(Status(Loading, if tab == SignUp then "Creating account..." else "Logging in..."));
      backendCalled := true;
      status := Some(SubmitStatus(tab, userFound, alreadyRegistered, insertError));
      goToChats := status.value.kind == Success;
    }
  }
}
