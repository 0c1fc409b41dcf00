/** The sign-in page (src/features/auth/sign-in/index.tsx): the six-box OTP
    input, the e-mail and phone gates, and the send-OTP, verify, complete
    profile flow driven by `handleSubmit`, `handleResendOTP` and
    `handleCompleteProfile`. */
module SignIn {
  import opened Wrappers
  import opened Strings
  import AuthTokens
  import AuthClient

  const OtpLength: nat := 6

  // ---------------------------------------------------------------------
  // OTP input

  /** `value.split('')`: one single-character string per character. */
  function Characters(value: string): (r: seq<string>)
    ensures |r| == |value|
    ensures forall k :: 0 <= k < |r| ==> r[k] == [value[k]]
  {
    seq(|value|, k requires 0 <= k < |value| => [value[k]])
  }

  function Min(a: nat, b: nat): nat {
    if a < b then a else b
  }

  /** The `onChange` of the OTP input:
      `value.split('').concat(Array(6).fill('')).slice(0, 6)`. */
  function NormaliseOtp(value: string): (otp: seq<string>)
    ensures |otp| == OtpLength
    ensures forall k :: 0 <= k < Min(|value|, OtpLength) ==> otp[k] == [value[k]]
    ensures forall k :: |value| <= k < OtpLength ==> otp[k] == ""
  {
    var padded := Characters(value) + seq(OtpLength, _ => "");
    assert forall k :: |value| <= k < OtpLength ==> padded[k] == "";
    padded[..OtpLength]
  }

  /** `parts.join('')`. */
  function Concat(parts: seq<string>): string
    decreases |parts|
  {
    if parts == [] then "" else parts[0] + Concat(parts[1..])
  }

  lemma {:induction false} JoinWithoutSeparator(parts: seq<string>)
    ensures Join(parts, "") == Concat(parts)
    decreases |parts|
  {
    if |parts| == 1 {
      assert Concat(parts[1..]) == "";
      assert parts[0] + "" == parts[0];
    } else if |parts| > 1 {
      JoinWithoutSeparator(parts[1..]);
      assert parts[0] + "" + Join(parts[1..], "") == parts[0] + Join(parts[1..], "");
    }
  }

  /** Boxes holding the characters of `value` from position `from` on, then
      empty boxes, concatenate to the rest of `value`. */
  lemma {:induction false} ConcatOfBoxes(value: string, boxes: seq<string>, from: nat)
    requires from <= |value|
    requires forall k :: 0 <= k < |boxes| ==>
      boxes[k] == (if from + k < |value| then [value[from + k]] else "")
    requires |value| <= from + |boxes|
    ensures Concat(boxes) == value[from..]
    decreases |boxes|
  {
    if boxes == [] {
    } else if from == |value| {
      ConcatOfBoxes(value, boxes[1..], from);
    } else {
      ConcatOfBoxes(value, boxes[1..], from + 1);
      assert value[from..] == [value[from]] + value[from + 1..];
    }
  }

  /** `otp.join('')` is what was typed, cut to six characters. */
  lemma JoinedOtp(value: string)
    ensures Join(NormaliseOtp(value), "") == value[..Min(|value|, OtpLength)]
  {
    var otp := NormaliseOtp(value);
    var typed := value[..Min(|value|, OtpLength)];
    JoinWithoutSeparator(otp);
    assert forall k :: 0 <= k < |otp| ==> otp[k] == (if k < |typed| then [typed[k]] else "");
    ConcatOfBoxes(typed, otp, 0);
  }

  /** The length gate passes exactly when at least six characters were
      typed. */
  lemma OtpGate(value: string)
    ensures |Join(NormaliseOtp(value), "")| == OtpLength <==> |value| >= OtpLength
  {
    JoinedOtp(value);
  }

  /** `/^\d{10}$/`: the digits read from the front stop exactly at the
      tenth and last character. */
  predicate ValidPhone(phone: string): (ok: bool)
    ensures ok <==> |phone| == 10 && DigitSpan(phone) == 10
  {
    DigitSpanWhole(phone);
    |phone| == 10 && AllDigits(phone)
  }

  // ---------------------------------------------------------------------
  // Step flow

  datatype AlertKind = DefaultAlert | ErrorAlert

  datatype AlertInfo = AlertInfo(kind: AlertKind, title: string, description: string)

  const OtpSentAlert: AlertInfo := AlertInfo(DefaultAlert, "OTP Sent", "Please check your email for the OTP.")
  const OtpVerifiedAlert: AlertInfo := AlertInfo(DefaultAlert, "OTP Verified", "Please complete your profile.")
  const WelcomeAlert: AlertInfo := AlertInfo(DefaultAlert, "Login Successful", "Welcome back!")
  const InvalidOtpAlert: AlertInfo := AlertInfo(ErrorAlert, "Invalid OTP", "Please enter a valid 6-digit OTP.")
  const RequestFailedAlert: AlertInfo := AlertInfo(ErrorAlert, "Error", "Failed to process request. Please try again.")
  const OtpResentAlert: AlertInfo := AlertInfo(DefaultAlert, "OTP Resent", "A new OTP has been sent to your email.")
  const ResendFailedAlert: AlertInfo := AlertInfo(ErrorAlert, "Error", "Failed to resend OTP. Please try again.")
  const ProfileUpdatedAlert: AlertInfo := AlertInfo(DefaultAlert, "Profile Updated", "Your profile has been successfully updated.")
  const ProfileFailedAlert: AlertInfo := AlertInfo(ErrorAlert, "Error", "Failed to update profile. Please try again.")

  const InvalidEmailToast: string := "Invalid Email"
  const InvalidPhoneToast: string := "Invalid Phone Number"

  /** The requests the page posts. */
  datatype Request =
    | SendOtp(email: string)
    | VerifyOtp(email: string, otp: string)
    | ResendOtp(email: string)
    | UpdateUser(name: string, phoneNumber: string)

  /** `VerifyOtp`, the body of a successful `/auth/verify-otp` reply. */
  datatype Verified = Verified(accessToken: string, refreshToken: string, isNewUser: bool)

  /** The component's state variables, plus the toast last raised and
      whether the delayed navigation to `/` was scheduled. */
  datatype Screen = Screen(
    email: string,
    otp: seq<string>,
    otpVisible: bool,
    isNewUser: bool,
    name: string,
    phoneNumber: string,
    isLoading: bool,
    alert: Option<AlertInfo>,
    toast: Option<string>,
    goingHome: bool)

  const InitialScreen: Screen := Screen("", seq(OtpLength, _ => ""), false, false, "", "", false, None, None, false)

  /** What a handler did: the new screen, the request it posted, and the
      token pair it passed to `api.setTokens`. */
  datatype Outcome = Outcome(screen: Screen, sent: Option<Request>, stored: Option<(string, string)>)

  /** `handleSubmit`. `emailValid` is zod's `.email()` verdict on
      `s.email`; `reply` is how the one request it may post settles (for
      `/auth/send-otp` only success or failure matters). */
  function Submit(s: Screen, emailValid: bool, reply: Result<Verified, AuthTokens.Error>): (o: Outcome)
    ensures !o.screen.isLoading
    ensures o.stored.Some? ==> o.sent.Some? && o.sent.value.VerifyOtp?
    ensures o.screen.email == s.email && o.screen.otp == s.otp
  {
    var s := s.(isLoading := true, alert := None);
    if !emailValid then
      Outcome(s.(toast := Some(InvalidEmailToast), isLoading := false), None, None)
    else if !s.otpVisible then
      var sent := Some(SendOtp(s.email));
      if reply.Failure? then Outcome(s.(alert := Some(RequestFailedAlert), isLoading := false), sent, None)
      else Outcome(s.(otpVisible := true, alert := Some(OtpSentAlert), isLoading := false), sent, None)
    else
      var otpValue := Join(s.otp, "");
      if |otpValue| != OtpLength then
        Outcome(s.(alert := Some(InvalidOtpAlert), isLoading := false), None, None)
      else
        var sent := Some(VerifyOtp(s.email, otpValue));
        match reply
        case Failure(_) => Outcome(s.(alert := Some(RequestFailedAlert), isLoading := false), sent, None)
        case Success(v) =>
          var stored := Some((v.accessToken, v.refreshToken));
          if v.isNewUser then
            Outcome(s.(isNewUser := true, alert := Some(OtpVerifiedAlert), isLoading := false), sent, stored)
          else
            Outcome(s.(alert := Some(WelcomeAlert), goingHome := true, isLoading := false), sent, stored)
  }

  /** `handleResendOTP`. */
  function Resend(s: Screen, reply: Result<(), AuthTokens.Error>): (o: Outcome)
    ensures !o.screen.isLoading && o.sent == Some(ResendOtp(s.email)) && o.stored.None?
    ensures o.screen.alert == Some(if reply.Success? then OtpResentAlert else ResendFailedAlert)
  {
    var a := if reply.Success? then OtpResentAlert else ResendFailedAlert;
    Outcome(s.(isLoading := false, alert := Some(a)), Some(ResendOtp(s.email)), None)
  }

  /** `handleCompleteProfile`. */
  function CompleteProfile(s: Screen, reply: Result<(), AuthTokens.Error>): (o: Outcome)
    ensures !o.screen.isLoading && o.stored.None?
    ensures o.sent.Some? <==> ValidPhone(s.phoneNumber)
    ensures o.sent.Some? ==> o.sent.value == UpdateUser(s.name, s.phoneNumber)
  {
    if !ValidPhone(s.phoneNumber) then
      Outcome(s.(toast := Some(InvalidPhoneToast), isLoading := false, alert := None), None, None)
    else
      var a := if reply.Success? then ProfileUpdatedAlert else ProfileFailedAlert;
      Outcome(s.(isLoading := false, alert := Some(a)), Some(UpdateUser(s.name, s.phoneNumber)), None)
  }

  /** An e-mail that fails validation stops the submit before any request,
      with loading reset and nothing stored. */
  lemma InvalidEmailStops(s: Screen, reply: Result<Verified, AuthTokens.Error>)
    ensures var o := Submit(s, false, reply);
      o.sent.None? && o.stored.None? && o.screen == s.(isLoading := false, alert := None, toast := Some(InvalidEmailToast))
  {
  }

  /** The first submit sends the OTP and, once that succeeds, shows the OTP
      boxes. */
  lemma FirstSubmitSendsOtp(s: Screen, reply: Result<Verified, AuthTokens.Error>)
    requires !s.otpVisible
    ensures var o := Submit(s, true, reply);
      && o.sent == Some(SendOtp(s.email)) && o.stored.None?
      && (o.screen.otpVisible <==> reply.Success?)
      && o.screen.isNewUser == s.isNewUser
  {
  }

  /** Once the boxes are shown, the verify request goes out exactly when six
      characters were typed; otherwise "Invalid OTP" is shown. */
  lemma VerifyNeedsSixCharacters(s: Screen, typed: string, reply: Result<Verified, AuthTokens.Error>)
    requires s.otpVisible && s.otp == NormaliseOtp(typed)
    ensures var o := Submit(s, true, reply);
      && (o.sent.Some? <==> |typed| >= OtpLength)
      && (o.sent.Some? ==> o.sent.value == VerifyOtp(s.email, typed[..OtpLength]))
      && (o.sent.None? ==> o.screen.alert == Some(InvalidOtpAlert) && o.stored.None?)
  {
    JoinedOtp(typed);
    OtpGate(typed);
  }

  /** A successful verify stores the returned pair, and switches to the
      profile form exactly when the user is new. */
  lemma VerifiedStoresTokens(s: Screen, v: Verified)
    requires s.otpVisible && |Join(s.otp, "")| == OtpLength
    ensures var o := Submit(s, true, Success(v));
      && o.stored == Some((v.accessToken, v.refreshToken))
      && (o.screen.isNewUser <==> s.isNewUser || v.isNewUser)
      && (o.screen.goingHome <==> s.goingHome || !v.isNewUser)
  {
  }

  /** A failed request never stores tokens and leaves the step where it was. */
  lemma FailureKeepsStep(s: Screen, emailValid: bool, e: AuthTokens.Error)
    ensures var o := Submit(s, emailValid, Failure(e));
      o.stored.None? && o.screen.otpVisible == s.otpVisible && o.screen.isNewUser == s.isNewUser
  {
  }

  /** The page as an object: the state variables are fields its handlers set
      one after another. */
  class LoginForm {
    var email: string
    var otp: seq<string>
    var otpVisible: bool
    var isNewUser: bool
    var name: string
    var phoneNumber: string
    var isLoading: bool
    var alert: Option<AlertInfo>
    var toast: Option<string>
    var goingHome: bool

    function Snapshot(): Screen
      reads this
    {
      Screen.Screen(email, otp, otpVisible, isNewUser, name, phoneNumber, isLoading, alert, toast, goingHome)
    }

    constructor ()
      ensures Snapshot() == InitialScreen
    {
      email, otp, name, phoneNumber := "", seq(OtpLength, _ => ""), "", "";
      otpVisible, isNewUser, isLoading, goingHome := false, false, false, false;
      alert, toast := None, None;
    }

    method OnOtpChange(value: string)
      modifies this
      ensures Snapshot() == old(Snapshot()).(otp := NormaliseOtp(value))
    {
      otp := NormaliseOtp(value);
    }

    method HandleSubmit(emailValid: bool, reply: Result<Verified, AuthTokens.Error>, api: AuthClient.AuthService)
      returns (sent: Option<Request>)
      requires api.Valid()
      modifies this, api
      ensures api.Valid()
      ensures Snapshot() == Submit(old(Snapshot()), emailValid, reply).screen
      ensures sent == Submit(old(Snapshot()), emailValid, reply).sent
      ensures var stored := Submit(old(Snapshot()), emailValid, reply).stored;
        api.State() == (if stored.Some? then AuthTokens.WithTokens(old(api.State()), stored.value.0, stored.value.1)
                        else old(api.State()))
    {
      isLoading := true;
      alert := None;
      if !emailValid {
        toast := Some(InvalidEmailToast);
        isLoading := false;
        return None;
      }
      if !otpVisible {
        sent := Some(SendOtp(email));
        if reply.Success? {
          otpVisible := true;
          alert := Some(OtpSentAlert);
        } else {
          alert := Some(RequestFailedAlert);
        }
      } else {
        var otpValue := Join(otp, "");
        if |otpValue| == OtpLength {
          sent := Some(VerifyOtp(email, otpValue));
          if reply.Success? {
            var response := reply.value;
            api.SetTokens(response.accessToken, response.refreshToken);
            if response.isNewUser {
              isNewUser := true;
              alert := Some(OtpVerifiedAlert);
            } else {
              alert := Some(WelcomeAlert);
              goingHome := true;
            }
          } else {
            alert := Some(RequestFailedAlert);
          }
        } else {
          sent := None;
          alert := Some(InvalidOtpAlert);
        }
      }
      isLoading := false;
    }

    method HandleResendOtp(reply: Result<(), AuthTokens.Error>) returns (sent: Option<Request>)
      modifies this
      ensures Snapshot() == Resend(old(Snapshot()), reply).screen
      ensures sent == Resend(old(Snapshot()), reply).sent
    {
      isLoading := true;
      alert := None;
      sent := Some(ResendOtp(email));
      alert := Some(if reply.Success? then OtpResentAlert else ResendFailedAlert);
      isLoading := false;
    }

    method HandleCompleteProfile(reply: Result<(), AuthTokens.Error>) returns (sent: Option<Request>)
      modifies this
      ensures Snapshot() == CompleteProfile(old(Snapshot()), reply).screen
      ensures sent == CompleteProfile(old(Snapshot()), reply).sent
    {
      isLoading := true;
      alert := None;
      if !ValidPhone(phoneNumber) {
        toast := Some(InvalidPhoneToast);
        isLoading := false;
        return None;
      }
      sent := Some(UpdateUser(name, phoneNumber));
      alert := Some(if reply.Success? then ProfileUpdatedAlert else ProfileFailedAlert);
      isLoading := false;
    }
  }
}
