/** The public employer signup page that moves through three stages: the form,
    the OTP box and the result box. */
module StagedSignup {
  import opened Wrappers
  import opened Text
  import opened Http
  import opened Signup

  datatype Stage = Form | Otp | Result

  datatype PageState = PageState(
    values: Values, touched: set<Field>, loading: bool, error: string, successMsg: string, otp: string,
    verified: bool, stage: Stage, requests: seq<Request>, navigations: seq<string>)

  /** The state on first render. */
  const Start := PageState(Initial, {}, false, "", "", "", false, Form, [], [])

  class StagedSignupPage {
    var values: Values
    /** The fields marked touched; a field set to `false` counts as untouched. */
    var touched: set<Field>
    /** An account request is on its way. */
    var loading: bool
    var error: string
    var successMsg: string
    var otp: string
    var verified: bool
    var stage: Stage
    var requests: seq<Request>
    /** Pages the browser was sent to (`window.location.assign`). */
    var navigations: seq<string>

    function State(): PageState
      reads this
    {
      PageState(values, touched, loading, error, successMsg, otp, verified, stage, requests, navigations)
    }

    /** The result box is reached only through a successful verification. */
    predicate Valid()
      reads this
    {
      stage == Result ==> verified
    }

    constructor ()
      ensures State() == Start && Valid()
    {
      values, touched, loading, error, successMsg, otp := Initial, {}, false, "", "", "";
      verified, stage, requests, navigations := false, Form, [], [];
    }

    method SetField(f: Field, x: string)
      modifies this
      ensures State() == old(State()).(values := Set(old(values), f, x))
      ensures old(Valid()) ==> Valid()
    {
      values := Set(values, f, x);
    }

    method Blur(f: Field)
      modifies this
      ensures State() == old(State()).(touched := old(touched) + {f})
      ensures old(Valid()) ==> Valid()
    {
      touched := touched + {f};
    }

    /** `onSubmit`, shown only in the form stage, up to the request. An invalid
        form only marks every field touched; a valid one moves to the OTP stage
        at once and sends the payload. */
    method Submit()
      requires stage == Form
      modifies this
      ensures !CanSubmit(old(values)) ==> State() == old(State()).(touched := AllFields)
      ensures CanSubmit(old(values)) ==>
        State() == old(State()).(touched := AllFields, loading := true, error := "", successMsg := "", stage := Otp,
                                 requests := old(requests) + [CreateAccount(PayloadOf(old(values)))])
      ensures Valid()
    {
      var ok := CanSubmit(values);
      if !ok {
        touched := AllFields;
        return;
      }
      var request := CreateAccount(PayloadOf(values));
      touched := AllFields;
      loading := true;
      error := "";
      successMsg := "";
      stage := Otp;
      requests := requests + [request];
    }

    /** The rest of `onSubmit`, once the account request settles: a refusal or a
        network error moves back to the form with the error, and an acceptance
        keeps the OTP stage and clears everything but the address. */
    method SubmitSettled(reply: Reply<()>)
      requires loading
      modifies this
      ensures reply.NetworkError? ==> State() == old(State()).(loading := false, error := NetworkErrorMessage, stage := Form)
      ensures reply.Response? && !reply.ok ==>
        State() == old(State()).(loading := false, error := OrElse(reply.message, CreateFailedMessage(reply.status)), stage := Form)
      ensures reply.Response? && reply.ok ==>
        State() == old(State()).(loading := false, successMsg := OrElse(reply.message, OtpSentMessage),
                                 values := ClearedExceptEmail(old(values)), touched := {Email})
      ensures old(Valid()) ==> Valid()
    {
      if reply.NetworkError? {
        error := NetworkErrorMessage;
        stage := Form;
      } else if !reply.ok {
        error := OrElse(reply.message, CreateFailedMessage(reply.status));
        stage := Form;
      } else {
        successMsg := OrElse(reply.message, OtpSentMessage);
        values := ClearedExceptEmail(values);
        touched := {Email};
      }
      loading := false;
    }

    /** The OTP box's `onChange`, whose value is at most `maxLength` long. */
    method SetOtp(x: string)
      requires Utf16Length(x) <= OtpMaxLength
      modifies this
      ensures State() == old(State()).(otp := x)
      ensures old(Valid()) ==> Valid()
    {
      otp := x;
    }

    /** `onVerifyOtp`, in the OTP stage: nothing without a code and an address;
        otherwise the trimmed pair is sent, a success moves to the result stage
        and any failure stays in the OTP stage, unverified. */
    method VerifyOtp(reply: Reply<()>)
      requires stage == Otp
      modifies this
      ensures old(otp) == "" || old(values.email) == "" ==> State() == old(State())
      ensures old(otp) != "" && old(values.email) != "" && reply.NetworkError? ==>
        State() == old(State()).(error := VerifyNetworkErrorMessage, verified := false,
                                 requests := old(requests) + [VerifyCorporate(Trim(old(values.email)), Trim(old(otp)))])
      ensures old(otp) != "" && old(values.email) != "" && reply.Response? && !reply.ok ==>
        State() == old(State()).(error := OrElse(reply.message, VerifyFailedMessage(reply.status)), verified := false,
                                 requests := old(requests) + [VerifyCorporate(Trim(old(values.email)), Trim(old(otp)))])
      ensures old(otp) != "" && old(values.email) != "" && reply.Response? && reply.ok ==>
        State() == old(State()).(error := "", verified := true, successMsg := OrElse(reply.message, EmailVerifiedMessage),
                                 otp := "", stage := Result,
                                 requests := old(requests) + [VerifyCorporate(Trim(old(values.email)), Trim(old(otp)))])
      ensures Valid()
    {
      if otp == "" || values.email == "" {
        return;
      }
      error := "";
      requests := requests + [VerifyCorporate(Trim(values.email), Trim(otp))];
      if reply.NetworkError? {
        error := VerifyNetworkErrorMessage;
        verified := false;
      } else if !reply.ok {
        error := OrElse(reply.message, VerifyFailedMessage(reply.status));
        verified := false;
      } else {
        verified := true;
        successMsg := OrElse(reply.message, EmailVerifiedMessage);
        otp := "";
        stage := Result;
      }
    }

    /** The verify button is enabled. */
    predicate VerifyButtonEnabled()
      reads this
    {
      VerifyEnabled(otp, false)
    }

    /** The submit button is enabled. */
    predicate SubmitButtonEnabled()
      reads this
    {
      CanSubmit(values) && !loading
    }

    /** "Change email": back to the form with the code and the error cleared. */
    method ChangeEmail()
      requires stage == Otp
      modifies this
      ensures State() == old(State()).(stage := Form, otp := "", error := "")
      ensures Valid()
    {
      stage := Form;
      otp := "";
      error := "";
    }

    /** The result box's button: home when verified, otherwise a full reset. */
    method CloseResult()
      requires stage == Result
      modifies this
      ensures old(verified) ==> State() == old(State()).(navigations := old(navigations) + ["/"])
      ensures !old(verified) ==> State() == Start.(requests := old(requests), navigations := old(navigations), loading := old(loading))
      ensures old(Valid()) ==> State() == old(State()).(navigations := old(navigations) + ["/"])
      ensures Valid()
    {
      if verified {
        navigations := navigations + ["/"];
      } else {
        stage := Form;
        values := Initial;
        touched := {};
        otp := "";
        verified := false;
        error := "";
        successMsg := "";
      }
    }
  }
}
