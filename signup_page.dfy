/** The employer signup page of the main site: the form stays on the page and
    an OTP box opens under it once the account request is accepted. */
module PageSignup {
  import opened Wrappers
  import opened Text
  import opened Http
  import opened Signup

  datatype PageState = PageState(
    values: Values, touched: set<Field>, submitted: bool, loading: bool, error: string, successMsg: string,
    showOtp: bool, otp: string, verified: bool, requests: seq<Request>)

  /** The state on first render. */
  const Start := PageState(Initial, {}, false, false, "", "", false, "", false, [])

  class SignupPage {
    var values: Values
    /** The fields marked touched; a field set to `false` counts as untouched. */
    var touched: set<Field>
    var submitted: bool
    /** An account request is on its way. */
    var loading: bool
    var error: string
    var successMsg: string
    var showOtp: bool
    var otp: string
    var verified: bool
    var requests: seq<Request>

    function State(): PageState
      reads this
    {
      PageState(values, touched, submitted, loading, error, successMsg, showOtp, otp, verified, requests)
    }

    constructor ()
      ensures State() == Start
    {
      values, touched, submitted, loading, error, successMsg := Initial, {}, false, false, "", "";
      showOtp, otp, verified, requests := false, "", false, [];
    }

    method SetField(f: Field, x: string)
      modifies this
      ensures State() == old(State()).(values := Set(old(values), f, x))
    {
      values := Set(values, f, x);
    }

    method Blur(f: Field)
      modifies this
      ensures State() == old(State()).(touched := old(touched) + {f})
    {
      touched := touched + {f};
    }

    /** `onSubmit` up to the request: an invalid form only marks every field
        touched; a valid one sends the payload. */
    method Submit()
      modifies this
      ensures !CanSubmit(old(values)) ==> State() == old(State()).(touched := AllFields)
      ensures CanSubmit(old(values)) ==>
        State() == old(State()).(touched := AllFields, loading := true, error := "", successMsg := "",
                                 requests := old(requests) + [CreateAccount(PayloadOf(old(values)))])
    {
      var ok := CanSubmit(values);
      if !ok {
        touched := AllFields;
        return;
      }
      var request := CreateAccount(PayloadOf(values));
      touched := AllFields;
      loading := true;
      error := "";
      successMsg := "";
      requests := requests + [request];
    }

    /** The rest of `onSubmit`, once the account request settles: a refusal or a
        network error sets `submitted` false and leaves the OTP box as it was,
        and an acceptance opens the OTP box and clears everything but the address. */
    method SubmitSettled(reply: Reply<()>)
      requires loading
      modifies this
      ensures reply.NetworkError? ==> State() == old(State()).(loading := false, error := NetworkErrorMessage, submitted := false)
      ensures reply.Response? && !reply.ok ==>
        State() == old(State()).(loading := false, error := OrElse(reply.message, CreateFailedMessage(reply.status)), submitted := false)
      ensures reply.Response? && reply.ok ==>
        State() == old(State()).(loading := false, submitted := true, successMsg := OrElse(reply.message, OtpSentMessage),
                                 showOtp := true, values := ClearedExceptEmail(old(values)), touched := {Email})
    {
      if reply.NetworkError? {
        error := NetworkErrorMessage;
        submitted := false;
      } else if !reply.ok {
        error := OrElse(reply.message, CreateFailedMessage(reply.status));
        submitted := false;
      } else {
        submitted := true;
        successMsg := OrElse(reply.message, OtpSentMessage);
        showOtp := true;
        values := ClearedExceptEmail(values);
        touched := {Email};
      }
      loading := false;
    }

    /** The OTP box's `onChange`, whose value is at most `maxLength` long. */
    method SetOtp(x: string)
      requires Utf16Length(x) <= OtpMaxLength
      modifies this
      ensures State() == old(State()).(otp := x)
    {
      otp := x;
    }

    /** `onVerifyOtp`, from the OTP box: nothing without a code and an address;
        otherwise the trimmed pair is sent, a success closes the box and any
        failure leaves the visitor unverified. */
    method VerifyOtp(reply: Reply<()>)
      requires showOtp
      modifies this
      ensures old(otp) == "" || old(values.email) == "" ==> State() == old(State())
      ensures old(otp) != "" && old(values.email) != "" && reply.NetworkError? ==>
        State() == old(State()).(error := VerifyNetworkErrorMessage, verified := false,
                                 requests := old(requests) + [VerifyCorporate(Trim(old(values.email)), Trim(old(otp)))])
      ensures old(otp) != "" && old(values.email) != "" && reply.Response? && !reply.ok ==>
        State() == old(State()).(error := OrElse(reply.message, VerifyFailedMessage(reply.status)), verified := false,
                                 requests := old(requests) + [VerifyCorporate(Trim(old(values.email)), Trim(old(otp)))])
      ensures old(otp) != "" && old(values.email) != "" && reply.Response? && reply.ok ==>
        State() == old(State()).(error := "", verified := true, successMsg := OrElse(reply.message, EmailVerifiedMessage),
                                 showOtp := false, otp := "",
                                 requests := old(requests) + [VerifyCorporate(Trim(old(values.email)), Trim(old(otp)))])
    {
      if otp == "" || values.email == "" {
        return;
      }
      error := "";
      requests := requests + [VerifyCorporate(Trim(values.email), Trim(otp))];
      if reply.NetworkError? {
        error := VerifyNetworkErrorMessage;
        verified := false;
      } else if !reply.ok {
        error := OrElse(reply.message, VerifyFailedMessage(reply.status));
        verified := false;
      } else {
        verified := true;
        successMsg := OrElse(reply.message, EmailVerifiedMessage);
        showOtp := false;
        otp := "";
      }
    }

    /** The verify button is enabled. */
    predicate VerifyButtonEnabled()
      reads this
    {
      VerifyEnabled(otp, false)
    }

    /** The submit button is enabled. */
    predicate SubmitButtonEnabled()
      reads this
    {
      CanSubmit(values) && !loading
    }
  }
}
