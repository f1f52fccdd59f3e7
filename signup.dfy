/** The employer signup form shared by both signup pages: its ten fields, their
    validators, the account-creation payload and the reply texts. */
module Signup {
  import opened Wrappers
  import opened Text
  import opened Validators

  datatype Field =
    | CompanyName | IndustryType | HrName | Mobile | Email
    | Designation | EmployeeStrength | Password | Location | ProductLine

  const AllFields: set<Field> :=
    {CompanyName, IndustryType, HrName, Mobile, Email, Designation, EmployeeStrength, Password, Location, ProductLine}

  datatype Values = Values(
    companyName: string, industryType: string, hrName: string, mobile: string, email: string,
    designation: string, employeeStrength: string, password: string, location: string, productLine: string)

  /** The `initial` values: every field empty. */
  const Initial := Values("", "", "", "", "", "", "", "", "", "")

  function Get(v: Values, f: Field): string {
    match f
    case CompanyName => v.companyName
    case IndustryType => v.industryType
    case HrName => v.hrName
    case Mobile => v.mobile
    case Email => v.email
    case Designation => v.designation
    case EmployeeStrength => v.employeeStrength
    case Password => v.password
    case Location => v.location
    case ProductLine => v.productLine
  }

  /** `setField(k, v)`: `{ ...s, [k]: v }`. */
  function Set(v: Values, f: Field, x: string): (r: Values)
    ensures Get(r, f) == x
    ensures forall g :: g != f ==> Get(r, g) == Get(v, g)
  {
    match f
    case CompanyName => v.(companyName := x)
    case IndustryType => v.(industryType := x)
    case HrName => v.(hrName := x)
    case Mobile => v.(mobile := x)
    case Email => v.(email := x)
    case Designation => v.(designation := x)
    case EmployeeStrength => v.(employeeStrength := x)
    case Password => v.(password := x)
    case Location => v.(location := x)
    case ProductLine => v.(productLine := x)
  }

  /** Setting a field to what it holds changes nothing. */
  lemma SetGet(v: Values, f: Field)
    ensures Set(v, f, Get(v, f)) == v
  {
  }

  /** The validity flag shown under each field. */
  predicate FieldValid(v: Values, f: Field) {
    match f
    case CompanyName => TrimmedAtLeast(v.companyName, 2)
    case IndustryType => TrimmedAtLeast(v.industryType, 2)
    case HrName => TrimmedAtLeast(v.hrName, 2)
    case Mobile => IsPhone(v.mobile)
    case Email => IsEmail(v.email)
    case Designation => TrimmedAtLeast(v.designation, 2)
    case EmployeeStrength => v.employeeStrength == "" || IsNumeric(v.employeeStrength)
    case Password => Utf16Length(v.password) >= 6
    case Location => TrimmedAtLeast(v.location, 2)
    case ProductLine => TrimmedAtLeast(v.productLine, 2)
  }

  /** `canSubmit`: the ten checks together. */
  predicate CanSubmit(v: Values) {
    && TrimmedAtLeast(v.companyName, 2) && TrimmedAtLeast(v.industryType, 2) && TrimmedAtLeast(v.hrName, 2)
    && IsPhone(v.mobile) && IsEmail(v.email) && TrimmedAtLeast(v.designation, 2)
    && (v.employeeStrength == "" || IsNumeric(v.employeeStrength))
    && Utf16Length(v.password) >= 6 && TrimmedAtLeast(v.location, 2) && TrimmedAtLeast(v.productLine, 2)
  }

  /** The form can be sent exactly when no field shows an error. */
  lemma CanSubmitIff(v: Values)
    ensures CanSubmit(v) <==> forall f :: FieldValid(v, f)
  {
    if !CanSubmit(v) {
      if !FieldValid(v, CompanyName) {} else if !FieldValid(v, IndustryType) {}
      else if !FieldValid(v, HrName) {} else if !FieldValid(v, Mobile) {}
      else if !FieldValid(v, Email) {} else if !FieldValid(v, Designation) {}
      else if !FieldValid(v, EmployeeStrength) {} else if !FieldValid(v, Password) {}
      else if !FieldValid(v, Location) {} else {
        assert !FieldValid(v, ProductLine);
      }
    } else {
      forall f ensures FieldValid(v, f) {
        match f
        case CompanyName =>
        case IndustryType =>
        case HrName =>
        case Mobile =>
        case Email =>
        case Designation =>
        case EmployeeStrength =>
        case Password =>
        case Location =>
        case ProductLine =>
      }
    }
  }

  /** The body of `create/corporate-account`; `employeeStrength` only when given. */
  datatype Payload = Payload(
    companyName: string, industryType: string, hrName: string, mobile: string, email: string,
    designation: string, password: string, location: string, productLine: string,
    employeeStrength: Option<nat>)

  /** The payload of a valid form: every text field trimmed except the password,
      and the strength as a number when it is not empty. */
  function PayloadOf(v: Values): (p: Payload)
    requires CanSubmit(v)
    ensures p.companyName == Trim(v.companyName) && p.industryType == Trim(v.industryType)
    ensures p.hrName == Trim(v.hrName) && p.mobile == Trim(v.mobile) && p.email == Trim(v.email)
    ensures p.designation == Trim(v.designation) && p.location == Trim(v.location)
    ensures p.productLine == Trim(v.productLine)
    ensures p.password == v.password
    ensures p.employeeStrength.Some? <==> v.employeeStrength != ""
    ensures p.employeeStrength.Some? ==> p.employeeStrength.value == DecimalValue(v.employeeStrength)
  {
    Payload(Trim(v.companyName), Trim(v.industryType), Trim(v.hrName), Trim(v.mobile), Trim(v.email),
            Trim(v.designation), v.password, Trim(v.location), Trim(v.productLine),
            if v.employeeStrength != "" then Some(DecimalValue(v.employeeStrength)) else None)
  }

  /** The address sent is the one typed: a valid address has no white space
      to trim. Each trimmed name keeps its two code units, so it is never empty. */
  lemma PayloadKeepsAddress(v: Values)
    requires CanSubmit(v)
    ensures PayloadOf(v).email == v.email
    ensures Utf16Length(PayloadOf(v).companyName) >= 2 && Utf16Length(PayloadOf(v).hrName) >= 2
    ensures PayloadOf(v).companyName != "" && PayloadOf(v).hrName != ""
  {
    EmailTrimmed(v.email);
  }

  /** A strength typed as the decimal digits of `n` is sent as `n`. */
  lemma PayloadStrength(v: Values, n: nat)
    requires CanSubmit(v) && v.employeeStrength == NatToString(n)
    ensures PayloadOf(v).employeeStrength == Some(n)
  {
    DecimalOfNatToString(n);
  }

  /** The phone check counts white space as a digit, so seven spaces pass and
      the payload then carries an empty phone number. */
  lemma BlankMobileAccepted(v: Values)
    requires CanSubmit(v) && v.mobile == "       "
    ensures PayloadOf(v).mobile == ""
  {
    BlankPhone();
  }

  /** The values after an accepted submission: all cleared except the address. */
  function ClearedExceptEmail(v: Values): (r: Values)
    ensures r.email == v.email
    ensures forall f :: f != Email ==> Get(r, f) == ""
  {
    Initial.(email := v.email)
  }

  /** A cleared form cannot be sent again: its password is empty. */
  lemma ClearedFormBlocked(v: Values)
    ensures !CanSubmit(ClearedExceptEmail(v))
  {
  }

  /** The requests the signup pages send. */
  datatype Request =
    | CreateAccount(payload: Payload)
    | VerifyCorporate(email: string, otp: string)

  /** The verify button is enabled: not already verifying and at least four
      characters of code after trimming. */
  predicate VerifyEnabled(otp: string, verifying: bool) {
    !verifying && Utf16Length(Trim(otp)) >= 4
  }

  /** An enabled verify button always gets past the handler's empty-code check. */
  lemma VerifyEnabledHasCode(otp: string)
    requires VerifyEnabled(otp, false)
    ensures otp != ""
  {
  }

  /** Two characters outside the Basic Multilingual Plane fill four code units,
      enough to enable the verify button. */
  lemma AstralCodeEnablesVerify(c: char)
    requires c as int >= 0x1_0000 && !IsSpace(c)
    ensures VerifyEnabled([c, c], false) && |[c, c]| == 2
  {
    TrimNoSpace([c, c]);
    Utf16LengthAppend([c], [c]);
    AstralCountsTwice(c);
  }

  /** The OTP box's `maxLength`, in UTF-16 code units: the browser never hands
      its `onChange` a longer value. */
  const OtpMaxLength := 6

  const OtpSentMessage := "OTP sent to your email. Please verify."
  const EmailVerifiedMessage := "Email verified successfully."
  const NetworkErrorMessage := "Network error. Please try again."
  const VerifyNetworkErrorMessage := "Network error during verification. Please try again."

  /** The error for a refused account creation without a server message. */
  function CreateFailedMessage(status: nat): string {
    "Request failed with status " + NatToString(status)
  }

  /** The error for a refused verification without a server message. */
  function VerifyFailedMessage(status: nat): string {
    "Verification failed (" + NatToString(status) + ")"
  }
}
