/** The "Get in Touch" page: seven fields, an error text per field, and the
    message posted to the contact endpoint. */
module ContactUs {
  import opened Text
  import opened Http
  import opened Validators
  import Short = ContactForm

  datatype Field = Name | Company | Designation | Subject | Email | Phone | Message

  const AllFields: set<Field> := {Name, Company, Designation, Subject, Email, Phone, Message}

  datatype Values = Values(
    name: string, company: string, designation: string, subject: string,
    email: string, phone: string, message: string)

  const Initial := Values("", "", "", "", "", "", "")

  function Get(v: Values, f: Field): string {
    match f
    case Name => v.name
    case Company => v.company
    case Designation => v.designation
    case Subject => v.subject
    case Email => v.email
    case Phone => v.phone
    case Message => v.message
  }

  function Set(v: Values, f: Field, x: string): (r: Values)
    ensures Get(r, f) == x
    ensures forall g :: g != f ==> Get(r, g) == Get(v, g)
  {
    match f
    case Name => v.(name := x)
    case Company => v.(company := x)
    case Designation => v.(designation := x)
    case Subject => v.(subject := x)
    case Email => v.(email := x)
    case Phone => v.(phone := x)
    case Message => v.(message := x)
  }

  /** `validations[f](values[f])`. */
  predicate FieldValid(v: Values, f: Field) {
    match f
    case Name => TrimmedAtLeast(v.name, 2)
    case Company => TrimmedAtLeast(v.company, 1)
    case Designation => TrimmedAtLeast(v.designation, 1)
    case Subject => TrimmedAtLeast(v.subject, 5)
    case Email => IsEmail(v.email)
    case Phone => v.phone == "" || IsPhone(v.phone)
    case Message => TrimmedAtLeast(v.message, 10)
  }

  /** The text shown for a failing field. */
  function ErrorText(f: Field): (t: string)
    ensures t != ""
  {
    match f
    case Name => "Name must be at least 2 characters"
    case Company => "Company name is required"
    case Designation => "Designation is required"
    case Subject => "Subject must be at least 5 characters"
    case Email => "Please enter a valid email"
    case Phone => "Please enter a valid phone number"
    case Message => "Message must be at least 10 characters"
  }

  /** `errors[f]`: the field's text when its check fails, "" when it passes. */
  function ErrorOf(v: Values, f: Field): (e: string)
    ensures e != "" <==> !FieldValid(v, f)
    ensures e != "" ==> e == ErrorText(f)
  {
    if FieldValid(v, f) then "" else ErrorText(f)
  }

  /** `canSubmit`, in the source's order. */
  predicate CanSubmit(v: Values) {
    && TrimmedAtLeast(v.name, 2) && TrimmedAtLeast(v.company, 1) && TrimmedAtLeast(v.designation, 1)
    && TrimmedAtLeast(v.subject, 5) && IsEmail(v.email) && (v.phone == "" || IsPhone(v.phone))
    && TrimmedAtLeast(v.message, 10)
  }

  /** The form can be sent exactly when every error text is empty. */
  lemma CanSubmitIff(v: Values)
    ensures CanSubmit(v) <==> forall f :: ErrorOf(v, f) == ""
  {
    if CanSubmit(v) {
      forall f ensures ErrorOf(v, f) == "" {
        match f
        case Name =>
        case Company =>
        case Designation =>
        case Subject =>
        case Email =>
        case Phone =>
        case Message =>
      }
    } else {
      if !FieldValid(v, Name) { assert ErrorOf(v, Name) != ""; }
      else if !FieldValid(v, Company) { assert ErrorOf(v, Company) != ""; }
      else if !FieldValid(v, Designation) { assert ErrorOf(v, Designation) != ""; }
      else if !FieldValid(v, Subject) { assert ErrorOf(v, Subject) != ""; }
      else if !FieldValid(v, Email) { assert ErrorOf(v, Email) != ""; }
      else if !FieldValid(v, Phone) { assert ErrorOf(v, Phone) != ""; }
      else { assert ErrorOf(v, Message) != ""; }
    }
  }

  /** A message this page accepts passes the landing page's shorter form too;
      the converse fails, since that form asks for no company. */
  lemma StricterThanShortForm(v: Values)
    ensures CanSubmit(v) ==> Short.CanSubmit(Short.Values(v.name, v.email, v.phone, v.message))
    ensures Short.CanSubmit(Short.Values("Asha", "a@b.co", "", "Hello there!")) &&
            !CanSubmit(Values("Asha", "", "", "", "a@b.co", "", "Hello there!"))
  {
    var e := "a@b.co";
    assert EmailSplit(e, 1, 3) by {
      assert e[..1] == "a" && e[2..3] == "b" && e[4..] == "co";
    }
    TrimNoSpace("Asha");
    assert Trim("Hello there!") == "Hello there!" by {
      TrimOfTrimmed("Hello there!");
    }
    TrimEmptyIff("");
  }

  /** `submitStatus`. */
  datatype Status = Status(success: bool, message: string)

  const NoStatus := Status(false, "")
  const InvalidStatus := Status(false, "Please fill in all required fields correctly.")
  const SentStatus := Status(true, "Thank you for your message! We will get back to you soon.")
  const FailedStatus := Status(false, "Failed to send message. Please try again later.")

  datatype PageState = PageState(values: Values, touched: set<Field>, status: Status, requests: seq<Values>)

  class ContactUsPage {
    var values: Values
    var touched: set<Field>
    var status: Status
    /** The bodies posted to the contact endpoint: the values as typed. */
    var requests: seq<Values>

    function State(): PageState
      reads this
    {
      PageState(values, touched, status, requests)
    }

    constructor ()
      ensures State() == PageState(Initial, {}, NoStatus, [])
    {
      values, touched, status, requests := Initial, {}, NoStatus, [];
    }

    /** `setField`: any edit also clears a shown status. */
    method SetField(f: Field, x: string)
      modifies this
      ensures State() == old(State()).(values := Set(old(values), f, x),
                                       status := if old(status.message) != "" then NoStatus else old(status))
      ensures status.message == ""
    {
      values := Set(values, f, x);
      if status.message != "" {
        status := NoStatus;
      }
    }

    method Blur(f: Field)
      modifies this
      ensures State() == old(State()).(touched := old(touched) + {f})
    {
      touched := touched + {f};
    }

    /** `onSubmit`, with the reply to the post. Every field is marked touched; an
        invalid form only shows the failure status. A 2xx reply shows the
        thanks and clears the form; any other outcome shows the failure and
        keeps what was typed. */
    method Submit(reply: Reply<()>)
      modifies this
      ensures !CanSubmit(old(values)) ==> State() == old(State()).(touched := AllFields, status := InvalidStatus)
      ensures CanSubmit(old(values)) && Resolved(reply) ==>
        State() == PageState(Initial, {}, SentStatus, old(requests) + [old(values)])
      ensures CanSubmit(old(values)) && !Resolved(reply) ==>
        State() == old(State()).(touched := AllFields, status := FailedStatus, requests := old(requests) + [old(values)])
    {
      if !CanSubmit(values) {
        touched := AllFields;
        status := InvalidStatus;
        return;
      }
      touched := AllFields;
      requests := requests + [values];
      if reply.Response? && reply.ok {
        status := SentStatus;
        values := Initial;
        touched := {};
      } else {
        status := FailedStatus;
      }
    }

    /** "Close" on the success panel: only the status is reset, which hides the
        panel and shows the form again. */
    method CloseSuccess()
      modifies this
      ensures State() == old(State()).(status := NoStatus)
    {
      status := NoStatus;
    }

    /** The success panel is shown. */
    predicate SuccessShown()
      reads this
    {
      status.success
    }

    /** The send button is enabled. */
    predicate SubmitEnabled()
      reads this
    {
      CanSubmit(values)
    }

    /** A field's error line is drawn. */
    predicate ErrorShown(f: Field)
      reads this
    {
      f in touched && ErrorOf(values, f) != ""
    }
  }
}
