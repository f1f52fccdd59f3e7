/** The short contact form of the landing page: four fields, checked on the
    page, with no request behind it. */
module ContactForm {
  import opened Text
  import opened Validators

  datatype Field = Name | Email | Phone | Message

  const AllFields: set<Field> := {Name, Email, Phone, Message}

  datatype Values = Values(name: string, email: string, phone: string, message: string)

  const Initial := Values("", "", "", "")

  function Get(v: Values, f: Field): string {
    match f
    case Name => v.name
    case Email => v.email
    case Phone => v.phone
    case Message => v.message
  }

  function Set(v: Values, f: Field, x: string): (r: Values)
    ensures Get(r, f) == x
    ensures forall g :: g != f ==> Get(r, g) == Get(v, g)
  {
    match f
    case Name => v.(name := x)
    case Email => v.(email := x)
    case Phone => v.(phone := x)
    case Message => v.(message := x)
  }

  /** The check behind each field's error line. The phone is optional. */
  predicate FieldValid(v: Values, f: Field) {
    match f
    case Name => TrimmedAtLeast(v.name, 2)
    case Email => IsEmail(v.email)
    case Phone => v.phone == "" || IsPhone(v.phone)
    case Message => TrimmedAtLeast(v.message, 10)
  }

  /** `canSubmit`. */
  predicate CanSubmit(v: Values) {
    IsEmail(v.email) && (v.phone == "" || IsPhone(v.phone)) && TrimmedAtLeast(v.name, 2) && TrimmedAtLeast(v.message, 10)
  }

  /** The form can be sent exactly when no field shows an error. */
  lemma CanSubmitIff(v: Values)
    ensures CanSubmit(v) <==> forall f :: FieldValid(v, f)
  {
    if CanSubmit(v) {
      forall f ensures FieldValid(v, f) {
        match f
        case Name =>
        case Email =>
        case Phone =>
        case Message =>
      }
    } else {
      if !FieldValid(v, Name) {} else if !FieldValid(v, Email) {}
      else if !FieldValid(v, Phone) {} else {
        assert !FieldValid(v, Message);
      }
    }
  }

  /** A message of white space never passes, however long. */
  lemma BlankMessageBlocked(v: Values)
    requires AllSpace(v.message)
    ensures !CanSubmit(v)
  {
    TrimEmptyIff(v.message);
  }

  datatype FormState = FormState(values: Values, touched: set<Field>, submitted: bool)

  class ContactFormSection {
    var values: Values
    var touched: set<Field>
    var submitted: bool

    function State(): FormState
      reads this
    {
      FormState(values, touched, submitted)
    }

    constructor ()
      ensures State() == FormState(Initial, {}, false)
    {
      values, touched, submitted := Initial, {}, false;
    }

    method SetField(f: Field, x: string)
      modifies this
      ensures State() == old(State()).(values := Set(old(values), f, x))
    {
      values := Set(values, f, x);
    }

    method Blur(f: Field)
      modifies this
      ensures State() == old(State()).(touched := old(touched) + {f})
    {
      touched := touched + {f};
    }

    /** `onSubmit`: every field is marked touched; a valid form is marked sent
        and cleared, an invalid one keeps its values. */
    method Submit()
      modifies this
      ensures !CanSubmit(old(values)) ==> State() == old(State()).(touched := AllFields)
      ensures CanSubmit(old(values)) ==> State() == FormState(Initial, AllFields, true)
    {
      touched := AllFields;
      if !CanSubmit(values) {
        return;
      }
      submitted := true;
      values := Initial;
    }

    /** The send button is enabled. */
    predicate SubmitEnabled()
      reads this
    {
      CanSubmit(values)
    }
  }
}
