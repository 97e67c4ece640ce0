/**
 * The contact form: four text fields, one replaced per change event, all
 * cleared on submit. Submitting needs every field filled in and the email
 * field to hold a valid address, which the form's `required` inputs and its
 * `type="email"` input enforce before the submit handler runs.
 */
module Contact {

  /** The `name` attributes of the form's four inputs. */
  datatype Field = Name | Email | Subject | Message

  datatype FormData = FormData(name: string, email: string, subject: string, message: string)

  const EmptyForm := FormData("", "", "", "")

  function Get(d: FormData, f: Field): string
  {
    match f
    case Name => d.name
    case Email => d.email
    case Subject => d.subject
    case Message => d.message
  }

  /** `{ ...prevState, [name]: value }`: the named field takes the value, the other three keep theirs. */
  function WithField(d: FormData, f: Field, value: string): (r: FormData)
    ensures Get(r, f) == value
    ensures forall g :: g != f ==> Get(r, g) == Get(d, g)
  {
    match f
    case Name => d.(name := value)
    case Email => d.(email := value)
    case Subject => d.(subject := value)
    case Message => d.(message := value)
  }

  /** The browser's validity test of a `type="email"` input's value. */
  type EmailCheck = string -> bool

  /** The browser's gate before `handleSubmit`: every `required` field holds something and the email is valid. */
  predicate CanSubmit(d: FormData, validEmail: EmailCheck)
  {
    d.name != "" && d.email != "" && d.subject != "" && d.message != "" && validEmail(d.email)
  }

  /** Any one empty field, or an email the browser rejects, blocks the submit. */
  lemma SubmitBlocked(d: FormData, validEmail: EmailCheck, f: Field)
    ensures Get(d, f) == "" ==> !CanSubmit(d, validEmail)
    ensures !validEmail(Get(d, Email)) ==> !CanSubmit(d, validEmail)
  {
  }

  /** A cleared form has four empty fields, so it cannot be submitted again until refilled. */
  lemma ClearedFormCannotResubmit(validEmail: EmailCheck)
    ensures forall f :: Get(EmptyForm, f) == ""
    ensures !CanSubmit(EmptyForm, validEmail)
  {
    assert Get(EmptyForm, Name) == "";
  }

  /**
   * Filling the four fields one change at a time, in the order the inputs
   * appear, with a valid email makes the form submittable, whatever it held
   * before.
   */
  lemma FillingEveryFieldEnablesSubmit(d: FormData, validEmail: EmailCheck, n: string, e: string, s: string, m: string)
    requires n != "" && e != "" && s != "" && m != "" && validEmail(e)
    ensures CanSubmit(WithField(WithField(WithField(WithField(d, Name, n), Email, e), Subject, s), Message, m), validEmail)
    ensures WithField(WithField(WithField(WithField(d, Name, n), Email, e), Subject, s), Message, m) == FormData(n, e, s, m)
  {
  }

  /** The form's state. */
  class ContactPage {
    var name: string
    var email: string
    var subject: string
    var message: string

    function Data(): FormData
      reads this
    {
      FormData(name, email, subject, message)
    }

    constructor ()
      ensures Data() == EmptyForm
    {
      name, email, subject, message := "", "", "", "";
    }

    /** `handleChange`: the named field takes the value, nothing else changes. */
    method HandleChange(f: Field, value: string)
      modifies this
      ensures Data() == WithField(old(Data()), f, value)
      ensures Get(Data(), f) == value
      ensures forall g :: g != f ==> Get(Data(), g) == Get(old(Data()), g)
    {
      match f
      case Name => name := value;
      case Email => email := value;
      case Subject => subject := value;
      case Message => message := value;
    }

    /** `handleSubmit`: every field is cleared whatever it held. */
    method HandleSubmit(validEmail: EmailCheck)
      requires CanSubmit(Data(), validEmail)
      modifies this
      ensures Data() == EmptyForm
    {
      name, email, subject, message := "", "", "", "";
    }
  }
}
