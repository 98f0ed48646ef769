/** The contact page's message form. */
module Contact {
  import opened Fetch

  datatype ContactForm = ContactForm(name: string, email: string, phone: string, subject: string, message: string)

  /** The `name` attributes of the five inputs. */
  datatype Field = Name | Email | Phone | Subject | Message

  const EmptyForm := ContactForm("", "", "", "", "")

  /** `status.type`: `null`, `"success"` or `"error"`. */
  datatype StatusKind = NoStatus | Success | Error

  datatype Status = Status(kind: StatusKind, message: string)

  const SentMessage := "Uw bericht is succesvol verzonden. We nemen zo snel mogelijk contact met u op."
  const FailedMessage := "Er is een fout opgetreden. Probeer het later opnieuw."

  function Get(f: ContactForm, field: Field): string {
    match field
    case Name => f.name
    case Email => f.email
    case Phone => f.phone
    case Subject => f.subject
    case Message => f.message
  }

  /** `{ ...prev, [name]: value }`: the named field takes the value, the others keep theirs. */
  function With(f: ContactForm, field: Field, value: string): (r: ContactForm)
    ensures Get(r, field) == value
    ensures forall g :: g != field ==> Get(r, g) == Get(f, g)
  {
    match field
    case Name => f.(name := value)
    case Email => f.(email := value)
    case Phone => f.(phone := value)
    case Subject => f.(subject := value)
    case Message => f.(message := value)
  }

  /** A form is determined by its five fields. */
  lemma FieldsDetermineForm(a: ContactForm, b: ContactForm)
    requires forall g :: Get(a, g) == Get(b, g)
    ensures a == b
  {
    assert Get(a, Name) == Get(b, Name) && Get(a, Email) == Get(b, Email) && Get(a, Phone) == Get(b, Phone);
    assert Get(a, Subject) == Get(b, Subject) && Get(a, Message) == Get(b, Message);
  }

  /** Typing a field's current value back in changes nothing. */
  lemma WithOwnValue(f: ContactForm, field: Field)
    ensures With(f, field, Get(f, field)) == f
  {
    FieldsDetermineForm(With(f, field, Get(f, field)), f);
  }

  /** Editing the same field twice keeps only the second value. */
  lemma WithTwice(f: ContactForm, field: Field, v: string, w: string)
    ensures With(With(f, field, v), field, w) == With(f, field, w)
  {
    FieldsDetermineForm(With(With(f, field, v), field, w), With(f, field, w));
  }

  class ContactPage {
    var formData: ContactForm
    var status: Status
    var loading: bool

    constructor ()
      ensures formData == EmptyForm && status == Status(NoStatus, "") && !loading
    {
      formData := EmptyForm;
      status := Status(NoStatus, "");
      loading := false;
    }

    /** `handleInputChange` */
    method InputChange(field: Field, value: string)
      modifies this
      ensures formData == With(old(formData), field, value)
      ensures status == old(status) && loading == old(loading)
    {
      formData := With(formData, field, value);
    }

    /** `handleSubmit` up to the request: no check at all; loading starts and the form is sent as it is. */
    method BeginSubmit() returns (body: ContactForm)
      modifies this
      ensures loading && body == formData
      ensures formData == old(formData) && status == old(status)
    {
      loading := true;
      body := formData;
    }

    /**
     * `handleSubmit` after the request: success sets the fixed success status
     * and empties all five fields; any failure sets the fixed error status
     * (whatever was thrown) and keeps the fields; loading ends either way.
     */
    method CompleteSubmit(outcome: Outcome<()>)
      requires loading
      modifies this
      ensures !loading
      ensures outcome.Ok? ==> status == Status(Success, SentMessage) && formData == EmptyForm
      ensures !outcome.Ok? ==> status == Status(Error, FailedMessage) && formData == old(formData)
    {
      if outcome.Ok? {
        status := Status(Success, SentMessage);
        formData := EmptyForm;
      } else {
        status := Status(Error, FailedMessage);
      }
      loading := false;
    }
  }
}
