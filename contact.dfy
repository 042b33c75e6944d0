/**
 * The contact section: the form's state machine (idle, submitting, success or
 * error), single-field edits, the submit button, and the list of other ways to
 * get in touch built from the optional contact details.
 */
module Contact {
  import opened Wrappers

  const SubjectOptions: seq<string> := [
    "General Inquiry",
    "AI Agent Development",
    "Workflow Automation",
    "System Integration",
    "Technical Consulting",
    "Partnership Opportunity",
    "Other"
  ]

  datatype FormData = FormData(name: string, email: string, subject: string, message: string)

  /** The blank form: empty fields and the first subject option. */
  const BlankForm := FormData("", "", SubjectOptions[0], "")

  datatype SubmitStatus = Idle | Success | Error

  /** The `name` attributes of the form's four controls. */
  datatype Field = Name | Email | Subject | Message

  function Get(f: FormData, field: Field): string
  {
    match field
    case Name => f.name
    case Email => f.email
    case Subject => f.subject
    case Message => f.message
  }

  /** `{...prev, [name]: value}`: the named field takes the value, the other three are kept. */
  function WithField(f: FormData, field: Field, value: string): (r: FormData)
    ensures Get(r, field) == value
    ensures forall g :: g != field ==> Get(r, g) == Get(f, g)
  {
    match field
    case Name => f.(name := value)
    case Email => f.(email := value)
    case Subject => f.(subject := value)
    case Message => f.(message := value)
  }

  /** Two forms that agree on every field are the same form. */
  lemma FieldsDetermineForm(f: FormData, g: FormData)
    requires forall field :: Get(f, field) == Get(g, field)
    ensures f == g
  {
    assert Get(f, Name) == Get(g, Name) && Get(f, Email) == Get(g, Email);
    assert Get(f, Subject) == Get(g, Subject) && Get(f, Message) == Get(g, Message);
  }

  /** The contract of `WithField` pins its result down: a form that meets it is that result. */
  lemma WithFieldUnique(f: FormData, field: Field, value: string, r: FormData)
    requires Get(r, field) == value
    requires forall g :: g != field ==> Get(r, g) == Get(f, g)
    ensures r == WithField(f, field, value)
  {
    FieldsDetermineForm(r, WithField(f, field, value));
  }

  /** Editing a field twice keeps only the second value; writing back the old value changes nothing. */
  lemma WithFieldLaws(f: FormData, field: Field, v: string, w: string)
    ensures WithField(WithField(f, field, v), field, w) == WithField(f, field, w)
    ensures WithField(f, field, Get(f, field)) == f
  {
  }

  /** The browser's `required` check on the four controls: none of them is empty. */
  predicate PassesRequired(f: FormData)
  {
    f.name != "" && f.email != "" && f.subject != "" && f.message != ""
  }

  /** The blank form fails that check, so a sent form cannot be sent again until it is filled in anew. */
  lemma BlankFormIsNotSubmittable()
    ensures !PassesRequired(BlankForm)
    ensures forall field :: field != Subject ==> Get(BlankForm, field) == ""
  {
  }

  datatype SubmitButton = SubmitButton(disabled: bool, caption: string)

  /** The submit button: disabled and reading "Sending..." while a send is in flight. */
  function ButtonFor(isSubmitting: bool): (b: SubmitButton)
    ensures b.disabled == isSubmitting
    ensures b.disabled <==> b.caption == "Sending..."
    ensures !b.disabled ==> b.caption == "Send Message"
  {
    if isSubmitting then SubmitButton(true, "Sending...") else SubmitButton(false, "Send Message")
  }

  /** The state cells `formData`, `isSubmitting` and `submitStatus`, and their handlers. */
  class ContactForm {
    var formData: FormData
    var isSubmitting: bool
    var submitStatus: SubmitStatus

    constructor ()
      ensures formData == BlankForm && !isSubmitting && submitStatus == Idle
    {
      formData := BlankForm;
      isSubmitting := false;
      submitStatus := Idle;
    }

    /** The start of `handleSubmit`: mark the send in flight, clear the status, send the current data. */
    method BeginSubmit() returns (sent: FormData)
      requires PassesRequired(formData)
      modifies this
      ensures isSubmitting && submitStatus == Idle
      ensures formData == old(formData) && sent == old(formData)
    {
      isSubmitting := true;
      submitStatus := Idle;
      sent := formData;
    }

    /**
     * The end of `handleSubmit` once the send has settled: on delivery report success
     * and blank the form; on failure report an error and keep what was typed. Either
     * way the send is no longer in flight.
     */
    method FinishSubmit(delivered: bool)
      modifies this
      ensures !isSubmitting
      ensures submitStatus == if delivered then Success else Error
      ensures formData == if delivered then BlankForm else old(formData)
    {
      if delivered {
        submitStatus := Success;
        formData := BlankForm;
      } else {
        submitStatus := Error;
      }
      isSubmitting := false;
    }

    /** `handleSubmit` with no edit while the send is pending; `delivered` is the send's outcome. */
    method Submit(delivered: bool) returns (sent: FormData)
      requires PassesRequired(formData)
      modifies this
      ensures sent == old(formData)
      ensures !isSubmitting
      ensures submitStatus == if delivered then Success else Error
      ensures formData == if delivered then BlankForm else old(formData)
    {
      sent := BeginSubmit();
      FinishSubmit(delivered);
    }

    /** `handleChange`: overwrite the named field only. */
    method Change(field: Field, value: string)
      modifies this
      ensures formData == WithField(old(formData), field, value)
      ensures isSubmitting == old(isSubmitting) && submitStatus == old(submitStatus)
    {
      formData := WithField(formData, field, value);
    }

    function Button(): (b: SubmitButton)
      reads this
      ensures b.disabled == isSubmitting
    {
      ButtonFor(isSubmitting)
    }
  }

  /**
   * A visitor fills in name, email and message and the send fails: the status is an
   * error, the typed message is kept, the button is enabled again and the kept form
   * still passes the `required` check, so it can be sent again as it is.
   */
  method RetryAfterFailure(name: string, email: string, text: string)
    returns (status: SubmitStatus, kept: string, button: SubmitButton, resendable: bool)
    requires name != "" && email != "" && text != ""
    ensures status == Error && kept == text && !button.disabled && resendable
  {
    var form := new ContactForm();
    form.Change(Name, name);
    form.Change(Email, email);
    form.Change(Message, text);
    var _ := form.Submit(false);
    status, kept, button := form.submitStatus, form.formData.message, form.Button();
    resendable := PassesRequired(form.formData);
  }

  datatype ContactInfo = ContactInfo(
    email: string,
    linkedin: Option<string>,
    github: Option<string>,
    calendly: Option<string>)

  datatype ContactLink = ContactLink(key: string, caption: string, value: string, href: string)

  /** JavaScript truthiness of an optional string: present and not empty. */
  predicate Truthy(o: Option<string>)
  {
    o.Some? && o.value != ""
  }

  /** The position a link kind takes in the list. */
  function Rank(key: string): int
  {
    if key == "email" then 0 else if key == "linkedin" then 1 else if key == "calendly" then 2 else 3
  }

  /** `[email, linkedin && {...}, calendly && {...}].filter(Boolean)`. */
  function ContactLinks(contact: ContactInfo): (links: seq<ContactLink>)
    ensures 1 <= |links| <= 3
    ensures links[0] == ContactLink("email", "Email", contact.email, "mailto:" + contact.email)
    ensures forall i, j :: 0 <= i < j < |links| ==> Rank(links[i].key) < Rank(links[j].key)
    ensures forall i :: 0 <= i < |links| ==> Rank(links[i].key) < 3
    ensures Truthy(contact.linkedin) <==> exists i :: 0 <= i < |links| && links[i].key == "linkedin"
    ensures Truthy(contact.calendly) <==> exists i :: 0 <= i < |links| && links[i].key == "calendly"
    ensures forall i :: 0 <= i < |links| && links[i].key == "linkedin" ==>
              links[i] == ContactLink("linkedin", "LinkedIn", "Connect", contact.linkedin.value)
    ensures forall i :: 0 <= i < |links| && links[i].key == "calendly" ==>
              links[i] == ContactLink("calendly", "Schedule", "Book a Call", contact.calendly.value)
  {
    var email := [ContactLink("email", "Email", contact.email, "mailto:" + contact.email)];
    var linkedin := if Truthy(contact.linkedin)
      then [ContactLink("linkedin", "LinkedIn", "Connect", contact.linkedin.value)] else [];
    var calendly := if Truthy(contact.calendly)
      then [ContactLink("calendly", "Schedule", "Book a Call", contact.calendly.value)] else [];
    var links := email + linkedin + calendly;
    assert "email"[0] != "linkedin"[0] && "email"[0] != "calendly"[0] && "linkedin"[0] != "calendly"[0];
    assert Truthy(contact.linkedin) ==> links[1].key == "linkedin";
    assert Truthy(contact.calendly) ==> links[|links| - 1].key == "calendly";
    links
  }

  /** The site's contact details give all three links. */
  lemma SiteContactLinks()
    ensures |ContactLinks(ContactInfo("hello@prisiops.com",
                                      Some("https://linkedin.com/company/prisi-ops"), None,
                                      Some("https://calendly.com/prisi-ops/consultation")))| == 3
  {
  }
}
