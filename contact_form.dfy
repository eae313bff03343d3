/** The contact form component: three text fields, a "submitting" flag and a
    status banner. Submitting posts the fields to the contact endpoint and
    turns its reply (or a network failure) into the banner; editing a field
    overwrites that one field. The pure transition functions below are the
    specification; class `ContactForm` holds the component state and its
    handlers are proved against them. */
module ContactForm {
  import opened JsValues
  import ContactRoute

  datatype Field = Name | Email | Message

  datatype FormData = FormData(name: string, email: string, message: string)

  /** `formData[field]`. */
  function Get(d: FormData, f: Field): string
  {
    match f
    case Name => d.name
    case Email => d.email
    case Message => d.message
  }

  /** `{...prev, [field]: value}`: the named field takes the new value and
      the other two keep theirs. */
  function Put(d: FormData, f: Field, v: string): (r: FormData)
    ensures Get(r, f) == v
    ensures forall g :: g != f ==> Get(r, g) == Get(d, g)
  {
    match f
    case Name => d.(name := v)
    case Email => d.(email := v)
    case Message => d.(message := v)
  }

  /** The banner's `type`: `null`, `"success"` or `"error"`. */
  datatype StatusKind = NoStatus | Success | Failure

  datatype SubmitStatus = SubmitStatus(kind: StatusKind, message: string)

  /** What `await fetch(...)` followed by `await response.json()` yields:
      a reply with its `ok` flag and the `message` and `error` members of its
      JSON body, or an exception from either call. */
  datatype FetchResult =
    | Replied(ok: bool, message: Option<string>, error: Option<string>)
    | Threw

  const EmptyForm := FormData("", "", "")
  const NoBanner := SubmitStatus(NoStatus, "")

  const SuccessFallback := "Message sent successfully! You will receive a confirmation email."
  const ErrorFallback := "Failed to send message. Please try again."
  const NetworkError := "Network error. Please check your connection and try again."

  datatype FormState = FormState(data: FormData, submitting: bool, status: SubmitStatus)

  /** The state on first render. */
  const Initial := FormState(EmptyForm, false, NoBanner)

  /** The synchronous start of `handleSubmit`: the form is marked as
      submitting and the banner is cleared; the fields are what is sent. */
  function Started(s: FormState): (t: FormState)
    ensures t.submitting && t.status.kind == NoStatus && t.status.message == ""
    ensures t.data == s.data
  {
    FormState(s.data, true, NoBanner)
  }

  /** The rest of `handleSubmit` once the request settles. */
  function Settled(s: FormState, r: FetchResult): (t: FormState)
    ensures !t.submitting
    ensures t.status.kind != NoStatus && t.status.message != ""
    ensures t.status.kind == Success <==> r.Replied? && r.ok
    ensures r.Replied? && r.ok ==> t.data == EmptyForm && t.status.message == OrElse(r.message, SuccessFallback)
    ensures r.Replied? && !r.ok ==> t.status.message == OrElse(r.error, ErrorFallback)
    ensures r.Threw? ==> t.status.message == NetworkError
    ensures !(r.Replied? && r.ok) ==> t.data == s.data
  {
    var status :=
      match r
      case Threw => SubmitStatus(Failure, NetworkError)
      case Replied(ok, message, error) =>
        if ok then SubmitStatus(Success, OrElse(message, SuccessFallback))
        else SubmitStatus(Failure, OrElse(error, ErrorFallback));
    var data := if r.Replied? && r.ok then EmptyForm else s.data;
    FormState(data, false, status)
  }

  /** `handleChange`. */
  function Edited(s: FormState, f: Field, v: string): (t: FormState)
    ensures Get(t.data, f) == v
    ensures forall g :: g != f ==> Get(t.data, g) == Get(s.data, g)
    ensures t.submitting == s.submitting && t.status == s.status
  {
    s.(data := Put(s.data, f, v))
  }

  /** What the form shows of its state. */
  datatype View = View(banner: Option<SubmitStatus>, buttonEnabled: bool, buttonText: string)

  /** The banner appears exactly when the status has a type, and then shows
      that status; the submit button is disabled and reads "Sending..."
      while a submission is in flight. */
  function Render(s: FormState): (v: View)
    ensures v.banner.Some? <==> s.status.kind != NoStatus
    ensures v.banner.Some? ==> v.banner.value == s.status
    ensures v.buttonEnabled <==> !s.submitting
    ensures s.submitting ==> v.buttonText == "Sending..."
    ensures !s.submitting ==> v.buttonText == "Send Message"
  {
    View(if s.status.kind != NoStatus then Some(s.status) else None,
         !s.submitting,
         if s.submitting then "Sending..." else "Send Message")
  }

  /** The component's state, updated in place by its handlers. */
  class ContactForm {
    var formData: FormData
    var isSubmitting: bool
    var submitStatus: SubmitStatus

    function State(): FormState
      reads this
    {
      FormState(formData, isSubmitting, submitStatus)
    }

    constructor ()
      ensures State() == Initial
    {
      formData := EmptyForm;
      isSubmitting := false;
      submitStatus := NoBanner;
    }

    /** Lines before the first `await`; returns the fields that
        `JSON.stringify(formData)` sends. */
    method BeginSubmit() returns (payload: FormData)
      modifies this
      ensures State() == Started(old(State()))
      ensures payload == old(formData)
    {
      isSubmitting := true;
      submitStatus := NoBanner;
      payload := formData;
    }

    /** The `try`/`catch`/`finally` after the request settles. */
    method FinishSubmit(r: FetchResult)
      modifies this
      ensures State() == Settled(old(State()), r)
    {
      match r {
        case Replied(ok, message, error) =>
          if ok {
            submitStatus := SubmitStatus(Success, OrElse(message, SuccessFallback));
            formData := EmptyForm;
          } else {
            submitStatus := SubmitStatus(Failure, OrElse(error, ErrorFallback));
          }
        case Threw =>
          submitStatus := SubmitStatus(Failure, NetworkError);
      }
      isSubmitting := false;
    }

    /** `handleSubmit` as a whole, with the request's result as input. */
    method HandleSubmit(r: FetchResult) returns (payload: FormData)
      modifies this
      ensures payload == old(formData)
      ensures State() == Settled(Started(old(State())), r)
    {
      payload := BeginSubmit();
      FinishSubmit(r);
    }

    method HandleChange(f: Field, v: string)
      modifies this
      ensures State() == Edited(old(State()), f, v)
    {
      formData := Put(formData, f, v);
    }
  }

  // -----------------------------------------------------------------------
  // The form against the contact endpoint
  // -----------------------------------------------------------------------

  /** The request body the endpoint parses from `JSON.stringify(formData)`:
      all three members present as strings. */
  function RequestOf(d: FormData): (body: ContactRoute.RequestBody)
    ensures body.Fields?
    ensures ContactRoute.AllPresent(body) <==> d.name != "" && d.email != "" && d.message != ""
    ensures ContactRoute.Accepts(body) <==>
              d.name != "" && d.email != "" && d.message != "" && ContactRoute.MatchesEmailPattern(d.email)
  {
    ContactRoute.Fields(Some(d.name), Some(d.email), Some(d.message))
  }

  /** What the client reads from one of the endpoint's responses: `ok` for
      a 2xx status, and the JSON body's `message` and `error` members. */
  function FetchResultOf(resp: ContactRoute.Response): (r: FetchResult)
    ensures r.Replied?
    ensures r.ok <==> 200 <= resp.status < 300
    ensures resp.body.SuccessBody? ==> r.message == Some(resp.body.message) && r.error == None
    ensures resp.body.ErrorBody? ==> r.error == Some(resp.body.error) && r.message == None
  {
    match resp.body
    case ErrorBody(error) => Replied(200 <= resp.status < 300, None, Some(error))
    case SuccessBody(_, message) => Replied(200 <= resp.status < 300, Some(message), None)
  }

  /** A submission answered by the endpoint: the banner reports success
      exactly when the endpoint accepted the fields and both mails were
      sent, in which case it shows the endpoint's own message and the
      fields are cleared; otherwise it shows one of the endpoint's three
      error texts and the fields are kept. The form is never left
      submitting. */
  lemma SubmitThroughRoute(s: FormState, env: ContactRoute.Env, owner: ContactRoute.Delivery, reply: ContactRoute.Delivery)
    ensures var h := ContactRoute.Post(RequestOf(s.data), env, owner, reply);
            var t := Settled(Started(s), FetchResultOf(ContactRoute.ResponseOf(h.outcome)));
            && !t.submitting
            && (t.status.kind == Success <==>
                  ContactRoute.Accepts(RequestOf(s.data)) && owner == ContactRoute.Accepted && reply == ContactRoute.Accepted)
            && (t.status.kind == Success ==> t.status.message == ContactRoute.SentMessage && t.data == EmptyForm)
            && (t.status.kind == Failure ==>
                  t.data == s.data
                  && t.status.message in {ContactRoute.RequiredError, ContactRoute.InvalidEmailError, ContactRoute.FailedError})
  {
  }

  /** Submitting with a field left empty ends with the endpoint's
      "All fields are required" banner, and no mail is sent. */
  lemma EmptyFieldReported(s: FormState, f: Field, env: ContactRoute.Env, owner: ContactRoute.Delivery, reply: ContactRoute.Delivery)
    requires Get(s.data, f) == ""
    ensures var h := ContactRoute.Post(RequestOf(s.data), env, owner, reply);
            var t := Settled(Started(s), FetchResultOf(ContactRoute.ResponseOf(h.outcome)));
            && h.dispatched == []
            && t.status == SubmitStatus(Failure, ContactRoute.RequiredError)
            && t.data == s.data
  {
  }

  /** Editing one field twice keeps only the second value; editing two
      different fields gives the same form in either order. */
  lemma EditsCommute(s: FormState, f: Field, g: Field, v: string, w: string)
    ensures Edited(Edited(s, f, v), f, w) == Edited(s, f, w)
    ensures f != g ==> Edited(Edited(s, f, v), g, w) == Edited(Edited(s, g, w), f, v)
  {
  }
}
