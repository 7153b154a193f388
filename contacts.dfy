/**
 * The contact form (`components/Contacts.js`): its nine fields, the
 * single-field update of `handleInputChange`, and `handleSubmit` with its
 * required-field check, the `isSubmitting` flag, the reset on success and the
 * choice of the message shown to the user.
 */
module Contacts {
  import opened Wrappers
  import opened Js
  import opened Api

  /** A form field holds text, or a flag for the checkbox. */
  datatype FieldValue = Text(text: string) | Flag(on: bool)

  type FormData = map<string, FieldValue>

  const RequiredFields: set<string> := {"name", "email", "message"}
  const QslFields: set<string> := {"frequency", "mode", "rst_sent", "rst_received"}
  const FieldNames: set<string> := RequiredFields + QslFields + {"callsign", "qsl_request"}

  const ContactPath := "/contact"
  const MissingFieldsNotice := "Please fill in all required fields"
  const DefaultSuccessNotice := "Message sent successfully!"
  const DefaultFailureNotice := "Failed to send message"
  const DefaultErrorNotice := "Failed to send message. Please try again."

  /** The initial (and reset) form: every text field empty, the QSL box unchecked. */
  function InitialForm(): (f: FormData)
    ensures f.Keys == FieldNames
    ensures forall k | k in f :: f[k] == if k == "qsl_request" then Flag(false) else Text("")
  {
    map k | k in FieldNames :: if k == "qsl_request" then Flag(false) else Text("")
  }

  /** The parts of `e.target` the handler reads. */
  datatype InputTarget = InputTarget(name: string, value: string, isCheckbox: bool, checked: bool)

  /** `{...prev, [name]: type === 'checkbox' ? checked : value}`. */
  function InputChange(prev: FormData, target: InputTarget): (next: FormData)
    ensures next.Keys == prev.Keys + {target.name}
    ensures target.isCheckbox ==> next[target.name] == Flag(target.checked)
    ensures !target.isCheckbox ==> next[target.name] == Text(target.value)
    ensures forall k | k in prev && k != target.name :: next[k] == prev[k]
  {
    prev[target.name := if target.isCheckbox then Flag(target.checked) else Text(target.value)]
  }

  /** `formData[key]` is truthy: a non-empty text or a checked box (a missing key is `undefined`). */
  predicate FieldTruthy(f: FormData, key: string) {
    key in f && match f[key]
      case Text(s) => s != ""
      case Flag(on) => on
  }

  /** The guard of `handleSubmit`: name, email and message are all truthy. */
  predicate RequiredFilled(f: FormData) {
    FieldTruthy(f, "name") && FieldTruthy(f, "email") && FieldTruthy(f, "message")
  }

  /** The QSL fields are rendered exactly while the box is checked. */
  predicate QslFieldsShown(f: FormData) {
    FieldTruthy(f, "qsl_request")
  }

  /** The untouched form cannot be submitted. */
  lemma InitialFormIncomplete()
    ensures !RequiredFilled(InitialForm())
  {
    assert "name" in FieldNames;
  }

  /** Only the three required fields decide whether the form can be sent; callsign and the QSL fields are optional. */
  lemma OptionalFieldsIgnored(f: FormData, target: InputTarget)
    requires target.name !in RequiredFields
    ensures RequiredFilled(InputChange(f, target)) == RequiredFilled(f)
  {
    assert target.name != "name" && target.name != "email" && target.name != "message";
  }

  /** Unchecking the QSL box hides the QSL fields but keeps what was typed in them. */
  lemma UncheckingKeepsQslFields(f: FormData, value: string)
    ensures var next := InputChange(f, InputTarget("qsl_request", value, true, false));
      !QslFieldsShown(next) && forall k | k in QslFields && k in f :: next[k] == f[k]
  {
  }

  /** What `response.data` of the contact endpoint carries. */
  datatype ContactReply = ContactReply(success: bool, message: JsValue, error: JsValue)

  /** The toast shown after a submission. */
  datatype Notice = Success(text: JsValue) | Failure(text: JsValue)

  /** What a press of the submit button does: nothing but a notice, or a POST of the whole form. */
  datatype Submission = Refused(notice: Notice) | Posted(path: string, body: FormData)

  /** `a || b` where `b` is a non-empty text: the result is always truthy. */
  function OrElse(a: JsValue, fallback: string): (r: JsValue)
    requires fallback != ""
    ensures Truthy(r)
    ensures Truthy(a) ==> r == a
    ensures !Truthy(a) ==> r == Str(fallback)
  {
    if Truthy(a) then a else Str(fallback)
  }

  /** The notice for a settled request, chosen as `handleSubmit` chooses it. */
  function ReplyNotice(outcome: Outcome<ContactReply>): (n: Notice)
    ensures n.Success? <==> outcome.Resolved? && outcome.data.success
    ensures Truthy(n.text)
  {
    match outcome
    case Resolved(reply) =>
      if reply.success then Success(OrElse(reply.message, DefaultSuccessNotice))
      else Failure(OrElse(reply.error, DefaultFailureNotice))
    case Rejected(failure) => Failure(OrElse(failure.responseError, DefaultErrorNotice))
  }

  /** The server's own message is shown when it sends one; each failure path has its own default. */
  lemma NoticeTexts(reply: ContactReply, failure: HttpFailure)
    ensures reply.success && Truthy(reply.message) ==> ReplyNotice(Resolved(reply)) == Success(reply.message)
    ensures reply.success && !Truthy(reply.message) ==> ReplyNotice(Resolved(reply)) == Success(Str(DefaultSuccessNotice))
    ensures !reply.success && !Truthy(reply.error) ==> ReplyNotice(Resolved(reply)) == Failure(Str(DefaultFailureNotice))
    ensures !Truthy(failure.responseError) ==> ReplyNotice(Rejected(failure)) == Failure(Str(DefaultErrorNotice))
  {
  }

  /** The state of the `Contacts` component. */
  class ContactForm {
    var formData: FormData
    var isSubmitting: bool

    constructor ()
      ensures formData == InitialForm() && !isSubmitting
    {
      formData := InitialForm();
      isSubmitting := false;
    }

    /** `handleInputChange`: one field takes the input's new value. */
    method HandleInputChange(target: InputTarget)
      modifies this
      ensures formData == InputChange(old(formData), target)
      ensures isSubmitting == old(isSubmitting)
    {
      formData := InputChange(formData, target);
    }

    /**
     * The synchronous part of `handleSubmit`: with a required field empty it
     * only shows a notice; otherwise it raises `isSubmitting` and posts the
     * whole form, QSL fields included whether shown or not.
     */
    method HandleSubmit() returns (s: Submission)
      modifies this
      ensures formData == old(formData)
      ensures !RequiredFilled(formData) ==>
        s == Refused(Failure(Str(MissingFieldsNotice))) && isSubmitting == old(isSubmitting)
      ensures RequiredFilled(formData) ==> s == Posted(ContactPath, formData) && isSubmitting
    {
      if !RequiredFilled(formData) {
        return Refused(Failure(Str(MissingFieldsNotice)));
      }
      isSubmitting := true;
      s := Posted(ContactPath, formData);
    }

    /**
     * The rest of `handleSubmit` once the request settles: a successful reply
     * resets the form to its initial values, anything else keeps the entries;
     * `isSubmitting` is lowered whatever the outcome.
     */
    method FinishSubmit(outcome: Outcome<ContactReply>) returns (n: Notice)
      modifies this
      ensures n == ReplyNotice(outcome)
      ensures !isSubmitting
      ensures outcome.Resolved? && outcome.data.success ==> formData == InitialForm()
      ensures !(outcome.Resolved? && outcome.data.success) ==> formData == old(formData)
    {
      n := ReplyNotice(outcome);
      if outcome.Resolved? && outcome.data.success {
        formData := InitialForm();
      }
      isSubmitting := false;
    }
  }

  /** A full round: type the required fields, send, succeed; the form is back to its initial state. */
  method SubmitRound(name: string, email: string, message: string, reply: ContactReply)
    requires name != "" && email != "" && message != "" && reply.success
  {
    var form := new ContactForm();
    form.HandleInputChange(InputTarget("name", name, false, false));
    form.HandleInputChange(InputTarget("email", email, false, false));
    form.HandleInputChange(InputTarget("message", message, false, false));
    var s := form.HandleSubmit();
    assert s.Posted? && form.isSubmitting;
    var n := form.FinishSubmit(Resolved(reply));
    assert n.Success? && form.formData == InitialForm() && !form.isSubmitting;
  }
}
