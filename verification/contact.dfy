/**
 * The contact form: three controlled fields, a simulated submission that
 * completes 1500 ms later with a success message, and a 5000 ms timer that
 * clears that message. The two timers are events; `pendingCompletions` and
 * `pendingClears` count the timers scheduled and not yet fired.
 */
module ContactForm {
  import opened JsValues

  datatype Field = Name | Email | Message

  datatype FormFields = FormFields(name: string, email: string, message: string)

  const EmptyFields: FormFields := FormFields("", "", "")

  /** The value an input with the given `name` attribute shows. */
  function Get(f: FormFields, field: Field): string {
    match field
    case Name => f.name
    case Email => f.email
    case Message => f.message
  }

  /** The `name` attribute of each input, which `handleInputChange` uses as the key. */
  function FieldKey(field: Field): (k: string)
    ensures k != ""
  {
    match field
    case Name => "name"
    case Email => "email"
    case Message => "message"
  }

  /** Each input has its own key, so an update lands in exactly one field. */
  lemma FieldKeysDistinct(a: Field, b: Field)
    ensures FieldKey(a) == FieldKey(b) <==> a == b
  {
  }

  datatype MessageKind = Success | Error

  datatype FormMessage = FormMessage(kind: MessageKind, text: string)

  const SuccessText := "Your message has been sent. I'll respond as soon as possible."

  datatype ContactState = ContactState(
    fields: FormFields,
    isSubmitting: bool,
    message: Option<FormMessage>,
    pendingCompletions: nat,
    pendingClears: nat)

  const Initial: ContactState := ContactState(EmptyFields, false, None, 0, 0)

  /** `handleInputChange`: `{ ...prev, [name]: value }`. */
  function InputChange(s: ContactState, field: Field, value: string): (t: ContactState)
    ensures Get(t.fields, field) == value
    ensures forall other :: other != field ==> Get(t.fields, other) == Get(s.fields, other)
    ensures t.isSubmitting == s.isSubmitting && t.message == s.message
    ensures t.pendingCompletions == s.pendingCompletions && t.pendingClears == s.pendingClears
  {
    var f := s.fields;
    var g := match field
      case Name => f.(name := value)
      case Email => f.(email := value)
      case Message => f.(message := value);
    s.(fields := g)
  }

  /** The submit button is disabled exactly while a submission is in flight. */
  predicate SubmitDisabled(s: ContactState) {
    s.isSubmitting
  }

  /** `handleSubmit`: mark the form as submitting and schedule the completion. */
  function Submit(s: ContactState): (t: ContactState)
    ensures t.isSubmitting && SubmitDisabled(t)
    ensures t.fields == s.fields && t.message == s.message
    ensures t.pendingCompletions == s.pendingCompletions + 1 && t.pendingClears == s.pendingClears
  {
    s.(isSubmitting := true, pendingCompletions := s.pendingCompletions + 1)
  }

  /** The 1500 ms completion: success message, fields emptied, clear timer scheduled. */
  function Complete(s: ContactState): (t: ContactState)
    ensures s.pendingCompletions == 0 ==> t == s
    ensures s.pendingCompletions > 0 ==>
      && !t.isSubmitting && !SubmitDisabled(t)
      && t.message == Some(FormMessage(Success, SuccessText))
      && t.fields == EmptyFields
      && t.pendingCompletions == s.pendingCompletions - 1
      && t.pendingClears == s.pendingClears + 1
  {
    if s.pendingCompletions == 0 then s
    else ContactState(EmptyFields, false, Some(FormMessage(Success, SuccessText)),
      s.pendingCompletions - 1, s.pendingClears + 1)
  }

  /** The 5000 ms clear: the message goes, the fields stay as they are. */
  function ClearMessage(s: ContactState): (t: ContactState)
    ensures s.pendingClears == 0 ==> t == s
    ensures s.pendingClears > 0 ==> t.message.None? && t.pendingClears == s.pendingClears - 1
    ensures t.fields == s.fields && t.isSubmitting == s.isSubmitting
    ensures t.pendingCompletions == s.pendingCompletions
  {
    if s.pendingClears == 0 then s else s.(message := None, pendingClears := s.pendingClears - 1)
  }

  /**
   * The browser's constraint validation before `onSubmit`: all three inputs
   * are `required`, so none may be empty, and the email input has
   * `type="email"`. Whether the email text is a syntactically valid address
   * is the input `emailValid`.
   */
  predicate FormValid(f: FormFields, emailValid: bool) {
    f.name != "" && f.email != "" && f.message != "" && emailValid
  }

  /**
   * `Submitted` is a press of the submit button. It does nothing while the
   * button is disabled or while the browser rejects the form.
   */
  datatype ContactEvent = Input(field: Field, value: string) | Submitted(emailValid: bool) | CompletionFires | ClearFires

  function Step(s: ContactState, e: ContactEvent): ContactState {
    match e
    case Input(field, value) => InputChange(s, field, value)
    case Submitted(emailValid) => if SubmitDisabled(s) || !FormValid(s.fields, emailValid) then s else Submit(s)
    case CompletionFires => Complete(s)
    case ClearFires => ClearMessage(s)
  }

  function Run(s: ContactState, es: seq<ContactEvent>): ContactState
    decreases |es|
  {
    if es == [] then s else Run(Step(s, es[0]), es[1..])
  }

  /**
   * The facts every reachable state keeps: at most one submission in flight,
   * exactly while the form is submitting; any message on screen is the
   * success message and has a clear timer pending.
   */
  predicate Inv(s: ContactState) {
    && s.pendingCompletions <= 1
    && (s.isSubmitting <==> s.pendingCompletions == 1)
    && (s.message.Some? ==> s.message.value == FormMessage(Success, SuccessText) && s.pendingClears > 0)
  }

  lemma {:induction false} RunKeepsInv(s: ContactState, es: seq<ContactEvent>)
    requires Inv(s)
    ensures Inv(Run(s, es))
    decreases |es|
  {
    if es != [] {
      RunKeepsInv(Step(s, es[0]), es[1..]);
    }
  }

  /** The message type allows `"error"`, but no reachable state shows one. */
  lemma NoErrorMessageReachable(es: seq<ContactEvent>)
    ensures var t := Run(Initial, es); t.message.Some? ==> t.message.value.kind == Success
  {
    RunKeepsInv(Initial, es);
  }

  /**
   * One full cycle from an idle, filled-in form: submitting disables the
   * button and keeps the typed fields; completion shows the success message
   * and empties the fields; the clear removes the message and leaves the
   * empty fields.
   */
  lemma SubmitCycle(s: ContactState)
    requires !s.isSubmitting && s.message.None? && s.pendingCompletions == 0 && s.pendingClears == 0
    requires FormValid(s.fields, true)
    ensures var s1 := Step(s, Submitted(true));
      SubmitDisabled(s1) && s1.fields == s.fields && s1.message.None?
    ensures var s2 := Step(Step(s, Submitted(true)), CompletionFires);
      !SubmitDisabled(s2) && s2.fields == EmptyFields && s2.message == Some(FormMessage(Success, SuccessText))
    ensures var s3 := Step(Step(Step(s, Submitted(true)), CompletionFires), ClearFires);
      s3 == ContactState(EmptyFields, false, None, 0, 0)
  {
  }

  /** A press on a form the browser rejects (an empty field, a malformed email) changes nothing. */
  lemma InvalidFormSubmitIgnored(s: ContactState, emailValid: bool)
    requires !FormValid(s.fields, emailValid)
    ensures Step(s, Submitted(emailValid)) == s
  {
  }

  /** Pressing submit starts a submission exactly when the button is enabled and the form is valid. */
  lemma SubmitStartsIffValid(s: ContactState, emailValid: bool)
    ensures Step(s, Submitted(emailValid)).pendingCompletions > s.pendingCompletions
      <==> !SubmitDisabled(s) && FormValid(s.fields, emailValid)
  {
  }

  /** Completion empties the fields, so the form cannot be sent again until it is filled in anew. */
  lemma NoResubmitOfEmptiedForm(s: ContactState, emailValid: bool)
    requires s.pendingCompletions > 0
    ensures var t := Complete(s); Step(t, Submitted(emailValid)) == t
  {
  }

  /** A second press while submitting changes nothing. */
  lemma SubmitWhileSubmittingIgnored(s: ContactState, emailValid: bool)
    requires SubmitDisabled(s)
    ensures Step(s, Submitted(emailValid)) == s
  {
  }

  /** The class of the message box: green for success, red for error. */
  function MessageClass(m: FormMessage): (c: string)
    ensures c == "bg-green-900/20 text-green-400" <==> m.kind == Success
  {
    if m.kind == Success then "bg-green-900/20 text-green-400" else "bg-red-900/20 text-red-400"
  }
}
