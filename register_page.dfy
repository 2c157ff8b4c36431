/** The registration page (register.js): it is opened with an event id,
    shows which event the visitor signs up for, refuses a form without a name
    or an email before sending it, and posts the trimmed fields to
    POST /api/registrations. */
module RegisterPage {
  import opened Common
  import opened Text
  import opened Html
  import opened Records
  import Server
  import EventPage

  /** The form fields as `FormData.get` returns them: `None` for a field the
      form does not have. */
  datatype RegisterForm = RegisterForm(
    name: Option<string>,
    email: Option<string>,
    department: Option<string>,
    year: Option<string>,
    phone: Option<string>,
    notes: Option<string>)

  /** The request body: the page's numeric event id and every field trimmed. */
  function RegisterPayload(eventId: int, f: RegisterForm): (p: Server.RegistrationPayload)
    ensures p.eventId == Some(Num(eventId))
    ensures p.name == TrimField(f.name) && p.email == TrimField(f.email)
    ensures p.department == TrimField(f.department) && p.year == TrimField(f.year)
    ensures p.phone == TrimField(f.phone) && p.notes == TrimField(f.notes)
  {
    Server.RegistrationPayload(Some(Num(eventId)), TrimField(f.name), TrimField(f.email),
      TrimField(f.department), TrimField(f.year), TrimField(f.phone), TrimField(f.notes))
  }

  const NameEmailRequired := "Name and email are required."

  /** The check made before anything is sent. */
  predicate LocallyAccepted(p: Server.RegistrationPayload) {
    Given(p.name) && Given(p.email)
  }

  /** For the payload the page builds from a page opened with an event id,
      the local check and the server's required-field check agree: the page
      never sends a body the server would refuse as incomplete, and never
      refuses one the server would accept. */
  lemma LocalCheckMatchesServer(eventId: int, f: RegisterForm)
    requires eventId != 0
    ensures LocallyAccepted(RegisterPayload(eventId, f)) <==>
            Server.MissingRegistrationFields(RegisterPayload(eventId, f)) == []
  {
    assert Server.GivenId(RegisterPayload(eventId, f).eventId);
  }

  /** A form the page lets through for a stored event is saved, with the name
      as typed minus surrounding spaces and the email trimmed and lower-cased. */
  lemma AcceptedFormIsSaved(events: seq<Event>, eventId: int, f: RegisterForm, now: int, iso: string, i: nat)
    requires eventId != 0 && i < |events| && events[i].id == Num(eventId)
    requires LocallyAccepted(RegisterPayload(eventId, f))
    ensures var r := Server.CreateRegistrationOutcome(events, RegisterPayload(eventId, f), now, iso);
      r.Success? && r.value.eventId == eventId &&
      r.value.name == Trim(f.name.value) && r.value.email == ToLower(Trim(f.email.value))
  {
    var p := RegisterPayload(eventId, f);
    LocalCheckMatchesServer(eventId, f);
    assert HasId(events[i], Server.NumberOfId(p.eventId.value));
    Server.CreateRegistrationChecks(events, p, now, iso);
    TrimIdempotent(f.name.value);
    TrimIdempotent(f.email.value);
  }

  const RegisteredMessage := "Registration received! Watch your inbox for the confirmation."

  /** What the status line says after a submit: the local refusal, the
      server's confirmation, or the server's error message. */
  function SubmitMessage(p: Server.RegistrationPayload, reply: Result<Registration, Server.ApiError>): (m: string)
    ensures !LocallyAccepted(p) ==> m == NameEmailRequired
    ensures LocallyAccepted(p) && reply.Failure? ==> m == reply.error.Message()
    ensures LocallyAccepted(p) && reply.Success? ==> m == RegisteredMessage
  {
    if !LocallyAccepted(p) then NameEmailRequired
    else match reply
      case Success(_) => RegisteredMessage
      case Failure(e) => e.Message()
  }

  const MissingIdMessage := "Missing event id. Use the news portal to open a specific event."

  /** The heading, tag and callout a loaded event gives the page. */
  datatype Heading = Heading(title: string, tag: string, callout: string)

  const CategoryTagSuffix := " \U{2022} Registration only"

  function HeadingFor(e: Event): (h: Heading)
    ensures h.title == "Register for " + e.title
    ensures e.category == "" <==> h.tag == "Registration only"
    ensures e.category != "" ==> h.tag == ToUpper(e.category) + CategoryTagSuffix
    ensures h.callout == "You are signing up for <strong>" + EscapeHtml(e.title) + "</strong>."
  {
    Heading(
      "Register for " + e.title,
      if e.category != "" then ToUpper(e.category) + CategoryTagSuffix else "Registration only",
      "You are signing up for <strong>" + EscapeHtml(e.title) + "</strong>.")
  }

  /** The outcome of opening the page: no id, a failed load with its message,
      or the event's heading. `None` for the events is a server that cannot
      be reached, whose error the browser words. */
  datatype Load = NoId | LoadError(message: string) | Loaded(heading: Heading)

  function LoadOutcome(param: Option<string>, events: Option<seq<Event>>, unreachable: string): (r: Load)
    ensures r.NoId? <==> EventPage.RequestedEventId(param).None?
    ensures events.Some? ==> (r.Loaded? <==> EventPage.OpenEventPage(param, events.value).Shown?)
    ensures events.Some? && r.Loaded? ==>
              r.heading == HeadingFor(EventPage.OpenEventPage(param, events.value).event)
  {
    match EventPage.RequestedEventId(param)
    case None => NoId
    case Some(_) =>
      if events.None? then LoadError(unreachable)
      else match EventPage.OpenEventPage(param, events.value)
        case Shown(e) => Loaded(HeadingFor(e))
        case LoadFailed(m) => LoadError(m)
        case MissingId => LoadError("")
  }

  /** The page's form controls (inputs, text areas and buttons) by their
      `disabled` flag, and what the page shows. */
  class Page {
    const hasForm: bool
    const controls: array<bool>
    var heading: Heading
    var error: Option<string>

    constructor(hasForm: bool, controlCount: nat)
      ensures this.hasForm == hasForm && controls.Length == controlCount
      ensures forall i :: 0 <= i < controls.Length ==> !controls[i]
      ensures heading == Heading("", "", "") && error == None
    {
      this.hasForm := hasForm;
      controls := new bool[controlCount](_ => false);
      heading := Heading("", "", "");
      error := None;
    }

    /** `disableForm`: every control of the form, when there is one, is
        disabled. */
    method DisableForm()
      modifies controls
      ensures hasForm ==> forall i :: 0 <= i < controls.Length ==> controls[i]
      ensures !hasForm ==> controls[..] == old(controls[..])
    {
      if hasForm {
        var i := 0;
        while i < controls.Length
          invariant 0 <= i <= controls.Length
          invariant forall k :: 0 <= k < i ==> controls[k]
        {
          controls[i] := true;
          i := i + 1;
        }
      }
    }

    /** Opening the page: a missing id or a failed load shows its error and
        disables the form; a loaded event fills in the heading and leaves
        the form usable. */
    method Open(param: Option<string>, events: Option<seq<Event>>, unreachable: string)
      modifies this, controls
      ensures match LoadOutcome(param, events, unreachable)
        case NoId => error == Some(MissingIdMessage) && heading == old(heading)
        case LoadError(m) => error == Some(m) && heading == old(heading)
        case Loaded(h) => heading == h && error == old(error)
      ensures LoadOutcome(param, events, unreachable).Loaded? || !hasForm ==> controls[..] == old(controls[..])
      ensures !LoadOutcome(param, events, unreachable).Loaded? && hasForm ==>
                forall i :: 0 <= i < controls.Length ==> controls[i]
    {
      match LoadOutcome(param, events, unreachable)
      case NoId =>
        error := Some(MissingIdMessage);
        DisableForm();
      case LoadError(m) =>
        error := Some(m);
        DisableForm();
      case Loaded(h) =>
        heading := h;
    }
  }
}
