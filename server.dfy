/** The route handlers of server.js over its two stores. Each handler loads a
    data file, works on the array and writes it back; here the two arrays are
    the fields of a `Store`, loading is reading a field and saving is
    assigning it. `Date.now()` and `new Date().toISOString()` are parameters. */
module Server {
  import opened Common
  import opened Seqs
  import opened Text
  import opened Records

  /** A request-body field that may carry a list: an array is kept as it is and
      any other value is read as comma-separated text. */
  datatype ListField = NoList | ListArr(items: seq<string>) | ListStr(text: string)

  /** The body of POST /api/events. */
  datatype EventPayload = EventPayload(
    title: Option<string>,
    category: Option<string>,
    date: Option<string>,
    excerpt: Option<string>,
    content: Option<string>,
    location: Option<string>,
    startTime: Option<string>,
    endTime: Option<string>,
    speakers: ListField,
    registrationLink: Option<string>,
    contactEmail: Option<string>,
    highlights: ListField,
    color1: Option<string>,
    color2: Option<string>)

  /** The body of POST /api/registrations; `eventId` may arrive as a number or
      as text. */
  datatype RegistrationPayload = RegistrationPayload(
    eventId: Option<EventId>,
    name: Option<string>,
    email: Option<string>,
    department: Option<string>,
    year: Option<string>,
    phone: Option<string>,
    notes: Option<string>)

  datatype ApiError =
    | MissingFields(fields: seq<string>)
    | EventNotFound
    | EventNotFoundForRegistration
    | InvalidStatus
    | RegistrationNotFound
  {
    function Status(): int {
      if MissingFields? || InvalidStatus? then 400 else 404
    }

    function Message(): string {
      match this
      case MissingFields(fields) => "Missing fields: " + Join(fields, ", ")
      case EventNotFound => "Event not found"
      case EventNotFoundForRegistration => "Event not found for registration"
      case InvalidStatus => "Invalid status value"
      case RegistrationNotFound => "Registration not found"
    }
  }

  // ---------------------------------------------------------------- events

  predicate HasRequiredEventFields(p: EventPayload) {
    Given(p.title) && Given(p.category) && Given(p.date) && Given(p.excerpt) && Given(p.content)
  }

  const RequiredEventFields: seq<string> := ["title", "category", "date", "excerpt", "content"]

  /** `payload[field]` for a required field's name. */
  function EventField(p: EventPayload, field: string): Option<string> {
    if field == "title" then p.title
    else if field == "category" then p.category
    else if field == "date" then p.date
    else if field == "excerpt" then p.excerpt
    else if field == "content" then p.content
    else None
  }

  function FieldMissing(p: EventPayload): string -> bool {
    field => !Given(EventField(p, field))
  }

  /** `['title', 'category', 'date', 'excerpt', 'content'].filter((field) =>
      !payload[field])`: the message names exactly the required fields that
      are absent or empty. */
  function MissingEventFields(p: EventPayload): (r: seq<string>)
    ensures "title" in r <==> !Given(p.title)
    ensures "category" in r <==> !Given(p.category)
    ensures "date" in r <==> !Given(p.date)
    ensures "excerpt" in r <==> !Given(p.excerpt)
    ensures "content" in r <==> !Given(p.content)
    ensures r == [] <==> HasRequiredEventFields(p)
  {
    (if !Given(p.title) then ["title"] else [])
    + ((if !Given(p.category) then ["category"] else [])
    + ((if !Given(p.date) then ["date"] else [])
    + ((if !Given(p.excerpt) then ["excerpt"] else [])
    + (if !Given(p.content) then ["content"] else []))))
  }

  /** The missing fields are the required names filtered in their listed
      order, so each is named once and in that order. */
  lemma MissingEventFieldsInOrder(p: EventPayload)
    ensures MissingEventFields(p) == Filter(RequiredEventFields, FieldMissing(p))
  {
    var names, missing := RequiredEventFields, FieldMissing(p);
    assert names[5..] == [];
    assert Filter(names[4..], missing) == (if !Given(p.content) then ["content"] else []);
    assert Filter(names[3..], missing) == (if !Given(p.excerpt) then ["excerpt"] else []) + Filter(names[4..], missing);
    assert Filter(names[2..], missing) == (if !Given(p.date) then ["date"] else []) + Filter(names[3..], missing);
    assert Filter(names[1..], missing) == (if !Given(p.category) then ["category"] else []) + Filter(names[2..], missing);
    assert Filter(names, missing) == (if !Given(p.title) then ["title"] else []) + Filter(names[1..], missing);
  }

  /** `events.reduce((max, evt) => Math.max(max, Number(evt.id) || 0), 0)`:
      the largest id, and 0 for an empty store. */
  function MaxId(events: seq<Event>): (m: int)
    ensures m >= 0
    ensures forall i :: 0 <= i < |events| ==> IdNumber(events[i].id) <= m
    ensures m == 0 || exists i :: 0 <= i < |events| && IdNumber(events[i].id) == m
  {
    if events == [] then 0
    else
      var prev := MaxId(events[..|events| - 1]);
      var last := IdNumber(events[|events| - 1].id);
      assert forall i :: 0 <= i < |events| - 1 ==> events[..|events| - 1][i] == events[i];
      if last > prev then last else prev
  }

  /** The id a new event gets: above every id in the store. */
  function NextEventId(events: seq<Event>): (n: int)
    ensures n >= 1
    ensures forall i :: 0 <= i < |events| ==> IdNumber(events[i].id) < n
  {
    MaxId(events) + 1
  }

  /** No stored event already has the id a new event gets. */
  lemma NextEventIdFresh(events: seq<Event>)
    ensures forall i :: 0 <= i < |events| ==> !HasId(events[i], Some(NextEventId(events)))
  {
    forall i | 0 <= i < |events|
      ensures !HasId(events[i], Some(NextEventId(events)))
    {
      assert IdNumber(events[i].id) < NextEventId(events);
    }
  }

  /** The list a `speakers` or `highlights` field becomes. */
  function ListValue(f: ListField): seq<string> {
    match f
    case NoList => []
    case ListArr(items) => items
    case ListStr(text) => SplitList(Some(text))
  }

  /** The event POST /api/events stores for a payload that has every required
      field. */
  function BuildEvent(events: seq<Event>, p: EventPayload): Event
    requires HasRequiredEventFields(p)
  {
    Event(
      id := Num(NextEventId(events)),
      title := Trim(p.title.value),
      category := ToLower(Trim(p.category.value)),
      date := p.date.value,
      excerpt := Trim(p.excerpt.value),
      content := Trim(p.content.value),
      location := Or(p.location, "To be announced"),
      startTime := Or(p.startTime, "09:00"),
      endTime := Or(p.endTime, "17:00"),
      speakers := ListValue(p.speakers),
      registrationLink := Or(p.registrationLink, ""),
      contactEmail := Or(p.contactEmail, "events@mitmysore.edu"),
      highlights := ListValue(p.highlights),
      color1 := Or(p.color1, "#ff7ab6"),
      color2 := Or(p.color2, "#7afcff"))
  }

  /** The reply of POST /api/events: the missing-fields error, or the new
      event. */
  function CreateEventOutcome(events: seq<Event>, p: EventPayload): (r: Result<Event, ApiError>)
    ensures r.Failure? <==> !HasRequiredEventFields(p)
    ensures r.Failure? ==> r.error == MissingFields(MissingEventFields(p)) && r.error.Status() == 400
    ensures r.Success? ==> r.value.id == Num(NextEventId(events))
    ensures r.Success? ==> HasRequiredEventFields(p) && r.value == BuildEvent(events, p)
  {
    if MissingEventFields(p) != [] then Failure(MissingFields(MissingEventFields(p)))
    else Success(BuildEvent(events, p))
  }

  /** A created event is normalised: its title, excerpt and content are
      trimmed, its category is trimmed and lower-case, and each optional field
      left out of the payload has its default. */
  lemma BuildEventNormalised(events: seq<Event>, p: EventPayload)
    requires HasRequiredEventFields(p)
    ensures var e := BuildEvent(events, p);
      && Trim(e.title) == e.title && Trim(e.excerpt) == e.excerpt && Trim(e.content) == e.content
      && Trim(e.category) == e.category && ToLower(e.category) == e.category
      && (!Given(p.location) ==> e.location == "To be announced")
      && (!Given(p.startTime) ==> e.startTime == "09:00")
      && (!Given(p.endTime) ==> e.endTime == "17:00")
      && (!Given(p.registrationLink) ==> e.registrationLink == "")
      && (!Given(p.contactEmail) ==> e.contactEmail == "events@mitmysore.edu")
      && (!Given(p.color1) ==> e.color1 == "#ff7ab6")
      && (!Given(p.color2) ==> e.color2 == "#7afcff")
      && (p.speakers.NoList? ==> e.speakers == [])
      && (p.highlights.NoList? ==> e.highlights == [])
    ensures var e := BuildEvent(events, p);
      && e.title == Trim(p.title.value) && e.excerpt == Trim(p.excerpt.value) && e.content == Trim(p.content.value)
      && e.category == ToLower(Trim(p.category.value)) && e.date == p.date.value
      && e.speakers == ListValue(p.speakers) && e.highlights == ListValue(p.highlights)
    ensures var e := BuildEvent(events, p);
      && (Given(p.location) ==> e.location == p.location.value)
      && (Given(p.startTime) ==> e.startTime == p.startTime.value)
      && (Given(p.endTime) ==> e.endTime == p.endTime.value)
      && (Given(p.registrationLink) ==> e.registrationLink == p.registrationLink.value)
      && (Given(p.contactEmail) ==> e.contactEmail == p.contactEmail.value)
      && (Given(p.color1) ==> e.color1 == p.color1.value)
      && (Given(p.color2) ==> e.color2 == p.color2.value)
  {
    var e := BuildEvent(events, p);
    TrimIdempotent(p.title.value);
    TrimIdempotent(p.excerpt.value);
    TrimIdempotent(p.content.value);
    LowerKeepsTrimmed(Trim(p.category.value));
    ToLowerIdempotent(Trim(p.category.value));
  }

  /** A text list field becomes its comma-separated pieces, trimmed, with the
      empty ones dropped; an array is stored unchanged. */
  lemma ListValueElements(f: ListField)
    ensures f.ListArr? ==> ListValue(f) == f.items
    ensures f.ListStr? ==> forall i :: 0 <= i < |ListValue(f)| ==>
      ListValue(f)[i] != "" && ',' !in ListValue(f)[i] && Trim(ListValue(f)[i]) == ListValue(f)[i]
  {
    if f.ListStr? {
      SplitListElements(Some(f.text));
    }
  }

  function IdIs(id: Option<int>): Event -> bool {
    e => HasId(e, id)
  }

  function IdIsNot(id: Option<int>): Event -> bool {
    e => !HasId(e, id)
  }

  /** GET /api/events/:id: the first event whose id is `Number(param)`. */
  function GetEvent(events: seq<Event>, param: string): (r: Result<Event, ApiError>)
    ensures r.Success? ==> r.value in events && HasId(r.value, ToNumber(param))
    ensures r.Failure? <==> forall i :: 0 <= i < |events| ==> !HasId(events[i], ToNumber(param))
    ensures r.Failure? ==> r.error == EventNotFound
    ensures r.Success? ==>
      exists i :: 0 <= i < |events| && events[i] == r.value && forall j :: 0 <= j < i ==> !HasId(events[j], ToNumber(param))
  {
    match IndexWhere(events, IdIs(ToNumber(param)))
    case Some(i) => Success(events[i])
    case None => Failure(EventNotFound)
  }

  /** Fetching the id a created event was given returns that event. */
  lemma CreatedEventFound(events: seq<Event>, p: EventPayload)
    requires HasRequiredEventFields(p)
    ensures GetEvent(events + [BuildEvent(events, p)], IntToString(NextEventId(events))) ==
            Success(BuildEvent(events, p))
  {
    var n := NextEventId(events);
    var all := events + [BuildEvent(events, p)];
    NumberOfString(n);
    NextEventIdFresh(events);
    assert forall i :: 0 <= i < |events| ==> all[i] == events[i];
    var found := IndexWhere(all, IdIs(Some(n)));
    assert HasId(all[|events|], Some(n));
    assert found == Some(|events|);
  }

  predicate CategoryMatches(category: Option<string>, e: Event) {
    !Given(category) || category.value == "all" || e.category == category.value
  }

  /** The text the server searches: the three fields joined by spaces. */
  function ServerHaystack(e: Event): string {
    e.title + " " + e.excerpt + " " + e.content
  }

  predicate ServerQueryMatches(query: string, e: Event) {
    query == "" || Contains(ToLower(ServerHaystack(e)), query)
  }

  function ServerFilter(category: Option<string>, q: Option<string>): Event -> bool {
    e => CategoryMatches(category, e) && ServerQueryMatches(ToLower(Or(q, "")), e)
  }

  /** `new Date(e.date)` as a sort key. */
  function DateKey(key: string -> int): Event -> int {
    (e: Event) => key(e.date)
  }

  /** GET /api/events: the events that pass the category and text filters,
      newest first. */
  function ListEvents(events: seq<Event>, category: Option<string>, q: Option<string>, key: string -> int): (r: seq<Event>)
    ensures SortedDesc(r, DateKey(key))
    ensures multiset(r) == multiset(Filter(events, ServerFilter(category, q)))
    ensures forall i :: 0 <= i < |r| ==> ServerFilter(category, q)(r[i])
  {
    var filtered := Filter(events, ServerFilter(category, q));
    var r := SortDesc(filtered, DateKey(key));
    assert forall i :: 0 <= i < |r| ==> r[i] in multiset(filtered);
    r
  }

  /** An event that passes both filters is listed as often as it is stored,
      and one that does not is never listed. */
  lemma ListEventsExact(events: seq<Event>, category: Option<string>, q: Option<string>, key: string -> int, e: Event)
    ensures multiset(ListEvents(events, category, q, key))[e] ==
            if CategoryMatches(category, e) && ServerQueryMatches(ToLower(Or(q, "")), e)
            then multiset(events)[e] else 0
  {
    FilterOccurrences(events, ServerFilter(category, q), e);
  }

  // ----------------------------------------------------------- registrations

  /** JavaScript truthiness of the `eventId` field: 0, "" and absence are
      falsy. */
  predicate GivenId(id: Option<EventId>) {
    id.Some? && match id.value
                case Num(n) => n != 0
                case Str(raw) => raw != ""
  }

  /** `Number(payload.eventId)`, with `None` for NaN. */
  function NumberOfId(id: EventId): Option<int> {
    match id
    case Num(n) => Some(n)
    case Str(raw) => ToNumber(raw)
  }

  /** `['eventId', 'name', 'email'].filter((field) => !payload[field])`. */
  function MissingRegistrationFields(p: RegistrationPayload): (r: seq<string>)
    ensures "eventId" in r <==> !GivenId(p.eventId)
    ensures "name" in r <==> !Given(p.name)
    ensures "email" in r <==> !Given(p.email)
    ensures r == [] <==> GivenId(p.eventId) && Given(p.name) && Given(p.email)
  {
    (if !GivenId(p.eventId) then ["eventId"] else [])
    + (if !Given(p.name) then ["name"] else [])
    + (if !Given(p.email) then ["email"] else [])
  }

  /** The registration POST /api/registrations stores. */
  function BuildRegistration(eventId: int, p: RegistrationPayload, now: int, iso: string): Registration
    requires Given(p.name) && Given(p.email)
  {
    Registration(
      id := now,
      eventId := eventId,
      name := Trim(p.name.value),
      email := ToLower(Trim(p.email.value)),
      department := Or(p.department, ""),
      year := Or(p.year, ""),
      phone := Or(p.phone, ""),
      notes := Or(p.notes, ""),
      status := "pending",
      createdAt := iso,
      updatedAt := iso)
  }

  /** The reply of POST /api/registrations: missing fields are reported
      first, then an unknown event, and only then is the registration made. */
  function CreateRegistrationOutcome(events: seq<Event>, p: RegistrationPayload, now: int, iso: string): (r: Result<Registration, ApiError>)
  {
    var missing := MissingRegistrationFields(p);
    if missing != [] then Failure(MissingFields(missing))
    else
      var id := NumberOfId(p.eventId.value);
      match IndexWhere(events, IdIs(id))
      case None => Failure(EventNotFoundForRegistration)
      case Some(_) => Success(BuildRegistration(id.value, p, now, iso))
  }

  /** The order of the checks: a body with missing fields gets 400 whatever
      the events are; a complete body for an unknown event gets 404; a
      complete body for a stored event is saved as a pending registration of
      that event with a trimmed, lower-case email. */
  lemma CreateRegistrationChecks(events: seq<Event>, p: RegistrationPayload, now: int, iso: string)
    ensures var r := CreateRegistrationOutcome(events, p, now, iso);
      && (MissingRegistrationFields(p) != [] ==> r == Failure(MissingFields(MissingRegistrationFields(p))))
      && (MissingRegistrationFields(p) == [] ==>
            (r.Success? <==> exists i :: 0 <= i < |events| && HasId(events[i], NumberOfId(p.eventId.value))))
      && (r.Success? ==>
            && r.value.status == "pending"
            && r.value.id == now && r.value.createdAt == iso && r.value.updatedAt == iso
            && ToLower(r.value.email) == r.value.email && Trim(r.value.email) == r.value.email
            && exists i :: 0 <= i < |events| && events[i].id == Num(r.value.eventId))
    ensures var r := CreateRegistrationOutcome(events, p, now, iso);
      r.Success? ==>
        && Given(p.name) && Given(p.email) && p.eventId.Some? && NumberOfId(p.eventId.value).Some?
        && r.value.eventId == NumberOfId(p.eventId.value).value
        && r.value.name == Trim(p.name.value) && r.value.email == ToLower(Trim(p.email.value))
        && r.value.department == Or(p.department, "") && r.value.year == Or(p.year, "")
        && r.value.phone == Or(p.phone, "") && r.value.notes == Or(p.notes, "")
  {
    var r := CreateRegistrationOutcome(events, p, now, iso);
    if r.Success? {
      var t := Trim(p.email.value);
      LowerKeepsTrimmed(t);
      ToLowerIdempotent(t);
      var i := IndexWhere(events, IdIs(NumberOfId(p.eventId.value))).value;
      assert events[i].id == Num(r.value.eventId);
    }
  }

  predicate RegIdIs(id: Option<int>, r: Registration) {
    id.Some? && r.id == id.value
  }

  function RegIdMatcher(id: Option<int>): Registration -> bool {
    r => RegIdIs(id, r)
  }

  function RegEventMatcher(id: Option<int>): Registration -> bool {
    (r: Registration) => id.Some? && r.eventId == id.value
  }

  /** GET /api/registrations: every registration, or with an `eventId` query
      those of the event `Number(eventId)`, in stored order. */
  function ListRegistrations(regs: seq<Registration>, eventId: Option<string>): (r: seq<Registration>)
    ensures !Given(eventId) ==> r == regs
    ensures Given(eventId) ==> forall i :: 0 <= i < |r| ==> Some(r[i].eventId) == ToNumber(eventId.value)
  {
    if Given(eventId) then Filter(regs, RegEventMatcher(ToNumber(eventId.value))) else regs
  }

  /** With an event id, a registration of that event is listed as often as it
      is stored, and no other registration is listed. */
  lemma ListRegistrationsExact(regs: seq<Registration>, eventId: string, reg: Registration)
    requires eventId != ""
    ensures multiset(ListRegistrations(regs, Some(eventId)))[reg] ==
            if Some(reg.eventId) == ToNumber(eventId) then multiset(regs)[reg] else 0
  {
    FilterOccurrences(regs, RegEventMatcher(ToNumber(eventId)), reg);
  }

  predicate AllStatusesValid(regs: seq<Registration>) {
    forall i :: 0 <= i < |regs| ==> regs[i].status in Statuses
  }

  /** `allowed.includes(status)`. */
  predicate ValidStatusValue(status: Option<string>) {
    status.Some? && status.value in Statuses
  }

  // ------------------------------------------------------------------ store

  class Store {
    var events: seq<Event>
    var registrations: seq<Registration>

    constructor (events: seq<Event>, registrations: seq<Registration>)
      ensures this.events == events && this.registrations == registrations
    {
      this.events := events;
      this.registrations := registrations;
    }

    /** POST /api/events. */
    method CreateEvent(p: EventPayload) returns (r: Result<Event, ApiError>)
      modifies this
      ensures r == CreateEventOutcome(old(events), p)
      ensures events == if r.Success? then old(events) + [r.value] else old(events)
      ensures registrations == old(registrations)
    {
      r := CreateEventOutcome(events, p);
      if r.Success? {
        events := events + [r.value];
      }
    }

    /** DELETE /api/events/:id. */
    method DeleteEvent(param: string) returns (r: Result<(), ApiError>)
      modifies this
      ensures var id := ToNumber(param);
        if IndexWhere(old(events), IdIs(id)).None?
        then r == Failure(EventNotFound) && events == old(events)
        else r == Success(()) && events == Filter(old(events), IdIsNot(id))
      ensures registrations == old(registrations)
    {
      var id := ToNumber(param);
      if IndexWhere(events, IdIs(id)).None? {
        return Failure(EventNotFound);
      }
      events := Filter(events, IdIsNot(id));
      r := Success(());
    }

    /** POST /api/registrations. */
    method CreateRegistration(p: RegistrationPayload, now: int, iso: string) returns (r: Result<Registration, ApiError>)
      modifies this
      ensures r == CreateRegistrationOutcome(events, p, now, iso)
      ensures events == old(events)
      ensures registrations == if r.Success? then old(registrations) + [r.value] else old(registrations)
    {
      r := CreateRegistrationOutcome(events, p, now, iso);
      if r.Success? {
        registrations := registrations + [r.value];
      }
    }

    /** PATCH /api/registrations/:id: the status is checked before the
        registration is looked up, and only the first registration with that
        id has its status and `updatedAt` replaced. */
    method UpdateStatus(status: Option<string>, param: string, iso: string) returns (r: Result<Registration, ApiError>)
      modifies this
      ensures !ValidStatusValue(status) ==> r == Failure(InvalidStatus) && registrations == old(registrations)
      ensures ValidStatusValue(status) ==>
        match IndexWhere(old(registrations), RegIdMatcher(ToNumber(param)))
        case None => r == Failure(RegistrationNotFound) && registrations == old(registrations)
        case Some(i) =>
          && r == Success(old(registrations)[i].(status := status.value, updatedAt := iso))
          && registrations == old(registrations)[i := r.value]
      ensures events == old(events)
    {
      if !ValidStatusValue(status) {
        return Failure(InvalidStatus);
      }
      var found := IndexWhere(registrations, RegIdMatcher(ToNumber(param)));
      if found.None? {
        return Failure(RegistrationNotFound);
      }
      var i := found.value;
      var updated := registrations[i].(status := status.value, updatedAt := iso);
      registrations := registrations[i := updated];
      r := Success(updated);
    }
  }

  /** Every status a registration gets from the server is an allowed one, so a
      store that starts with allowed statuses keeps them through every create
      and status change. */
  lemma CreateKeepsStatusesValid(regs: seq<Registration>, events: seq<Event>, p: RegistrationPayload, now: int, iso: string)
    requires AllStatusesValid(regs)
    ensures var r := CreateRegistrationOutcome(events, p, now, iso);
      AllStatusesValid(if r.Success? then regs + [r.value] else regs)
  {
    CreateRegistrationChecks(events, p, now, iso);
  }

  lemma UpdateKeepsStatusesValid(regs: seq<Registration>, i: nat, status: string, iso: string)
    requires AllStatusesValid(regs) && i < |regs| && status in Statuses
    ensures AllStatusesValid(regs[i := regs[i].(status := status, updatedAt := iso)])
  {
  }

  /** After a successful delete no event has the id, every event with another
      id is kept as often as before and in order, and a second delete of the
      same id is answered with "Event not found". */
  lemma DeleteRemovesExactly(events: seq<Event>, id: Option<int>, e: Event)
    ensures forall i :: 0 <= i < |Filter(events, IdIsNot(id))| ==> !HasId(Filter(events, IdIsNot(id))[i], id)
    ensures multiset(Filter(events, IdIsNot(id)))[e] == if HasId(e, id) then 0 else multiset(events)[e]
    ensures IndexWhere(Filter(events, IdIsNot(id)), IdIs(id)).None?
  {
    FilterOccurrences(events, IdIsNot(id), e);
  }
}
