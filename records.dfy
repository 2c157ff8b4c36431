/** The two record kinds the portal stores in its JSON data files: events
    (the news items the home page and the event page show) and registrations
    (a student's request to attend an event). */
module Records {
  import opened Common
  import opened Text
  import opened Seqs

  /** An event id as read back from the data file: the server writes numbers,
      but a hand-edited file may hold a string. */
  datatype EventId = Num(n: int) | Str(raw: string)

  /** `Number(id) || 0`: a string id counts as the number it spells, and
      anything that is not a number (or is 0) counts as 0. */
  function IdNumber(id: EventId): int {
    match id
    case Num(n) => n
    case Str(raw) => ToNumber(raw).GetOr(0)
  }

  /** `event.id === id` where `id` is `Number(...)` of a route parameter and
      `None` stands for NaN, which equals nothing. */
  predicate HasId(e: Event, id: Option<int>) {
    id.Some? && e.id == Num(id.value)
  }

  /** Text fields that may be absent in the file are "" when absent. `date`
      is the stored date text; it is turned into a time only through a
      caller-supplied key. */
  datatype Event = Event(
    id: EventId,
    title: string,
    category: string,
    date: string,
    excerpt: string,
    content: string,
    location: string,
    startTime: string,
    endTime: string,
    speakers: seq<string>,
    registrationLink: string,
    contactEmail: string,
    highlights: seq<string>,
    color1: string,
    color2: string)

  /** `status` is "" when the file has none; every page reads that as
      "pending". */
  datatype Registration = Registration(
    id: int,
    eventId: int,
    name: string,
    email: string,
    department: string,
    year: string,
    phone: string,
    notes: string,
    status: string,
    createdAt: string,
    updatedAt: string)

  const Statuses: seq<string> := ["pending", "accepted", "rejected"]

  /** `reg.status || 'pending'`. */
  function EffectiveStatus(r: Registration): string {
    OrText(r.status, "pending")
  }

  predicate IsPending(r: Registration) {
    EffectiveStatus(r) == "pending"
  }

  function PendingFilter(): Registration -> bool {
    r => IsPending(r)
  }

  /** `registrations.filter(reg => (reg.status || 'pending') === 'pending').length`,
      the pending metric of both admin pages. */
  function PendingCount(regs: seq<Registration>): (n: nat)
    ensures n <= |regs|
    ensures n == |Filter(regs, PendingFilter())|
  {
    |Filter(regs, PendingFilter())|
  }

  /** A registration is counted as pending, as often as it is stored,
      exactly when its status is missing or "pending". */
  lemma PendingExact(regs: seq<Registration>, r: Registration)
    ensures multiset(Filter(regs, PendingFilter()))[r] ==
            if r.status == "" || r.status == "pending" then multiset(regs)[r] else 0
  {
    FilterOccurrences(regs, PendingFilter(), r);
  }
}
