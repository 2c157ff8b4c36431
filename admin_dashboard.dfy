/** The dashboard counters of admin.js and the loaders that reset the fetched
    lists when a request fails. A fetched body need not be an array, so the
    lists are snapshots that may be `NotArray`. */
module AdminDashboard {
  import opened Common
  import opened Seqs
  import opened Records

  datatype Snapshot<T> = Arr(items: seq<T>) | NotArray

  /** `7 * 24 * 60 * 60 * 1000` milliseconds. */
  const WeekMs: int := 7 * 24 * 60 * 60 * 1000

  /** An event counts as upcoming when it has a date that parses (`parse`
      gives `None` for an Invalid Date) to a time between now and a week from
      now, both ends included. */
  predicate IsUpcoming(e: Event, now: int, parse: string -> Option<int>) {
    e.date != "" && parse(e.date).Some? && 0 <= parse(e.date).value - now <= WeekMs
  }

  function UpcomingFilter(now: int, parse: string -> Option<int>): Event -> bool {
    e => IsUpcoming(e, now, parse)
  }

  datatype Metrics = Metrics(totalEvents: nat, upcoming: nat, pending: nat)

  /** `updateMetrics`: a list that is not an array counts 0 everywhere. */
  function ComputeMetrics(events: Snapshot<Event>, regs: Snapshot<Registration>, now: int, parse: string -> Option<int>): (m: Metrics)
    ensures events.NotArray? ==> m.totalEvents == 0 && m.upcoming == 0
    ensures regs.NotArray? ==> m.pending == 0
    ensures events.Arr? ==> m.totalEvents == |events.items|
    ensures m.upcoming <= m.totalEvents
    ensures regs.Arr? ==> m.pending <= |regs.items|
    ensures regs.Arr? ==> m.pending == |Filter(regs.items, PendingFilter())|
    ensures events.Arr? ==> m.upcoming == |Filter(events.items, UpcomingFilter(now, parse))|
  {
    Metrics(
      if events.Arr? then |events.items| else 0,
      if events.Arr? then |Filter(events.items, UpcomingFilter(now, parse))| else 0,
      if regs.Arr? then PendingCount(regs.items) else 0)
  }

  /** An event is counted as upcoming as often as it is stored exactly when
      its date falls in the coming week. */
  lemma UpcomingExact(events: seq<Event>, now: int, parse: string -> Option<int>, e: Event)
    ensures multiset(Filter(events, UpcomingFilter(now, parse)))[e] ==
            if IsUpcoming(e, now, parse) then multiset(events)[e] else 0
  {
    FilterOccurrences(events, UpcomingFilter(now, parse), e);
  }

  /** The window is inclusive at both ends: an event exactly now and one
      exactly a week away are both upcoming, one a millisecond later is not. */
  lemma UpcomingWindowEnds(e: Event, now: int, parse: string -> Option<int>)
    requires e.date != "" && parse(e.date).Some?
    ensures parse(e.date).value == now ==> IsUpcoming(e, now, parse)
    ensures parse(e.date).value == now + 604800000 ==> IsUpcoming(e, now, parse)
    ensures parse(e.date).value == now + 604800001 ==> !IsUpcoming(e, now, parse)
    ensures parse(e.date).value == now - 1 ==> !IsUpcoming(e, now, parse)
  {
  }

  class Dashboard {
    var events: Snapshot<Event>
    var registrations: Snapshot<Registration>

    constructor ()
      ensures events == Arr([]) && registrations == Arr([])
    {
      events := Arr([]);
      registrations := Arr([]);
    }

    function CurrentMetrics(now: int, parse: string -> Option<int>): Metrics
      reads this
    {
      ComputeMetrics(events, registrations, now, parse)
    }

    /** `loadEvents`: a failed fetch resets the events to [] before the
        metrics are recomputed. */
    method LoadEvents(fetched: Option<Snapshot<Event>>)
      modifies this
      ensures events == if fetched.Some? then fetched.value else Arr([])
      ensures registrations == old(registrations)
      ensures fetched.None? ==> forall now, parse :: CurrentMetrics(now, parse).totalEvents == 0 && CurrentMetrics(now, parse).upcoming == 0
    {
      if fetched.Some? {
        events := fetched.value;
      } else {
        events := Arr([]);
      }
    }

    /** `loadRegistrations`: a failed fetch resets the registrations to []. */
    method LoadRegistrations(fetched: Option<Snapshot<Registration>>)
      modifies this
      ensures registrations == if fetched.Some? then fetched.value else Arr([])
      ensures events == old(events)
      ensures fetched.None? ==> forall now, parse :: CurrentMetrics(now, parse).pending == 0
    {
      if fetched.Some? {
        registrations := fetched.value;
      } else {
        registrations := Arr([]);
      }
    }
  }
}
