/** The registrations page of registrations-admin.js: the fetched events and
    registrations, the status / event / search filters over them, the
    per-row Accept and Reject buttons, the three metrics and the event filter
    that keeps its selection across reloads. */
module RegistrationsAdmin {
  import opened Common
  import opened Seqs
  import opened Text
  import opened Records

  /** `${evt.id}`: an id as option text. */
  function IdText(id: EventId): string {
    match id
    case Num(n) => IntToString(n)
    case Str(raw) => raw
  }

  /** The text searched for a registration: name, email, department and year
      separated by spaces. */
  function RegHaystack(r: Registration): string {
    r.name + " " + r.email + " " + r.department + " " + r.year
  }

  /** The three filter controls after their defaults are applied. */
  datatype Filters = Filters(status: string, eventId: string, term: string)

  /** `statusFilter.value || 'all'`, `eventFilter.value || 'all'` and the
      search box lower-cased; the search term is not trimmed. */
  function ReadFilters(statusValue: string, eventValue: string, searchValue: string): Filters {
    Filters(OrText(statusValue, "all"), OrText(eventValue, "all"), ToLower(searchValue))
  }

  predicate RegMatches(f: Filters, r: Registration) {
    && (f.status == "all" || EffectiveStatus(r) == f.status)
    && (f.eventId == "all" || IntToString(r.eventId) == f.eventId)
    && (f.term == "" || Contains(ToLower(RegHaystack(r)), f.term))
  }

  function RegFilter(f: Filters): Registration -> bool {
    r => RegMatches(f, r)
  }

  function CreatedKey(key: string -> int): Registration -> int {
    (r: Registration) => key(r.createdAt)
  }

  /** `registrations.slice().sort(newest createdAt first).filter(...)`. */
  function VisibleRegistrations(regs: seq<Registration>, f: Filters, key: string -> int): (r: seq<Registration>)
    ensures SortedDesc(r, CreatedKey(key))
    ensures r == SortDesc(Filter(regs, RegFilter(f)), CreatedKey(key))
    ensures forall i :: 0 <= i < |r| ==> RegMatches(f, r[i])
  {
    var sorted := SortDesc(regs, CreatedKey(key));
    FilterSortCommute(regs, CreatedKey(key), RegFilter(f));
    FilterSorted(sorted, CreatedKey(key), RegFilter(f));
    Filter(sorted, RegFilter(f))
  }

  /** A registration is shown exactly when it passes all three filters, as
      often as it is stored. */
  lemma VisibleRegistrationsExact(regs: seq<Registration>, f: Filters, key: string -> int, reg: Registration)
    ensures multiset(VisibleRegistrations(regs, f, key))[reg] ==
            if RegMatches(f, reg) then multiset(regs)[reg] else 0
  {
    FilterOccurrences(regs, RegFilter(f), reg);
  }

  /** A registration with no status is shown under the "pending" filter. */
  lemma MissingStatusIsPending(r: Registration)
    requires r.status == ""
    ensures RegMatches(Filters("pending", "all", ""), r)
  {
  }

  /** Choosing the option of a numbered event shows exactly the registrations
      of that event. */
  lemma EventOptionSelectsEvent(n: int, r: Registration)
    ensures RegMatches(Filters("all", IdText(Num(n)), ""), r) <==> r.eventId == n
  {
    if IntToString(r.eventId) == IntToString(n) {
      IntToStringInjective(r.eventId, n);
    }
  }

  /** The status cell of a table row. */
  datatype Row = Row(id: int, statusTag: string, acceptDisabled: bool, rejectDisabled: bool)

  function RowFor(reg: Registration): (row: Row)
    ensures row.statusTag == EffectiveStatus(reg) && row.statusTag != ""
    ensures row.acceptDisabled <==> EffectiveStatus(reg) == "accepted"
    ensures row.rejectDisabled <==> EffectiveStatus(reg) == "rejected"
    ensures !(row.acceptDisabled && row.rejectDisabled)
  {
    var tag := EffectiveStatus(reg);
    Row(reg.id, tag, tag == "accepted", tag == "rejected")
  }

  function RowsFor(regs: seq<Registration>): (rows: seq<Row>)
    ensures |rows| == |regs|
    ensures forall i :: 0 <= i < |rows| ==> rows[i] == RowFor(regs[i])
  {
    if regs == [] then [] else [RowFor(regs[0])] + RowsFor(regs[1..])
  }

  datatype Table = NoRegistrations | NoMatches | Rows(rows: seq<Row>)

  /** `renderRegistrations`: a note when nothing is stored, another when
      nothing passes the filters, and one row per shown registration
      otherwise. */
  function RenderTable(regs: seq<Registration>, f: Filters, key: string -> int): (t: Table)
    ensures regs == [] <==> t.NoRegistrations?
    ensures t.Rows? ==> t.rows != [] && t.rows == RowsFor(VisibleRegistrations(regs, f, key))
    ensures t.NoMatches? ==> VisibleRegistrations(regs, f, key) == []
  {
    if regs == [] then NoRegistrations
    else
      var shown := VisibleRegistrations(regs, f, key);
      if shown == [] then NoMatches else Rows(RowsFor(shown))
  }

  datatype Metrics = Metrics(total: nat, pending: nat, accepted: nat)

  predicate IsAccepted(r: Registration) {
    r.status == "accepted"
  }

  function AcceptedFilter(): Registration -> bool {
    r => IsAccepted(r)
  }

  /** `updateMetrics`: a registration with no status counts as pending;
      only an explicit "accepted" counts as accepted. */
  function ComputeMetrics(regs: seq<Registration>): (m: Metrics)
    ensures m.total == |regs|
    ensures m.pending == |Filter(regs, PendingFilter())|
    ensures m.accepted == |Filter(regs, AcceptedFilter())|
    ensures m.pending + m.accepted <= m.total
  {
    FilterDisjointCount(regs, PendingFilter(), AcceptedFilter());
    Metrics(|regs|, PendingCount(regs), |Filter(regs, AcceptedFilter())|)
  }

  /** A registration is counted as accepted, as often as it is stored,
      exactly when its status is "accepted"; a missing status never is. */
  lemma AcceptedExact(regs: seq<Registration>, r: Registration)
    ensures multiset(Filter(regs, AcceptedFilter()))[r] ==
            if r.status == "accepted" then multiset(regs)[r] else 0
  {
    FilterOccurrences(regs, AcceptedFilter(), r);
  }

  /** The values of the event filter's options: "all", then each event in
      order. */
  function OptionValues(events: seq<Event>): (r: seq<string>)
    ensures |r| == |events| + 1 && r[0] == "all"
    ensures forall i :: 0 <= i < |events| ==> r[i + 1] == IdText(events[i].id)
  {
    if events == [] then ["all"]
    else
      var rest := OptionValues(events[1..]);
      ["all", IdText(events[0].id)] + rest[1..]
  }

  /** `populateEventFilter`: the earlier selection survives only if it is
      non-empty and still offered; otherwise the first option, "all", is
      selected. */
  function SelectionAfter(current: string, events: seq<Event>): (r: string)
    ensures r in OptionValues(events)
    ensures r == current <==> current == "all" || (current != "" && current in OptionValues(events))
    ensures !(current != "" && current in OptionValues(events)) ==> r == "all"
  {
    if current != "" && current in OptionValues(events) then current else "all"
  }

  class Page {
    var events: seq<Event>
    var registrations: seq<Registration>
    var selectedEvent: string

    constructor ()
      ensures events == [] && registrations == [] && selectedEvent == "all"
    {
      events := [];
      registrations := [];
      selectedEvent := "all";
    }

    function CurrentMetrics(): Metrics
      reads this
    {
      ComputeMetrics(registrations)
    }

    /** `loadData`: both lists are replaced and the event filter rebuilt; if
        either fetch fails both lists are emptied, so every metric is 0. */
    method LoadData(fetched: Option<(seq<Event>, seq<Registration>)>)
      modifies this
      ensures fetched.Some? ==> events == fetched.value.0 && registrations == fetched.value.1
      ensures fetched.Some? ==> selectedEvent == SelectionAfter(old(selectedEvent), events)
      ensures fetched.None? ==> events == [] && registrations == [] && selectedEvent == old(selectedEvent)
      ensures fetched.None? ==> CurrentMetrics() == Metrics(0, 0, 0)
    {
      if fetched.Some? {
        events := fetched.value.0;
        registrations := fetched.value.1;
        selectedEvent := SelectionAfter(selectedEvent, events);
      } else {
        events := [];
        registrations := [];
      }
    }
  }
}
