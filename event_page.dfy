/** The helpers of the event detail page (event.js): the id it is opened
    with, the highlight summary, the four-step agenda and its clock
    arithmetic, the time-range label and the per-category texts. Times of
    day are minutes counted from midnight; turning them into locale text is
    left to the browser. */
module EventPage {
  import opened Common
  import opened Seqs
  import opened Text
  import opened Records
  import Server

  /** `Number(params.get('id'))` checked with `!eventId`: no parameter, 0 and
      NaN all mean "no event". Shared with register.js. */
  function RequestedEventId(param: Option<string>): (r: Option<int>)
    ensures r.Some? ==> r.value != 0 && param.Some? && ToNumber(param.value) == r
  {
    if param.None? then None
    else match ToNumber(param.value)
      case None => None
      case Some(n) => if n == 0 then None else Some(n)
  }

  /** The grid links a card to `event.html?id=<id>`; the page reads back the
      same id. */
  lemma LinkedIdRoundTrip(n: int)
    requires n != 0
    ensures RequestedEventId(Some(IntToString(n))) == Some(n)
  {
    NumberOfString(n);
  }

  /** What the page shows once it has asked the server for the event. */
  datatype EventView = MissingId | LoadFailed(message: string) | Shown(event: Event)

  /** The page load: without an id nothing is fetched; otherwise
      GET /api/events/<id> decides. */
  function OpenEventPage(param: Option<string>, events: seq<Event>): (v: EventView)
    ensures RequestedEventId(param).None? <==> v == MissingId
    ensures v.Shown? ==> v.event in events && v.event.id == Num(RequestedEventId(param).value)
  {
    match RequestedEventId(param)
    case None => MissingId
    case Some(n) =>
      NumberOfString(n);
      match Server.GetEvent(events, IntToString(n))
      case Success(e) => Shown(e)
      case Failure(_) => LoadFailed("Event not found")
  }

  /** A page opened on the id of a stored event shows the first event with
      that id. */
  lemma OpenStoredEvent(events: seq<Event>, i: nat)
    requires i < |events| && events[i].id.Num? && events[i].id.n != 0
    ensures OpenEventPage(Some(IntToString(events[i].id.n)), events).Shown?
  {
    var n := events[i].id.n;
    LinkedIdRoundTrip(n);
    NumberOfString(n);
    assert HasId(events[i], Some(n));
  }

  const DefaultHighlightSummary := "Insights, resources, and campus networking."
  const HighlightSeparator := " \U{00B7} "

  /** `summarizeHighlights`: `None` stands for a value that is not an array. */
  function SummarizeHighlights(highlights: Option<seq<string>>): (r: string)
    ensures highlights.None? || highlights.value == [] ==> r == DefaultHighlightSummary
    ensures highlights.Some? && highlights.value != [] ==>
      var n := if |highlights.value| < 3 then |highlights.value| else 3;
      r == Join(highlights.value[..n], HighlightSeparator)
  {
    if highlights.None? || highlights.value == [] then DefaultHighlightSummary
    else Join(Take(highlights.value, 3), HighlightSeparator)
  }

  /** The summary names each of the first three highlights, and a single
      highlight is its own summary. */
  lemma SummaryNamesFirstThree(highlights: seq<string>, i: nat)
    requires i < |highlights| && i < 3
    ensures Contains(SummarizeHighlights(Some(highlights)), highlights[i])
    ensures |highlights| == 1 ==> SummarizeHighlights(Some(highlights)) == highlights[0]
  {
    var first := Take(highlights, 3);
    assert first[i] == highlights[i];
    JoinHasPart(first, HighlightSeparator, i);
  }

  /** A clock reading: "TBD", the "Invalid Date" a malformed time renders
      as, or a number of minutes after midnight (the browser shows it modulo
      a day). */
  datatype Clock = Tbd | InvalidDate | At(minutes: int)

  /** `formatAgendaClock(base, offset)`: hours and minutes are the first two
      `:`-separated parts; a part that is not a number gives "TBD", a missing
      minutes part is `undefined`, which is not NaN and so yields an invalid
      date; otherwise the total is clamped at midnight. */
  function AgendaClock(base: string, offset: int): (c: Clock)
    ensures c.At? ==> c.minutes >= 0
    ensures c.At? ==> var parts := Split(base, ':');
      && |parts| >= 2
      && ToNumber(parts[0]).Some? && ToNumber(parts[1]).Some?
      && var total := ToNumber(parts[0]).value * 60 + ToNumber(parts[1]).value + offset;
         c.minutes == if total < 0 then 0 else total
    ensures ToNumber(Split(base, ':')[0]).None? ==> c == Tbd
    ensures var parts := Split(base, ':');
      ToNumber(parts[0]).Some? && |parts| < 2 ==> c == InvalidDate
    ensures var parts := Split(base, ':');
      ToNumber(parts[0]).Some? && |parts| >= 2 && ToNumber(parts[1]).None? ==> c == Tbd
    ensures var parts := Split(base, ':');
      ToNumber(parts[0]).Some? && |parts| >= 2 && ToNumber(parts[1]).Some? ==>
        var total := ToNumber(parts[0]).value * 60 + ToNumber(parts[1]).value + offset;
        c == At(if total < 0 then 0 else total)
  {
    var parts := Split(base, ':');
    var hours := ToNumber(parts[0]);
    if hours.None? then Tbd
    else if |parts| < 2 then InvalidDate
    else
      var minutes := ToNumber(parts[1]);
      if minutes.None? then Tbd
      else
        var total := hours.value * 60 + minutes.value + offset;
        At(if total < 0 then 0 else total)
  }

  /** A clock with no minutes part renders as an invalid date rather than
      "TBD". */
  lemma HourOnlyIsInvalid()
    ensures AgendaClock("9", 0) == InvalidDate
  {
    assert Split("9", ':') == ["9"] by {
      SplitNoSep("9", ':');
    }
    assert Trim("9") == "9" by {
      TrimmedFixed("9");
    }
    assert AllDigits("9");
  }

  /** An agenda line. */
  datatype AgendaEntry = AgendaEntry(time: Clock, offset: int, title: string, detail: string)

  const AgendaOffsets: seq<int> := [-30, 0, 45, 120]

  /** The time of an agenda line: the start shifted by `offset`, or "TBD"
      when the event has no start time. */
  function SlotTime(e: Event, offset: int): (c: Clock)
    ensures e.startTime == "" ==> c == Tbd
    ensures e.startTime != "" ==> c == AgendaClock(e.startTime, offset)
  {
    if e.startTime == "" then Tbd else AgendaClock(e.startTime, offset)
  }

  const CheckInTitle := "Check-in & badge pickup"
  const CheckInDetail := "Sign the attendance sheet, collect kits, and settle in."
  const KickOffDetail := "Context, safety notes, and success criteria straight from the hosts."
  const ActivityTitle := "Interactive block"
  const WrapTitle := "Wrap + next steps"
  const WrapDetail := "Q&A, mentor connects, and pointers to recordings/resources."

  /** `generateAgendaEntries`: check-in half an hour before the start, the
      kick-off, an interactive block 45 minutes in and a wrap-up after two
      hours. */
  function AgendaEntries(e: Event, activityDetail: string): (r: seq<AgendaEntry>)
    ensures |r| == 4
    ensures forall i :: 0 <= i < 4 ==> r[i].offset == AgendaOffsets[i] && r[i].time == SlotTime(e, AgendaOffsets[i])
    ensures r[1].title == "Kick-off: " + e.title && r[2].detail == activityDetail
  {
    [AgendaEntry(SlotTime(e, -30), -30, CheckInTitle, CheckInDetail),
     AgendaEntry(SlotTime(e, 0), 0, "Kick-off: " + e.title, KickOffDetail),
     AgendaEntry(SlotTime(e, 45), 45, ActivityTitle, activityDetail),
     AgendaEntry(SlotTime(e, 120), 120, WrapTitle, WrapDetail)]
  }

  /** A later offset from the same start never reads earlier. */
  lemma ClockMonotone(base: string, a: int, b: int)
    requires a <= b && AgendaClock(base, a).At?
    ensures AgendaClock(base, b).At? && AgendaClock(base, a).minutes <= AgendaClock(base, b).minutes
  {
    var parts := Split(base, ':');
    assert ToNumber(parts[0]).Some? && |parts| >= 2 && ToNumber(parts[1]).Some?;
  }

  /** The agenda of an event with a well-formed start keeps its order: no
      entry's time is after a later entry's. */
  lemma AgendaInOrder(e: Event, activityDetail: string, i: nat, j: nat)
    requires i < j < 4
    requires AgendaEntries(e, activityDetail)[i].time.At?
    ensures AgendaEntries(e, activityDetail)[j].time.At?
    ensures AgendaEntries(e, activityDetail)[i].time.minutes <= AgendaEntries(e, activityDetail)[j].time.minutes
  {
    var r := AgendaEntries(e, activityDetail);
    assert e.startTime != "";
    ClockMonotone(e.startTime, AgendaOffsets[i], AgendaOffsets[j]);
  }

  /** `fmt` inside `formatTimeRange`: `[h = 0, m = 0]` defaults only a missing
      part, a part that is not a number makes the time invalid. */
  function TimeOfDay(time: string): (c: Clock)
    ensures c != Tbd
    ensures var parts := Split(OrText(time, "00:00"), ':');
      c.At? <==> ToNumber(parts[0]).Some? && (|parts| >= 2 ==> ToNumber(parts[1]).Some?)
    ensures var parts := Split(OrText(time, "00:00"), ':');
      c.At? ==> c.minutes == ToNumber(parts[0]).value * 60 + (if |parts| >= 2 then ToNumber(parts[1]).value else 0)
  {
    var parts := Split(OrText(time, "00:00"), ':');
    var h := ToNumber(parts[0]);
    var m := if |parts| >= 2 then ToNumber(parts[1]) else Some(0);
    if h.None? || m.None? then InvalidDate else At(h.value * 60 + m.value)
  }

  /** Unlike the agenda clock, the time range reads an hour without minutes
      as that hour on the dot. */
  lemma HourOnlyIsOnTheHour()
    ensures TimeOfDay("9") == At(540)
  {
    assert Split("9", ':') == ["9"] by {
      SplitNoSep("9", ':');
    }
    assert Trim("9") == "9" by {
      TrimmedFixed("9");
    }
    assert AllDigits("9");
  }

  /** The schedule label of `formatTimeRange`. */
  datatype TimeRange = ComingSoon | Range(from: Clock, to: Clock) | Onwards(from: Clock) | Until(to: Clock)

  function FormatTimeRange(start: string, end: string): (r: TimeRange)
    ensures r.ComingSoon? <==> start == "" && end == ""
    ensures r.Range? <==> start != "" && end != ""
    ensures r.Onwards? <==> start != "" && end == ""
    ensures r.Until? <==> start == "" && end != ""
    ensures r.Range? ==> r.from == TimeOfDay(start) && r.to == TimeOfDay(end)
    ensures r.Onwards? ==> r.from == TimeOfDay(start)
    ensures r.Until? ==> r.to == TimeOfDay(end)
  {
    if start == "" && end == "" then ComingSoon
    else if start != "" && end != "" then Range(TimeOfDay(start), TimeOfDay(end))
    else if start != "" then Onwards(TimeOfDay(start))
    else Until(TimeOfDay(end))
  }

  /** The lookups `inferAudience`, `inferFormat`, `inferActivityDetail`,
      `inferPrep` and `inferChecklist`: the category lower-cased (absent is
      ""), its entry if it has a non-empty one, the fallback otherwise. */
  function CategoryText(table: map<string, string>, category: string, fallback: string): (r: string)
    ensures ToLower(category) !in table ==> r == fallback
    ensures ToLower(category) in table && table[ToLower(category)] != "" ==> r == table[ToLower(category)]
    ensures ToLower(category) in table && table[ToLower(category)] == "" ==> r == fallback
  {
    var key := ToLower(category);
    if key in table && table[key] != "" then table[key] else fallback
  }

  /** The lookup ignores letter case. */
  lemma CategoryTextIgnoresCase(table: map<string, string>, category: string, fallback: string)
    ensures CategoryText(table, category, fallback) == CategoryText(table, ToLower(category), fallback)
  {
    ToLowerIdempotent(category);
  }

  const AudienceFallback := "Open to all interested students"
  const FormatFallback := "Interactive session with networking"
  const ActivityFallback := "Interactive discussions, showcases, and peer learning circles."
  const PrepFallback := "College ID, notepad, and curiosity."
  const ChecklistFallback := "Carry ID, stay hydrated, and monitor email for last-minute cues."
}
