# College news portal: a Dafny model

This project models the College news portal. The portal is an Express
server with two JSON stores, events and registrations. Its browser pages
are:

- the news grid (`script.js`);
- the event detail page (`event.js`);
- the event registration page (`register.js`);
- the admin dashboard (`admin.js`);
- the registrations admin page (`registrations-admin.js`);
- the signup, login and profile pages, which share an account list in
  `localStorage` and a session in `sessionStorage`;
- the role gate every protected page runs (`guard.js`).

Code that changes state is modelled as classes whose methods reassign
fields:

- the server's two stores (`Server.Store`);
- the news grid's page state;
- the registrations page and the dashboard;
- the account store and the session;
- the profile page and the register page's form controls. The controls
  are an `array<bool>`, disabled by a loop.

The pure helpers are functions with lemmas about them: filters, sorts,
validation chains, `escapeHtml`, `splitList`, the clock arithmetic and the
id parsing.

Every list view filters and sorts "newest first" with the stable
`Array.prototype.sort`. The model has one generic filter and one stable
insertion sort (`Seqs`). They are proved sorted and a permutation of their
input. Filtering after sorting is proved to give the same list as sorting
after filtering (`Seqs.FilterSortCommute`). That is why the grid, which
sorts and then filters, shows the same order the server produces by
filtering and then sorting.

Several inputs are parameters of the model:

- The clock: `Date.now()` and the ISO timestamp.
- Date parsing: a caller-supplied key, `string -> int` for sorting and
  `string -> Option<int>` for the week window. `None` is an Invalid Date.
- Network outcomes: `Option` values, with `None` for a failed fetch.

Optional text fields are `Option<string>`. JavaScript falsiness (absent or
`""`) is `!Given(f)` (`common.dfy`). `Number(...)` on text is `Text.ToNumber`
with `None` for NaN. `event.id === Number(param)` is `Records.HasId`.

## Model

| member | source | states |
|---|---|---|
| Server.MissingEventFields | server.js:81-85 | each of title, category, date, excerpt and content is named exactly when it is absent or empty; the list is empty exactly when all five are given |
| Server.MissingEventFieldsInOrder | server.js:81-82 | the missing fields are the five required names filtered in their listed order, so each appears at most once and in that order |
| Server.MaxId | server.js:87 | the largest id, each read as a number with 0 for anything else, is at least 0, bounds every stored id and is either 0 or the id of some stored event |
| Server.NextEventId | server.js:87 | a new event's id is at least 1 and larger than every stored id |
| Server.NextEventIdFresh | server.js:87 | no stored event already has the id a new event gets |
| Server.CreateEventOutcome | server.js:80-109 | POST /api/events fails exactly when a required field is missing, with status 400 and the list of missing fields; otherwise the reply is the event built from the payload, with the next id |
| Server.BuildEventNormalised | server.js:88-104 | a created event's title, excerpt and content are the payload's, trimmed; its category is the payload's, trimmed and lower-cased; its date is the payload's; its speakers and highlights are the payload's lists; every optional field takes the payload's value when given and the stated default when left out |
| Server.ListValueElements | server.js:98-101 | an array `speakers`/`highlights` value is stored unchanged; a text value becomes non-empty, trimmed, comma-free pieces |
| Server.GetEvent | server.js:69-76 | GET /api/events/:id returns the first stored event whose id is `Number(param)`, and "Event not found" exactly when no stored event has that id |
| Server.CreatedEventFound | server.js:87-108 | fetching the id a created event was given returns that event |
| Server.ListEvents | server.js:56-67 | GET /api/events returns the events passing the category and text filters, as a permutation of the filtered list, sorted newest first |
| Server.ListEventsExact | server.js:60-64 | an event appears in the listing exactly when it passes both filters, as often as it is stored |
| Server.MissingRegistrationFields | server.js:135-139 | eventId, name and email are each named exactly when falsy (eventId 0 counts as falsy); the list is empty exactly when all three are given |
| Server.CreateRegistrationChecks | server.js:132-165 | missing fields give 400 before the event is looked up; a complete body succeeds exactly when some stored event has id `Number(eventId)`; a saved registration is pending, stamped with the given time and ISO text, refers to the stored event `Number(eventId)`, has the trimmed name and the trimmed lower-cased email, and keeps department, year, phone and notes as given or empty |
| Server.ListRegistrations | server.js:123-130 | without an eventId query every registration is returned in order; with one, only registrations of event `Number(eventId)` |
| Server.ListRegistrationsExact | server.js:126-128 | with an eventId query, a registration of that event is listed as often as it is stored and any other registration is not listed |
| Server.Store.constructor | server.js:20-38 | the store holds the loaded events and registrations |
| Server.Store.CreateEvent | server.js:78-109 | the reply is the create outcome; on success the new event is appended and nothing else changes |
| Server.Store.DeleteEvent | server.js:111-121 | an unknown id gives "Event not found" and changes nothing; otherwise every event with that id is removed and the registrations are untouched |
| Server.Store.CreateRegistration | server.js:132-165 | the reply is the create outcome; on success the registration is appended and the events are untouched |
| Server.Store.UpdateStatus | server.js:167-183 | a status outside pending/accepted/rejected gives 400 before any lookup; an unknown id gives 404; otherwise only the first registration with that id gets the new status and updatedAt |
| Server.CreateKeepsStatusesValid | server.js:148-160 | creating a registration keeps every stored status one of the three allowed values |
| Server.UpdateKeepsStatusesValid | server.js:169-180 | a status change to an allowed value keeps every stored status allowed |
| Server.DeleteRemovesExactly | server.js:113-118 | after a delete no event has the id, every other event keeps its multiplicity, and a second delete of the id finds nothing |
| Seqs.SortDesc | server.js:65 | the newest-first sort returns a list sorted by descending key that is a permutation of its input |
| Seqs.FilterSortCommute | script.js:67-72 | filtering a sorted list equals sorting the filtered list, so the grid and the server order results alike |
| Text.SplitListElements | admin.js:169-175 | `splitList` of an absent or empty value is empty; every element is non-empty, trimmed and free of commas |
| Text.SplitListConcat | admin.js:169-175 | `splitList` of two non-empty texts joined by a comma is the concatenation of their lists |
| Text.NumberOfString | server.js:71 | `Number` of an integer's decimal text gives back the integer, so ids survive a trip through a URL |
| Html.EscapeHtml | event.js:131-138 | escaped text is at least as long as the input and contains no `<`, `>` or `"` |
| Html.EscapeConcat | event.js:131-138 | escaping distributes over concatenation |
| Html.EscapePlain | event.js:131-138 | text without the four special characters is left unchanged |
| Html.UnescapeEscape | event.js:131-138 | decoding the four entities recovers the original text, so escaping loses nothing |
| Html.EscapeInjective | event.js:131-138 | two different texts never escape to the same markup |
| Records.PendingCount | registrations-admin.js:191 | the pending metric is the number of registrations the pending filter keeps, at most every registration |
| Records.PendingExact | registrations-admin.js:191 | a registration is counted as pending, as often as it is stored, exactly when its status is missing or "pending" |
| NewsPage.VisibleNews | script.js:67-72 | the grid's list is sorted newest first, every card passes the category and query filters, and it equals the sorted filtered list |
| NewsPage.VisibleNewsExact | script.js:68-72 | a stored event is shown exactly when it passes both filters, as often as it is stored |
| NewsPage.CategoryFiltersAgree | script.js:69 | for a non-empty category the grid's category test and the server's agree |
| NewsPage.ServerOnlyMatch | server.js:62 | the server joins the three fields with spaces, so a query spanning a field boundary matches on the server but not in the grid |
| NewsPage.ClientOnlyMatch | script.js:70 | the grid runs the fields together, so a query joining two fields matches in the grid but not on the server |
| NewsPage.Page.constructor | script.js:3-5 | before loading, the page has no news, is loading, has no error, shows all categories and has an empty query |
| NewsPage.Page.Render | script.js:55-77 | a loading note while loading, the error after a failed load, "no match" exactly when the visible list is empty, and otherwise the visible list as cards |
| NewsPage.Page.Init | script.js:127-140 | a fetched list replaces the news and clears the error; a failed fetch keeps the news and sets the load-error message; loading ends either way |
| NewsPage.Page.SetQuery | script.js:143-146 | the stored query is the input trimmed and lower-cased, and nothing else changes |
| NewsPage.Page.SelectCategory | script.js:148-155 | a filter click sets the active category and nothing else |
| NewsPage.QueryNormalised | script.js:143-146 | the stored query is a fixed point of trimming and lower-casing |
| RegistrationsAdmin.VisibleRegistrations | registrations-admin.js:99-108 | the table's registrations are sorted newest createdAt first, all pass the status, event and term filters, and equal the sorted filtered list |
| RegistrationsAdmin.VisibleRegistrationsExact | registrations-admin.js:99-108 | a registration is shown exactly when it passes all three filters, as often as it is stored |
| RegistrationsAdmin.MissingStatusIsPending | registrations-admin.js:103 | a registration without a status is shown under the "pending" filter |
| RegistrationsAdmin.EventOptionSelectsEvent | registrations-admin.js:104 | choosing a numbered event's option shows exactly that event's registrations |
| RegistrationsAdmin.RowFor | registrations-admin.js:115-146 | a row's tag is the status with "pending" for none; Accept is disabled exactly when accepted, Reject exactly when rejected, never both |
| RegistrationsAdmin.RowsFor | registrations-admin.js:115-146 | one row per shown registration, in order |
| RegistrationsAdmin.RenderTable | registrations-admin.js:88-113 | the "No registrations found" note exactly when nothing is stored; "no match" only when the filtered list is empty; otherwise the rows of the filtered list |
| RegistrationsAdmin.ComputeMetrics | registrations-admin.js:189-196 | the total is the number of registrations, pending is the number with a missing or "pending" status, accepted the number with status "accepted", and pending plus accepted never exceed the total |
| RegistrationsAdmin.AcceptedExact | registrations-admin.js:192 | a registration is counted as accepted, as often as it is stored, exactly when its status is "accepted" |
| RegistrationsAdmin.OptionValues | registrations-admin.js:78-81 | the event filter offers "all" first, then each event's id in order |
| RegistrationsAdmin.SelectionAfter | registrations-admin.js:83-85 | the selection is always an offered option; it is kept exactly when it is non-empty and still offered (or was "all"), and in every other case becomes "all" |
| RegistrationsAdmin.Page.LoadData | registrations-admin.js:53-73 | a successful load replaces both lists and recomputes the selection; a failed load empties both lists, so every metric is 0 |
| AdminDashboard.ComputeMetrics | admin.js:185-202 | a list that is not an array counts 0; the total is the events' length; upcoming is the number of events the within-a-week filter keeps and never exceeds the total; pending is the number of registrations with a missing or "pending" status |
| AdminDashboard.UpcomingExact | admin.js:185-202 | an event counts as upcoming exactly when its date parses to a time within the coming week, as often as it is stored |
| AdminDashboard.UpcomingWindowEnds | admin.js:185-202 | the week window includes both now and exactly seven days ahead, and excludes a millisecond before now or after the week |
| AdminDashboard.Dashboard.LoadEvents | admin.js:90-103 | a failed events fetch resets the events to an empty array, so the event metrics are 0 |
| AdminDashboard.Dashboard.LoadRegistrations | admin.js:144-154 | a failed registrations fetch resets them to an empty array, so the pending metric is 0 |
| Accounts.PageRole | profile.js:27 | the page role is "admin" or "user" |
| Accounts.KeptLinks | profile.js:305 | stored links are the first three (or fewer, when there are fewer) non-empty entries, in order, and none when not an array |
| Accounts.Normalized | profile.js:293-307 | the name is never empty and is kept when given; email, password, phone, department, year, bio and photo are kept; the role falls back to the page role; the links are the kept links |
| Accounts.NormalizeAccount | profile.js:293-307 | no account stays no account; a present one is normalised |
| Accounts.NormalizeIdempotent | profile.js:293-307 | normalising twice is normalising once |
| Accounts.FindAccount | profile.js:280-282 | a found account is the first stored one with the email; none is found exactly when no stored account has it |
| Accounts.AccountStore.PersistAccount | profile.js:284-291 | an unknown email saves nothing; otherwise only the first account with the email is replaced, by the normalised merge of it and the updates |
| Accounts.PersistKeepsEmailsUnique | profile.js:288 | persisting an update keeps the stored emails distinct |
| Accounts.HomePage | login.js:76-80 | the admin role lands on admin.html and every other role on index.html |
| Accounts.Session.ClearPortalKeys | login.js:25-31 | exactly the seven portal keys are removed from the session |
| Signup.SignupOutcome | signup.js:21-46 | an incomplete form, a password under six characters, a mismatched confirmation and an email (trimmed and lower-cased) some stored account has each fail exactly in their turn; a form that passes all four gives the new account, with a trimmed lower-case email no stored account has |
| Signup.SignupKeepsEmailsUnique | signup.js:40-60 | a successful signup keeps the stored emails distinct |
| Signup.EmailTakenIgnoringCase | signup.js:40-46 | an email equal to a stored one after trimming and lower-casing is reported as taken |
| Signup.Submit | signup.js:18-67 | the store grows by the new account exactly on success, and the login page is left the trimmed name, the trimmed email as typed, and the role |
| Login.LoginOutcome | login.js:50-65 | an incomplete form fails first; "no account" exactly when no account has both the lower-cased email and the role; otherwise the first such account decides: "wrong password" exactly when its password differs from the trimmed entry, and success, with that account, exactly when it equals it |
| Login.PaddedPasswordNeverLogsIn | login.js:62-65 | only an account whose stored password is already trimmed can sign in |
| Login.SignupThenLogin | login.js:50-65 | signing up and then logging in with the same role, email and (trimmed) password signs in to the new account |
| Login.SignedInKeys | login.js:68-74 | after login all seven portal keys are set, the role and email are those entered, the name is never empty and other keys are kept |
| Login.Submit | login.js:44-82 | a failed check leaves the session as it is; a success writes the seven keys and sends the user to the role's home page |
| Login.LoadPage | login.js:13-31 | loading the page hands back the signup note once and clears it, and removes the seven portal keys |
| Guard.RequiredRoles | guard.js:4 | a page's roles are its non-empty, trimmed, comma-free `data-role` entries; none when absent |
| Guard.GateRedirect | guard.js:7-15 | an open page never redirects; a protected page sends a visitor without a role to login.html, keeps a listed role, and sends another role to its home page |
| Guard.SingleRole | guard.js:4 | a plain single role in `data-role` requires exactly that role |
| Guard.LoginPassesGate | guard.js:7-15 | right after logging in with a role, a page requiring that role lets the user stay |
| Guard.LogoutLocksProtectedPages | guard.js:22-28 | after logout every protected page sends the visitor to login.html |
| Guard.Logout | guard.js:20-29 | logout removes exactly the seven portal keys and targets login.html |
| Profile.FieldText | profile.js:122-127 | a form field reads as trimmed text |
| Profile.FormLinks | profile.js:128-129 | at most three links, each non-empty and trimmed |
| Profile.FormLinksInOrder | profile.js:128-129 | the links are the non-empty trimmed link fields, in the order of the form |
| Profile.BuildProfilePayload | profile.js:121-161 | an accepted payload has a non-empty trimmed name, a department and year for students, an empty or ten-digit phone, and only http(s) links, which are the form's non-empty links |
| Profile.NameCheckedFirst | profile.js:131-134 | an empty name is reported exactly when the name is empty, whatever else is wrong |
| Profile.StudentFieldsCheckedSecond | profile.js:136-139 | a missing department or year is reported exactly for a student with a name |
| Profile.PhoneCheckedThird | profile.js:141-144 | a bad phone is reported exactly when the name and student fields pass and the phone is neither empty nor ten digits |
| Profile.LinksCheckedLast | profile.js:146-150 | a bad link is reported exactly when every earlier check passes and some filled-in link does not start with http:// or https:// |
| Profile.ValidFormAccepted | profile.js:121-160 | a form that passes every check gives the payload of its trimmed name, phone, department, year, photo and bio and its filled-in links |
| Profile.PasswordChange | profile.js:84-108 | "fill in all fields" exactly when a trimmed field is empty; a success means the current entry matches, and the new password is confirmed, at least six characters, different from the old one and trimmed |
| Profile.PasswordChecksInOrder | profile.js:93-108 | a wrong current password, a new password under six characters, a new password equal to the current one and a mismatched confirmation are each reported exactly when every earlier check passes and it fails; a form that passes them all gives the trimmed new password |
| Profile.AvatarText | profile.js:204-215 | no text with a photo; otherwise at most one character: "U" for no name, the upper-cased first character of the trimmed name when it has one |
| Profile.BlankNameShowsNoInitial | profile.js:212 | a name of only white space leaves the avatar empty rather than "U" |
| Profile.UpdateSessionFromAccount | profile.js:227-233 | the session takes the account's name (or "User"), photo, department, year and phone, and nothing else changes |
| Profile.PasswordUpdateSetsPassword | profile.js:110 | persisting a password update stores that password and keeps the email |
| Profile.Page.constructor | profile.js:39-53 | the page's account is the stored account with the session email, normalised, or none |
| Profile.Page.Save | profile.js:284-291 | a save succeeds exactly when an account has the page's email; it then replaces that account and becomes the page's account, and otherwise nothing changes |
| Profile.Page.SaveProfile | profile.js:68-78 | a saved profile updates the store, the page's account and the session copies of its fields |
| Profile.Page.SubmitProfile | profile.js:62-79 | a profile is saved exactly when there is an account, the form is valid and the email is stored, with the merged account stored and copied to the session; otherwise nothing changes |
| Profile.Page.SubmitPassword | profile.js:81-118 | without an account nothing is checked; otherwise the checks decide, and only a passing change whose email is stored replaces the stored password |
| EventPage.RequestedEventId | event.js:4 | a requested id is a non-zero number parsed from the parameter; missing, NaN and 0 mean no event |
| EventPage.LinkedIdRoundTrip | event.js:4 | the page reads back any non-zero id written into its link |
| EventPage.OpenEventPage | event.js:33-53 | no id shows the missing-id error exactly; a shown event is stored and has the requested id |
| EventPage.OpenStoredEvent | event.js:44-53 | a page opened on a stored event's non-zero id shows an event |
| EventPage.SummarizeHighlights | event.js:308-311 | no highlights, or not an array, gives the default summary; otherwise the summary is the first three highlights (or fewer) joined by " · " |
| EventPage.SummaryNamesFirstThree | event.js:308-311 | the summary contains each of the first three highlights, and a single highlight is its own summary |
| EventPage.AgendaClock | event.js:187-195 | a non-numeric hour gives TBD; a numeric hour without a minutes part gives an invalid date; a numeric hour with non-numeric minutes gives TBD; otherwise the reading is hours times 60 plus minutes plus the offset, clamped at 0 |
| EventPage.HourOnlyIsInvalid | event.js:188-189 | a start time without minutes renders as an invalid date, not TBD |
| EventPage.SlotTime | event.js:181 | no start time gives TBD; otherwise the slot's clock is the start time moved by the offset |
| EventPage.AgendaEntries | event.js:172-185 | four entries at offsets -30, 0, 45 and 120 minutes, the second titled with the event and the third carrying the category's activity text |
| EventPage.ClockMonotone | event.js:191 | a later offset never gives an earlier clock reading |
| EventPage.AgendaInOrder | event.js:172-185 | when an entry has a time, every later entry has one and is not earlier |
| EventPage.TimeOfDay | event.js:121-126 | a time of day is never TBD; it is a reading exactly when the hour, and the minutes when present, are numbers, and then it is hours times 60 plus minutes, a missing minutes part counting 0 |
| EventPage.HourOnlyIsOnTheHour | event.js:121-126 | an hour without minutes reads as that hour on the dot |
| EventPage.FormatTimeRange | event.js:119-129 | "coming soon" exactly when both times are empty, a range exactly when both are given, "onwards" exactly for a start only, "until" exactly for an end only |
| EventPage.CategoryText | event.js:240-306 | a category's text is its lower-cased entry when present and non-empty, and the fallback when there is no entry or the entry is empty |
| EventPage.CategoryTextIgnoresCase | event.js:240-306 | the lookup ignores letter case |
| RegisterPage.RegisterPayload | register.js:27-36 | the payload carries the page's event id and every form field trimmed |
| RegisterPage.LocalCheckMatchesServer | register.js:38-42 | the page's name-and-email check passes exactly when the server would find no missing field |
| RegisterPage.AcceptedFormIsSaved | register.js:27-49 | a form the page accepts, for a stored event, is saved by the server with that event id, the trimmed name and the trimmed lower-case email |
| RegisterPage.SubmitMessage | register.js:50-57 | a form without name or email gets "Name and email are required."; a saved registration gets the confirmation text; a server refusal shows the server's message |
| RegisterPage.HeadingFor | register.js:68-70 | the title is "Register for" and the event title; the tag is the bare "Registration only" exactly when there is no category, and otherwise the upper-cased category followed by " • Registration only"; the callout escapes the title |
| RegisterPage.LoadOutcome | register.js:63-75 | no id gives the missing-id outcome exactly; with the events at hand the heading is shown exactly when the event page would show the event |
| RegisterPage.Page.DisableForm | register.js:84-88 | when the form exists every control ends disabled; otherwise nothing changes |
| RegisterPage.Page.Open | register.js:14-19 | a loaded event sets the heading and leaves the controls; any other outcome shows the error and disables every control when the form exists |

## Left out

- Network, files and the DOM are not modelled: fetch, Express routing, JSON files, localStorage, sessionStorage, rendering markup, the theme toggle, timers, scroll and drag handlers, and `Promise.all`. Stores and storage are class fields. A fetch outcome is an `Option`. The browser's text for an unreachable server is a parameter.
- Dates and locale formatting: `new Date(...)`, `toLocaleTimeString` and `toLocaleDateString` become caller-supplied keys or minute counts. A reading past midnight is kept as a minute count; the browser shows it modulo a day.
- Comparators that return NaN for Invalid Dates are not modelled: the sort key is a total function.
- Seqs.SortDesc: the sort is stable, but stability is not stated as a property.
- Text.ToLower and Text.ToUpper map ASCII letters only. JavaScript's Unicode case mapping and UTF-16 string lengths are not modelled.
- Text.ToNumber reads only optionally signed decimal integers, after trimming white space. Other forms of `Number()` give NaN in the model: fractions, exponents, hexadecimal and "Infinity".
- Request and stored values of types other than text are not modelled: a registration's `eventId` that is text in the data file, a non-array `registrations` on the registrations page, and object prototype keys (`constructor`) in category tables.
- `profile.js` redirects to login when there is no session email; `Profile.Page.constructor` starts after that check.
- `hydrateProfile`, `hydrateHeader`, `fillProfileForm`, `updateSummary` and the bio counter only display state. They are not modelled.
- The admin page's event form builds a payload and posts it; the server side of that request is modelled, the form itself is not.
- The category image tables and the advice texts of `inferAudience`, `inferFormat`, `inferActivityDetail`, `inferPrep` and `inferChecklist` are not modelled as data. `EventPage.CategoryText` takes the table as a parameter; only the fallback texts are constants.
- `safeUrl` and the resource links of the event page need URL parsing and are not modelled.
- The `pendingSignup` note is kept as a record rather than JSON text, so a note that fails to parse is not modelled.
- Toggling the submit button during a request on the register page is not modelled.
