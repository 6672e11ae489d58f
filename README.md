# JTW Mobil client core, in Dafny

JTW Mobil is a React Native client for an events service. Participants sign in, browse an event's
workshops, enrol and cancel, and carry a folio (an attendance code) for each workshop they are
enrolled in. Supervisors (role `Checador`) scan event QR codes and register participants on site.
Almost every screen fetches JSON and renders it. This project models the rules that remain once the
network is taken out. Every reply the app waits for is an input value: `Ok(data)`, `NotOk(message)`
(a non-ok HTTP status) or `Threw(message)` (the request or the body parse threw). Where a screen's
error handler itself reads the missing reply of a request that never got one, `Threw` ends the
handler, as in the on-site registration (`TalleresChecador.Register`). A JSON field that may be
missing or not an array is an `Option`.

There is one module per source file, plus shared helpers:

- `Common` (common.dfy): `Option`, `Reply`, and JavaScript truthiness and `a || b` on strings.
- `Text` (text.dfy): the string operations the screens use. These are white space, lower case,
  substring search, `indexOf`, `split`/`join`, `trim`, `filter`, `String(n)` and `padStart`.
- `Validation` (validation.dfy): the regular expressions of the forms, as predicates.
- `Dates` (formatt_dates.dfy): `formattDate`.
- `Auth` (auth_context.dfy): the session provider, as a `Session` class with `login`/`logout`, and `useAuth`.
- `Guard` (protected_route.dfy): the route guard's redirect and render decision.
- `Talleres` (talleres.dfy): the participant's workshop screen, with a `WorkshopScreen` class. It
  covers folio lookup, enrolment marking, the search filter, enrol and cancel with their local
  updates, the busy and capacity gate, and the hour formatter.
- `Inicio` (inicio.dfy): the sign-in screen, with a `LoginForm` class.
- `Configuracion` (configuracion.dfy): the profile editor, with a `ProfileEditor` class. It covers
  the field checks, the edit cycle, the gender selector, the reload and the update body.
- `Checador` (checador.dfy): the supervisor's QR scan and event filter, with a `Scanner` class.
- `TalleresChecador` (talleres_checador.dfy): the supervisor's workshop screen. It covers the
  filter, the field checks, the e-mail pre-check and body merge of the on-site registration, the
  gender selector and the attendance dialog.
- `Recuperacion` (recuperacion.dfy): the three-step password recovery, with a `Recovery` class.

Where a screen updates component state step by step, the model is a class whose fields are the
state cells. Its methods state the new state in terms of pure functions, and the properties are
proved about those functions.

Three points of the workshop screen that the model states as the code has them:

- A workshop's enrolment flag (`inscrito`) comes from the list of enrolled workshop ids
  (`/workshop/participant`). Its folio comes separately, from the participant's QR records. The
  two are set independently, so the model proves no "enrolled iff folio" invariant.
- After a cancel, the count becomes `max(0, (cupoActual || 1) - 1)`, not `max(0, count - 1)`.
  A count of 0 therefore stays 0, and every positive count drops by one.
- The capacity gate holds only when the workshop has a quota. A missing quota never blocks enrolment.

## Model

| member | source | states |
|---|---|---|
| Dates.SplitAtFirstT | src/utils/formattDates.js:2-5 | the input has a time part iff it contains 'T'; the cut is at the first 'T', the date part holds no 'T', and date part + time part is the input |
| Dates.TimePartCopied | src/utils/formattDates.js:6 | the suffix from the first 'T' on is copied verbatim to the end of the output |
| Dates.ThreePiecesReversed | src/utils/formattDates.js:5-6 | `a-b-c` followed by nothing or by a 'T' suffix becomes `c-b-a` followed by the same suffix |
| Dates.FormatDateInvolution | src/utils/formattDates.js:1-8 | for a date part of exactly three '-' pieces, the output has the input's length and formatting twice gives the input back |
| Auth.Provider | src/context/AuthContext.jsx:10-20 | `login` sets exactly the three cells to its arguments; `logout` restores the initial all-null state |
| Auth.LastCallDecides | src/context/AuthContext.jsx:6-20 | after any sequence of calls from the initial state, the session is decided by the last call alone: signed out after a logout or no call, otherwise that login's arguments (a later login overwrites an earlier one) |
| Auth.Session.constructor | src/context/AuthContext.jsx:6-8 | token, role and id all start null |
| Auth.Session.Login | src/context/AuthContext.jsx:10-14 | the new state is the provider's state after `login(newToken, role, id)` |
| Auth.Session.Logout | src/context/AuthContext.jsx:16-20 | the new state is the provider's state after `logout()` |
| Auth.UseAuth | src/context/AuthContext.jsx:29-35 | the provider's value is returned iff one is present; otherwise the error with its message is thrown |
| Guard.Redirect | src/components/ProtectedRoute.jsx:9-24 | no token: to Inicio whatever the role; token with a disallowed role: to Checador for role Checador and to Eventos otherwise; allowed: no redirect |
| Guard.RenderIffNoRedirect | src/components/ProtectedRoute.jsx:9-30 | the children render iff no redirect is issued, iff the token is truthy and the role is allowed; a redirect is always to Inicio, Checador or Eventos |
| Guard.SignedInNeverToLogin | src/components/ProtectedRoute.jsx:16-23 | with a truthy token the guard never sends the user back to sign in |
| Validation.EmailIff | src/views/Inicio.jsx:14-17 | the scanning test accepts exactly the strings `/^[^\s@]+@[^\s@]+\.[^\s@]+$/` describes: one '@' after a non-empty run, a later '.' with a character on each side, no other '@' and no white space |
| Inicio.PassesIff | src/views/Inicio.jsx:20-50 | the form passes iff the e-mail is well formed and the password is not blank and has a JavaScript length (UTF-16 units, two for a character above U+FFFF) of at least six, white space counted |
| Inicio.Utf16Length | src/views/Inicio.jsx:20-22 | a string's `length` lies between its character count and twice that, and equals the character count iff no character is above U+FFFF |
| Inicio.ThreeAstralCharactersPass | src/views/Inicio.jsx:20-22 | a password of three characters above U+FFFF has length six and passes |
| Inicio.BlankIsMissing | src/views/Inicio.jsx:31-45 | an all-white-space e-mail is reported as missing, and with a good e-mail so is an all-white-space password of any length |
| Inicio.Attempt | src/views/Inicio.jsx:25-112 | a failed check stops the attempt; it navigates iff the checks pass and the reply is ok with a truthy token; role Checador goes to Checador and every other role to Eventos; an auth error always has a message |
| Inicio.SignsInOnlyWithToken | src/views/Inicio.jsx:72-103 | the session changes only through an ok reply with a token, and a navigating attempt leaves a truthy token, the reply's role and a null id |
| Inicio.LoginForm.constructor | src/views/Inicio.jsx:7-10 | both fields and both errors start empty |
| Inicio.LoginForm.Validate | src/views/Inicio.jsx:27-50 | both errors are cleared first; the first failing check in the order e-mail missing, e-mail malformed, password missing, password short sets only its own error |
| Inicio.LoginForm.HandleLogin | src/views/Inicio.jsx:25-112 | the outcome is `Attempt`, the session afterwards is `SessionAfter` of the session before, and the errors are those of the checks |
| Talleres.LastFolioIsLastMatch | src/views/Talleres.jsx:145-156 | the folio lookup gives null when no entry matches, and otherwise the folio of the last QR entry whose workshop id matches |
| Talleres.ScanWorkshops | src/views/Talleres.jsx:279-283 | the inner loop over one QR's workshops leaves the folio of the last matching entry among those seen so far and these workshops |
| Talleres.FindFolio | src/views/Talleres.jsx:276-286 | the nested loop over the QRs and their workshops yields the last matching entry's folio, or null when the record or its QR array is missing |
| Talleres.FormatAll | src/views/Talleres.jsx:140-178 | the loaded list keeps the API's order and length, each workshop formatted with its folio looked up |
| Talleres.MarkFromList | src/views/Talleres.jsx:70-81 | each workshop's flag is whether its id is in the enrolled list and its count is its participant count; nothing else changes |
| Talleres.VerifyEnrolment | src/views/Talleres.jsx:36-88 | with a usable reply, the flag and count are set as the list says and every other field is kept; a failed reply or a non-array body returns the input unchanged |
| Talleres.LoadResolvesWorkshops | src/views/Talleres.jsx:91-197 | a successful load keeps order and length; every workshop carries its id, the last matching folio and its participant count, and is enrolled iff the enrolled-list reply is usable and lists it |
| Talleres.Visible | src/views/Talleres.jsx:225-237 | empty text shows the whole list; otherwise exactly the workshops whose name or description contains the text ignoring case, in their order, each with as many copies as the list has |
| Talleres.ApplyEnrol | src/views/Talleres.jsx:290-302 | only workshops with the target id change: they become enrolled with one more participant and the new folio; all others are unchanged |
| Talleres.ApplyCancel | src/views/Talleres.jsx:366-378 | only the target changes: not enrolled, no folio, a count never negative, one less when it was at least 1 and 0 otherwise; all others are unchanged |
| Talleres.EnrolThenCancelRestores | src/views/Talleres.jsx:290-302 | enrolling in a workshop the participant was not enrolled in, then cancelling, gives the original list back |
| Talleres.DecideGate | src/views/Talleres.jsx:408-444 | nothing happens while an action is in progress; an unconfirmed dialog is dismissed; an enrolled workshop always goes to cancel; an unenrolled one is refused as full iff it has a quota the count has reached, and is enrolled in otherwise, so the count after it never passes the quota |
| Talleres.FailuresHaveMessages | src/views/Talleres.jsx:319-328 | every failed enrol or cancel alerts with a non-empty message |
| Talleres.WorkshopScreen.constructor | src/views/Talleres.jsx:22-27 | empty lists, loading, no error, not busy |
| Talleres.WorkshopScreen.Load | src/views/Talleres.jsx:91-197 | a successful load puts the loaded workshops in both lists; a failure shows its message and keeps the lists; loading ends false |
| Talleres.WorkshopScreen.Search | src/views/Talleres.jsx:225-237 | remembers the text and shows the workshops it selects |
| Talleres.WorkshopScreen.Enrol | src/views/Talleres.jsx:240-329 | on success the list is `ApplyEnrol` with the re-fetched folio and the filter is re-applied; a failure alerts and leaves both lists; the busy flag is clear afterwards in every case |
| Talleres.WorkshopScreen.Cancel | src/views/Talleres.jsx:332-405 | on success the list is `ApplyCancel` and the filter is re-applied; a failure alerts and leaves both lists; the busy flag is clear afterwards in every case |
| Talleres.TwelveHourClock | src/views/Talleres.jsx:213-217 | the shown hour is in 1..12, hour 0 shows as 12, "PM" iff the hour is at least 12, and the shown hour with its period gives the 24-hour value back |
| Talleres.MinuteDigits | src/views/Talleres.jsx:214 | padded minutes are exactly two digits that read back as the minute |
| Talleres.FormatHourReadsBack | src/views/Talleres.jsx:210-222 | the text is the 12-hour value in digits, ':', two minute digits reading back as the minute, a space, and the period |
| Configuracion.UncheckedFieldsPass | src/views/Configuracion.jsx:79-152 | fields without a rule always pass; the password passes iff it is strong; the gender passes iff it is one of the four options |
| Configuracion.SentinelIsNotAPassword | src/views/Configuracion.jsx:22 | the '********' placeholder never passes the password check |
| Configuracion.SelectorValuesFailTheCheck | src/views/Configuracion.jsx:127-137 | the selector's option names pass the gender check, and the values it stores ('Hombre', 'Mujer') do not |
| Configuracion.Reloaded | src/views/Configuracion.jsx:49-58 | a reloaded profile has exactly the keys the update body reads, with the password reset to the placeholder |
| Configuracion.BuildPayload | src/views/Configuracion.jsx:236-246 | the password is sent iff it is not the placeholder; e-mail, phone, gender, state, profession and workplace are sent as stored |
| Configuracion.NameWords | src/views/Configuracion.jsx:237-238 | for a full name of any number of space-free words, the name is words 0 and 1 and the last name words 2 and 3, a missing word read as "": one word goes out as "a ", a third word alone as the last name "c ", and words after the fourth are dropped |
| Configuracion.FourWordName | src/views/Configuracion.jsx:237-238 | a four-word full name goes out as words 0-1 for the name and words 2-3 for the last name |
| Configuracion.ReloadThenSend | src/views/Configuracion.jsx:49-58 | an unedited reload sent back keeps every field but the name; a one-word name and one-word last name both go out as the name, and the last name goes out as a single space |
| Configuracion.SavedPasswordIsSent | src/views/Configuracion.jsx:139-149 | a password edit that passes the check is always sent |
| Configuracion.ProfileEditor.constructor | src/views/Configuracion.jsx:25-35 | the profile starts as the sample profile, with no field being edited |
| Configuracion.ProfileEditor.StartEditing | src/views/Configuracion.jsx:155-158 | opens the field's editor with its value; the profile is untouched |
| Configuracion.ProfileEditor.Type | src/views/Configuracion.jsx:190 | typing changes only the edited value |
| Configuracion.ProfileEditor.SaveChanges | src/views/Configuracion.jsx:161-170 | a passing value replaces only that key and closes the editor; a failing one raises the field's alert and changes nothing |
| Configuracion.ProfileEditor.CancelEditing | src/views/Configuracion.jsx:173-175 | closes the editor and never touches the profile |
| Configuracion.ProfileEditor.ChooseGender | src/views/Configuracion.jsx:278-305 | the two options store 'Hombre' or 'Mujer' and change only the gender; dismissing changes nothing |
| Configuracion.ProfileEditor.Reload | src/views/Configuracion.jsx:38-67 | a reply with a body replaces the whole profile; an empty body keeps it; a failure alerts and keeps it |
| Checador.ParseScan | src/views-checador/Checador.jsx:96-118 | a code is an event code iff it starts with "evento-"; anything else is invalid |
| Checador.EventIdIsSecondField | src/views-checador/Checador.jsx:97 | the event id never holds a '-'; the code is the prefix, then the id, then '-' or the end |
| Checador.FilterEvents | src/views-checador/Checador.jsx:122-132 | empty text gives the sample events; otherwise exactly those whose title contains the text ignoring case, in order |
| Checador.FilterEventsCounts | src/views-checador/Checador.jsx:122-132 | a search keeps every copy of a selected sample event and no copy of the others |
| Checador.Scanner.constructor | src/views-checador/Checador.jsx:47-51 | no search text, the sample events, camera closed, no scan latched |
| Checador.Scanner.LoadEvents | src/views-checador/Checador.jsx:76-87 | the supervisor's events replace the list, an empty list when the body has none |
| Checador.Scanner.OpenCamera | src/views-checador/Checador.jsx:145-147 | opens the camera and nothing else |
| Checador.Scanner.CloseCamera | src/views-checador/Checador.jsx:175 | closes the camera and nothing else |
| Checador.Scanner.HandleScan | src/views-checador/Checador.jsx:91-119 | every scan latches `scanned` and closes the camera, and reports what `ParseScan` decides |
| Checador.Scanner.CameraReads | src/views-checador/Checador.jsx:166 | no handler is attached while a scan is latched, so such a read does nothing |
| Checador.Scanner.Acknowledge | src/views-checador/Checador.jsx:104-116 | acknowledging either alert releases the latch |
| Checador.Scanner.Search | src/views-checador/Checador.jsx:122-132 | remembers the text and shows the sample events it selects |
| TalleresChecador.FilterWorkshops | src/views-checador/TalleresChecador.jsx:207-219 | empty text gives the sample workshops; otherwise exactly those whose name or description contains the text ignoring case, in order |
| TalleresChecador.FilterWorkshopsCounts | src/views-checador/TalleresChecador.jsx:207-219 | a search keeps every copy of a selected sample workshop and no copy of the others |
| TalleresChecador.SameRulesButPassword | src/views-checador/TalleresChecador.jsx:80-141 | this screen's field checks agree with the profile screen's on every field but the password, which always passes; unlisted fields pass |
| TalleresChecador.MergeBody | src/views-checador/TalleresChecador.jsx:267-280 | building the body throws exactly when there is no record and a required field is empty; otherwise the e-mail is the typed one |
| TalleresChecador.LocalValuesWin | src/views-checador/TalleresChecador.jsx:267-280 | with a record found, each body field is the form's value when non-empty and the record's otherwise |
| TalleresChecador.FilledFormNeedsNoRecord | src/views-checador/TalleresChecador.jsx:267-280 | with no record, a form with every required field filled goes out as it stands; empty optional fields are left out |
| TalleresChecador.FoundRecord | src/views-checador/TalleresChecador.jsx:250-257 | a successful look-up's record (or its absence) is the one used; an error status or a thrown request leaves none |
| TalleresChecador.Register | src/views-checador/TalleresChecador.jsx:234-281 | a malformed e-mail stops the registration before any request; a look-up with no reply makes its handler throw, so nothing is sent; otherwise the body is sent unless building it throws, and the body sent is the one `MergeBody` builds from the form and the record found, with the typed e-mail |
| TalleresChecador.ErrorStatusIsNoRecord | src/views-checador/TalleresChecador.jsx:250-257 | a look-up answered with an error status registers exactly as one that found no participant, and never fails the registration by itself |
| TalleresChecador.SupervisorWorkshops.constructor | src/views-checador/TalleresChecador.jsx:54-73 | empty search, empty list, empty form, dialog closed, no workshop chosen |
| TalleresChecador.SupervisorWorkshops.Search | src/views-checador/TalleresChecador.jsx:207-219 | remembers the text and shows the sample workshops it selects |
| TalleresChecador.SupervisorWorkshops.ChooseGender | src/views-checador/TalleresChecador.jsx:144-167 | sets only the form's gender, to 'Hombre' or 'Mujer' |
| TalleresChecador.SupervisorWorkshops.OpenAttendanceModal | src/views-checador/TalleresChecador.jsx:228-231 | opens the dialog for the given workshop id and changes nothing else |
| Recuperacion.Next | src/views/Recuperacion.jsx:21-90 | sending changes the flags iff the address is non-empty and well formed and the code form is not shown yet; verifying changes them iff the code is non-empty and accepted; changing the password never does |
| Recuperacion.StepsStayApart | src/views/Recuperacion.jsx:96-141 | pressing only shown buttons, the code and password forms never show together, and once the password form shows it stays |
| Recuperacion.Recovery.constructor | src/views/Recuperacion.jsx:8-14 | all fields empty, the e-mail step shown |
| Recuperacion.Recovery.HandleEnviar | src/views/Recuperacion.jsx:21-44 | an empty or malformed address alerts and changes no flag; a good one shows the code form before the request; success stores the token, failure keeps the code form |
| Recuperacion.Recovery.HandleVerificarCode | src/views/Recuperacion.jsx:46-66 | an empty code alerts and sends nothing; an accepted code swaps the code form for the password form; a rejected one alerts |
| Recuperacion.Recovery.ChangePassword | src/views/Recuperacion.jsx:68-90 | only an empty password is refused before the request, although the alert speaks of six characters; success returns to sign in |

## Left out

- The network (`fetch`, `axios`, URLs, headers, the server's behaviour). Each reply is an input to the member that waits for it.
- Rendering, styles, modals and `Alert` dialogs. Alerts are returned as messages or outcome tags, and navigation as the target screen's name.
- Asynchrony and interleaving. Each handler runs to completion with its replies given up front. The `processingAction` busy flag is modelled only as a guard on sequential calls. A reply that lands after the user has moved on (for example a late recovery-mail reply) is not modelled.
- `Date` parsing, `toLocaleString`/`toLocaleDateString` and `formatearFecha`, which depend on the host clock and locale. `formatearHora` is modelled from an integer hour and minute (`Talleres.FormatHour`), and a workshop's date (`fecha`) is carried as given. The screen's workshop record also holds `hora` (from `formatearHora`) and `img`; `Talleres.Workshop` drops both, since no rule reads them.
- The JavaScript `null` quota. A missing quota is `None` and never blocks enrolment. A JSON `null` quota, which JavaScript compares as 0 and which would then block enrolment, is not distinguished from a missing one.
- Unicode white space (`\s`) and `toLowerCase`. These are approximated by the ASCII and Latin-1 white space and letters, plus the byte-order mark.
- Talleres.Visible: each workshop's name and description are assumed to be present strings. A workshop without a name, or one whose name does not match and that has no description, makes `toLowerCase` throw during a non-empty search in the source; the model filters it like any other.
- Configuracion.Reloaded: the record's fields are assumed to be present strings. A missing field, which JavaScript would show as "undefined", is not modelled.
- The request, confirmation dialog and refresh of `guardarTodosLosCambios`. Only the body it sends (`Configuracion.BuildPayload`) is modelled.
- The camera permission request and the image links of the sample events and workshops.
- In the supervisor's workshop screen, the look-up handler `searchParticipant`, the load effect (whose result the sample list replaces on the first search), the registration and folio dialogs, and the attendance check-in by folio, which is one request and its alert. Also left out are the requests after the inscription request in `registrarParticipante`: the look-up of the new participant and the update that adds them to the selected workshop. The model stops at the body of the inscription request.
- The password visibility toggle in the recovery screen.
- `EscanerQR.jsx`, `Eventos.jsx`, `EventosTotales.jsx`, `Perfil.jsx`, `Registro.jsx`, `BottomNavBar.jsx` and `App.js` are not part of this model. They are fetch-and-render screens, navigation wiring, or (for `EscanerQR.jsx`) a camera plus `JSON.parse` plus requests.
- The sign-in screen calls `login` with two arguments. The user id therefore becomes `undefined`, modelled as `None` (`Inicio.SessionAfter`).
