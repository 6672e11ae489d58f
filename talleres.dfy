/** The participant's workshop screen of one event: loading the workshops with the
    participant's folios and enrolment state, the search filter, the busy and capacity gate in
    front of enrol and cancel, and the local update after a successful enrol or cancel. */
module Talleres {
  import opened Common
  import opened Text

  /** One entry of a QR record: a workshop and the folio issued for it. */
  datatype QrWorkshop = QrWorkshop(workshopId: string, folio: Option<string>)

  /** A QR record; `workshops` is None when the field is missing or not an array. */
  datatype Qr = Qr(workshops: Option<seq<QrWorkshop>>)

  /** The participant record of /user/me; `qrs` is None when `QRs` is missing or not an array. */
  datatype Participant = Participant(qrs: Option<seq<Qr>>)

  /** A workshop as the API sends it. `limitQuota` and `participants` may be missing. */
  datatype RawWorkshop = RawWorkshop(
    id: string, name: string, description: string, startDate: string,
    limitQuota: Option<int>, participants: Option<seq<string>>, instructor: string)

  /** A workshop as the screen holds it. `cupo` is None when the API sent no quota. */
  datatype Workshop = Workshop(
    id: string, nombreTaller: string, descripcion: string, fecha: string,
    cupo: Option<int>, cupoActual: int, inscrito: bool, instructor: string,
    participants: seq<string>, folio: Option<string>)

  // ---------------------------------------------------------------- folio lookup

  /** A QR record's workshop list, empty when it is not an array. */
  function WorkshopsOf(qr: Qr): seq<QrWorkshop> {
    if qr.workshops.Some? then qr.workshops.value else []
  }

  /** The entries the nested scan visits, in order: each QR's workshops in turn. */
  function Entries(qrs: seq<Qr>): seq<QrWorkshop>
    decreases |qrs|
  {
    if qrs == [] then [] else Entries(qrs[..|qrs| - 1]) + WorkshopsOf(qrs[|qrs| - 1])
  }

  /** The folio a forward scan leaves behind when it overwrites on every match. */
  function LastFolio(entries: seq<QrWorkshop>, id: string): Option<string>
    decreases |entries|
  {
    if entries == [] then None
    else if entries[|entries| - 1].workshopId == id then entries[|entries| - 1].folio
    else LastFolio(entries[..|entries| - 1], id)
  }

  /** The folio the screen shows for workshop `id`: looked up only when the participant record
      and its `QRs` array are there. */
  function FolioFor(participant: Option<Participant>, id: string): Option<string> {
    if participant.Some? && participant.value.qrs.Some?
    then LastFolio(Entries(participant.value.qrs.value), id)
    else None
  }

  /** The lookup yields null when no entry matches, and otherwise the folio of the LAST entry
      whose workshop id matches. */
  lemma {:induction false} LastFolioIsLastMatch(entries: seq<QrWorkshop>, id: string)
    ensures (forall k :: 0 <= k < |entries| ==> entries[k].workshopId != id) ==>
              LastFolio(entries, id) == None
    ensures forall k :: (0 <= k < |entries| && entries[k].workshopId == id &&
                         forall m :: k < m < |entries| ==> entries[m].workshopId != id) ==>
              LastFolio(entries, id) == entries[k].folio
    decreases |entries|
  {
    if entries != [] {
      var init := entries[..|entries| - 1];
      LastFolioIsLastMatch(init, id);
      forall k | 0 <= k < |init| ensures init[k] == entries[k] { }
    }
  }

  /** One more entry: a match overwrites the folio, anything else keeps it. */
  lemma LastFolioStep(entries: seq<QrWorkshop>, e: QrWorkshop, id: string)
    ensures LastFolio(entries + [e], id) == if e.workshopId == id then e.folio else LastFolio(entries, id)
  {
    assert (entries + [e])[..|entries|] == entries;
  }

  /** One more QR record adds its workshops to the entries seen. */
  lemma EntriesStep(qrs: seq<Qr>, i: nat)
    requires i < |qrs|
    ensures Entries(qrs[..i + 1]) == Entries(qrs[..i]) + WorkshopsOf(qrs[i])
  {
    assert qrs[..i + 1][..i] == qrs[..i];
  }

  /** The inner `forEach` over one QR's `workshops`, continuing from the folio the entries seen
      so far left behind. */
  method ScanWorkshops(ghost seen: seq<QrWorkshop>, ws: seq<QrWorkshop>, tallerId: string, start: Option<string>)
    returns (folio: Option<string>)
    requires start == LastFolio(seen, tallerId)
    ensures folio == LastFolio(seen + ws, tallerId)
  {
    folio := start;
    var j := 0;
    assert seen + ws[..0] == seen;
    while j < |ws|
      invariant 0 <= j <= |ws|
      invariant folio == LastFolio(seen + ws[..j], tallerId)
    {
      assert seen + ws[..j + 1] == (seen + ws[..j]) + [ws[j]];
      LastFolioStep(seen + ws[..j], ws[j], tallerId);
      if ws[j].workshopId == tallerId {
        folio := ws[j].folio;
      }
      j := j + 1;
    }
    assert ws[..j] == ws;
  }

  /** The nested `forEach` of the source over `QRs` and each QR's `workshops`. */
  method FindFolio(participant: Option<Participant>, tallerId: string) returns (folio: Option<string>)
    ensures folio == FolioFor(participant, tallerId)
  {
    folio := None;
    if participant.Some? && participant.value.qrs.Some? {
      var qrs := participant.value.qrs.value;
      var i := 0;
      while i < |qrs|
        invariant 0 <= i <= |qrs|
        invariant folio == LastFolio(Entries(qrs[..i]), tallerId)
      {
        EntriesStep(qrs, i);
        if qrs[i].workshops.Some? {
          folio := ScanWorkshops(Entries(qrs[..i]), qrs[i].workshops.value, tallerId, folio);
        } else {
          assert Entries(qrs[..i]) + WorkshopsOf(qrs[i]) == Entries(qrs[..i]);
        }
        i := i + 1;
      }
      assert qrs[..i] == qrs;
    }
  }

  // ---------------------------------------------------------------- building the list

  /** `Array.isArray(participants) ? participants : []`. */
  function ParticipantsOf(raw: RawWorkshop): seq<string> {
    if raw.participants.Some? then raw.participants.value else []
  }

  /** One API workshop turned into the screen's record, with its folio looked up. */
  function FormatWorkshop(raw: RawWorkshop, participant: Option<Participant>): Workshop {
    Workshop(raw.id, raw.name, raw.description, raw.startDate, raw.limitQuota,
             |ParticipantsOf(raw)|, false, raw.instructor, ParticipantsOf(raw),
             FolioFor(participant, raw.id))
  }

  function FormatAll(raws: seq<RawWorkshop>, participant: Option<Participant>): (ws: seq<Workshop>)
    ensures |ws| == |raws|
    ensures forall k :: 0 <= k < |raws| ==> ws[k] == FormatWorkshop(raws[k], participant)
    decreases |raws|
  {
    if raws == [] then [] else [FormatWorkshop(raws[0], participant)] + FormatAll(raws[1..], participant)
  }

  /** Each workshop's enrolment flag set from the list of enrolled ids, its count from its participants. */
  function MarkFromList(ws: seq<Workshop>, enrolled: seq<string>): (r: seq<Workshop>)
    ensures |r| == |ws|
    ensures forall k :: 0 <= k < |ws| ==>
              r[k] == ws[k].(inscrito := ws[k].id in enrolled, cupoActual := |ws[k].participants|)
    decreases |ws|
  {
    if ws == [] then []
    else [ws[0].(inscrito := ws[0].id in enrolled, cupoActual := |ws[0].participants|)]
         + MarkFromList(ws[1..], enrolled)
  }

  /** `verificarInscripcion`, given the reply of GET /workshop/participant: its `data` is the list
      of enrolled workshop ids, None when it is not an array. Any failure keeps the input. */
  function VerifyEnrolment(ws: seq<Workshop>, reply: Reply<Option<seq<string>>>): (r: seq<Workshop>)
    ensures !(reply.Ok? && reply.data.Some?) ==> r == ws
    ensures reply.Ok? && reply.data.Some? ==>
              |r| == |ws| &&
              forall k :: 0 <= k < |ws| ==>
                r[k].inscrito == (ws[k].id in reply.data.value) &&
                r[k].cupoActual == |ws[k].participants| &&
                r[k].(inscrito := ws[k].inscrito, cupoActual := ws[k].cupoActual) == ws[k]
  {
    if reply.Ok? && reply.data.Some? then MarkFromList(ws, reply.data.value) else ws
  }

  /** What loading the screen ends with: the list, or the error text it shows. */
  datatype Loaded = Loaded(workshops: seq<Workshop>) | LoadFailed(message: string)

  const NoEventMessage := "No se proporcionó ID del evento"
  const LoadFallbackMessage := "No se pudieron cargar los datos. Por favor, intenta de nuevo más tarde."

  /** The message an exception leaves on the screen: its own, or the fallback. */
  function ThrownMessage(m: string): string {
    Or(m, LoadFallbackMessage)
  }

  /** The load effect (`fetchData`) given the three replies it waits for, in order:
      the participant record, the event's workshops, the enrolled workshops. */
  function LoadResult(eventId: string, participantReply: Reply<Option<Participant>>,
                      workshopsReply: Reply<Option<seq<RawWorkshop>>>,
                      enrolledReply: Reply<Option<seq<string>>>): Loaded
  {
    if eventId == "" then LoadFailed(NoEventMessage)
    else match participantReply
      case NotOk(_) => LoadFailed("No se pudieron cargar los datos del participante")
      case Threw(m) => LoadFailed(ThrownMessage(m))
      case Ok(participant) =>
        match workshopsReply
        case NotOk(_) => LoadFailed("No se pudieron cargar los talleres")
        case Threw(m) => LoadFailed(ThrownMessage(m))
        case Ok(None) => LoadFailed("Formato de datos de talleres inesperado.")
        case Ok(Some(raws)) => Loaded(VerifyEnrolment(FormatAll(raws, participant), enrolledReply))
  }

  /** A successful load keeps the API's order; every workshop carries the folio of the participant's
      last matching QR entry and its participant count; the enrolment flag comes from the enrolled
      list when that reply is usable, and is false otherwise (the folio is not consulted). */
  lemma LoadResolvesWorkshops(eventId: string, participantReply: Reply<Option<Participant>>,
                              raws: seq<RawWorkshop>, enrolledReply: Reply<Option<seq<string>>>)
    requires eventId != "" && participantReply.Ok?
    ensures var r := LoadResult(eventId, participantReply, Ok(Some(raws)), enrolledReply);
            r.Loaded? && |r.workshops| == |raws| &&
            forall k :: 0 <= k < |raws| ==>
              r.workshops[k].id == raws[k].id &&
              r.workshops[k].folio == FolioFor(participantReply.data, raws[k].id) &&
              r.workshops[k].cupoActual == |ParticipantsOf(raws[k])| &&
              r.workshops[k].inscrito ==
                (enrolledReply.Ok? && enrolledReply.data.Some? && raws[k].id in enrolledReply.data.value)
  {
  }

  // ---------------------------------------------------------------- search filter

  /** The name or the description contains the text, ignoring case. */
  predicate Matches(w: Workshop, text: string) {
    ContainsIgnoringCase(w.nombreTaller, text) || ContainsIgnoringCase(w.descripcion, text)
  }

  /** The list shown for search text `text`: everything for "", else the matching workshops in order. */
  function Visible(ws: seq<Workshop>, text: string): (r: seq<Workshop>)
    ensures text == "" ==> r == ws
    ensures text != "" ==> (forall w :: w in r <==> w in ws && Matches(w, text)) && IsSubsequence(r, ws)
    ensures text != "" ==> forall w :: multiset(r)[w] == if Matches(w, text) then multiset(ws)[w] else 0
  {
    if text != "" then
      FilterCounts(ws, w => Matches(w, text));
      Filter(ws, w => Matches(w, text))
    else ws
  }

  // ---------------------------------------------------------------- enrol and cancel

  /** JavaScript `c || d` on a number. */
  function OrInt(c: int, d: int): int {
    if c != 0 then c else d
  }

  function Max(a: int, b: int): int {
    if a >= b then a else b
  }

  /** The local update after a successful enrol in workshop `id`. */
  function ApplyEnrol(ws: seq<Workshop>, id: string, folio: Option<string>): (r: seq<Workshop>)
    ensures |r| == |ws|
    ensures forall k :: 0 <= k < |ws| && ws[k].id != id ==> r[k] == ws[k]
    ensures forall k :: 0 <= k < |ws| && ws[k].id == id ==>
              r[k] == ws[k].(inscrito := true, cupoActual := ws[k].cupoActual + 1, folio := folio)
    decreases |ws|
  {
    if ws == [] then []
    else
      var w := ws[0];
      var w' := if w.id == id then w.(inscrito := true, cupoActual := OrInt(w.cupoActual, 0) + 1, folio := folio) else w;
      [w'] + ApplyEnrol(ws[1..], id, folio)
  }

  /** The local update after a successful cancel of workshop `id`. */
  function ApplyCancel(ws: seq<Workshop>, id: string): (r: seq<Workshop>)
    ensures |r| == |ws|
    ensures forall k :: 0 <= k < |ws| && ws[k].id != id ==> r[k] == ws[k]
    ensures forall k :: 0 <= k < |ws| && ws[k].id == id ==>
              !r[k].inscrito && r[k].folio == None && r[k].cupoActual >= 0 &&
              (ws[k].cupoActual >= 1 ==> r[k].cupoActual == ws[k].cupoActual - 1) &&
              (ws[k].cupoActual <= 0 ==> r[k].cupoActual == 0) &&
              r[k].(inscrito := ws[k].inscrito, cupoActual := ws[k].cupoActual, folio := ws[k].folio) == ws[k]
    decreases |ws|
  {
    if ws == [] then []
    else
      var w := ws[0];
      var w' := if w.id == id then w.(inscrito := false, cupoActual := Max(0, OrInt(w.cupoActual, 1) - 1), folio := None) else w;
      [w'] + ApplyCancel(ws[1..], id)
  }

  /** Enrolling in a workshop the participant was not enrolled in, then cancelling, restores the list. */
  lemma EnrolThenCancelRestores(ws: seq<Workshop>, id: string, folio: Option<string>)
    requires forall k :: 0 <= k < |ws| && ws[k].id == id ==>
               !ws[k].inscrito && ws[k].folio == None && ws[k].cupoActual >= 0
    ensures ApplyCancel(ApplyEnrol(ws, id, folio), id) == ws
  {
    var r := ApplyCancel(ApplyEnrol(ws, id, folio), id);
    forall k | 0 <= k < |ws| ensures r[k] == ws[k] { }
  }

  /** What tapping a workshop's button leads to, once the confirmation dialog is answered. */
  datatype Action = Busy | Dismissed | CancelEnrolment(id: string) | CapacityFull | EnrolIn(id: string)

  /** `gestionarInscripcion`: nothing while an action is in progress; an enrolled workshop goes
      to cancel; otherwise enrolment is blocked when the count has reached the quota. */
  function Decide(processingAction: bool, w: Workshop, confirmed: bool): Action {
    if processingAction then Busy
    else if !confirmed then Dismissed
    else if w.inscrito then CancelEnrolment(w.id)
    else if w.cupo.Some? && w.cupoActual >= w.cupo.value then CapacityFull
    else EnrolIn(w.id)
  }

  /** The gate issues no request while busy or unconfirmed, always routes an enrolled workshop to
      cancel, and lets an enrolment through exactly when the count is below the quota (or there is
      no quota), so the local count never passes the quota. */
  lemma DecideGate(processingAction: bool, w: Workshop, confirmed: bool, folio: Option<string>)
    ensures processingAction ==> Decide(processingAction, w, confirmed) == Busy
    ensures !processingAction && !confirmed ==> Decide(processingAction, w, confirmed) == Dismissed
    ensures !processingAction && confirmed && !w.inscrito ==>
              (Decide(processingAction, w, confirmed) == CapacityFull <==>
               w.cupo.Some? && w.cupoActual >= w.cupo.value)
    ensures !processingAction && confirmed && !w.inscrito && (w.cupo.None? || w.cupoActual < w.cupo.value) ==>
              Decide(processingAction, w, confirmed) == EnrolIn(w.id)
    ensures !processingAction && confirmed && w.inscrito ==>
              Decide(processingAction, w, confirmed) == CancelEnrolment(w.id)
    ensures Decide(processingAction, w, confirmed).EnrolIn? ==>
              !processingAction && !w.inscrito &&
              (w.cupo.Some? ==> ApplyEnrol([w], w.id, folio)[0].cupoActual <= w.cupo.value)
  {
  }

  /** The alert an enrol or cancel ends with. */
  datatype Notice = Done | Failed(message: string)

  /** The re-fetch of the participant after an enrol: its `data`, or the exception it raised. */
  datatype Refetch = Read(data: Option<Participant>) | RefetchThrew(message: string)

  const EnrolFallbackMessage := "No se pudo completar el registro. Intenta de nuevo más tarde."
  const CancelFallbackMessage := "No se pudo cancelar la inscripción. Intenta de nuevo más tarde."

  /** The error alert of a failed enrol. */
  function EnrolFailure(reply: Reply<()>, refetch: Refetch): string {
    match reply
    case NotOk(m) => Or(m, "Error al registrarse en el taller")
    case Threw(m) => Or(m, EnrolFallbackMessage)
    case Ok(_) => if refetch.RefetchThrew? then Or(refetch.message, EnrolFallbackMessage) else ""
  }

  /** The error alert of a failed cancel. */
  function CancelFailure(reply: Reply<()>, refetch: Reply<()>): string {
    match reply
    case NotOk(m) => Or(m, "Error al cancelar la inscripción")
    case Threw(m) => Or(m, CancelFallbackMessage)
    case Ok(_) => if refetch.Threw? then Or(refetch.message, CancelFallbackMessage) else ""
  }

  /** The failure alerts always carry a message. */
  lemma FailuresHaveMessages(reply: Reply<()>, refetch: Refetch, cancelRefetch: Reply<()>)
    ensures !(reply.Ok? && refetch.Read?) ==> EnrolFailure(reply, refetch) != ""
    ensures !(reply.Ok? && !cancelRefetch.Threw?) ==> CancelFailure(reply, cancelRefetch) != ""
  {
  }

  // ---------------------------------------------------------------- the screen

  class WorkshopScreen {
    var busqueda: string
    var talleres: seq<Workshop>
    var talleresFiltrados: seq<Workshop>
    var loading: bool
    var error: Option<string>
    var processingAction: bool

    constructor ()
      ensures busqueda == "" && talleres == [] && talleresFiltrados == []
      ensures loading && error == None && !processingAction
    {
      busqueda := "";
      talleres := [];
      talleresFiltrados := [];
      loading := true;
      error := None;
      processingAction := false;
    }

    /** The load effect: on success both lists become the loaded workshops (whatever the search
        text), on failure the error is shown and the lists stay. */
    method Load(eventId: string, participantReply: Reply<Option<Participant>>,
                workshopsReply: Reply<Option<seq<RawWorkshop>>>,
                enrolledReply: Reply<Option<seq<string>>>)
      modifies this
      ensures !loading
      ensures busqueda == old(busqueda) && processingAction == old(processingAction)
      ensures match LoadResult(eventId, participantReply, workshopsReply, enrolledReply)
              case Loaded(ws) => talleres == ws && talleresFiltrados == ws && error == None
              case LoadFailed(m) =>
                error == Some(m) && talleres == old(talleres) && talleresFiltrados == old(talleresFiltrados)
    {
      if eventId == "" {
        loading := false;
        error := Some(NoEventMessage);
        return;
      }
      loading := true;
      error := None;
      var result := LoadResult(eventId, participantReply, workshopsReply, enrolledReply);
      match result {
        case Loaded(ws) =>
          talleres := ws;
          talleresFiltrados := ws;
        case LoadFailed(m) =>
          error := Some(m);
      }
      loading := false;
    }

    /** `filtrarTalleres`: remember the text and show the workshops it selects. */
    method Search(texto: string)
      modifies this
      ensures busqueda == texto && talleresFiltrados == Visible(talleres, texto)
      ensures talleres == old(talleres) && loading == old(loading) && error == old(error)
      ensures processingAction == old(processingAction)
    {
      busqueda := texto;
      talleresFiltrados := Visible(talleres, texto);
    }

    /** `inscribirseEnTaller`, given the enrol reply and the re-fetched participant. Only on
        success is the list updated: the target is marked enrolled with one more participant and
        the folio found in the re-fetched record, and the filter is re-applied. The busy flag is
        clear afterwards in every case. */
    method Enrol(tallerId: string, reply: Reply<()>, refetch: Refetch) returns (notice: Notice)
      modifies this
      ensures !processingAction
      ensures busqueda == old(busqueda) && loading == old(loading) && error == old(error)
      ensures reply.Ok? && refetch.Read? ==>
                notice == Done &&
                talleres == ApplyEnrol(old(talleres), tallerId, FolioFor(refetch.data, tallerId)) &&
                talleresFiltrados == Visible(talleres, busqueda)
      ensures !(reply.Ok? && refetch.Read?) ==>
                notice == Failed(EnrolFailure(reply, refetch)) &&
                talleres == old(talleres) && talleresFiltrados == old(talleresFiltrados)
    {
      processingAction := true;
      if !reply.Ok? || refetch.RefetchThrew? {
        notice := Failed(EnrolFailure(reply, refetch));
      } else {
        var newFolio := FindFolio(refetch.data, tallerId);
        talleres := ApplyEnrol(talleres, tallerId, newFolio);
        talleresFiltrados := Visible(talleres, busqueda);
        notice := Done;
      }
      processingAction := false;
    }

    /** `cancelarInscripcion`, given the cancel reply and the outcome of the re-fetch (whose body is
        not read). Only on success is the target marked not enrolled, its folio cleared and its
        count lowered without going below zero; the filter is re-applied. */
    method Cancel(tallerId: string, reply: Reply<()>, refetch: Reply<()>) returns (notice: Notice)
      modifies this
      ensures !processingAction
      ensures busqueda == old(busqueda) && loading == old(loading) && error == old(error)
      ensures reply.Ok? && !refetch.Threw? ==>
                notice == Done &&
                talleres == ApplyCancel(old(talleres), tallerId) &&
                talleresFiltrados == Visible(talleres, busqueda)
      ensures !(reply.Ok? && !refetch.Threw?) ==>
                notice == Failed(CancelFailure(reply, refetch)) &&
                talleres == old(talleres) && talleresFiltrados == old(talleresFiltrados)
    {
      processingAction := true;
      if !reply.Ok? || refetch.Threw? {
        notice := Failed(CancelFailure(reply, refetch));
      } else {
        talleres := ApplyCancel(talleres, tallerId);
        talleresFiltrados := Visible(talleres, busqueda);
        notice := Done;
      }
      processingAction := false;
    }
  }

  // ---------------------------------------------------------------- hour of a workshop

  /** The hour on a 12-hour clock: 1..12, with 0 and 12 both shown as 12. */
  function Hour12(h: int): (r: int)
    requires 0 <= h < 24
  {
    var x := h % 12;
    if x != 0 then x else 12
  }

  function Period(h: int): string {
    if h >= 12 then "PM" else "AM"
  }

  /** `formatearHora` from the hour and minute of the start date: "h:mm AM" or "h:mm PM". */
  function FormatHour(h: int, m: int): string
    requires 0 <= h < 24 && 0 <= m < 60
  {
    ClockText(NatToString(Hour12(h)), PadStart(NatToString(m), 2, '0'), Period(h))
  }

  function ClockText(hs: string, ms: string, p: string): string {
    hs + ":" + ms + " " + p
  }

  /** `r` is `n` digits reading as `hour`, ':', two digits reading as `minute`, ' ' and `p`. */
  predicate ReadsAs(r: string, n: nat, hour: int, minute: int, p: string) {
    |r| == n + 6 &&
    (forall k :: 0 <= k < n ==> IsDigit(r[..n][k])) && DigitsValue(r[..n]) == hour &&
    r[n] == ':' &&
    IsDigit(r[n + 1..n + 3][0]) && IsDigit(r[n + 1..n + 3][1]) && DigitsValue(r[n + 1..n + 3]) == minute &&
    r[n + 3] == ' ' && r[n + 4..] == p
  }

  /** The shown hour is in 1..12 (0 shown as 12), "PM" exactly from 12 on, and the shown hour
      with its period determine the 24-hour value. */
  lemma TwelveHourClock(h: int)
    requires 0 <= h < 24
    ensures 1 <= Hour12(h) <= 12
    ensures h == 0 ==> Hour12(h) == 12
    ensures Period(h) == "PM" <==> h >= 12
    ensures Hour12(h) % 12 + (if Period(h) == "PM" then 12 else 0) == h
  {
  }

  /** The minutes as `padStart(2, '0')` leaves them: two digits reading back as `m`. */
  lemma MinuteDigits(m: int)
    requires 0 <= m < 60
    ensures var ms := PadStart(NatToString(m), 2, '0');
            |ms| == 2 && IsDigit(ms[0]) && IsDigit(ms[1]) && DigitsValue(ms) == m
  {
    var s := NatToString(m);
    NatToStringValue(m);
    if m < 10 {
      PadOneDigit(s);
      TwoDigitsValue(['0'] + s);
    } else {
      assert |NatToString(m / 10)| == 1;
      PadTwoDigits(s);
    }
  }

  /** One digit is padded with a leading '0'. */
  lemma PadOneDigit(s: string)
    requires |s| == 1
    ensures PadStart(s, 2, '0') == ['0'] + s
  {
  }

  /** Two digits are left as they are. */
  lemma PadTwoDigits(s: string)
    requires |s| == 2
    ensures PadStart(s, 2, '0') == s
  {
  }

  /** Two digits read as tens and units. */
  lemma TwoDigitsValue(s: string)
    requires |s| == 2 && IsDigit(s[0]) && IsDigit(s[1])
    ensures DigitsValue(s) == (s[0] as int - '0' as int) * 10 + (s[1] as int - '0' as int)
    ensures DigitsValue(s[1..]) == s[1] as int - '0' as int
  {
    assert s[..1][..0] == [] && s[1..][..0] == [];
    assert DigitsValue(s[..1]) == s[0] as int - '0' as int;
    assert DigitsValue(s[1..]) == s[1] as int - '0' as int;
  }

  /** Where the pieces of "h:mm PP" sit in the joined text, and what their digits read as. */
  lemma ClockLayout(hs: string, ms: string, p: string)
    requires forall k :: 0 <= k < |hs| ==> IsDigit(hs[k])
    requires |ms| == 2 && IsDigit(ms[0]) && IsDigit(ms[1]) && |p| == 2
    ensures ReadsAs(ClockText(hs, ms, p), |hs|, DigitsValue(hs), DigitsValue(ms), p)
  {
    var r := ClockText(hs, ms, p);
    var n := |hs|;
    assert r[..n] == hs;
    assert r[n + 1..n + 3] == ms;
  }

  /** The text reads back: the leading digits are the 12-hour value, then ':', exactly two minute
      digits whose value is `m`, a space, and the period. */
  lemma FormatHourReadsBack(h: int, m: int)
    requires 0 <= h < 24 && 0 <= m < 60
    ensures ReadsAs(FormatHour(h, m), |NatToString(Hour12(h))|, Hour12(h), m, Period(h))
  {
    var hs := NatToString(Hour12(h));
    var ms := PadStart(NatToString(m), 2, '0');
    NatToStringValue(Hour12(h));
    MinuteDigits(m);
    ClockLayout(hs, ms, Period(h));
  }
}
