/** The supervisor's workshop screen of one event: the search over the sample workshops, the field
    checks and gender selector of the participant form, the attendance dialog, and the checks and
    body of the on-site registration of a participant. */
module TalleresChecador {
  import opened Common
  import opened Text
  import opened Validation
  import Configuracion

  /** A workshop as the list shows it. */
  datatype SupervisedWorkshop = SupervisedWorkshop(
    id: string, nombreTaller: string, descripcion: string, fecha: string, hora: string,
    cupo: int, cupoActual: int)

  /** The sample workshops the search filters. */
  const TalleresData: seq<SupervisedWorkshop> := [
    SupervisedWorkshop("1", "Desarrollo de Videojuegos", "Aprende a crear videojuegos desde cero",
                       "15 de Abril, 2025", "10:00 AM", 30, 15),
    SupervisedWorkshop("2", "Técnicas de Natación Avanzada", "Mejora tu técnica de natación con expertos",
                       "22 de Abril, 2025", "14:00 PM", 25, 20),
    SupervisedWorkshop("3", "Innovación Espacial", "Descubre las últimas tendencias en exploración espacial",
                       "30 de Abril, 2025", "16:00 PM", 40, 10)]

  /** The search test: the text in the name or in the description, ignoring case. */
  predicate Matches(t: SupervisedWorkshop, texto: string) {
    ContainsIgnoringCase(t.nombreTaller, texto) || ContainsIgnoringCase(t.descripcion, texto)
  }

  /** `filtrarTalleres`: the sample workshops the text selects, in order; all of them for empty text. */
  function FilterWorkshops(texto: string): (r: seq<SupervisedWorkshop>)
    ensures texto == "" ==> r == TalleresData
    ensures texto != "" ==> forall t :: t in r <==> t in TalleresData && Matches(t, texto)
    ensures IsSubsequence(r, TalleresData)
  {
    if texto != "" then Filter(TalleresData, (t: SupervisedWorkshop) => Matches(t, texto))
    else
      FilterKeepsAll(TalleresData, (t: SupervisedWorkshop) => true);
      TalleresData
  }

  /** A search keeps every copy of a selected workshop and drops every copy of the others. */
  lemma FilterWorkshopsCounts(texto: string, t: SupervisedWorkshop)
    requires texto != ""
    ensures multiset(FilterWorkshops(texto))[t] == if Matches(t, texto) then multiset(TalleresData)[t] else 0
  {
    var keep := (w: SupervisedWorkshop) => Matches(w, texto);
    FilterCounts(TalleresData, keep);
    assert FilterWorkshops(texto) == Filter(TalleresData, keep);
  }

  /** This screen's `validateField`: the profile screen's rules for name, username, e-mail, phone
      and gender, and no password rule. */
  predicate ValidateField(field: string, value: string) {
    if field == "nombre" then ValidName(value)
    else if field == "usuario" then ValidUsername(value)
    else if field == "email" then IsEmail(value)
    else if field == "telefono" then ValidPhone(value)
    else if field == "genero" then ValidGender(value)
    else true
  }

  /** The two screens' checks agree on every field but the password, which this one never rejects;
      a field neither screen lists always passes. */
  lemma SameRulesButPassword(field: string, value: string)
    ensures field != "password" ==> (ValidateField(field, value) <==> Configuracion.ValidateField(field, value))
    ensures ValidateField("password", value)
    ensures field !in Configuracion.CheckedFields ==> ValidateField(field, value)
  {
  }

  /** The participant form, and the participant record the look-up by e-mail returns. */
  datatype ParticipantForm = ParticipantForm(
    name: string, lastname: string, gender: string, birthday: string, email: string,
    eventAwarness: string, livingState: string, profession: string, workPlace: string)

  const EmptyForm := ParticipantForm("", "", "", "", "", "", "", "", "")

  /** The body of the event-inscription request. `profession` and `workPlace` are read with `?.`
      and are None (undefined) when neither side has them. */
  datatype InscriptionBody = InscriptionBody(
    name: string, lastname: string, gender: string, birthday: string, email: string,
    eventAwarness: string, livingState: string, profession: Option<string>, workPlace: Option<string>)

  /** `local || found.field` for a field read with `?.`: undefined when there is no record. */
  function OrOptional(local: string, found: Option<ParticipantForm>, field: ParticipantForm -> string): Option<string> {
    if local != "" then Some(local) else if found.Some? then Some(field(found.value)) else None
  }

  /** The fields the body reads from the looked-up record without `?.`, which throw when there is
      no record and the local value is falsy. The e-mail is not among them: the typed e-mail
      passed the check, so it is never empty. */
  predicate MergeThrows(local: ParticipantForm, found: Option<ParticipantForm>) {
    found.None? &&
    (local.name == "" || local.lastname == "" || local.gender == "" || local.birthday == "" ||
     local.eventAwarness == "" || local.livingState == "")
  }

  /** The outcome of building the inscription body. */
  datatype Merge = Body(body: InscriptionBody) | TypeError

  /** The body of `registrarParticipante`: each field is the form's value when it is non-empty and
      the looked-up record's otherwise; the e-mail is the typed one. */
  function MergeBody(correo: string, local: ParticipantForm, found: Option<ParticipantForm>): (r: Merge)
    requires correo != ""
    ensures r.TypeError? <==> MergeThrows(local, found)
    ensures r.Body? ==> r.body.email == correo
  {
    if MergeThrows(local, found) then TypeError
    else
      var f := if found.Some? then found.value else EmptyForm;
      Body(InscriptionBody(
        Or(local.name, f.name), Or(local.lastname, f.lastname), Or(local.gender, f.gender),
        Or(local.birthday, f.birthday), Or(correo, f.email), Or(local.eventAwarness, f.eventAwarness),
        Or(local.livingState, f.livingState),
        OrOptional(local.profession, found, (p: ParticipantForm) => p.profession),
        OrOptional(local.workPlace, found, (p: ParticipantForm) => p.workPlace)))
  }

  /** Each field of the body is the form's value when the form has one, and the record's value
      otherwise; a record is consulted only for the fields the form leaves empty. */
  lemma LocalValuesWin(correo: string, local: ParticipantForm, found: ParticipantForm)
    requires correo != ""
    ensures var r := MergeBody(correo, local, Some(found));
            r.Body? &&
            r.body.name == (if local.name != "" then local.name else found.name) &&
            r.body.lastname == (if local.lastname != "" then local.lastname else found.lastname) &&
            r.body.gender == (if local.gender != "" then local.gender else found.gender) &&
            r.body.birthday == (if local.birthday != "" then local.birthday else found.birthday) &&
            r.body.eventAwarness == (if local.eventAwarness != "" then local.eventAwarness else found.eventAwarness) &&
            r.body.livingState == (if local.livingState != "" then local.livingState else found.livingState) &&
            r.body.profession == Some(if local.profession != "" then local.profession else found.profession) &&
            r.body.workPlace == Some(if local.workPlace != "" then local.workPlace else found.workPlace)
  {
  }

  /** With no record found, a form whose required fields are all filled in is sent as it stands
      (with the typed e-mail), and the optional fields left empty are left out. */
  lemma FilledFormNeedsNoRecord(correo: string, local: ParticipantForm)
    requires correo != ""
    requires local.name != "" && local.lastname != "" && local.gender != "" && local.birthday != ""
    requires local.eventAwarness != "" && local.livingState != ""
    ensures var r := MergeBody(correo, local, None);
            r.Body? &&
            r.body == InscriptionBody(local.name, local.lastname, local.gender, local.birthday, correo,
                                      local.eventAwarness, local.livingState,
                                      if local.profession != "" then Some(local.profession) else None,
                                      if local.workPlace != "" then Some(local.workPlace) else None)
  {
  }

  /** The record the look-up by e-mail leaves in `participantData`: the reply's record when the
      request succeeded, and none after an error status, whose handler only logs the reply. */
  function FoundRecord(lookup: Reply<Option<ParticipantForm>>): (r: Option<ParticipantForm>)
    ensures lookup.Ok? ==> r == lookup.data
    ensures !lookup.Ok? ==> r.None?
  {
    if lookup.Ok? then lookup.data else None
  }

  /** What a press of the register button leads to before the later requests. */
  datatype Registration = InvalidEmail | LookupFailed | MergeFailed | Send(body: InscriptionBody)

  /** `registrarParticipante` up to the inscription request: the e-mail check comes first and stops
      everything; a look-up that got no reply at all makes its handler throw (it reads the missing
      reply), so nothing is sent; otherwise the body is built from the form and the record found. */
  function Register(correo: string, local: ParticipantForm, lookup: Reply<Option<ParticipantForm>>): (r: Registration)
    ensures r == InvalidEmail <==> !IsEmail(correo)
    ensures r == LookupFailed <==> IsEmail(correo) && lookup.Threw?
    ensures r == MergeFailed <==> IsEmail(correo) && !lookup.Threw? && MergeThrows(local, FoundRecord(lookup))
    ensures r.Send? ==> r.body.email == correo && !lookup.Threw? && !MergeThrows(local, FoundRecord(lookup))
    ensures r.Send? ==> MergeBody(correo, local, FoundRecord(lookup)) == Body(r.body)
  {
    if !IsEmail(correo) then InvalidEmail
    else if lookup.Threw? then LookupFailed
    else
      assert correo != "" by { assert 0 < IndexOf(correo, '@'); }
      match MergeBody(correo, local, FoundRecord(lookup))
      case TypeError => MergeFailed
      case Body(b) => Send(b)
  }

  /** An error status from the look-up registers exactly as a reply that found no participant. */
  lemma ErrorStatusIsNoRecord(correo: string, local: ParticipantForm, message: string)
    ensures Register(correo, local, NotOk(message)) == Register(correo, local, Ok(None))
    ensures IsEmail(correo) ==> Register(correo, local, NotOk(message)) != LookupFailed
  {
  }

  /** The two options of the gender selector. */
  datatype GenderChoice = Masculine | Feminine

  /** The screen's state cells. */
  class SupervisorWorkshops {
    var busqueda: string
    var talleresFiltrados: seq<SupervisedWorkshop>
    var participant: ParticipantForm
    var correoParticipante: string
    var showModalRegisterAsisstance: bool
    var workshopId: Option<string>

    constructor ()
      ensures busqueda == "" && talleresFiltrados == [] && participant == EmptyForm
      ensures correoParticipante == "" && !showModalRegisterAsisstance && workshopId == None
    {
      busqueda := "";
      talleresFiltrados := [];
      participant := EmptyForm;
      correoParticipante := "";
      showModalRegisterAsisstance := false;
      workshopId := None;
    }

    /** `filtrarTalleres(texto)`: the search runs over the sample workshops. */
    method Search(texto: string)
      modifies this
      ensures busqueda == texto && talleresFiltrados == FilterWorkshops(texto)
      ensures participant == old(participant) && correoParticipante == old(correoParticipante)
      ensures showModalRegisterAsisstance == old(showModalRegisterAsisstance) && workshopId == old(workshopId)
    {
      busqueda := texto;
      talleresFiltrados := FilterWorkshops(texto);
    }

    /** `mostrarSelectorGenero`: each option is checked under its own name and stored as 'Hombre'
        or 'Mujer'; nothing but the form's gender changes. */
    method ChooseGender(choice: GenderChoice)
      modifies this
      ensures participant == old(participant).(gender := if choice == Masculine then "Hombre" else "Mujer")
      ensures busqueda == old(busqueda) && talleresFiltrados == old(talleresFiltrados)
      ensures correoParticipante == old(correoParticipante)
      ensures showModalRegisterAsisstance == old(showModalRegisterAsisstance) && workshopId == old(workshopId)
    {
      match choice {
        case Masculine =>
          if ValidateField("genero", "Masculino") {
            participant := participant.(gender := "Hombre");
          }
        case Feminine =>
          if ValidateField("genero", "Femenino") {
            participant := participant.(gender := "Mujer");
          }
      }
    }

    /** `abrirModalRegisterAsisstance(id)`: open the attendance dialog for workshop `id`. */
    method OpenAttendanceModal(id: string)
      modifies this
      ensures showModalRegisterAsisstance && workshopId == Some(id)
      ensures busqueda == old(busqueda) && talleresFiltrados == old(talleresFiltrados)
      ensures participant == old(participant) && correoParticipante == old(correoParticipante)
    {
      showModalRegisterAsisstance := true;
      workshopId := Some(id);
    }
  }
}
