/** The profile settings screen: the per-field checks, the edit cycle that changes one field of
    the profile at a time, the gender selector, the reload of the profile and the body of the
    update request. */
module Configuracion {
  import opened Common
  import opened Text
  import opened Validation

  /** What the screen shows in place of a password it does not know. */
  const Sentinel := "********"

  /** The profile keys the update request reads. */
  const PayloadKeys: set<string> :=
    {"nombre", "email", "telefono", "genero", "password", "livingState", "profession", "workPlace"}

  /** The profile the screen starts with, before the reload answers. */
  const InitialUserData: map<string, string> := map[
    "nombre" := "Kuki Ramirez", "usuario" := "Kuki", "email" := "kuki@example.com",
    "telefono" := "+123 456 7890", "genero" := "No especificado", "password" := Sentinel,
    "livingState" := "", "profession" := "", "workPlace" := ""]

  /** `validateField(field, value)`: the fields with a rule are checked against it; every other
      field passes. */
  predicate ValidateField(field: string, value: string) {
    if field == "nombre" then ValidName(value)
    else if field == "usuario" then ValidUsername(value)
    else if field == "email" then IsEmail(value)
    else if field == "telefono" then ValidPhone(value)
    else if field == "genero" then ValidGender(value)
    else if field == "password" then StrongPassword(value)
    else true
  }

  /** The title of the alert a failed check raises. */
  function InvalidTitle(field: string): string {
    if field == "nombre" then "Nombre Inválido"
    else if field == "usuario" then "Nombre de Usuario Inválido"
    else if field == "email" then "Correo Electrónico Inválido"
    else if field == "telefono" then "Teléfono Inválido"
    else if field == "genero" then "Género Inválido"
    else "Contraseña Inválida"
  }

  /** The six fields with a rule. */
  const CheckedFields: set<string> := {"nombre", "usuario", "email", "telefono", "genero", "password"}

  /** Fields without a rule always pass; a field with a rule passes exactly when its rule holds. */
  lemma UncheckedFieldsPass(field: string, value: string)
    ensures field !in CheckedFields ==> ValidateField(field, value)
    ensures field == "password" ==> (ValidateField(field, value) <==> StrongPassword(value))
    ensures field == "genero" ==> (ValidateField(field, value) <==> value in GenderOptions)
  {
  }

  /** The sentinel is not an acceptable password: it is not made of letters and digits. So the
      editor can never store it through a password edit. */
  lemma SentinelIsNotAPassword()
    ensures !ValidateField("password", Sentinel)
  {
    assert !IsAsciiLetter(Sentinel[0]) && !IsDigit(Sentinel[0]);
  }

  /** The values the gender selector stores are not among the options the gender check accepts,
      although the selector checks the option names first. */
  lemma SelectorValuesFailTheCheck()
    ensures ValidateField("genero", "Masculino") && ValidateField("genero", "Femenino")
    ensures !ValidateField("genero", "Hombre") && !ValidateField("genero", "Mujer")
  {
  }

  // ---------------------------------------------------------------- reload and update request

  /** The profile record of /user/me. */
  datatype UserRecord = UserRecord(
    name: string, lastname: string, email: string, cellphoneNumber: string, gender: string,
    livingState: string, profession: string, workPlace: string)

  /** The profile after a reload: the record's fields under the screen's keys, the full name joined
      with a space, and the password shown as the sentinel. The username is not part of it. */
  function Reloaded(data: UserRecord): (m: map<string, string>)
    ensures m.Keys == PayloadKeys
    ensures m["password"] == Sentinel
  {
    map[
      "nombre" := data.name + " " + data.lastname, "email" := data.email,
      "telefono" := data.cellphoneNumber, "genero" := data.gender, "password" := Sentinel,
      "livingState" := data.livingState, "profession" := data.profession, "workPlace" := data.workPlace]
  }

  /** The body of the update request; `password` is None (left out of the JSON) for the sentinel. */
  datatype Payload = Payload(
    name: string, lastname: string, email: string, cellphoneNumber: string, gender: string,
    password: Option<string>, livingState: string, profession: string, workPlace: string)

  /** `nombre.split(' ')[k] || ''`. */
  function Word(words: seq<string>, k: nat): string {
    if k < |words| then words[k] else ""
  }

  /** The body `guardarTodosLosCambios` sends: words 0 and 1 of the full name as the name, words 2
      and 3 as the last name, the password only when it is not the sentinel. */
  function BuildPayload(userData: map<string, string>): (p: Payload)
    requires PayloadKeys <= userData.Keys
    ensures p.password == None <==> userData["password"] == Sentinel
    ensures p.password.Some? ==> p.password.value == userData["password"]
    ensures p.email == userData["email"] && p.cellphoneNumber == userData["telefono"]
    ensures p.gender == userData["genero"] && p.livingState == userData["livingState"]
    ensures p.profession == userData["profession"] && p.workPlace == userData["workPlace"]
  {
    var words := Split(userData["nombre"], ' ');
    Payload(
      Word(words, 0) + " " + Word(words, 1),
      Word(words, 2) + " " + Word(words, 3),
      userData["email"], userData["telefono"], userData["genero"],
      if userData["password"] == Sentinel then None else Some(userData["password"]),
      userData["livingState"], userData["profession"], userData["workPlace"])
  }

  /** A full name of any number of space-free words goes out as words 0 and 1 for the name and
      words 2 and 3 for the last name, each missing word as "": a one-word name goes out as
      "a ", a three-word name has the last name "c ", and words after the fourth are dropped. */
  lemma {:induction false} NameWords(userData: map<string, string>, ws: seq<string>)
    requires PayloadKeys <= userData.Keys
    requires forall k :: 0 <= k < |ws| ==> ' ' !in ws[k]
    requires userData["nombre"] == Join(ws, ' ')
    ensures BuildPayload(userData).name == Word(ws, 0) + " " + Word(ws, 1)
    ensures BuildPayload(userData).lastname == Word(ws, 2) + " " + Word(ws, 3)
  {
    if ws == [] {
      SplitHead("", ' ');
    } else {
      SplitJoin(ws, ' ');
    }
  }

  /** A full name of four space-free words goes out as two given names and two last names. */
  lemma {:induction false} FourWordName(userData: map<string, string>, a: string, b: string, c: string, d: string)
    requires PayloadKeys <= userData.Keys
    requires ' ' !in a && ' ' !in b && ' ' !in c && ' ' !in d
    requires userData["nombre"] == a + " " + b + " " + c + " " + d
    ensures BuildPayload(userData).name == a + " " + b
    ensures BuildPayload(userData).lastname == c + " " + d
  {
    JoinFour(a, b, c, d);
    SplitJoin([a, b, c, d], ' ');
  }

  /** Four pieces joined with a space. */
  lemma JoinFour(a: string, b: string, c: string, d: string)
    ensures Join([a, b, c, d], ' ') == a + " " + b + " " + c + " " + d
  {
    assert [c, d][1..] == [d];
    assert Join([c, d], ' ') == c + " " + d;
    assert [b, c, d][1..] == [c, d];
    assert Join([b, c, d], ' ') == b + " " + c + " " + d;
    assert [a, b, c, d][1..] == [b, c, d];
  }

  /** A reloaded profile sent back unedited: every field but the name goes out as it came in and
      the password is left out; the name and last name of one word each both go out as the name,
      and the last name goes out as a single space. */
  lemma {:induction false} ReloadThenSend(data: UserRecord)
    requires ' ' !in data.name && ' ' !in data.lastname
    ensures var p := BuildPayload(Reloaded(data));
            p.name == data.name + " " + data.lastname && p.lastname == " " &&
            p.email == data.email && p.cellphoneNumber == data.cellphoneNumber &&
            p.gender == data.gender && p.password == None && p.livingState == data.livingState &&
            p.profession == data.profession && p.workPlace == data.workPlace
  {
    var m := Reloaded(data);
    assert Join([data.name, data.lastname], ' ') == m["nombre"] by {
      assert [data.name, data.lastname][1..] == [data.lastname];
    }
    SplitJoin([data.name, data.lastname], ' ');
  }

  /** A password edit that passes the check is always sent: what it stores is never the sentinel. */
  lemma SavedPasswordIsSent(userData: map<string, string>, value: string)
    requires PayloadKeys <= userData.Keys
    requires ValidateField("password", value)
    ensures BuildPayload(userData["password" := value]).password == Some(value)
  {
    SentinelIsNotAPassword();
  }

  // ---------------------------------------------------------------- the screen

  /** The two buttons of the gender selector that act (the third dismisses it). */
  datatype GenderChoice = Masculine | Feminine | Dismissed

  /** The profile screen's state cells. */
  class ProfileEditor {
    var userData: map<string, string>
    var editingField: Option<string>
    var tempValue: string

    /** Every key the update request reads is present. */
    predicate Valid()
      reads this
    {
      PayloadKeys <= userData.Keys
    }

    constructor ()
      ensures Valid()
      ensures userData == InitialUserData && editingField == None && tempValue == ""
    {
      userData := InitialUserData;
      editingField := None;
      tempValue := "";
    }

    /** `startEditing(field, value)`: open the field's editor with its current value. */
    method StartEditing(field: string, value: string)
      modifies this
      ensures editingField == Some(field) && tempValue == value && userData == old(userData)
    {
      editingField := Some(field);
      tempValue := value;
    }

    /** Typing in the open editor. */
    method Type(value: string)
      modifies this
      ensures tempValue == value && editingField == old(editingField) && userData == old(userData)
    {
      tempValue := value;
    }

    /** `saveChanges(field)`: a value that passes the field's check replaces that one key and
        closes the editor; one that fails raises the field's alert and changes nothing. */
    method SaveChanges(field: string) returns (alert: Option<string>)
      requires Valid()
      modifies this
      ensures Valid()
      ensures tempValue == old(tempValue)
      ensures ValidateField(field, tempValue) ==>
                userData == old(userData)[field := tempValue] && editingField == None && alert == None
      ensures !ValidateField(field, tempValue) ==>
                userData == old(userData) && editingField == old(editingField) &&
                alert == Some(InvalidTitle(field))
    {
      if ValidateField(field, tempValue) {
        userData := userData[field := tempValue];
        editingField := None;
        alert := None;
      } else {
        alert := Some(InvalidTitle(field));
      }
    }

    /** `cancelEditing`: close the editor; the profile is untouched. */
    method CancelEditing()
      modifies this
      ensures editingField == None && userData == old(userData) && tempValue == old(tempValue)
    {
      editingField := None;
    }

    /** `mostrarSelectorGenero`: each option is checked under its own name, then stored as
        'Hombre' or 'Mujer'; only the gender changes. */
    method ChooseGender(choice: GenderChoice)
      requires Valid()
      modifies this
      ensures Valid()
      ensures editingField == old(editingField) && tempValue == old(tempValue)
      ensures choice == Masculine ==> userData == old(userData)["genero" := "Hombre"]
      ensures choice == Feminine ==> userData == old(userData)["genero" := "Mujer"]
      ensures choice == Dismissed ==> userData == old(userData)
    {
      match choice {
        case Masculine =>
          if ValidateField("genero", "Masculino") {
            userData := userData["genero" := "Hombre"];
          }
        case Feminine =>
          if ValidateField("genero", "Femenino") {
            userData := userData["genero" := "Mujer"];
          }
        case Dismissed =>
      }
    }

    /** `getUserData`: a reply with a body replaces the whole profile; an empty body or a failed
        request (which raises an alert) leaves it as it was. */
    method Reload(reply: Reply<Option<UserRecord>>) returns (alert: bool)
      requires Valid()
      modifies this
      ensures Valid()
      ensures editingField == old(editingField) && tempValue == old(tempValue)
      ensures reply.Ok? && reply.data.Some? ==> userData == Reloaded(reply.data.value) && !alert
      ensures reply.Ok? && reply.data.None? ==> userData == old(userData) && !alert
      ensures !reply.Ok? ==> userData == old(userData) && alert
    {
      alert := false;
      match reply {
        case Ok(body) =>
          if body.Some? {
            userData := Reloaded(body.value);
          }
        case _ =>
          alert := true;
      }
    }

  }
}
