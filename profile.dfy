/** The profile screen, src/screens/UserScreen/UserScreen.tsx: its pure
    helpers (ObjectId check, e-mail check, avatar initials, failure
    messages) and the handlers that change its state: saving the name, the
    e-mail and the password, creating a park, the debounced delete search
    and the delete itself. The user service, the park creation and the
    delete requests are outcomes passed in; the handlers return what they
    send and the alerts they raise. */
module Profile {
  import opened Base
  import opened Text
  import opened Http
  import opened Api
  import opened Session
  import opened Roles
  import opened Catalog
  import opened ParkForm
  import opened Debounce
  import opened ProfileSearch
  import opened Login

  // ------------------------------------------------------------ helpers

  predicate IsHexDigit(c: char) {
    '0' <= c <= '9' || 'a' <= c <= 'f' || 'A' <= c <= 'F'
  }

  /** `isMongoId`: after trimming, exactly 24 hexadecimal digits. */
  predicate IsMongoId(v: string) {
    var t := Trim(v);
    |t| == 24 && forall i :: 0 <= i < |t| ==> IsHexDigit(t[i])
  }

  /** A valid id has no whitespace, so the trimmed id is the id itself. */
  lemma MongoIdIsTrimmed(v: string)
    requires IsMongoId(v)
    ensures NoSpace(Trim(v)) && Trim(Trim(v)) == Trim(v) && IsMongoId(Trim(v))
  {
    TrimIdempotent(v);
  }

  /** Every '@' of `s` is at `i`. */
  predicate OnlyAtSignAt(s: string, i: int) {
    forall k :: 0 <= k < |s| && s[k] == '@' ==> k == i
  }

  /** `validateEmail`, `/^[^\s@]+@[^\s@]+\.[^\s@]+$/`: no whitespace,
      exactly one '@', with a character before it and a '.' after it that
      has a character on each side. */
  predicate ValidateEmail(s: string) {
    var i := AtIndex(s);
    NoSpace(s) && 0 < i < |s| && DotAfter(s, i) && OnlyAtSignAt(s, i)
  }

  /** The index of the first '@' of `s`, or `|s|` when there is none. */
  function AtIndex(s: string): (i: nat)
    ensures i <= |s| && (i < |s| ==> s[i] == '@')
    ensures forall k :: 0 <= k < i ==> s[k] != '@'
  {
    if s == [] || s[0] == '@' then 0 else 1 + AtIndex(s[1..])
  }

  /** The profile check is stricter than the login check... */
  lemma ProfileEmailPassesLogin(s: string)
    requires ValidateEmail(s)
    ensures LoginEmailShape(s)
  {
  }

  /** ...strictly: a second '@' passes the login form but not the profile
      form. */
  lemma SecondAtSign()
    ensures LoginEmailShape("a@b@c.d") && !ValidateEmail("a@b@c.d")
  {
    var s: string := "a@b@c.d";
    assert s[1] == '@' && s[5] == '.' && DotAfter(s, 1);
    assert s[3] == '@';
  }

  const InvalidEmailMsg := "Informe um e-mail válido."
  const PasswordNeededMsg := "Informe sua senha atual para confirmar a troca de e-mail."
  const ShortNewPasswordMsg := "A nova senha deve ter pelo menos 6 caracteres."
  const MismatchMsg := "A confirmação não coincide com a nova senha."
  const MinNewPassword := 6
  const NoSelectionMsg := "Selecione um item para excluir."
  const BadIdMsg := "ID inválido (esperado ObjectId de 24 hex)."
  const SearchFailedMsg := "Falha ao buscar."

  /** The message of a failed e-mail change: the server's detail, else a
      fixed message for 401, 400 and 409, else a generic one. */
  function EmailFailure(status: Option<int>, detail: Option<string>): (m: string)
    ensures Truthy(detail) ==> m == detail.value
    ensures !Truthy(detail) && status == Some(401) ==> m == "Senha atual incorreta."
    ensures !Truthy(detail) && status == Some(400) ==> m == "Dados inválidos."
    ensures !Truthy(detail) && status == Some(409) ==> m == "Este e-mail já está em uso."
    ensures !Truthy(detail) && status !in {Some(400), Some(401), Some(409)} ==> m == "Não foi possível alterar o e-mail."
  {
    if Truthy(detail) then detail.value
    else if status == Some(401) then "Senha atual incorreta."
    else if status == Some(400) then "Dados inválidos."
    else if status == Some(409) then "Este e-mail já está em uso."
    else "Não foi possível alterar o e-mail."
  }

  /** The message of a failed password change. */
  function PasswordFailure(status: Option<int>, detail: Option<string>): (m: string)
    ensures Truthy(detail) ==> m == detail.value
    ensures !Truthy(detail) ==> m == (if status == Some(401) then "Senha atual incorreta." else "Não foi possível alterar a senha.")
  {
    OrDefault(detail, if status == Some(401) then "Senha atual incorreta." else "Não foi possível alterar a senha.")
  }

  /** The message of a failed delete. */
  function DeleteFailure(status: Option<int>, detail: Option<string>): (m: string)
    ensures Truthy(detail) ==> m == detail.value
    ensures !Truthy(detail) ==> m == (if status == Some(404) then "Registro não encontrado." else "Não foi possível excluir.")
  {
    OrDefault(detail, if status == Some(404) then "Registro não encontrado." else "Não foi possível excluir.")
  }

  // ------------------------------------------------------------ initials

  /** The first whitespace-free run of `s`. */
  function FirstWord(s: string): (w: string)
    ensures w <= s && NoSpace(w)
    ensures |w| < |s| ==> IsSpace(s[|w|])
    ensures s != [] && !IsSpace(s[0]) ==> |w| >= 1
  {
    if s == [] || IsSpace(s[0]) then [] else [s[0]] + FirstWord(s[1..])
  }

  /** What follows the first word and the whitespace after it. */
  function AfterWord(s: string): (r: string)
    requires s != [] && !IsSpace(s[0])
    ensures |r| < |s| && (r == [] || !IsSpace(r[0]))
  {
    TrimStart(s[|FirstWord(s)|..])
  }

  /** `s.split(/\s+/)` of a string that does not start with whitespace: the
      maximal whitespace-free runs, in order. */
  function Words(s: string): (ws: seq<string>)
    requires s == [] || !IsSpace(s[0])
    ensures forall k :: 0 <= k < |ws| ==> ws[k] != [] && NoSpace(ws[k])
    decreases |s|
  {
    if s == [] then []
    else
      var tail := Words(AfterWord(s));
      ConsWords(FirstWord(s), tail);
      [FirstWord(s)] + tail
  }

  lemma ConsWords(w: string, tail: seq<string>)
    requires w != [] && NoSpace(w)
    requires forall k :: 0 <= k < |tail| ==> tail[k] != [] && NoSpace(tail[k])
    ensures forall k :: 0 <= k < |[w] + tail| ==> ([w] + tail)[k] != [] && NoSpace(([w] + tail)[k])
  {
  }

  /** `user?.name || user?.email || "U"` */
  function DisplayBase(user: Option<User>): string {
    if user.Some? && user.value.name != "" then user.value.name
    else if user.Some? && user.value.email != "" then user.value.email
    else "U"
  }

  function Capitals(words: seq<string>): (r: string)
    requires forall k :: 0 <= k < |words| ==> words[k] != []
    ensures |r| == |words|
    ensures forall k :: 0 <= k < |r| ==> r[k] == UpperChar(words[k][0])
  {
    if words == [] then [] else [UpperChar(words[0][0])] + Capitals(words[1..])
  }

  /** The words of the trimmed display name. */
  function NameWords(user: Option<User>): (ws: seq<string>)
    ensures forall k :: 0 <= k < |ws| ==> ws[k] != []
  {
    var t := Trim(DisplayBase(user));
    assert t == [] || !IsSpace(t[0]);
    Words(t)
  }

  /** The capitalised first letters of the first two words. */
  function FirstInitials(ws: seq<string>): (r: string)
    requires forall k :: 0 <= k < |ws| ==> ws[k] != []
    ensures |r| <= 2 && |r| <= |ws| && (|ws| >= 2 ==> |r| == 2) && (|ws| < 2 ==> |r| == |ws|)
    ensures forall k :: 0 <= k < |r| ==> r[k] == UpperChar(ws[k][0])
  {
    Capitals(if |ws| < 2 then ws else ws[..2])
  }

  /** `initials`: the capitalised first letters of the first two words of
      the trimmed display name. */
  function Initials(user: Option<User>): (r: string)
    ensures |r| <= 2 && |r| <= |NameWords(user)| && (|NameWords(user)| >= 2 ==> |r| == 2)
    ensures |NameWords(user)| < 2 ==> |r| == |NameWords(user)|
    ensures forall k :: 0 <= k < |r| ==> r[k] == UpperChar(NameWords(user)[k][0])
  {
    FirstInitials(NameWords(user))
  }

  // ------------------------------------------------------------ e-mail change

  /** The checks of `onSaveEmail` before anything is sent: the normalised
      address must pass `validateEmail`, then the current password must not
      be blank. */
  function EmailGate(email: string, currentPass: string): Option<string> {
    if !ValidateEmail(Lower(Trim(email))) then Some(InvalidEmailMsg)
    else if Trim(currentPass) == "" then Some(PasswordNeededMsg)
    else None
  }

  /** The address is checked before the password, and a change goes ahead
      exactly when both checks pass. */
  lemma EmailGateOrder(email: string, currentPass: string)
    ensures EmailGate(email, currentPass).None? <==> ValidateEmail(Lower(Trim(email))) && Trim(currentPass) != ""
    ensures !ValidateEmail(Lower(Trim(email))) ==> EmailGate(email, currentPass) == Some(InvalidEmailMsg)
    ensures ValidateEmail(Lower(Trim(email))) && Trim(currentPass) == "" ==> EmailGate(email, currentPass) == Some(PasswordNeededMsg)
  {
  }

  /** The outcome of the checks of `onDelete`. */
  datatype DeleteGate = Refused(err: string) | Forbidden | Confirm(id: string)

  /** The checks of `onDelete`, in order: an id must be selected, it must
      be an ObjectId, and the user must be an administrator. */
  function CheckDelete(deleteId: string, role: Option<string>): DeleteGate {
    var id := Trim(deleteId);
    if id == "" then Refused(NoSelectionMsg)
    else if !IsMongoId(id) then Refused(BadIdMsg)
    else if !IsAdminRole(role) then Forbidden
    else Confirm(id)
  }

  /** The checks run in order, and a delete is confirmed only for an
      administrator and an id that is 24 hexadecimal digits once trimmed. */
  lemma CheckDeleteOrder(deleteId: string, role: Option<string>)
    ensures var g := CheckDelete(deleteId, role);
            (Trim(deleteId) == "" ==> g == Refused(NoSelectionMsg)) &&
            (Trim(deleteId) != "" && !IsMongoId(Trim(deleteId)) ==> g == Refused(BadIdMsg)) &&
            (Trim(deleteId) != "" && IsMongoId(Trim(deleteId)) && !IsAdminRole(role) ==> g == Forbidden) &&
            (g.Confirm? <==> IsMongoId(Trim(deleteId)) && IsAdminRole(role)) &&
            (g.Confirm? ==> g.id == Trim(deleteId) && |g.id| == 24 && NoSpace(g.id))
  {
    var id := Trim(deleteId);
    TrimIdempotent(deleteId);
    if IsMongoId(id) {
      assert Trim(id) == id;
      assert NoSpace(id) by {
        forall i | 0 <= i < |id| ensures !IsSpace(id[i]) {
          assert IsHexDigit(id[i]);
        }
      }
    }
  }

  /** What the e-mail change returns. */
  datatype EmailReply = EmailReply(email: string, token: Option<string>, role: Option<string>, active: Option<bool>)

  /** The user signed in after an e-mail change: with a token in the reply,
      the e-mail, token, role and active flag are replaced; without one,
      only the e-mail. */
  function UpdatedUser(u: User, res: EmailReply): (r: User)
    ensures r.id == u.id && r.name == u.name && r.email == res.email
    ensures Truthy(res.token) ==> r.token == res.token && r.role == res.role && r.active == res.active
    ensures !Truthy(res.token) ==> r.token == u.token && r.role == u.role && r.active == u.active
  {
    if Truthy(res.token) then u.(email := res.email, token := res.token, role := res.role, active := res.active)
    else u.(email := res.email)
  }

  /** The storage after a successful e-mail change. */
  function EntriesAfterEmailChange(entries: map<string, string>, u: User, res: EmailReply): (r: map<string, string>)
    ensures UserKey in r && Parse(r[UserKey]) == Some(UpdatedUser(u, res))
    ensures Truthy(res.token) ==> TokenKey in r && r[TokenKey] == res.token.value
    ensures !Truthy(res.token) ==> (TokenKey in r <==> TokenKey in entries)
  {
    ParseStringify(UpdatedUser(u, res));
    var withToken := if Truthy(res.token) then entries[TokenKey := res.token.value] else entries;
    withToken[UserKey := Stringify(UpdatedUser(u, res))]
  }

  /** The success path of `onSaveEmail`: store the token (when one came
      back), then sign the updated user in. The client's header is not
      touched. */
  method ApplyEmailChange(auth: AuthProvider, u: User, res: EmailReply)
    modifies auth, auth.store
    ensures auth.store.entries == EntriesAfterEmailChange(old(auth.store.entries), u, res)
    ensures auth.user == Some(UpdatedUser(u, res)) && auth.signed
  {
    if Truthy(res.token) {
      auth.store.SetItem(TokenKey, res.token.value);
    }
    auth.SignIn(UpdatedUser(u, res));
  }

  /** What the profile screen sends to the user service. */
  datatype EmailChange = EmailChange(email: string, currentPassword: string)
  datatype PasswordChange = PasswordChange(currentPassword: string, newPassword: string)

  /** A pending delete search: the target type and the query captured when
      the keystroke happened. */
  datatype Lookup = Lookup(kind: DeleteTarget, q: string)

  /** `deleteByType`: `DELETE /eventos/<id>` or `DELETE /atividades/<id>`. */
  function DeletePath(kind: DeleteTarget, id: string): string {
    match kind
    case EventoTarget => "/eventos/" + id
    case AtividadeTarget => "/atividades/" + id
  }

  function KindName(kind: DeleteTarget): string {
    match kind
    case EventoTarget => "evento"
    case AtividadeTarget => "atividade"
  }

  /** The alert of a non-administrator's delete. */
  const ForbiddenAlert := Alert("Acesso restrito", "Somente administradores podem excluir registros.")

  /** The confirmation asked before a delete. */
  function ConfirmQuestion(kind: DeleteTarget, id: string): Alert {
    Alert("Confirmar exclusão", "Excluir " + KindName(kind) + " com ID:\n" + id)
  }

  /** Without a dialog payload the park form is all blank, so nothing is
      ever created. */
  lemma MissingPayloadIsRejected()
    ensures Validate(ParqueCreate("", "", "", ""), ScreenImagemMissing) == Some(NomeMissing)
  {
    var fields := FieldsOf(ParqueCreate("", "", "", ""));
    assert Blank(fields[0]);
  }

  /** The payload `onCreateParque` posts: the dialog's fields trimmed, or
      all blank when the dialog gave none. */
  function CreatePayload(payloadFromDialog: Option<ParqueCreate>): ParqueCreate {
    if payloadFromDialog.Some? then TrimAll(payloadFromDialog.value) else ParqueCreate("", "", "", "")
  }

  /** The posted payload is the dialog's payload trimmed, which passes or
      fails validation exactly as the dialog's; with no payload the name
      check fails first. */
  lemma CreatePayloadValidation(payloadFromDialog: Option<ParqueCreate>)
    ensures var p := CreatePayload(payloadFromDialog);
            TrimAll(p) == p &&
            (payloadFromDialog.Some? ==> Validate(p, ScreenImagemMissing) == Validate(payloadFromDialog.value, ScreenImagemMissing)) &&
            (payloadFromDialog.None? ==> Validate(p, ScreenImagemMissing) == Some(NomeMissing))
  {
    if payloadFromDialog.Some? {
      TrimAllValidate(payloadFromDialog.value, ScreenImagemMissing);
    } else {
      MissingPayloadIsRejected();
      assert Trim("") == "";
    }
  }

  // ------------------------------------------------------------ the screen

  /** `name.trim() || user.name || ""`: the typed name, or the current one
      when nothing but whitespace was typed. */
  function NameToSave(name: string, u: User): string {
    if Trim(name) != "" then Trim(name) else u.name
  }

  /** A typed name is saved trimmed; a blank one keeps the current name, so
      the saved name is empty only when the user had none. */
  lemma NameToSaveChoice(name: string, u: User)
    ensures Trim(name) != "" ==> NameToSave(name, u) == Trim(name) && Trim(NameToSave(name, u)) == NameToSave(name, u)
    ensures Trim(name) == "" ==> NameToSave(name, u) == u.name
    ensures NameToSave(name, u) == "" <==> Trim(name) == "" && u.name == ""
  {
    TrimIdempotent(name);
  }

  class ProfileScreen {
    const auth: AuthProvider
    const lookups: Debouncer<Lookup>

    var name: string
    var email: string
    var emailCurrentPass: string
    var currentPass: string
    var newPass: string
    var confirmPass: string
    var emailErr: Option<string>
    var passErr: Option<string>
    var saving: bool
    var openName: bool
    var openEmail: bool
    var openPass: bool
    var openParque: bool
    var openDelete: bool
    var parqueErr: Option<string>
    var savingParque: bool
    var deleteType: DeleteTarget
    var deleteId: string
    var deleteErr: Option<string>
    var deleting: bool
    var deleteQuery: string
    var deleteResults: seq<Candidate>
    var searching: bool

    ghost predicate Valid()
      reads this, lookups
    {
      lookups.Valid()
    }

    /** The screen mounts with the name and e-mail of the signed-in user. */
    constructor (auth: AuthProvider)
      ensures this.auth == auth && Valid() && fresh(lookups)
      ensures name == (if auth.user.Some? then auth.user.value.name else "")
      ensures email == (if auth.user.Some? then auth.user.value.email else "")
      ensures deleteType == EventoTarget && deleteId == "" && deleteQuery == "" && deleteResults == []
      ensures emailErr == None && passErr == None && parqueErr == None && deleteErr == None
    {
      this.auth := auth;
      lookups := new Debouncer<Lookup>();
      name := if auth.user.Some? then auth.user.value.name else "";
      email := if auth.user.Some? then auth.user.value.email else "";
      emailCurrentPass, currentPass, newPass, confirmPass := "", "", "", "";
      emailErr, passErr, parqueErr, deleteErr := None, None, None, None;
      saving, savingParque, deleting, searching := false, false, false, false;
      openName, openEmail, openPass, openParque, openDelete := false, false, false, false, false;
      deleteType := EventoTarget;
      deleteId, deleteQuery := "", "";
      deleteResults := [];
    }

    /** `onSaveName`, with the outcome of the name update (the saved name). */
    method OnSaveName(response: Response<string>) returns (sent: Option<string>, alert: Option<Alert>)
      modifies this`saving, this`openName, auth, auth.store
      ensures old(auth.user).None? ==> sent == None && alert == None && unchanged(auth, auth.store)
      ensures old(auth.user).Some? && NameToSave(old(name), old(auth.user).value) == "" ==>
        sent == None && alert == Some(Alert("Nome inválido", "Informe um nome válido.")) && unchanged(auth, auth.store)
      ensures sent.None? ==> saving == old(saving) && openName == old(openName)
      ensures old(auth.user).Some? && NameToSave(old(name), old(auth.user).value) != "" ==>
        sent == Some(NameToSave(old(name), old(auth.user).value)) && !saving
      ensures old(auth.user).Some? && sent.Some? && response.Ok? ==>
        auth.user == Some(old(auth.user).value.(name := response.body)) && auth.signed &&
        auth.store.entries == old(auth.store.entries)[UserKey := Stringify(old(auth.user).value.(name := response.body))] &&
        !openName && alert == None
      ensures old(auth.user).Some? && sent.Some? && response.Err? ==>
        alert == Some(Alert("Erro ao salvar nome", MessageOr(response.detail, "Tente novamente."))) &&
        unchanged(auth, auth.store) && openName == old(openName)
    {
      sent, alert := None, None;
      if auth.user.None? {
        return;
      }
      var u := auth.user.value;
      var newName := NameToSave(name, u);
      if newName == "" {
        alert := Some(Alert("Nome inválido", "Informe um nome válido."));
        return;
      }
      sent := Some(newName);
      alert := SendName(u, response);
    }

    /** The part of `onSaveName` after the request is sent: on success the
        user is signed in again under the name the backend returned and the
        dialog closes; on failure an alert explains why. */
    method SendName(u: User, response: Response<string>) returns (alert: Option<Alert>)
      modifies this`saving, this`openName, auth, auth.store
      ensures !saving
      ensures response.Ok? ==>
        auth.user == Some(u.(name := response.body)) && auth.signed &&
        auth.store.entries == old(auth.store.entries)[UserKey := Stringify(u.(name := response.body))] &&
        !openName && alert == None
      ensures response.Err? ==>
        alert == Some(Alert("Erro ao salvar nome", MessageOr(response.detail, "Tente novamente."))) &&
        unchanged(auth, auth.store) && openName == old(openName)
    {
      alert := None;
      saving := true;
      if response.Ok? {
        auth.SignIn(u.(name := response.body));
        openName := false;
      } else {
        alert := Some(Alert("Erro ao salvar nome", MessageOr(response.detail, "Tente novamente.")));
      }
      saving := false;
    }

    /** `onSaveEmail`: the typed e-mail is trimmed and lower-cased and
        must pass the checks of `EmailGate`; then the change is sent. */
    method OnSaveEmail(response: Response<EmailReply>) returns (sent: Option<EmailChange>, alert: Option<Alert>)
      modifies this`emailErr, this`saving, this`openEmail, this`emailCurrentPass, auth, auth.store
      ensures old(auth.user).None? ==> emailErr == old(emailErr)
      ensures old(auth.user).Some? ==> emailErr == EmailGate(old(email), old(emailCurrentPass))
      ensures sent.Some? <==> old(auth.user).Some? && emailErr.None?
      ensures sent.None? ==>
        alert == None && unchanged(auth, auth.store) &&
        saving == old(saving) && openEmail == old(openEmail) && emailCurrentPass == old(emailCurrentPass)
      ensures sent.Some? ==> sent.value == EmailChange(Lower(Trim(old(email))), old(emailCurrentPass)) && !saving
      ensures sent.Some? && response.Ok? ==>
        auth.user == Some(UpdatedUser(old(auth.user).value, response.body)) && auth.signed &&
        auth.store.entries == EntriesAfterEmailChange(old(auth.store.entries), old(auth.user).value, response.body) &&
        !openEmail && emailCurrentPass == "" && alert == None
      ensures sent.Some? && response.Err? ==>
        alert == Some(Alert("Erro ao salvar e-mail", EmailFailure(response.status, response.detail))) &&
        unchanged(auth, auth.store) && openEmail == old(openEmail) && emailCurrentPass == old(emailCurrentPass)
    {
      sent, alert := None, None;
      if auth.user.None? {
        return;
      }
      var ok := CheckEmail();
      if !ok {
        return;
      }
      sent := Some(EmailChange(Lower(Trim(email)), emailCurrentPass));
      alert := SendEmailChange(auth.user.value, response);
    }

    /** The checks of `onSaveEmail` before anything is sent: their message,
        if any, is shown in the dialog. */
    method CheckEmail() returns (ok: bool)
      modifies this`emailErr
      ensures emailErr == EmailGate(email, emailCurrentPass) && (ok <==> emailErr.None?)
    {
      emailErr := EmailGate(email, emailCurrentPass);
      ok := emailErr.None?;
    }

    /** The part of `onSaveEmail` after the request is sent: on success the
        updated user is signed in, the dialog closed and the password
        cleared; on failure an alert explains why. */
    method SendEmailChange(u: User, response: Response<EmailReply>) returns (alert: Option<Alert>)
      modifies this`saving, this`openEmail, this`emailCurrentPass, auth, auth.store
      ensures !saving
      ensures response.Ok? ==>
        auth.user == Some(UpdatedUser(u, response.body)) && auth.signed &&
        auth.store.entries == EntriesAfterEmailChange(old(auth.store.entries), u, response.body) &&
        !openEmail && emailCurrentPass == "" && alert == None
      ensures response.Err? ==>
        alert == Some(Alert("Erro ao salvar e-mail", EmailFailure(response.status, response.detail))) &&
        unchanged(auth, auth.store) && openEmail == old(openEmail) && emailCurrentPass == old(emailCurrentPass)
    {
      alert := None;
      saving := true;
      if response.Ok? {
        ApplyEmailChange(auth, u, response.body);
        openEmail := false;
        emailCurrentPass := "";
      } else {
        alert := Some(Alert("Erro ao salvar e-mail", EmailFailure(response.status, response.detail)));
      }
      saving := false;
    }

    /** `onSavePassword`: a new password shorter than six characters is
        refused before the confirmation is compared; on success the three
        fields are cleared. */
    method OnSavePassword(response: Response<()>) returns (sent: Option<PasswordChange>, alert: Option<Alert>)
      modifies this`passErr, this`saving, this`currentPass, this`newPass, this`confirmPass, this`openPass
      ensures |old(newPass)| < MinNewPassword ==> sent == None && alert == None && passErr == Some(ShortNewPasswordMsg)
      ensures |old(newPass)| >= MinNewPassword && old(newPass) != old(confirmPass) ==>
        sent == None && alert == None && passErr == Some(MismatchMsg)
      ensures sent.None? ==>
        currentPass == old(currentPass) && newPass == old(newPass) && confirmPass == old(confirmPass) &&
        saving == old(saving) && openPass == old(openPass)
      ensures |old(newPass)| >= MinNewPassword && old(newPass) == old(confirmPass) ==>
        sent == Some(PasswordChange(old(currentPass), old(newPass))) && passErr == None && !saving
      ensures sent.Some? && response.Ok? ==>
        currentPass == "" && newPass == "" && confirmPass == "" && !openPass &&
        alert == Some(Alert("Senha alterada", "Sua senha foi atualizada com sucesso."))
      ensures sent.Some? && response.Err? ==>
        currentPass == old(currentPass) && newPass == old(newPass) && confirmPass == old(confirmPass) &&
        openPass == old(openPass) &&
        alert == Some(Alert("Erro ao salvar senha", PasswordFailure(response.status, response.detail)))
    {
      sent, alert := None, None;
      if |newPass| < MinNewPassword {
        passErr := Some(ShortNewPasswordMsg);
        return;
      }
      if newPass != confirmPass {
        passErr := Some(MismatchMsg);
        return;
      }
      passErr := None;
      saving := true;
      sent := Some(PasswordChange(currentPass, newPass));
      if response.Ok? {
        currentPass, newPass, confirmPass := "", "", "";
        openPass := false;
        alert := Some(Alert("Senha alterada", "Sua senha foi atualizada com sucesso."));
      } else {
        alert := Some(Alert("Erro ao salvar senha", PasswordFailure(response.status, response.detail)));
      }
      saving := false;
    }

    /** `onCreateParque`: the dialog's payload is trimmed and validated (a
        missing payload is all blank); a valid one is posted. */
    method OnCreateParque(payloadFromDialog: Option<ParqueCreate>, response: Response<Option<string>>)
      returns (sent: Option<ParqueCreate>, alert: Option<Alert>)
      modifies this`parqueErr, this`savingParque, this`openParque
      ensures Validate(CreatePayload(payloadFromDialog), ScreenImagemMissing).Some? ==>
        sent == None && alert == None && parqueErr == Validate(CreatePayload(payloadFromDialog), ScreenImagemMissing)
      ensures sent.None? ==> savingParque == old(savingParque) && openParque == old(openParque)
      ensures Validate(CreatePayload(payloadFromDialog), ScreenImagemMissing).None? ==>
        sent == Some(CreatePayload(payloadFromDialog)) && !savingParque
      ensures sent.Some? && response.Ok? ==>
        parqueErr == None && !openParque &&
        alert == Some(Alert("Parque criado", OrDefault(response.body, "✅ Parque cadastrado com sucesso!")))
      ensures sent.Some? && response.Err? ==>
        alert == None && parqueErr == Some(MessageOr(response.detail, "Não foi possível criar o parque.")) &&
        openParque == old(openParque)
    {
      var payload, err := CreatePayload(payloadFromDialog), Validate(CreatePayload(payloadFromDialog), ScreenImagemMissing);
      if err.Some? {
        parqueErr := err;
        sent, alert := None, None;
      } else {
        sent := Some(payload);
        alert := SendParque(response);
      }
    }

    /** The part of `onCreateParque` after the payload is posted, with the
        reply's optional message. */
    method SendParque(response: Response<Option<string>>) returns (alert: Option<Alert>)
      modifies this`parqueErr, this`savingParque, this`openParque
      ensures !savingParque
      ensures response.Ok? ==>
        parqueErr == None && !openParque &&
        alert == Some(Alert("Parque criado", OrDefault(response.body, "✅ Parque cadastrado com sucesso!")))
      ensures response.Err? ==>
        alert == None && parqueErr == Some(MessageOr(response.detail, "Não foi possível criar o parque.")) &&
        openParque == old(openParque)
    {
      alert := None;
      savingParque := true;
      parqueErr := None;
      if response.Ok? {
        alert := Some(Alert("Parque criado", OrDefault(response.body, "✅ Parque cadastrado com sucesso!")));
        openParque := false;
      } else {
        parqueErr := Some(MessageOr(response.detail, "Não foi possível criar o parque."));
      }
      savingParque := false;
    }

    /** The delete dialog's `onChangeType`: the new target type, with the
        query, the results and the error cleared. The selected id and a
        pending lookup are left as they are. */
    method OnChangeType(t: DeleteTarget)
      modifies this`deleteType, this`deleteQuery, this`deleteResults, this`deleteErr
      ensures deleteType == t && deleteQuery == "" && deleteResults == [] && deleteErr == None
      ensures deleteId == old(deleteId)
    {
      deleteType := t;
      deleteQuery, deleteResults, deleteErr := "", [], None;
    }

    /** The delete dialog's `onSelect`: the chosen id, with the error
        cleared. */
    method OnSelect(id: string)
      modifies this`deleteId, this`deleteErr
      ensures deleteId == id && deleteErr == None
    {
      deleteId, deleteErr := id, None;
    }

    /** `onSearchDelete`: records the query, clears the error and the
        results, cancels the pending lookup and schedules one for this
        query and the current target type. */
    method OnSearchDelete(q: string) returns (h: nat)
      requires Valid()
      modifies this`deleteQuery, this`deleteErr, this`deleteResults, lookups
      ensures Valid()
      ensures deleteQuery == q && deleteErr == None && deleteResults == []
      ensures lookups.timers == map[h := Lookup(deleteType, q)] && lookups.current == Some(h)
    {
      deleteQuery := q;
      deleteErr := None;
      deleteResults := [];
      h := lookups.Schedule(Lookup(deleteType, q));
    }

    /** Timer `h` fires, with the outcome of `GET /parques` and the per-park
        backend. A cleared timer does nothing; a pending one runs the search
        it captured and shows its results or its error. */
    method OnSearchTimer(h: nat, parksResponse: Response<seq<Park>>, net: Request -> Response<seq<Listed>>)
      returns (issued: seq<Request>)
      requires Valid()
      modifies this`deleteResults, this`deleteErr, this`searching, lookups`timers
      ensures Valid()
      ensures lookups.timers == old(lookups.timers) - {h}
      ensures h !in old(lookups.timers) ==>
        issued == [] && deleteResults == old(deleteResults) && deleteErr == old(deleteErr) && searching == old(searching)
      ensures h in old(lookups.timers) ==>
        var job := old(lookups.timers)[h];
        !searching &&
        (|Trim(job.q)| < MinQuery ==> issued == [] && deleteResults == [] && deleteErr == old(deleteErr)) &&
        (|Trim(job.q)| >= MinQuery && parksResponse.Ok? ==>
           issued == [Request(ParksPath, map[])] + SearchRequests(job.kind, parksResponse.body) &&
           deleteResults == SearchResults(job.kind, parksResponse.body, Lower(Trim(job.q)), net) &&
           deleteErr == old(deleteErr)) &&
        (|Trim(job.q)| >= MinQuery && parksResponse.Err? ==>
           issued == [Request(ParksPath, map[])] && deleteResults == old(deleteResults) &&
           deleteErr == Some(MessageOr(parksResponse.detail, SearchFailedMsg)))
    {
      issued := [];
      var job := lookups.Fire(h);
      if job.None? {
        return;
      }
      issued := RunSearch(job.value, parksResponse, net);
    }

    /** The search a fired timer runs: its candidates, or the error of
        `GET /parques`. */
    method RunSearch(job: Lookup, parksResponse: Response<seq<Park>>, net: Request -> Response<seq<Listed>>)
      returns (issued: seq<Request>)
      modifies this`deleteResults, this`deleteErr, this`searching
      ensures !searching
      ensures |Trim(job.q)| < MinQuery ==> issued == [] && deleteResults == [] && deleteErr == old(deleteErr)
      ensures |Trim(job.q)| >= MinQuery && parksResponse.Ok? ==>
        issued == [Request(ParksPath, map[])] + SearchRequests(job.kind, parksResponse.body) &&
        deleteResults == SearchResults(job.kind, parksResponse.body, Lower(Trim(job.q)), net) &&
        deleteErr == old(deleteErr)
      ensures |Trim(job.q)| >= MinQuery && parksResponse.Err? ==>
        issued == [Request(ParksPath, map[])] && deleteResults == old(deleteResults) &&
        deleteErr == Some(MessageOr(parksResponse.detail, SearchFailedMsg))
    {
      searching := true;
      var outcome;
      outcome, issued := FetchCandidates(job.kind, job.q, parksResponse, net);
      if outcome.Ok? {
        deleteResults := outcome.body;
      } else {
        deleteErr := Some(MessageOr(outcome.detail, SearchFailedMsg));
      }
      searching := false;
    }

    /** `onDelete`: the checks of `CheckDelete` come first; only an
        allowed delete goes on to `ConfirmDelete`. Returns the path deleted
        and the alerts raised, in order. */
    method OnDelete(confirm: Option<Response<Option<string>>>) returns (deleted: Option<string>, alerts: seq<Alert>)
      modifies this`deleteErr, this`deleting, this`openDelete, this`deleteId, this`deleteQuery, this`deleteResults
      ensures CheckDelete(old(deleteId), RoleOf(auth.user)).Refused? ==>
        deleted == None && alerts == [] && deleteErr == Some(CheckDelete(old(deleteId), RoleOf(auth.user)).err)
      ensures CheckDelete(old(deleteId), RoleOf(auth.user)).Forbidden? ==>
        deleted == None && deleteErr == old(deleteErr) && alerts == [ForbiddenAlert]
      ensures !CheckDelete(old(deleteId), RoleOf(auth.user)).Confirm? ==>
        deleteId == old(deleteId) && deleteQuery == old(deleteQuery) && deleteResults == old(deleteResults) &&
        openDelete == old(openDelete) && deleting == old(deleting)
      ensures CheckDelete(old(deleteId), RoleOf(auth.user)).Confirm? ==>
        var id := CheckDelete(old(deleteId), RoleOf(auth.user)).id;
        |alerts| >= 1 && alerts[0] == ConfirmQuestion(deleteType, id) &&
        (confirm.None? ==>
           deleted == None && |alerts| == 1 && deleteErr == old(deleteErr) && deleteId == old(deleteId) &&
           deleteQuery == old(deleteQuery) && deleteResults == old(deleteResults) &&
           openDelete == old(openDelete) && deleting == old(deleting)) &&
        (confirm.Some? ==> deleted == Some(DeletePath(deleteType, id)) && !deleting) &&
        (confirm.Some? && confirm.value.Ok? ==>
           alerts == [ConfirmQuestion(deleteType, id), Alert("Excluído", OrDefault(confirm.value.body, "Registro excluído com sucesso."))] &&
           deleteErr == None && !openDelete && deleteId == "" && deleteQuery == "" && deleteResults == []) &&
        (confirm.Some? && confirm.value.Err? ==>
           alerts == [ConfirmQuestion(deleteType, id)] && deleteId == old(deleteId) && deleteQuery == old(deleteQuery) &&
           deleteResults == old(deleteResults) && openDelete == old(openDelete) &&
           deleteErr == Some(DeleteFailure(confirm.value.status, confirm.value.detail)))
    {
      deleted, alerts := None, [];
      var g := CheckDelete(deleteId, RoleOf(auth.user));
      if g.Refused? {
        deleteErr := Some(g.err);
      } else if g.Forbidden? {
        alerts := [ForbiddenAlert];
      } else {
        deleted, alerts := ConfirmDelete(g.id, confirm);
      }
    }

    /** The confirmation dialog for an allowed delete and what follows it:
        `confirm` is the user's answer, `None` cancelling and `Some` the
        outcome of the delete request. On success the dialog closes and the
        id, the query and the results are cleared. */
    method ConfirmDelete(id: string, confirm: Option<Response<Option<string>>>)
      returns (deleted: Option<string>, alerts: seq<Alert>)
      modifies this`deleteErr, this`deleting, this`openDelete, this`deleteId, this`deleteQuery, this`deleteResults
      ensures |alerts| >= 1 && alerts[0] == ConfirmQuestion(deleteType, id)
      ensures confirm.None? ==>
        deleted == None && alerts == [ConfirmQuestion(deleteType, id)] &&
        deleteErr == old(deleteErr) && deleteId == old(deleteId) && deleteQuery == old(deleteQuery) &&
        deleteResults == old(deleteResults) && openDelete == old(openDelete) && deleting == old(deleting)
      ensures confirm.Some? ==> deleted == Some(DeletePath(deleteType, id)) && !deleting
      ensures confirm.Some? && confirm.value.Ok? ==>
        alerts == [ConfirmQuestion(deleteType, id), Alert("Excluído", OrDefault(confirm.value.body, "Registro excluído com sucesso."))] &&
        deleteErr == None && !openDelete && deleteId == "" && deleteQuery == "" && deleteResults == []
      ensures confirm.Some? && confirm.value.Err? ==>
        alerts == [ConfirmQuestion(deleteType, id)] && deleteId == old(deleteId) && deleteQuery == old(deleteQuery) &&
        deleteResults == old(deleteResults) && openDelete == old(openDelete) &&
        deleteErr == Some(DeleteFailure(confirm.value.status, confirm.value.detail))
    {
      deleted := None;
      alerts := [ConfirmQuestion(deleteType, id)];
      if confirm.None? {
        return;
      }
      deleting := true;
      deleteErr := None;
      deleted := Some(DeletePath(deleteType, id));
      var res := confirm.value;
      if res.Ok? {
        alerts := alerts + [Alert("Excluído", OrDefault(res.body, "Registro excluído com sucesso."))];
        openDelete := false;
        deleteId := "";
        deleteQuery := "";
        deleteResults := [];
      } else {
        deleteErr := Some(DeleteFailure(res.status, res.detail));
      }
      deleting := false;
    }
  }
}
