/** The login form of src/screens/LoginScreen/LoginScreen.tsx: the inline
    e-mail and password checks, when the button is enabled, and what a
    submission does to storage, the client's header and the session. */
module Login {
  import opened Base
  import opened Text
  import opened Http
  import opened KeyValue
  import opened Api
  import opened Session

  const InvalidEmail := "E-mail inválido"
  const ShortPassword := "Mínimo de 4 caracteres"
  const LoginFailed := "Falha no login"
  const LoginPath := "/login"

  /** A '.' strictly inside `s[i + 1..|s| - 1]`, with a character on each
      side. */
  predicate DotAfter(s: string, i: int) {
    exists j :: 0 <= i + 1 < j < |s| - 1 && s[j] == '.'
  }

  /** `/^\S+@\S+\.\S+$/`: no whitespace, and an '@' with a character before
      it, followed later by a '.' with a character on each side. */
  predicate LoginEmailShape(s: string) {
    NoSpace(s) && exists i :: 0 < i < |s| && s[i] == '@' && DotAfter(s, i)
  }

  /** `emailError` */
  function EmailError(email: string): (m: string)
    ensures m == "" || m == InvalidEmail
    ensures m == InvalidEmail <==> email != "" && !LoginEmailShape(email)
  {
    if email == "" then "" else if LoginEmailShape(email) then "" else InvalidEmail
  }

  /** `passwordError`: only a password of one to three characters is
      flagged. */
  function PasswordError(password: string): (m: string)
    ensures m == "" || m == ShortPassword
    ensures m != "" <==> 1 <= |password| <= 3
  {
    if password == "" then "" else if |password| >= 4 then "" else ShortPassword
  }

  /** `disabled` */
  predicate Disabled(loading: bool, email: string, password: string) {
    loading || email == "" || password == "" || EmailError(email) != "" || PasswordError(password) != ""
  }

  /** The button is enabled exactly when nothing is loading, the e-mail has
      the login shape and the password has at least four characters. */
  lemma EnabledIff(loading: bool, email: string, password: string)
    ensures !Disabled(loading, email, password) <==> !loading && LoginEmailShape(email) && |password| >= 4
  {
  }

  /** An enabled form has a well-shaped e-mail and a password of at least
      four characters; the e-mail has no whitespace, so the trimmed e-mail
      sent is the typed one. */
  lemma EnabledForm(loading: bool, email: string, password: string)
    requires !Disabled(loading, email, password)
    ensures !loading && LoginEmailShape(email) && |password| >= 4
    ensures Trim(email) == email
  {
    TrimNoSurroundingSpace(email);
  }

  /** A typical address is accepted, and ones missing a part are not. */
  lemma EmailExamples()
    ensures EmailError("ana@x.io") == ""
    ensures EmailError("ana@xio") == InvalidEmail
    ensures EmailError("@x.io") == InvalidEmail
    ensures EmailError("") == ""
  {
    var good: string := "ana@x.io";
    assert good[3] == '@' && good[5] == '.';
    assert DotAfter(good, 3);
    var noDot: string := "ana@xio";
    assert forall j :: 0 <= j < |noDot| ==> noDot[j] != '.';
    var noUser: string := "@x.io";
    assert forall i :: 0 < i < |noUser| ==> noUser[i] != '@';
  }

  /** The body of `POST /login`. */
  datatype Credentials = Credentials(email: string, password: string)

  /** The fields of the login response the screen reads. */
  datatype LoginReply = LoginReply(token: string, role: Option<string>, active: Option<bool>)

  /** The user `onSubmit` signs in: the id is the clock's reading, the name
      the part of the e-mail before the first '@'. */
  function SessionUser(email: string, now: nat, reply: LoginReply): (u: User)
    ensures u.name <= email && '@' !in u.name
    ensures |u.name| < |email| ==> email[|u.name|] == '@'
    ensures u.email == Trim(email) && u.role == reply.role && u.active == reply.active
    ensures u.token == None
  {
    User(NatToString(now), BeforeFirst(email, '@'), Trim(email), reply.role, reply.active, None)
  }

  /** The success path of `onSubmit`: store the token, install it in the
      header, then sign in. */
  method Submit(auth: AuthProvider, token: string, u: User)
    modifies auth, auth.store, auth.client
    ensures auth.store.entries == old(auth.store.entries)[TokenKey := token][UserKey := Stringify(u)]
    ensures auth.client.commonHeaders == WithAuthToken(old(auth.client.commonHeaders), Some(token))
    ensures auth.user == Some(u) && auth.signed
  {
    auth.store.SetItem(TokenKey, token);
    auth.client.SetAuthToken(Some(token));
    auth.SignIn(u);
  }

  class LoginScreen {
    const auth: AuthProvider
    var email: string
    var password: string
    var loading: bool

    constructor (auth: AuthProvider)
      ensures this.auth == auth && email == "" && password == "" && !loading
    {
      this.auth := auth;
      email := "";
      password := "";
      loading := false;
    }

    /** `onSubmit`, with `Date.now()` as `now` and the outcome of the login
        request as `response`. Returns the request sent (none when the form
        is disabled) and the alert shown. On success the token is stored,
        the header set and the session signed in, in that order. */
    method OnSubmit(now: nat, response: Response<LoginReply>) returns (sent: Option<Credentials>, alert: Option<string>)
      modifies this`loading, auth, auth.store, auth.client
      ensures old(Disabled(loading, email, password)) ==> sent == None && alert == None && loading == old(loading)
      ensures old(Disabled(loading, email, password)) ==> unchanged(auth, auth.store, auth.client)
      ensures !old(Disabled(loading, email, password)) ==> sent == Some(Credentials(email, password)) && !loading
      ensures !old(Disabled(loading, email, password)) && response.Ok? ==>
        var u := SessionUser(email, now, response.body);
        alert == None &&
        auth.store.entries == old(auth.store.entries)[TokenKey := response.body.token][UserKey := Stringify(u)] &&
        auth.client.commonHeaders == WithAuthToken(old(auth.client.commonHeaders), Some(response.body.token)) &&
        auth.user == Some(u) && auth.signed
      ensures !old(Disabled(loading, email, password)) && response.Err? ==>
        alert == Some(MessageOr(response.detail, LoginFailed)) &&
        unchanged(auth, auth.store, auth.client)
    {
      sent := None;
      alert := None;
      var disabled := Disabled(loading, email, password);
      if disabled {
        return;
      }
      EnabledForm(loading, email, password);
      loading := true;
      sent := Some(Credentials(Trim(email), password));
      if response.Ok? {
        var reply := response.body;
        var u := SessionUser(email, now, reply);
        Submit(auth, reply.token, u);
      } else {
        alert := Some(MessageOr(response.detail, LoginFailed));
      }
      loading := false;
    }
  }
}
