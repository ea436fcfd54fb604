/** The session store of src/context/authContext.tsx: the in-memory `user`
    and `signed` values, the two AsyncStorage keys it owns, and the client's
    default Authorization header it installs or clears. */
module Session {
  import opened Base
  import opened KeyValue
  import opened Api

  const UserKey := "@Usuario:user"
  const TokenKey := "@token"
  const NoProvider := "useAuth deve ser usado dentro de um AuthProvider"

  /** The user object the screens pass to `signIn`. `token` is set only by
      the e-mail change of the profile screen. */
  datatype User = User(
    id: string,
    name: string,
    email: string,
    role: Option<string>,
    active: Option<bool>,
    token: Option<string>)

  function RoleOf(user: Option<User>): Option<string> {
    if user.Some? then user.value.role else None
  }

  // ------------------------------------------------------------------
  // Serialisation. `JSON.stringify` / `JSON.parse` of the user are modelled
  // by an escaped field encoding: every field is written with ';' and '\'
  // escaped by '\' and terminated by ';'.

  const Sep := ';'
  const Esc := '\\'

  function EscapeChar(c: char): string {
    if c == Sep || c == Esc then [Esc, c] else [c]
  }

  function Escape(s: string): string {
    if s == [] then [] else EscapeChar(s[0]) + Escape(s[1..])
  }

  function Field(s: string): string {
    Escape(s) + [Sep]
  }

  function Fields(xs: seq<string>): string {
    if xs == [] then [] else Field(xs[0]) + Fields(xs[1..])
  }

  /** Reads one field up to its unescaped terminator. */
  function ReadField(s: string): Option<(string, string)>
    decreases |s|
  {
    if s == [] then None
    else if s[0] == Sep then Some(([], s[1..]))
    else if s[0] == Esc then
      if |s| < 2 then None
      else match ReadField(s[2..])
        case None => None
        case Some(fr) => Some(([s[1]] + fr.0, fr.1))
    else match ReadField(s[1..])
      case None => None
      case Some(fr) => Some(([s[0]] + fr.0, fr.1))
  }

  function ReadFields(s: string, n: nat): (r: Option<(seq<string>, string)>)
    ensures r.Some? ==> |r.value.0| == n
    decreases n
  {
    if n == 0 then Some(([], s))
    else match ReadField(s)
      case None => None
      case Some(fr) =>
        match ReadFields(fr.1, n - 1)
        case None => None
        case Some(rest) => Some(([fr.0] + rest.0, rest.1))
  }

  lemma {:induction false} ReadFieldOfField(x: string, rest: string)
    ensures ReadField(Field(x) + rest) == Some((x, rest))
  {
    if x == [] {
      assert Field(x) + rest == [Sep] + rest;
      assert ([Sep] + rest)[1..] == rest;
    } else {
      var tail := Field(x[1..]) + rest;
      ReadFieldOfField(x[1..], rest);
      assert Field(x) + rest == EscapeChar(x[0]) + tail;
      ReadFieldStep(x[0], tail);
      assert [x[0]] + x[1..] == x;
    }
  }

  /** Reading one escaped character and then the rest of a field. */
  lemma ReadFieldStep(c: char, t: string)
    ensures ReadField(EscapeChar(c) + t) ==
      match ReadField(t)
      case None => None
      case Some(fr) => Some(([c] + fr.0, fr.1))
  {
    if c == Sep || c == Esc {
      assert (EscapeChar(c) + t)[2..] == t;
    } else {
      assert (EscapeChar(c) + t)[1..] == t;
    }
  }

  lemma {:induction false} ReadFieldsOfFields(xs: seq<string>, rest: string)
    ensures ReadFields(Fields(xs) + rest, |xs|) == Some((xs, rest))
  {
    if xs != [] {
      var tail := Fields(xs[1..]) + rest;
      assert Fields(xs) + rest == Field(xs[0]) + tail;
      ReadFieldOfField(xs[0], tail);
      ReadFieldsOfFields(xs[1..], rest);
      assert [xs[0]] + xs[1..] == xs;
    } else {
      assert Fields(xs) + rest == rest;
    }
  }

  function TagText(o: Option<string>): string {
    match o
    case None => "-"
    case Some(v) => "+" + v
  }

  function UntagText(f: string): Option<Option<string>> {
    if f == "-" then Some(None)
    else if |f| >= 1 && f[0] == '+' then Some(Some(f[1..]))
    else None
  }

  lemma UntagTagText(o: Option<string>)
    ensures UntagText(TagText(o)) == Some(o)
  {
    if o.Some? {
      var f := TagText(o);
      assert f[0] == '+' && f != "-";
      assert f[1..] == o.value;
    }
  }

  function TagFlag(o: Option<bool>): string {
    match o
    case None => "-"
    case Some(b) => if b then "t" else "f"
  }

  function UntagFlag(f: string): Option<Option<bool>> {
    if f == "-" then Some(None)
    else if f == "t" then Some(Some(true))
    else if f == "f" then Some(Some(false))
    else None
  }

  function UserFields(u: User): seq<string> {
    [u.id, u.name, u.email, TagText(u.role), TagFlag(u.active), TagText(u.token)]
  }

  /** `JSON.stringify(usuario)`; never the empty string. */
  function Stringify(u: User): (s: string)
    ensures s != ""
  {
    Fields(UserFields(u))
  }

  /** `JSON.parse(storageUser)`; None where the source would throw. */
  function Parse(s: string): Option<User> {
    match ReadFields(s, 6)
    case None => None
    case Some(r) =>
      var fs := r.0;
      if r.1 != [] then None
      else match (UntagText(fs[3]), UntagFlag(fs[4]), UntagText(fs[5]))
        case (Some(role), Some(active), Some(token)) => Some(User(fs[0], fs[1], fs[2], role, active, token))
        case _ => None
  }

  /** parse after stringify gives the user back. */
  lemma ParseStringify(u: User)
    ensures Parse(Stringify(u)) == Some(u)
  {
    var xs := UserFields(u);
    assert Fields(xs) + [] == Fields(xs);
    ReadFieldsOfFields(xs, []);
    UntagTagText(u.role);
    UntagTagText(u.token);
  }

  // ------------------------------------------------------------------
  // What `loadStorageData` reads back from the stored entries.

  /** The user `loadStorageData` restores: present only when the stored
      string is truthy and parses. */
  function StoredUser(entries: map<string, string>): (r: Option<User>)
    ensures r.Some? ==> UserKey in entries && Parse(entries[UserKey]) == r
  {
    if UserKey in entries && entries[UserKey] != "" then Parse(entries[UserKey]) else None
  }

  /** The token `loadStorageData` installs, if truthy. */
  function StoredToken(entries: map<string, string>): Option<string> {
    Lookup(entries, TokenKey)
  }

  /** The entries left by `signOut`. */
  function SignedOutEntries(entries: map<string, string>): (r: map<string, string>)
    ensures UserKey !in r && TokenKey !in r
    ensures forall k :: k != UserKey && k != TokenKey ==> (k in r <==> k in entries)
    ensures forall k :: k in r ==> r[k] == entries[k]
  {
    entries - {UserKey, TokenKey}
  }

  /** Sign-in followed by a relaunch restores the same user. */
  lemma SignInThenLoad(entries: map<string, string>, u: User)
    ensures StoredUser(entries[UserKey := Stringify(u)]) == Some(u)
  {
    ParseStringify(u);
  }

  /** Sign-out followed by a relaunch restores nobody and no token. */
  lemma SignOutThenLoad(entries: map<string, string>)
    ensures StoredUser(SignedOutEntries(entries)) == None
    ensures StoredToken(SignedOutEntries(entries)) == None
  {
  }

  /** Signing out twice leaves what signing out once leaves. */
  lemma SignOutIdempotent(entries: map<string, string>, headers: map<string, string>)
    ensures SignedOutEntries(SignedOutEntries(entries)) == SignedOutEntries(entries)
    ensures WithAuthToken(WithAuthToken(headers, None), None) == WithAuthToken(headers, None)
  {
    WithAuthTokenOverrides(headers, None, None);
  }

  /** `AuthProvider` */
  class AuthProvider {
    const store: Store
    const client: Client
    var user: Option<User>
    var signed: bool

    /** The provider starts signed out. */
    constructor (store: Store, client: Client)
      ensures this.store == store && this.client == client
      ensures user == None && !signed
    {
      this.store := store;
      this.client := client;
      user := None;
      signed := false;
    }

    /** `loadStorageData`: a truthy stored token goes to the header, a
        truthy stored user that parses becomes the signed-in user;
        otherwise the state stays as it was. */
    method LoadStorageData()
      modifies this, client
      ensures Truthy(StoredToken(store.entries)) ==>
        client.commonHeaders == WithAuthToken(old(client.commonHeaders), StoredToken(store.entries))
      ensures !Truthy(StoredToken(store.entries)) ==> client.commonHeaders == old(client.commonHeaders)
      ensures StoredUser(store.entries).Some? ==> user == StoredUser(store.entries) && signed
      ensures StoredUser(store.entries).None? ==> user == old(user) && signed == old(signed)
    {
      var storageUser := store.GetItem(UserKey);
      var token := store.GetItem(TokenKey);
      if Truthy(token) {
        client.SetAuthToken(token);
      }
      if Truthy(storageUser) {
        var parsed := Parse(storageUser.value);
        if parsed.Some? {
          user := parsed;
          signed := true;
        }
      }
    }

    /** `signIn`: persists the user and marks the session signed; the token
        entry and the header are left alone. */
    method SignIn(usuario: User)
      modifies this, store
      ensures store.entries == old(store.entries)[UserKey := Stringify(usuario)]
      ensures user == Some(usuario) && signed
    {
      store.SetItem(UserKey, Stringify(usuario));
      user := Some(usuario);
      signed := true;
    }

    /** `signOut`: removes both keys, forgets the user and drops the header. */
    method SignOut()
      modifies this, store, client
      ensures store.entries == SignedOutEntries(old(store.entries))
      ensures client.commonHeaders == WithAuthToken(old(client.commonHeaders), None)
      ensures user == None && !signed
    {
      store.MultiRemove({UserKey, TokenKey});
      user := None;
      signed := false;
      client.SetAuthToken(None);
    }
  }

  /** `useAuth`: fails outside a provider. */
  function UseAuth(context: Option<AuthProvider>): (r: Result<AuthProvider>)
    ensures r.Failure? <==> context.None?
    ensures r.Failure? ==> r.message == NoProvider
    ensures r.Success? ==> r.value == context.value
  {
    if context.None? then Failure(NoProvider) else Success(context.value)
  }

  datatype Result<T> = Success(value: T) | Failure(message: string)
}
