/** The account endpoints (Users/views.py): registration, password login and Google
    login, each answering with a signed token and the user's public fields. Token
    signing, `authenticate` and the Google token check are inputs of the operations. */
module UsersViews {
  import opened Common
  import opened UsersModels

  datatype Json = JInt(n: int) | JStr(s: string)

  /** The claims `create_jwt` signs: exactly the user's id and email. */
  function JwtPayload(id: UserId, a: Account): (p: map<string, Json>)
    ensures p.Keys == {"user_id", "email"}
    ensures p["user_id"] == JInt(id) && p["email"] == JStr(a.email)
  {
    map["user_id" := JInt(id), "email" := JStr(a.email)]
  }

  /** Python truthiness of an optional text field: present and non-empty. */
  predicate Given(x: Option<string>) {
    x.Some? && x.value != ""
  }

  /** The `user` object of a successful answer. */
  datatype UserCard = UserCard(id: UserId, fullName: string, email: string)

  function Card(id: UserId, a: Account): UserCard {
    UserCard(id, a.fullName, a.email)
  }

  datatype AuthError =
    | MissingFields        // 400
    | EmailInUse           // 400
    | RegistrationFailed   // 500: the exception from `create_user`
    | InvalidCredentials   // 401
    | TokenMissing         // 400
    | InvalidGoogleToken   // 400
    | NoGoogleEmail        // 400
    | GoogleLoginFailed    // 500: the exception from the token request or `get_or_create`
  {
    function HttpStatus(): int {
      match this
      case RegistrationFailed => 500
      case GoogleLoginFailed => 500
      case InvalidCredentials => 401
      case _ => 400
    }
  }

  datatype AuthReply = Issued(status: int, token: string, user: UserCard) | Denied(error: AuthError)

  /** The checks `RegisterView.post` makes before answering, in order; `None` when the
      new user is stored. The duplicate check looks up the email as given, while
      `create_user` stores and checks the normalised email, and the database refuses a
      name or normalised email longer than its column. */
  function RegisterCheck(users: seq<Account>, fullName: Option<string>, email: Option<string>,
                         password: Option<string>, normalize: string -> string): (r: Option<AuthError>)
    ensures r == Some(MissingFields) <==> !(Given(fullName) && Given(email) && Given(password))
    ensures r == Some(EmailInUse) <==>
      Given(fullName) && Given(email) && Given(password) && EmailTaken(users, email.value)
    ensures r == Some(RegistrationFailed) <==>
      && Given(fullName) && Given(email) && Given(password)
      && !EmailTaken(users, email.value)
      && (EmailTaken(users, normalize(email.value)) || !FitsNameAndEmail(normalize(email.value), fullName.value))
    ensures r.None? <==>
      && Given(fullName) && Given(email) && Given(password)
      && !EmailTaken(users, email.value) && !EmailTaken(users, normalize(email.value))
      && FitsNameAndEmail(normalize(email.value), fullName.value)
  {
    if !(Given(fullName) && Given(email) && Given(password)) then Some(MissingFields)
    else if EmailTaken(users, email.value) then Some(EmailInUse)
    else if !FitsNameAndEmail(normalize(email.value), fullName.value) then Some(RegistrationFailed)
    else if EmailTaken(users, normalize(email.value)) then Some(RegistrationFailed)
    else None
  }

  /** A name or an email longer than its column passes every check of the view and is
      refused by the database: the client gets 500, and nothing is stored. */
  lemma OverlongFieldIsServerError(users: seq<Account>, fullName: Option<string>, email: Option<string>,
                                   password: Option<string>, normalize: string -> string)
    requires Given(fullName) && Given(email) && Given(password) && !EmailTaken(users, email.value)
    requires |fullName.value| > FullNameMaxLength || |normalize(email.value)| > EmailMaxLength
    ensures RegisterCheck(users, fullName, email, password, normalize) == Some(RegistrationFailed)
  {
  }

  /** An email that is not stored as given but whose normalised form is stored passes the
      duplicate check and then fails in `create_user`: the client gets 500, not 400. */
  lemma NormalizedDuplicateIsServerError(users: seq<Account>, fullName: Option<string>, email: Option<string>,
                                         password: Option<string>, normalize: string -> string)
    requires Given(fullName) && Given(email) && Given(password)
    requires !EmailTaken(users, email.value) && EmailTaken(users, normalize(email.value))
    ensures RegisterCheck(users, fullName, email, password, normalize) == Some(RegistrationFailed)
  {
  }

  /** An instance: the stored `ann@example.com` and a registration as `ann@EXAMPLE.COM`,
      which `normalize_email` lower-cases in the domain part. */
  lemma NormalizedDuplicateExample()
    ensures var users := [Account("ann@example.com", "Ann", HashOf("pw"), true, false, false, 0)];
      var normalize := (e: string) => if e == "ann@EXAMPLE.COM" then "ann@example.com" else e;
      RegisterCheck(users, Some("Ann"), Some("ann@EXAMPLE.COM"), Some("pw"), normalize) == Some(RegistrationFailed)
  {
    var users := [Account("ann@example.com", "Ann", HashOf("pw"), true, false, false, 0)];
    var normalize := (e: string) => if e == "ann@EXAMPLE.COM" then "ann@example.com" else e;
    assert !EmailTaken(users, "ann@EXAMPLE.COM") by {
      assert users[0].email != "ann@EXAMPLE.COM" by {
        assert users[0].email[4] != "ann@EXAMPLE.COM"[4];
      }
    }
    assert EmailTaken(users, "ann@example.com") by {
      assert users[0].email == "ann@example.com";
    }
    NormalizedDuplicateIsServerError(users, Some("Ann"), Some("ann@EXAMPLE.COM"), Some("pw"), normalize);
  }

  /** `RegisterView.post` at clock reading `now`; `sign` is `jwt.encode` with the
      server's key. */
  method Register(store: UserStore, fullName: Option<string>, email: Option<string>, password: Option<string>,
                  now: int, normalize: string -> string, sign: map<string, Json> -> string)
    returns (reply: AuthReply)
    requires store.Valid()
    modifies store
    ensures store.Valid()
    ensures var check := RegisterCheck(old(store.users), fullName, email, password, normalize);
      && (check.Some? ==> reply == Denied(check.value) && store.users == old(store.users))
      && (check.None? ==>
            var id := old(|store.users|);
            var account := NewAccount(email.value, fullName.value, password, NoFlags, now, normalize);
            && store.users == old(store.users) + [account]
            && reply == Issued(201, sign(JwtPayload(id, account)), UserCard(id, fullName.value, normalize(email.value))))
  {
    if !(Given(fullName) && Given(email) && Given(password)) {
      return Denied(MissingFields);
    }
    if EmailTaken(store.users, email.value) {
      return Denied(EmailInUse);
    }
    var created := store.CreateUser(email.value, fullName.value, password, NoFlags, now, normalize);
    if created.NotCreated? {
      return Denied(RegistrationFailed);
    }
    var account := store.users[created.id];
    reply := Issued(201, sign(JwtPayload(created.id, account)), Card(created.id, account));
  }

  /** `LoginView.post`; `authenticated` is what `authenticate` returned. The view itself
      does not look at `is_active`. */
  function Login(users: seq<Account>, email: Option<string>, password: Option<string>,
                 authenticated: Option<UserId>, sign: map<string, Json> -> string): (reply: AuthReply)
    requires authenticated.Some? ==> authenticated.value < |users|
    ensures !(Given(email) && Given(password)) <==> reply == Denied(MissingFields)
    ensures Given(email) && Given(password) && authenticated.None? <==> reply == Denied(InvalidCredentials)
    ensures reply.Issued? ==>
      && authenticated.Some? && reply.status == 200
      && reply.user == UserCard(authenticated.value, users[authenticated.value].fullName, users[authenticated.value].email)
      && reply.token == sign(JwtPayload(authenticated.value, users[authenticated.value]))
  {
    if !(Given(email) && Given(password)) then Denied(MissingFields)
    else match authenticated
      case None => Denied(InvalidCredentials)
      case Some(id) => Issued(200, sign(JwtPayload(id, users[id])), Card(id, users[id]))
  }

  /** What the Google token-info request gave: a non-200 status, the decoded fields, or
      an exception. */
  datatype TokenInfo = NotVerified | Verified(email: Option<string>, name: Option<string>) | RequestFailed

  /** `GoogleLoginView.post` at clock reading `now`; `passwordText` is what
      `make_random_password()` returned. */
  method GoogleLogin(store: UserStore, token: Option<string>, info: TokenInfo, passwordText: string,
                     now: int, sign: map<string, Json> -> string)
    returns (reply: AuthReply)
    requires store.Valid()
    modifies store
    ensures store.Valid()
    ensures !Given(token) ==> reply == Denied(TokenMissing)
    ensures Given(token) && info.NotVerified? ==> reply == Denied(InvalidGoogleToken)
    ensures Given(token) && info.RequestFailed? ==> reply == Denied(GoogleLoginFailed)
    ensures Given(token) && info.Verified? && !Given(info.email) ==> reply == Denied(NoGoogleEmail)
    ensures Given(token) && info.Verified? && Given(info.email) ==>
      var e := info.email.value;
      && (EmailTaken(old(store.users), e) ==>
            && store.users == old(store.users)
            && forall i | 0 <= i < |store.users| && store.users[i].email == e ::
                 reply == Issued(200, sign(JwtPayload(i, store.users[i])), Card(i, store.users[i])))
      && (!EmailTaken(old(store.users), e) && info.name.None? ==> reply == Denied(GoogleLoginFailed))
      && (!EmailTaken(old(store.users), e) && info.name.Some? ==>
            var id := old(|store.users|);
            var account := Account(e, info.name.value, Stored(passwordText), true, false, false, now);
            && (!FitsColumns(account) ==> reply == Denied(GoogleLoginFailed))
            && (FitsColumns(account) ==>
                  && store.users == old(store.users) + [account]
                  && reply == Issued(200, sign(JwtPayload(id, account)), UserCard(id, info.name.value, e))))
    ensures reply.Denied? ==> store.users == old(store.users)
  {
    if !Given(token) {
      return Denied(TokenMissing);
    }
    if info.NotVerified? {
      return Denied(InvalidGoogleToken);
    }
    if info.RequestFailed? {
      return Denied(GoogleLoginFailed);
    }
    if !Given(info.email) {
      return Denied(NoGoogleEmail);
    }
    var found := store.GetOrCreate(info.email.value, info.name, passwordText, now);
    if found.None? {
      return Denied(GoogleLoginFailed);
    }
    var id := found.value.0;
    var account := store.users[id];
    reply := Issued(200, sign(JwtPayload(id, account)), Card(id, account));
  }

  /** Signing in with Google twice with the same email adds the user at most once. */
  lemma GoogleLoginCreatesAtMostOnce(users: seq<Account>, e: string, name: string, text: string, now: int)
    requires UniqueEmails(users) && !EmailTaken(users, e)
    ensures var after := users + [Account(e, name, Stored(text), true, false, false, now)];
      UniqueEmails(after) && EmailTaken(after, e)
  {
    var after := users + [Account(e, name, Stored(text), true, false, false, now)];
    assert after[|users|].email == e;
  }
}
