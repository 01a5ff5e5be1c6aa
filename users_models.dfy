/** Accounts and sessions (Users/models.py): the manager that creates users and
    superusers over the user table, and the session record that can be ended.
    Email normalisation is a parameter of the operations that apply it. */
module UsersModels {
  import opened Common

  /** What the `password` column holds: the unusable marker (`set_password(None)`), the
      hash of a raw password, or a raw string written without hashing. */
  datatype Credential = Unusable | HashOf(raw: string) | Stored(text: string)

  /** `set_password(password)`. */
  function CredentialOf(password: Option<string>): (c: Credential)
    ensures password.None? <==> c == Unusable
    ensures password.Some? ==> c == HashOf(password.value)
  {
    match password
    case None => Unusable
    case Some(p) => HashOf(p)
  }

  datatype Account = Account(
    email: string,
    fullName: string,
    credential: Credential,
    isActive: bool,
    isStaff: bool,
    isSuperuser: bool,
    dateJoined: int)

  /** The lengths of the user table's varchar columns: `EmailField`'s default of 254,
      `full_name`'s 255, and the 128 of `AbstractBaseUser.password`. */
  const EmailMaxLength: nat := 254
  const FullNameMaxLength: nat := 255
  const PasswordMaxLength: nat := 128

  /** Whether PostgreSQL accepts the email and name: neither is longer than its column. */
  predicate FitsNameAndEmail(email: string, fullName: string) {
    |email| <= EmailMaxLength && |fullName| <= FullNameMaxLength
  }

  /** Whether PostgreSQL stores the row rather than raising `DataError`. A password hash
      and the unusable marker always fit their column; a raw text need not. */
  predicate FitsColumns(a: Account) {
    && FitsNameAndEmail(a.email, a.fullName)
    && (a.credential.Stored? ==> |a.credential.text| <= PasswordMaxLength)
  }

  /** `email` is declared unique. */
  predicate UniqueEmails(users: seq<Account>) {
    forall i, j | 0 <= i < j < |users| :: users[i].email != users[j].email
  }

  predicate EmailTaken(users: seq<Account>, email: string) {
    exists i | 0 <= i < |users| :: users[i].email == email
  }

  /** The flags a caller of `create_user` may pass in `extra_fields`; `None` when not passed. */
  datatype Flags = Flags(isStaff: Option<bool>, isSuperuser: Option<bool>)

  const NoFlags: Flags := Flags(None, None)

  /** The row `create_user` stores: the normalised email, the given name, the hashed
      password, active, and staff and superuser only when the caller passed them. */
  function NewAccount(email: string, fullName: string, password: Option<string>, extra: Flags, now: int,
                      normalize: string -> string): (a: Account)
    ensures a.email == normalize(email) && a.fullName == fullName && a.dateJoined == now
    ensures a.credential == CredentialOf(password) && a.isActive
    ensures a.isStaff <==> extra.isStaff == Some(true)
    ensures a.isSuperuser <==> extra.isSuperuser == Some(true)
  {
    Account(normalize(email), fullName, CredentialOf(password), true,
            extra.isStaff.GetOr(false), extra.isSuperuser.GetOr(false), now)
  }

  datatype CreateError =
    | MissingEmail      // `ValueError`: users must have an email address
    | StaffNotTrue      // `ValueError`: superuser must have is_staff=True
    | SuperuserNotTrue  // `ValueError`: superuser must have is_superuser=True
    | ValueTooLong      // `DataError`: a value longer than its column
    | DuplicateEmail    // `IntegrityError` from the unique email column

  datatype Created = Created(id: UserId) | NotCreated(error: CreateError)

  /** A flag of `create_superuser`: not passed, passed as `True`, or passed as anything
      else (`False`, `1`, `"yes"`, ...). */
  datatype FlagArg = Unset | PassedTrue | PassedOther

  /** `setdefault` followed by the two `is not True` checks: only an absent flag or the
      value `True` itself passes. */
  function SuperuserCheck(isStaff: FlagArg, isSuperuser: FlagArg): (r: Option<CreateError>)
    ensures r.None? <==> isStaff != PassedOther && isSuperuser != PassedOther
    ensures r == Some(StaffNotTrue) <==> isStaff == PassedOther
    ensures r == Some(SuperuserNotTrue) <==> isStaff != PassedOther && isSuperuser == PassedOther
  {
    if isStaff == PassedOther then Some(StaffNotTrue)
    else if isSuperuser == PassedOther then Some(SuperuserNotTrue)
    else None
  }

  /** The user table; a user's id is its position. */
  class UserStore {
    var users: seq<Account>

    ghost predicate Valid()
      reads this
    {
      && UniqueEmails(users)
      && forall i | 0 <= i < |users| :: FitsColumns(users[i])
    }

    constructor ()
      ensures Valid() && users == []
    {
      users := [];
    }

    /** The user with this exact email, if any. */
    function Lookup(email: string): (r: Option<UserId>)
      reads this
      requires Valid()
      ensures r.None? <==> !EmailTaken(users, email)
      ensures r.Some? ==> r.value < |users| && users[r.value].email == email
      ensures r.Some? ==> forall j | 0 <= j < |users| && users[j].email == email :: j == r.value
    {
      if EmailTaken(users, email) then
        var i :| 0 <= i < |users| && users[i].email == email; Some(i)
      else None
    }

    /** `create_user(email, full_name, password, **extra)` at clock reading `now`. */
    method CreateUser(email: string, fullName: string, password: Option<string>, extra: Flags, now: int,
                      normalize: string -> string)
      returns (r: Created)
      requires Valid()
      modifies this
      ensures Valid()
      ensures email == "" ==> r == NotCreated(MissingEmail)
      ensures email != "" && !FitsNameAndEmail(normalize(email), fullName) ==> r == NotCreated(ValueTooLong)
      ensures email != "" && FitsNameAndEmail(normalize(email), fullName) && EmailTaken(old(users), normalize(email)) ==>
        r == NotCreated(DuplicateEmail)
      ensures email != "" && FitsNameAndEmail(normalize(email), fullName) && !EmailTaken(old(users), normalize(email)) ==>
        r == Created(old(|users|))
      ensures r.NotCreated? ==> users == old(users)
      ensures r.Created? ==> users == old(users) + [NewAccount(email, fullName, password, extra, now, normalize)]
    {
      if email == "" {
        return NotCreated(MissingEmail);
      }
      var account := NewAccount(email, fullName, password, extra, now, normalize);
      if !FitsColumns(account) {
        // the value is checked against the column before the unique index is
        return NotCreated(ValueTooLong);
      }
      if EmailTaken(users, account.email) {
        return NotCreated(DuplicateEmail);
      }
      users := users + [account];
      r := Created(|users| - 1);
    }

    /** `create_superuser(email, full_name, password, **extra)`: both flags default to
        `True` and must be `True`. */
    method CreateSuperuser(email: string, fullName: string, password: Option<string>,
                           isStaff: FlagArg, isSuperuser: FlagArg, now: int, normalize: string -> string)
      returns (r: Created)
      requires Valid()
      modifies this
      ensures Valid()
      ensures var check := SuperuserCheck(isStaff, isSuperuser);
        && (check.Some? ==> r == NotCreated(check.value) && users == old(users))
        && (check.None? && email == "" ==> r == NotCreated(MissingEmail))
        && (check.None? && email != "" ==>
              (r.Created? <==> FitsNameAndEmail(normalize(email), fullName) && !EmailTaken(old(users), normalize(email))))
      ensures r.NotCreated? ==> users == old(users)
      ensures r.Created? ==>
        && r.id == old(|users|)
        && users == old(users) + [NewAccount(email, fullName, password, Flags(Some(true), Some(true)), now, normalize)]
        && users[r.id].isStaff && users[r.id].isSuperuser && users[r.id].isActive
    {
      var check := SuperuserCheck(isStaff, isSuperuser);
      if check.Some? {
        return NotCreated(check.value);
      }
      r := CreateUser(email, fullName, password, Flags(Some(true), Some(true)), now, normalize);
    }

    /** `CustomUser.objects.get_or_create(email=email, defaults={...})`: the stored user
        with exactly this email, or a new row built from the defaults without going
        through `create_user`, so with the email as given and the password text unhashed.
        `None` when the new row is refused: the name is `None` and the column is not null,
        or a value is longer than its column. */
    method GetOrCreate(email: string, fullName: Option<string>, passwordText: string, now: int)
      returns (r: Option<(UserId, bool)>)
      requires Valid()
      modifies this
      ensures Valid()
      ensures EmailTaken(old(users), email) ==>
        && users == old(users)
        && r.Some? && !r.value.1 && r.value.0 < |users| && users[r.value.0].email == email
      ensures !EmailTaken(old(users), email) && fullName.None? ==> r.None? && users == old(users)
      ensures !EmailTaken(old(users), email) && fullName.Some? ==>
        var account := Account(email, fullName.value, Stored(passwordText), true, false, false, now);
        && (!FitsColumns(account) ==> r.None? && users == old(users))
        && (FitsColumns(account) ==> r == Some((old(|users|), true)) && users == old(users) + [account])
    {
      var found := Lookup(email);
      if found.Some? {
        return Some((found.value, false));
      }
      if fullName.None? {
        return None;
      }
      var account := Account(email, fullName.value, Stored(passwordText), true, false, false, now);
      if !FitsColumns(account) {
        return None;
      }
      users := users + [account];
      r := Some((|users| - 1, true));
    }
  }

  /** The values of a session row. */
  datatype SessionData = SessionData(
    user: UserId,
    sessionKey: string,
    device: Option<string>,
    ipAddress: Option<string>,
    loginTime: int,
    logoutTime: Option<int>,
    isActive: bool)

  /** A session after `end_session()` at clock reading `now`. */
  function Ended(s: SessionData, now: int): (e: SessionData)
    ensures !e.isActive && e.logoutTime == Some(now)
    ensures e.user == s.user && e.sessionKey == s.sessionKey && e.loginTime == s.loginTime
    ensures e.device == s.device && e.ipAddress == s.ipAddress
  {
    s.(logoutTime := Some(now), isActive := false)
  }

  /** `session_key` is declared unique. */
  predicate UniqueSessionKeys(t: seq<SessionData>) {
    forall i, j | 0 <= i < j < |t| :: t[i].sessionKey != t[j].sessionKey
  }

  /** Ending a session keeps its key, so the keys stay unique. */
  lemma EndingKeepsKeysUnique(t: seq<SessionData>, i: nat, now: int)
    requires UniqueSessionKeys(t) && i < |t|
    ensures UniqueSessionKeys(t[i := Ended(t[i], now)])
  {
    var e := t[i := Ended(t[i], now)];
    forall j, k | 0 <= j < k < |e| ensures e[j].sessionKey != e[k].sessionKey {
      assert e[j].sessionKey == t[j].sessionKey && e[k].sessionKey == t[k].sessionKey;
    }
  }

  class UserSession {
    var user: UserId
    var sessionKey: string
    var device: Option<string>
    var ipAddress: Option<string>
    var loginTime: int
    var logoutTime: Option<int>
    var isActive: bool

    function Data(): SessionData
      reads this
    {
      SessionData(user, sessionKey, device, ipAddress, loginTime, logoutTime, isActive)
    }

    /** A session created at clock reading `now` with the defaults: active, logged in
        now, no logout time. */
    constructor (user: UserId, sessionKey: string, device: Option<string>, ipAddress: Option<string>, now: int)
      ensures Data() == SessionData(user, sessionKey, device, ipAddress, now, None, true)
    {
      this.user := user;
      this.sessionKey := sessionKey;
      this.device := device;
      this.ipAddress := ipAddress;
      this.loginTime := now;
      this.logoutTime := None;
      this.isActive := true;
    }

    /** `end_session()` at clock reading `now`. */
    method EndSession(now: int)
      modifies this
      ensures Data() == Ended(old(Data()), now)
    {
      logoutTime := Some(now);
      isActive := false;
    }
  }
}
