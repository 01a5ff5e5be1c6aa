/** The field validators of registration and the login check (Users/serializers.py). */
module UsersSerializers {
  import opened Common
  import opened UsersModels

  /** `str.isspace()` for one character: the characters Python treats as whitespace. */
  predicate IsSpace(c: char) {
    var n := c as int;
    || n == 0x20 || 0x09 <= n <= 0x0D || 0x1C <= n <= 0x1F || n == 0x85 || n == 0xA0
    || n == 0x1680 || 0x2000 <= n <= 0x200A || n == 0x2028 || n == 0x2029 || n == 0x202F
    || n == 0x205F || n == 0x3000
  }

  /** `s.lstrip()`. */
  function StripLeft(s: string): (r: string)
    ensures |r| <= |s| && r == s[|s| - |r|..]
    ensures r != [] ==> !IsSpace(r[0])
    ensures forall k | 0 <= k < |s| - |r| :: IsSpace(s[k])
    decreases |s|
  {
    if s != [] && IsSpace(s[0]) then StripLeft(s[1..]) else s
  }

  /** `s.rstrip()`. */
  function StripRight(s: string): (r: string)
    ensures |r| <= |s| && r == s[..|r|]
    ensures r != [] ==> !IsSpace(r[|r| - 1])
    ensures forall k | |r| <= k < |s| :: IsSpace(s[k])
    decreases |s|
  {
    if s != [] && IsSpace(s[|s| - 1]) then StripRight(s[..|s| - 1]) else s
  }

  /** `s.strip()`: no longer than the input, and what it keeps begins and ends with a
      non-space character. */
  function Strip(s: string): (r: string)
    ensures |r| <= |s|
    ensures r != [] ==> !IsSpace(r[0]) && !IsSpace(r[|r| - 1])
  {
    var l := StripLeft(s);
    var r := StripRight(l);
    assert r != [] ==> r[0] == l[0];
    r
  }

  /** Where the text `strip` keeps begins. */
  function StripStart(s: string): (i: nat)
    ensures i <= |s|
  {
    |s| - |StripLeft(s)|
  }

  /** The text `strip` keeps is one slice of the input. */
  lemma StripIsSlice(s: string)
    ensures StripStart(s) + |Strip(s)| <= |s|
    ensures Strip(s) == s[StripStart(s)..StripStart(s) + |Strip(s)|]
  {
    var l := StripLeft(s);
    var r := StripRight(l);
    assert l == s[StripStart(s)..];
    assert r == l[..|r|];
  }

  /** Whitespace at the end of a suffix of `s` is whitespace at the end of `s`. */
  lemma SpaceTailOfSuffix(s: string, i: nat, l: string, m: nat)
    requires i <= |s| && l == s[i..] && m <= |l|
    requires forall k | m <= k < |l| :: IsSpace(l[k])
    ensures forall k | i + m <= k < |s| :: IsSpace(s[k])
  {
    forall k | i + m <= k < |s| ensures IsSpace(s[k]) {
      assert s[k] == l[k - i];
    }
  }

  /** Everything `strip` removes is whitespace. */
  lemma StripRemovesOnlySpace(s: string)
    ensures forall k | 0 <= k < StripStart(s) :: IsSpace(s[k])
    ensures forall k | StripStart(s) + |Strip(s)| <= k < |s| :: IsSpace(s[k])
  {
    var l := StripLeft(s);
    var r := StripRight(l);
    assert Strip(s) == r;
    SpaceTailOfSuffix(s, StripStart(s), l, |r|);
  }

  /** The stripped text is empty exactly when every character is whitespace. */
  lemma StripEmptyIff(s: string)
    ensures Strip(s) == [] <==> forall k | 0 <= k < |s| :: IsSpace(s[k])
  {
    StripIsSlice(s);
    StripRemovesOnlySpace(s);
    if Strip(s) != [] {
      assert s[StripStart(s)] == Strip(s)[0];
    }
  }

  datatype NameError = NameRequired | NameTooShort

  datatype Checked<T, E> = Passed(value: T) | Rejected(error: E)

  /** `validate_full_name`: a name with no visible characters is missing, one with fewer
      than three characters between its first and last visible ones is too short, and
      an accepted name is returned as given, surrounding whitespace included. */
  function ValidateFullName(value: string): (r: Checked<string, NameError>)
    ensures r == Rejected(NameRequired) <==> forall k | 0 <= k < |value| :: IsSpace(value[k])
    ensures r.Passed? <==> |Strip(value)| >= 3
    ensures r.Passed? ==> r.value == value
  {
    StripEmptyIff(value);
    if value == "" || Strip(value) == "" then Rejected(NameRequired)
    else if |Strip(value)| < 3 then Rejected(NameTooShort)
    else Passed(value)
  }

  datatype EmailError = EmailRequired | EmailExists

  /** `validate_email`: required, and not already used by a stored user, compared exactly
      as given. */
  function ValidateEmail(users: seq<Account>, value: string): (r: Checked<string, EmailError>)
    ensures r == Rejected(EmailRequired) <==> value == ""
    ensures r == Rejected(EmailExists) <==> value != "" && EmailTaken(users, value)
    ensures r.Passed? ==> r.value == value
  {
    if value == "" then Rejected(EmailRequired)
    else if EmailTaken(users, value) then Rejected(EmailExists)
    else Passed(value)
  }

  /** The fields of the login form, with those `validate` adds. */
  datatype LoginData = LoginData(email: string, password: string, user: Option<UserId>, isSuperuser: Option<int>)

  datatype LoginError = InvalidCredentials | Inactive

  /** `LoginSerializer.validate`; `authenticated` is what `authenticate` returned for this
      email and password. An inactive user is refused here even when authenticated. */
  function LoginValidate(users: seq<Account>, data: LoginData, authenticated: Option<UserId>)
    : (r: Checked<LoginData, LoginError>)
    requires authenticated.Some? ==> authenticated.value < |users|
    ensures authenticated.None? ==> r == Rejected(InvalidCredentials)
    ensures authenticated.Some? && !users[authenticated.value].isActive ==> r == Rejected(Inactive)
    ensures r.Passed? <==> authenticated.Some? && users[authenticated.value].isActive
    ensures r.Passed? ==>
      && r.value.email == data.email && r.value.password == data.password
      && r.value.user == authenticated
      && (r.value.isSuperuser == Some(1) <==> users[authenticated.value].isSuperuser)
      && (r.value.isSuperuser == Some(0) <==> !users[authenticated.value].isSuperuser)
  {
    match authenticated
    case None => Rejected(InvalidCredentials)
    case Some(id) =>
      if !users[id].isActive then Rejected(Inactive)
      else Passed(data.(user := Some(id), isSuperuser := Some(if users[id].isSuperuser then 1 else 0)))
  }
}
