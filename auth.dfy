/** The authentication manager: a directory of users keyed by email, kept
    under one storage key, and a session held in two further keys (a flag
    and the first name of the logged-in user). */
module Auth {
  import opened LocalStorage

  // ---------------------------------------------------------------------
  // The user directory
  // ---------------------------------------------------------------------

  const DefaultEmail := "cliente@email.com"
  const DefaultUser := User("123", "Cliente Teste")

  /** getUsersData: the stored directory, or the one-user seed when the key
      is absent. Reading never writes the seed back. */
  function GetUsers(s: Store): (users: map<string, User>)
    reads s`users
    ensures s.users == None ==> users.Keys == {DefaultEmail} && users[DefaultEmail] == DefaultUser
    ensures s.users.Some? ==> users == s.users.value
  {
    match s.users
    case None => map[DefaultEmail := DefaultUser]
    case Some(stored) => stored
  }

  /** saveUsersData: overwrite the key; the next read gives back `users`. */
  method SaveUsers(s: Store, users: map<string, User>)
    modifies s`users
    ensures s.users == Some(users)
    ensures GetUsers(s) == users
  {
    s.users := Some(users);
  }

  // ---------------------------------------------------------------------
  // The session
  // ---------------------------------------------------------------------

  /** isUserLoggedIn: the flag key holds exactly the string "true". */
  predicate IsLoggedIn(s: Store)
    reads s`loggedFlag
    ensures IsLoggedIn(s) ==> s.loggedFlag.Some?
    ensures s.loggedFlag.Some? && s.loggedFlag.value != "true" ==> !IsLoggedIn(s)
  {
    s.loggedFlag == Some("true")
  }

  /** `name.split(' ')[0]`: the part of the name before its first space. */
  function FirstName(name: string): (first: string)
    ensures first <= name
    ensures ' ' !in first
    ensures |first| < |name| ==> name[|first|] == ' '
  {
    if name == [] || name[0] == ' ' then [] else [name[0]] + FirstName(name[1..])
  }

  /** A name without spaces is its own first name. */
  lemma FirstNameOfOneWord(name: string)
    requires ' ' !in name
    ensures FirstName(name) == name
  {
  }

  /** When the first space is at position k, the first name is name[..k]. */
  lemma FirstNameBeforeSpace(name: string, k: nat)
    requires k < |name| && name[k] == ' '
    requires ' ' !in name[..k]
    ensures FirstName(name) == name[..k]
  {
  }

  /** The name updateAuthLink greets: present exactly when logged in, the
      stored first name, or "Cliente" when that key is absent or empty. */
  function GreetingName(s: Store): (greeting: Option<string>)
    reads s`loggedFlag, s`username
    ensures greeting.Some? <==> IsLoggedIn(s)
    ensures greeting.Some? ==> greeting.value != []
    ensures greeting.Some? && s.username.Some? && s.username.value != [] ==>
              greeting.value == s.username.value
    ensures greeting.Some? && (s.username.None? || s.username == Some("")) ==>
              greeting.value == "Cliente"
  {
    if !IsLoggedIn(s) then None
    else match s.username
      case Some(stored) => if stored != "" then Some(stored) else Some("Cliente")
      case None => Some("Cliente")
  }

  /** handleLogin: succeeds exactly when the email is a key and its stored
      password is equal to the given one; then it writes the flag and the
      first name. A failed login writes nothing. The user directory is only
      read, so the seed is not persisted by a login either. */
  method Login(s: Store, email: string, password: string) returns (ok: bool)
    modifies s`loggedFlag, s`username
    ensures ok <==> email in GetUsers(s) && GetUsers(s)[email].password == password
    ensures ok ==> s.loggedFlag == Some("true")
                   && s.username == Some(FirstName(GetUsers(s)[email].name))
                   && IsLoggedIn(s)
    ensures !ok ==> s.loggedFlag == old(s.loggedFlag) && s.username == old(s.username)
  {
    var users := GetUsers(s);
    if email in users && users[email].password == password {
      s.loggedFlag := Some("true");
      s.username := Some(FirstName(users[email].name));
      ok := true;
    } else {
      ok := false;
    }
  }

  /** handleLogout: both session keys are removed, whatever they held. */
  method Logout(s: Store)
    modifies s`loggedFlag, s`username
    ensures s.loggedFlag == None && s.username == None
    ensures !IsLoggedIn(s) && GreetingName(s) == None
  {
    s.loggedFlag := None;
    s.username := None;
  }

  // ---------------------------------------------------------------------
  // Registration
  // ---------------------------------------------------------------------

  datatype Registration = PasswordTooShort | EmailTaken | Registered

  /** handleRegistration: insert-if-absent. A taken email changes nothing;
      a new one is added with exactly {password, name} and every earlier
      entry kept, the seed included when the key was absent. The session
      keys are never touched (the automatic login is switched off). */
  method Register(s: Store, name: string, email: string, password: string)
    returns (outcome: Registration)
    modifies s`users
    ensures outcome != PasswordTooShort
    ensures outcome == EmailTaken <==> email in old(GetUsers(s))
    ensures outcome == EmailTaken ==> s.users == old(s.users)
    ensures outcome == Registered ==>
              s.users == Some(old(GetUsers(s))[email := User(password, name)])
    ensures outcome == Registered ==>
              GetUsers(s).Keys == old(GetUsers(s)).Keys + {email}
              && GetUsers(s)[email] == User(password, name)
              && (forall e :: e in old(GetUsers(s)) ==> GetUsers(s)[e] == old(GetUsers(s))[e])
    ensures outcome == Registered && old(s.users) == None ==>
              GetUsers(s)[DefaultEmail] == DefaultUser
  {
    var users := GetUsers(s);
    if email in users {
      return EmailTaken;
    }
    users := users[email := User(password, name)];
    SaveUsers(s, users);
    outcome := Registered;
  }

  /** The registration form's submit handler: a password of fewer than three
      characters is refused before the directory is read or written;
      otherwise the request goes to handleRegistration. */
  method SubmitRegistration(s: Store, name: string, email: string, password: string)
    returns (outcome: Registration)
    modifies s`users
    ensures outcome == PasswordTooShort <==> |password| < 3
    ensures outcome == PasswordTooShort ==> s.users == old(s.users)
    ensures outcome == EmailTaken <==> |password| >= 3 && email in old(GetUsers(s))
    ensures outcome == EmailTaken ==> s.users == old(s.users)
    ensures outcome == Registered ==>
              s.users == Some(old(GetUsers(s))[email := User(password, name)])
  {
    if |password| < 3 {
      return PasswordTooShort;
    }
    outcome := Register(s, name, email, password);
  }

  /** Ana registers, a second registration with her email is refused and
      keeps her record, and logging in greets her by her first name. */
  method ScenarioRegisterTwiceThenLogin()
    returns (first: Registration, second: Registration, record: User,
             loggedIn: bool, greeting: Option<string>)
    ensures first == Registered && second == EmailTaken
    ensures record == User("abc", "Ana")
    ensures loggedIn && greeting == Some("Ana")
  {
    var s := new Store();
    first := SubmitRegistration(s, "Ana", "ana@x.com", "abc");
    second := SubmitRegistration(s, "Ana2", "ana@x.com", "xyz");
    record := GetUsers(s)["ana@x.com"];
    FirstNameOfOneWord("Ana");
    loggedIn := Login(s, "ana@x.com", "abc");
    greeting := GreetingName(s);
  }

  /** With nothing stored, the seeded user can log in as "Cliente". */
  method ScenarioDefaultUserLogin() returns (loggedIn: bool, greeting: Option<string>)
    ensures loggedIn && greeting == Some("Cliente")
  {
    var s := new Store();
    assert DefaultUser.name[..7] == "Cliente";
    FirstNameBeforeSpace(DefaultUser.name, 7);
    loggedIn := Login(s, DefaultEmail, "123");
    greeting := GreetingName(s);
  }
}
