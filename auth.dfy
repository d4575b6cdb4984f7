/** Accounts and the login session: the user table, who is logged in, and
    the five endpoints that read or change them (bootstrap seeding,
    registration, login, logout and "me").

    Password hashing is abstract: a `Hasher` turns a password into a stored
    credential and checks a password against one. */
module Auth {
  import opened Opt
  import opened Utils

  /** A stored password hash. */
  type Credential = string

  datatype Hasher = Hasher(hash: string -> Credential, check: (Credential, string) -> bool)

  /** A hasher accepts the password a credential was made from. */
  ghost predicate Sound(h: Hasher) {
    forall pw :: h.check(h.hash(pw), pw)
  }

  datatype User = User(username: string, email: string, role: string, credential: Credential)

  /** The user details the endpoints report back. */
  datatype Profile = Profile(username: string, role: string)

  /** The message of each JSON reply, one per distinct answer. */
  datatype Message =
    | SetupSkipped
    | DefaultUsersCreated
    | MissingFields
    | UsernameTaken
    | EmailRegistered
    | Registered
    | InvalidCredentials
    | LoginSuccessful
    | LoggedOut
    | CurrentUser
    | AuthenticationRequired

  datatype Reply = Reply(status: int, message: Message, profile: Option<Profile>)

  /** The three accounts the bootstrap endpoint seeds. */
  function DefaultUsers(h: Hasher): (us: seq<User>)
    ensures |us| == 3
    ensures us[0].username == "admin" && us[0].role == Admin
    ensures us[1].username == "finance" && us[1].role == Finance
    ensures us[2].username == "salesrep" && us[2].role == Sales
    ensures UniqueUsernames(us) && UniqueEmails(us)
  {
    [ User("admin", "admin@app.com", Admin, h.hash("adminpass")),
      User("finance", "finance@app.com", Finance, h.hash("financepass")),
      User("salesrep", "sales@app.com", Sales, h.hash("salespass")) ]
  }

  ghost predicate UniqueUsernames(us: seq<User>) {
    forall i, j :: 0 <= i < j < |us| ==> us[i].username != us[j].username
  }

  ghost predicate UniqueEmails(us: seq<User>) {
    forall i, j :: 0 <= i < j < |us| ==> us[i].email != us[j].email
  }

  predicate HasUsername(us: seq<User>, name: string) {
    exists i :: 0 <= i < |us| && us[i].username == name
  }

  predicate HasEmail(us: seq<User>, email: string) {
    exists i :: 0 <= i < |us| && us[i].email == email
  }

  /** `User.query.filter_by(username=name).first()`: the position of the
      first user with that name, if any. */
  function FindByUsername(us: seq<User>, name: string): (r: Option<nat>)
    ensures r.None? <==> !HasUsername(us, name)
    ensures r.Some? ==> r.value < |us| && us[r.value].username == name
    ensures r.Some? ==> forall j :: 0 <= j < r.value ==> us[j].username != name
  {
    if |us| == 0 then None
    else if us[0].username == name then Some(0)
    else match FindByUsername(us[1..], name)
      case None => None
      case Some(i) => Some(i + 1)
  }

  /** A request field that is present and not empty (Python truthiness of a
      string). */
  predicate Given(field: Option<string>) {
    field.Some? && field.value != ""
  }

  /** The checks of `register`, in the order it makes them: missing fields,
      then a taken username, then a registered email. */
  function RegistrationError(us: seq<User>, username: Option<string>, email: Option<string>, password: Option<string>)
    : (e: Option<Message>)
    ensures e == Some(MissingFields) <==> !Given(username) || !Given(email) || !Given(password)
    ensures e == Some(UsernameTaken) <==>
              Given(username) && Given(email) && Given(password) && HasUsername(us, username.value)
    ensures e == Some(EmailRegistered) <==>
              Given(username) && Given(email) && Given(password) && !HasUsername(us, username.value)
              && HasEmail(us, email.value)
    ensures e.None? <==>
              Given(username) && Given(email) && Given(password)
              && !HasUsername(us, username.value) && !HasEmail(us, email.value)
  {
    if !Given(username) || !Given(email) || !Given(password) then Some(MissingFields)
    else if FindByUsername(us, username.value).Some? then Some(UsernameTaken)
    else if HasEmail(us, email.value) then Some(EmailRegistered)
    else None
  }

  /** The user table plus the session of one client. `current` is the
      position of the logged-in user, `None` when the session is
      anonymous. */
  class AccountStore {
    const hasher: Hasher
    var users: seq<User>
    var current: Option<nat>

    ghost predicate Valid()
      reads this
    {
      && UniqueUsernames(users)
      && UniqueEmails(users)
      && (current.Some? ==> current.value < |users|)
    }

    constructor (h: Hasher)
      ensures Valid()
      ensures hasher == h && users == [] && current == None
    {
      hasher := h;
      users := [];
      current := None;
    }

    /** Who the session belongs to, as the role guards see it. */
    function CurrentPrincipal(): (p: Principal)
      reads this
      requires Valid()
      ensures p.Anonymous? <==> current.None?
      ensures p.LoggedIn? ==> p.username == users[current.value].username && p.role == users[current.value].role
    {
      match current
      case None => Anonymous
      case Some(i) => LoggedIn(users[i].username, users[i].role)
    }

    /** `create_default_users`: seeds the three default accounts into an
        empty table and does nothing once any user exists. */
    method CreateDefaultUsers() returns (reply: Reply)
      requires Valid()
      modifies this
      ensures Valid()
      ensures old(users) != [] ==> reply == Reply(200, SetupSkipped, None) && users == old(users)
      ensures old(users) == [] ==> reply == Reply(201, DefaultUsersCreated, None) && users == DefaultUsers(hasher)
      ensures current == old(current)
    {
      if |users| > 0 {
        return Reply(200, SetupSkipped, None);
      }
      users := DefaultUsers(hasher);
      reply := Reply(201, DefaultUsersCreated, None);
    }

    /** `register`: a new SALES account, logged in at once. */
    method Register(username: Option<string>, email: Option<string>, password: Option<string>) returns (reply: Reply)
      requires Valid()
      modifies this
      ensures Valid()
      ensures var e := RegistrationError(old(users), username, email, password);
              e.Some? ==> && reply == Reply(if e.value == MissingFields then 400 else 409, e.value, None)
                          && users == old(users) && current == old(current)
      ensures RegistrationError(old(users), username, email, password).None? ==>
                && users == old(users) + [User(username.value, email.value, Sales, hasher.hash(password.value))]
                && current == Some(|old(users)|)
                && reply == Reply(201, Registered, Some(Profile(username.value, Sales)))
    {
      var e := RegistrationError(users, username, email, password);
      if e.Some? {
        return Reply(if e.value == MissingFields then 400 else 409, e.value, None);
      }
      var newUser := User(username.value, email.value, Sales, hasher.hash(password.value));
      users := users + [newUser];
      current := Some(|users| - 1);
      reply := Reply(201, Registered, Some(Profile(newUser.username, newUser.role)));
    }

    /** `login`: starts a session for the named user when the password
        checks against the stored credential. */
    method Login(username: Option<string>, password: string) returns (reply: Reply)
      requires Valid()
      modifies this
      ensures Valid() && users == old(users)
      ensures username.None? || !HasUsername(users, username.value) ==>
                reply == Reply(401, InvalidCredentials, None) && current == old(current)
      ensures username.Some? && HasUsername(users, username.value) ==>
                var i := FindByUsername(users, username.value).value;
                if hasher.check(users[i].credential, password) then
                  && current == Some(i)
                  && reply == Reply(200, LoginSuccessful, Some(Profile(users[i].username, users[i].role)))
                else
                  reply == Reply(401, InvalidCredentials, None) && current == old(current)
    {
      if username.None? {
        return Reply(401, InvalidCredentials, None);
      }
      var found := FindByUsername(users, username.value);
      if found.None? || !hasher.check(users[found.value].credential, password) {
        return Reply(401, InvalidCredentials, None);
      }
      var user := users[found.value];
      current := found;
      reply := Reply(200, LoginSuccessful, Some(Profile(user.username, user.role)));
    }

    /** `logout`: needs a session (401 otherwise) and leaves it anonymous. */
    method Logout() returns (reply: Reply)
      requires Valid()
      modifies this
      ensures Valid() && users == old(users) && current == None
      ensures reply.status == 200 <==> old(current).Some?
      ensures old(current).None? ==> reply == Reply(401, AuthenticationRequired, None)
      ensures old(current).Some? ==> reply == Reply(200, LoggedOut, None)
    {
      if current.None? {
        return Reply(401, AuthenticationRequired, None);
      }
      current := None;
      reply := Reply(200, LoggedOut, None);
    }

    /** `get_current_user` (the `me` endpoint): the logged-in user's profile,
        or 401 for an anonymous session. */
    function Me(): (reply: Reply)
      reads this
      requires Valid()
      ensures reply.status == 200 <==> CurrentPrincipal().LoggedIn?
      ensures reply.status != 200 ==> reply == Reply(401, AuthenticationRequired, None)
      ensures reply.status == 200 ==>
                reply.profile == Some(Profile(CurrentPrincipal().username, CurrentPrincipal().role))
    {
      match current
      case None => Reply(401, AuthenticationRequired, None)
      case Some(i) => Reply(200, CurrentUser, Some(Profile(users[i].username, users[i].role)))
    }
  }

  /** Registering and then logging in with the same password succeeds and
      reports SALES; a password the stored credential does not accept is
      refused with 401; after logout the session is anonymous again. */
  method RegisterThenLogin(h: Hasher, username: string, email: string, password: string, wrong: string)
    returns (registered: Reply, loggedIn: Reply, refused: Reply, me: Reply)
    requires Sound(h)
    requires username != "" && email != "" && password != ""
    ensures registered == Reply(201, Registered, Some(Profile(username, Sales)))
    ensures loggedIn == Reply(200, LoginSuccessful, Some(Profile(username, Sales)))
    ensures !h.check(h.hash(password), wrong) ==> refused == Reply(401, InvalidCredentials, None)
    ensures me == Reply(401, AuthenticationRequired, None)
  {
    var store := new AccountStore(h);
    registered := store.Register(Some(username), Some(email), Some(password));
    assert store.users[0].username == username;
    var _ := store.Logout();
    loggedIn := store.Login(Some(username), password);
    refused := store.Login(Some(username), wrong);
    var _ := store.Logout();
    me := store.Me();
  }

  /** The same round trip from any valid store that accepts the
      registration: the new account is found by its name even though other
      accounts exist, the right password logs it in as SALES, and a password
      its credential does not accept is refused without ending the session. */
  method RegisterThenLoginInStore(store: AccountStore, username: string, email: string, password: string, wrong: string)
    returns (registered: Reply, loggedIn: Reply, refused: Reply)
    requires store.Valid() && Sound(store.hasher)
    requires RegistrationError(store.users, Some(username), Some(email), Some(password)).None?
    modifies store
    ensures store.Valid()
    ensures store.users == old(store.users) + [User(username, email, Sales, store.hasher.hash(password))]
    ensures registered == Reply(201, Registered, Some(Profile(username, Sales)))
    ensures loggedIn == Reply(200, LoginSuccessful, Some(Profile(username, Sales)))
    ensures !store.hasher.check(store.hasher.hash(password), wrong) ==> refused == Reply(401, InvalidCredentials, None)
    ensures store.current == Some(|old(store.users)|)
  {
    ghost var before := store.users;
    registered := store.Register(Some(username), Some(email), Some(password));
    assert store.users[|before|].username == username;
    loggedIn := store.Login(Some(username), password);
    refused := store.Login(Some(username), wrong);
  }

  /** After bootstrap seeding, a second seeding is skipped and the seeded
      administrator can log in with the seeded password. */
  method BootstrapThenLogin(h: Hasher) returns (first: Reply, second: Reply, admin: Reply)
    requires Sound(h)
    ensures first.status == 201 && second.status == 200
    ensures admin == Reply(200, LoginSuccessful, Some(Profile("admin", Admin)))
  {
    var store := new AccountStore(h);
    first := store.CreateDefaultUsers();
    second := store.CreateDefaultUsers();
    assert store.users[0].username == "admin";
    admin := store.Login(Some("admin"), "adminpass");
  }
}
