/** Sign-in with the demo credentials provider and the two callbacks that
    carry the user's role from the sign-in result into the JSON web token
    and from the token into the session the pages read. The provider
    registration, the sign-in page and the signing secret are framework
    configuration and are not modelled. */
module Auth {
  import opened Types

  /** The submitted form; a field that was not sent is absent. */
  datatype Credentials = Credentials(username: Option<string>, password: Option<string>)

  datatype User = User(id: string, name: string, email: string, role: string)

  const AdminUser := User("1", "Admin User", "admin@example.com", "admin")
  const OperatorUser := User("2", "Operator", "user@example.com", "user")

  /** `authorize`: the two hard-coded accounts, and null for everything
      else, including a request without credentials. */
  function Authorize(credentials: Option<Credentials>): (r: Option<User>)
    ensures r == Some(AdminUser) <==>
      credentials == Some(Credentials(Some("admin"), Some("admin")))
    ensures r == Some(OperatorUser) <==>
      credentials == Some(Credentials(Some("user"), Some("user")))
    ensures r == None <==>
      credentials != Some(Credentials(Some("admin"), Some("admin"))) &&
      credentials != Some(Credentials(Some("user"), Some("user")))
  {
    if credentials.Some? && credentials.value.username == Some("admin") && credentials.value.password == Some("admin") then
      Some(AdminUser)
    else if credentials.Some? && credentials.value.username == Some("user") && credentials.value.password == Some("user") then
      Some(OperatorUser)
    else
      None
  }

  /** A successful sign-in yields one of the two accounts, each with the
      role its username names. */
  lemma AuthorizedRole(credentials: Option<Credentials>)
    requires Authorize(credentials).Some?
    ensures credentials.Some? && credentials.value.username.Some?
    ensures Authorize(credentials).value.role == credentials.value.username.value
    ensures Authorize(credentials).value.role == "admin" || Authorize(credentials).value.role == "user"
  {
  }

  /** The token the `jwt` callback receives and returns. */
  class Token {
    var role: Option<string>

    constructor (role: Option<string>)
      ensures this.role == role
    {
      this.role := role;
    }
  }

  /** The session's user record, which the `session` callback extends. */
  class SessionUser {
    var role: Option<string>

    constructor (role: Option<string>)
      ensures this.role == role
    {
      this.role := role;
    }
  }

  class Session {
    const user: SessionUser?

    constructor (user: SessionUser?)
      ensures this.user == user
    {
      this.user := user;
    }
  }

  /** The `jwt` callback: on sign-in (a user is present) the token takes the
      user's role; on every later call the token is returned untouched. */
  method Jwt(token: Token, user: Option<User>) returns (r: Token)
    modifies token
    ensures r == token
    ensures user.Some? ==> token.role == Some(user.value.role)
    ensures user.None? ==> token.role == old(token.role)
  {
    if user.Some? {
      token.role := Some(user.value.role);
    }
    r := token;
  }

  /** The `session` callback: when the session has a user, that user's role
      becomes the token's; the session itself is returned. */
  method SessionCallback(session: Session?, token: Token) returns (r: Session?)
    modifies if session != null && session.user != null then {session.user} else {}
    ensures r == session
    ensures session != null && session.user != null ==> session.user.role == token.role
  {
    if session != null && session.user != null {
      session.user.role := token.role;
    }
    r := session;
  }

  /** The sequence the framework runs on a credentials sign-in: `authorize`,
      then `jwt` with the returned user, then `session` with the token. When
      the credentials are accepted, the role the session shows is the
      account's role; when they are refused, sign-in stops there and neither
      object changes. */
  method SignIn(credentials: Option<Credentials>, token: Token, session: Session)
    returns (user: Option<User>)
    requires session.user != null
    modifies token, session.user
    ensures user == Authorize(credentials)
    ensures user.Some? ==> session.user.role == Some(user.value.role)
    ensures user.None? ==> token.role == old(token.role) && session.user.role == old(session.user.role)
  {
    user := Authorize(credentials);
    if user.Some? {
      var t := Jwt(token, user);
      var s := SessionCallback(session, t);
    }
  }
}
