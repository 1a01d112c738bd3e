/**
 * The session provider: it reads the stored bearer token at startup, logs in
 * against the authentication endpoint and logs out, keeping the flag
 * `isAuthenticated` and the decoded `user`, and asking the router to
 * redirect. The browser's key-value store is a `Storage` object; the router
 * is a recorded list of redirect targets.
 */
module AuthContext {
  import opened Wrappers

  /** The claims a token decodes to. */
  type Claims = map<string, string>

  /** Tells whether a token has expired (its own module, kept uninterpreted). */
  type ExpiryCheck = string -> bool

  /** Decodes a token's claims; `None` when decoding throws. */
  type TokenDecoder = string -> Option<Claims>

  const TokenKey := "token"
  const UsernameKey := "username"
  const LoginRoute := "/login"
  const HomeRoute := "/"
  const LoginFailedText := "Login failed"
  const UseAuthErrorText := "error in useAuth function"

  function Lookup(items: map<string, string>, key: string): Option<string> {
    if key in items then Some(items[key]) else None
  }

  /** JavaScript truthiness of a stored string: present and not empty. */
  predicate Truthy(value: Option<string>) {
    value.Some? && value.value != ""
  }

  // ---------------------------------------------------------------------------
  // The session as a value, and what each transition does to it
  // ---------------------------------------------------------------------------

  /** The stored items, the two state fields and the redirects asked for so far. */
  datatype Session = Session(
    items: map<string, string>,
    isAuthenticated: bool,
    user: Option<Claims>,
    navigations: seq<string>)

  /** The provider as it is first rendered over the stored items. */
  function Fresh(items: map<string, string>): (r: Session)
    ensures r.items == items && !r.isAuthenticated && r.user == None && r.navigations == []
  {
    Session(items, false, None, [])
  }

  /** Startup discards the stored session when the token is missing, empty or expired. */
  predicate StartupRejects(token: Option<string>, isExpired: ExpiryCheck) {
    !Truthy(token) || isExpired(token.value)
  }

  /**
   * The startup check. A rejected token removes `token` and `username` and
   * redirects to the login page; either way the flag ends as "a token string
   * was read", and `user` is never set.
   */
  function AfterStartup(s: Session, isExpired: ExpiryCheck): (r: Session)
    ensures r.user == s.user
    ensures r.isAuthenticated == Truthy(Lookup(s.items, TokenKey))
    ensures StartupRejects(Lookup(s.items, TokenKey), isExpired) ==>
              r.items == s.items - {TokenKey, UsernameKey}
              && r.navigations == s.navigations + [LoginRoute]
    ensures !StartupRejects(Lookup(s.items, TokenKey), isExpired) ==>
              r.items == s.items && r.navigations == s.navigations && r.isAuthenticated
  {
    var token := Lookup(s.items, TokenKey);
    var checked :=
      if StartupRejects(token, isExpired) then
        s.(items := s.items - {TokenKey, UsernameKey}, isAuthenticated := false,
           navigations := s.navigations + [LoginRoute])
      else s;
    checked.(isAuthenticated := Truthy(token))
  }

  /** A present but expired token is removed, yet the session ends authenticated. */
  lemma ExpiredTokenStillAuthenticated(s: Session, isExpired: ExpiryCheck)
    requires Truthy(Lookup(s.items, TokenKey)) && isExpired(s.items[TokenKey])
    ensures var r := AfterStartup(s, isExpired);
            r.isAuthenticated && TokenKey !in r.items && UsernameKey !in r.items
            && r.navigations == s.navigations + [LoginRoute]
  {
  }

  /** After startup the flag is set exactly when a token string was read, whatever its expiry. */
  lemma StartupFlagIgnoresExpiry(s: Session, isExpired: ExpiryCheck, otherCheck: ExpiryCheck)
    ensures AfterStartup(s, isExpired).isAuthenticated == AfterStartup(s, otherCheck).isAuthenticated
  {
  }

  /** How a login request ended. */
  datatype LoginReply =
    /** A 2xx response; `token` is `None` when its body has no `data` object. */
    | Issued(token: Option<string>)
    /** An error response and the `message` in its body. */
    | Refused(message: Option<string>)
    /** No response at all. */
    | Unanswered

  /**
   * Login. A received token is stored and the flag set before it is decoded;
   * when decoding succeeds the claims become `user` and the router goes home.
   * Every failure throws: the server's message when there is one, otherwise
   * "Login failed".
   */
  function AfterLogin(s: Session, reply: LoginReply, decode: TokenDecoder): (r: (Session, Result<(), string>))
    ensures r.1.Success? <==> reply.Issued? && reply.token.Some? && decode(reply.token.value).Some?
    ensures r.1.Success? ==>
              r.0 == s.(items := s.items[TokenKey := reply.token.value], isAuthenticated := true,
                        user := decode(reply.token.value), navigations := s.navigations + [HomeRoute])
    ensures !(reply.Issued? && reply.token.Some?) ==> r.0 == s
    ensures reply.Issued? && reply.token.Some? && decode(reply.token.value).None? ==>
              r.0 == s.(items := s.items[TokenKey := reply.token.value], isAuthenticated := true)
    ensures r.1.Failure? ==>
              r.1.error == if reply.Refused? && Truthy(reply.message) then reply.message.value else LoginFailedText
  {
    match reply
    case Issued(token) =>
      if token.None? then (s, Failure(LoginFailedText))
      else
        var stored := s.(items := s.items[TokenKey := token.value], isAuthenticated := true);
        (match decode(token.value)
         case Some(claims) => (stored.(user := Some(claims), navigations := stored.navigations + [HomeRoute]), Success(()))
         case None => (stored, Failure(LoginFailedText)))
    case Refused(message) =>
      (s, Failure(if Truthy(message) then message.value else LoginFailedText))
    case Unanswered => (s, Failure(LoginFailedText))
  }

  /** Logout removes the token only, clears the flag and the user and redirects to the login page. */
  function AfterLogout(s: Session): (r: Session)
    ensures r.items.Keys == s.items.Keys - {TokenKey}
    ensures forall key :: key in r.items ==> r.items[key] == s.items[key]
    ensures !r.isAuthenticated && r.user == None
    ensures r.navigations == s.navigations + [LoginRoute]
  {
    s.(items := s.items - {TokenKey}, isAuthenticated := false, user := None,
       navigations := s.navigations + [LoginRoute])
  }

  /**
   * Logout keeps the stored username; the startup of the next provider, after
   * a reload, is the one that removes it.
   */
  lemma LogoutThenStartup(s: Session, isExpired: ExpiryCheck)
    ensures UsernameKey in s.items ==> Lookup(AfterLogout(s).items, UsernameKey) == Lookup(s.items, UsernameKey)
    ensures var r := AfterStartup(Fresh(AfterLogout(s).items), isExpired);
            TokenKey !in r.items && UsernameKey !in r.items && !r.isAuthenticated && r.user == None
            && r.navigations == [LoginRoute]
  {
    assert TokenKey != UsernameKey;
  }

  /**
   * After a successful login, a reload that runs startup again ends
   * authenticated whether or not the token has expired since, and with no user:
   * startup never decodes the token.
   */
  lemma ReloadAfterLogin(s: Session, token: string, decode: TokenDecoder, isExpired: ExpiryCheck)
    requires token != "" && decode(token).Some?
    ensures var (loggedIn, result) := AfterLogin(s, Issued(Some(token)), decode);
            var reloaded := AfterStartup(Fresh(loggedIn.items), isExpired);
            result.Success? && reloaded.isAuthenticated && reloaded.user == None
            && (isExpired(token) <==> TokenKey !in reloaded.items)
  {
  }

  /** `useAuth`: the provider's value, or an error outside any provider. */
  function UseAuth<C>(context: Option<C>): (r: Result<C, string>)
    ensures r.Success? <==> context.Some?
    ensures context.Some? ==> r.value == context.value
    ensures context.None? ==> r.error == UseAuthErrorText
  {
    match context
    case Some(c) => Success(c)
    case None => Failure(UseAuthErrorText)
  }

  // ---------------------------------------------------------------------------
  // The store and the provider as objects
  // ---------------------------------------------------------------------------

  /** The browser's persistent key-value store. */
  class Storage {
    var items: map<string, string>

    constructor (items: map<string, string>)
      ensures this.items == items
    {
      this.items := items;
    }

    method GetItem(key: string) returns (value: Option<string>)
      ensures value.Some? <==> key in items
      ensures value.Some? ==> value.value == items[key]
    {
      value := if key in items then Some(items[key]) else None;
    }

    method SetItem(key: string, value: string)
      modifies this
      ensures items == old(items)[key := value]
    {
      items := items[key := value];
    }

    method RemoveItem(key: string)
      modifies this
      ensures items == old(items) - {key}
    {
      items := items - {key};
    }
  }

  /** The provider's state over a store. */
  class AuthProvider {
    const storage: Storage
    var isAuthenticated: bool
    var user: Option<Claims>
    var navigations: seq<string>

    function State(): Session
      reads this, storage
    {
      Session(storage.items, isAuthenticated, user, navigations)
    }

    constructor (storage: Storage)
      ensures this.storage == storage
      ensures State() == Fresh(storage.items)
    {
      this.storage := storage;
      isAuthenticated := false;
      user := None;
      navigations := [];
    }

    /** The startup effect. */
    method Startup(isExpired: ExpiryCheck)
      modifies this, storage
      ensures State() == AfterStartup(old(State()), isExpired)
    {
      var token := storage.GetItem(TokenKey);
      if !Truthy(token) || isExpired(token.value) {
        storage.RemoveItem(TokenKey);
        storage.RemoveItem(UsernameKey);
        isAuthenticated := false;
        navigations := navigations + [LoginRoute];
      }
      isAuthenticated := Truthy(token);
    }

    /** Login with the reply the endpoint gave; a `Failure` is the error it throws. */
    method Login(reply: LoginReply, decode: TokenDecoder) returns (result: Result<(), string>)
      modifies this, storage
      ensures (State(), result) == AfterLogin(old(State()), reply, decode)
    {
      match reply {
        case Issued(token) =>
          if token.None? {
            result := Failure(LoginFailedText);
          } else {
            storage.SetItem(TokenKey, token.value);
            isAuthenticated := true;
            var claims := decode(token.value);
            if claims.Some? {
              user := claims;
              navigations := navigations + [HomeRoute];
              result := Success(());
            } else {
              result := Failure(LoginFailedText);
            }
          }
        case Refused(message) =>
          result := Failure(if Truthy(message) then message.value else LoginFailedText);
        case Unanswered =>
          result := Failure(LoginFailedText);
      }
    }

    method Logout()
      modifies this, storage
      ensures State() == AfterLogout(old(State()))
    {
      storage.RemoveItem(TokenKey);
      isAuthenticated := false;
      user := None;
      navigations := navigations + [LoginRoute];
    }
  }
}
