/** The authentication routes: `login` checks the credentials, gets or creates the
    user in the store and issues a token; `get_current_user` reads the store. The
    token service lives outside this model and is carried by an `AuthService`. */
module AuthRoutes {

  import opened Wrappers
  import opened Json
  import opened Schemas
  import opened SupabaseStore

  /** `simple_auth_login`, `create_access_token` with its fixed expiry, and
      `decode_access_token` (`None` for a token it rejects). */
  datatype AuthService = AuthService(
    accepts: (string, string) -> bool,
    issue: Dict -> string,
    decode: string -> Option<Dict>)

  /** The HTTP errors of these routes: 401 and 404. */
  datatype AuthError = Unauthorized | UserNotFound

  /** The claims a login token carries: `{"sub": username}`. */
  function Claims(username: string): (d: Dict)
    ensures d.Keys == {"sub"} && d["sub"] == VStr(username)
  {
    var m: map<string, Value> := map["sub" := VStr(username)];
    m
  }

  /** A user the store knows: `get_user` gives a truthy (non-empty) record. */
  predicate Known(users: map<string, Dict>, username: string)
  {
    username in users && users[username] != map[]
  }

  /** `login`: rejected credentials change nothing; otherwise an unknown user is
      created with the two clock readings `createdAt` and `lastLogin`, a known user's
      `last_login` becomes `now`, and the token for `{"sub": username}` is issued. */
  method Login(store: Store, auth: AuthService, credentials: UserLogin, createdAt: string, lastLogin: string, now: string)
    returns (r: Result<Token, AuthError>)
    requires store.Valid()
    modifies store
    ensures store.Valid()
    ensures store.roadmaps == old(store.roadmaps) && store.order == old(store.order)
    ensures !auth.accepts(credentials.username, credentials.password) ==>
      r == Err(Unauthorized) && store.users == old(store.users)
    ensures auth.accepts(credentials.username, credentials.password) ==>
      && r == Ok(Token(auth.issue(Claims(credentials.username)), "bearer", credentials.username))
      && Known(store.users, credentials.username)
    ensures auth.accepts(credentials.username, credentials.password) && !Known(old(store.users), credentials.username) ==>
      store.users == old(store.users)[credentials.username := UserRecord(credentials.username, createdAt, lastLogin)]
    ensures auth.accepts(credentials.username, credentials.password) && Known(old(store.users), credentials.username) ==>
      store.users == old(store.users)[credentials.username := WithLastLogin(old(store.users)[credentials.username], now)]
  {
    if !auth.accepts(credentials.username, credentials.password) {
      return Err(Unauthorized);
    }
    var user := store.GetUser(credentials.username);
    if user.None? || user.value == map[] {
      var created := store.CreateUser(credentials.username, createdAt, lastLogin);
    } else {
      store.UpdateLastLogin(credentials.username, now);
    }
    var token := auth.issue(Claims(credentials.username));
    r := Ok(Token(token, "bearer", credentials.username));
  }

  /** A login by a known user keeps the date the user was created. */
  lemma LoginKeepsCreationDate(users: map<string, Dict>, username: string, now: string)
    requires Known(users, username) && "created_at" in users[username]
    ensures var after := users[username := WithLastLogin(users[username], now)];
      "created_at" in after[username] && after[username]["created_at"] == users[username]["created_at"]
  {
  }

  /** `get_current_user`: the stored record, or 404 where there is no truthy one. */
  method CurrentUser(store: Store, username: string) returns (r: Result<Dict, AuthError>)
    ensures Known(store.users, username) ==> r == Ok(store.users[username])
    ensures !Known(store.users, username) ==> r == Err(UserNotFound)
  {
    var user := store.GetUser(username);
    if user.None? || user.value == map[] {
      return Err(UserNotFound);
    }
    r := Ok(user.value);
  }
}
