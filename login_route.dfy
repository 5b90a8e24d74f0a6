/** `POST /api/login` (api/login/route.py): the users store acts as a whitelist of
    access codes; a record without a creation time gets one on its first login. */
module LoginRoute {
  import opened Optional
  import opened Records
  import opened Config
  import opened Validators
  import opened TokenManager
  import opened Http
  import UserService

  const EMPTY_CODE: string := "存取代碼不能為空"
  const UNKNOWN_CODE: string := "無效的存取代碼"
  const EXPIRED_CODE: string := "存取代碼已過期，請重新申請"

  /** `TOKEN_EXPIRY_DAYS * 24 * 3600` seconds, reported as `expires_in`. */
  const EXPIRES_IN: int := TOKEN_EXPIRY_DAYS * 24 * 3600

  /** The answer of `login(req)` for the users store as it is when the request arrives. */
  function LoginResponse(users: Users, raw: string, now: real): (r: Response)
    ensures r.status == 400 <==> SanitizeInput(raw, ACCESS_CODE_MAX_LENGTH) == ""
    ensures r.status == 200 <==> TokenValid(users, map[], raw, now)
    ensures r.status in {200, 400, 401}
    ensures r.status != 200 ==> r.body.Error?
    ensures r.status == 200 ==> var code := SanitizeInput(raw, ACCESS_CODE_MAX_LENGTH);
      r.body == LoggedIn(users[code].profile.None?, users[code].profile, EXPIRES_IN)
  {
    var code := SanitizeInput(raw, ACCESS_CODE_MAX_LENGTH);
    if code == "" then Reject(400, EMPTY_CODE)
    else if code !in users then Reject(401, UNKNOWN_CODE)
    else
      var record := users[code];
      if record.createdAt.Some? && now > record.createdAt.value + (TOKEN_EXPIRY_DAYS * 86400) as real
      then Reject(401, EXPIRED_CODE)
      else Response(200, LoggedIn(record.profile.None?, record.profile, EXPIRES_IN))
  }

  /** `login(req)`: the answer, and the backfill of a missing `created_at`. */
  method Login(store: UserService.UserStore, raw: string, now: real) returns (resp: Response)
    modifies store
    ensures resp == LoginResponse(old(store.users), raw, now)
    ensures store.users == UsersAfterValidation(old(store.users), map[], raw, now)
  {
    var code := SanitizeInput(raw, ACCESS_CODE_MAX_LENGTH);
    if code == "" {
      return Reject(400, EMPTY_CODE);
    }
    var users := store.users;
    if code !in users {
      return Reject(401, UNKNOWN_CODE);
    }
    var record := users[code];
    if record.createdAt.None? {
      record := record.(createdAt := Some(now));
      users := users[code := record];
      store.users := users;
    } else {
      var expiryTime := record.createdAt.value + (TOKEN_EXPIRY_DAYS * 86400) as real;
      if now > expiryTime {
        return Reject(401, EXPIRED_CODE);
      }
    }
    resp := Response(200, LoggedIn(record.profile.None?, record.profile, EXPIRES_IN));
  }

  /** Logging in never adds or removes a user: unknown codes are turned away. */
  lemma LoginIsWhitelist(users: Users, raw: string, now: real)
    ensures UsersAfterValidation(users, map[], raw, now).Keys == users.Keys
    ensures SanitizeInput(raw, ACCESS_CODE_MAX_LENGTH) !in users ==> LoginResponse(users, raw, now).status != 200
  {
  }

  /** Login consults no blacklist: for a code that is not revoked it agrees with token
      validation, and a revoked code can still log in. */
  lemma LoginIgnoresBlacklist(users: Users, blacklist: Blacklist, raw: string, now: real)
    ensures !Revoked(blacklist, SanitizeInput(raw, ACCESS_CODE_MAX_LENGTH), now) ==>
      (LoginResponse(users, raw, now).status == 200 <==> TokenValid(users, blacklist, raw, now))
    ensures Revoked(blacklist, SanitizeInput(raw, ACCESS_CODE_MAX_LENGTH), now) ==>
      !TokenValid(users, blacklist, raw, now)
  {
  }

  /** An expired code is refused with the expiry message and its record stays in the store. */
  lemma ExpiredLoginKeepsRecord(users: Users, raw: string, now: real)
    requires var code := SanitizeInput(raw, ACCESS_CODE_MAX_LENGTH);
      code != "" && code in users && users[code].createdAt.Some? && Expired(users[code].createdAt.value, now)
    ensures LoginResponse(users, raw, now) == Reject(401, EXPIRED_CODE)
    ensures UsersAfterValidation(users, map[], raw, now) == users
  {
  }

  /** A first login of a record without `created_at` succeeds and starts its seven days now. */
  lemma FirstLoginBackfills(users: Users, raw: string, now: real)
    requires var code := SanitizeInput(raw, ACCESS_CODE_MAX_LENGTH);
      code != "" && code in users && users[code].createdAt.None?
    ensures LoginResponse(users, raw, now).status == 200
    ensures var code := SanitizeInput(raw, ACCESS_CODE_MAX_LENGTH);
      UsersAfterValidation(users, map[], raw, now) == users[code := users[code].(createdAt := Some(now))]
  {
  }
}
