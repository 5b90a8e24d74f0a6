/** Access-code revocation and validity, as in lib/auth/token_manager.py. An access
    code is valid when it is known, not revoked, and not older than seven days. */
module TokenManager {
  import opened Optional
  import opened Records
  import opened Config
  import opened Validators
  import UserService

  /** data/token_blacklist.json: access code to the time it was logged out. */
  type Blacklist = map<string, real>

  /** `TOKEN_EXPIRY_DAYS * 86400` seconds. */
  const EXPIRY_SECONDS: real := (TOKEN_EXPIRY_DAYS * SECONDS_PER_DAY) as real

  /** The time test used both for blacklist entries and for access codes. */
  predicate Expired(since: real, now: real) {
    now > since + EXPIRY_SECONDS
  }

  /** What `is_token_blacklisted(code)` answers at time `now`. */
  predicate Revoked(blacklist: Blacklist, code: string, now: real) {
    code in blacklist && !Expired(blacklist[code], now)
  }

  /** The blacklist after `is_token_blacklisted(code)`: an entry older than seven days is dropped. */
  function AfterBlacklistCheck(blacklist: Blacklist, code: string, now: real): (r: Blacklist)
    ensures forall c :: c in r ==> c in blacklist && r[c] == blacklist[c]
    ensures forall c :: c in blacklist && c != code ==> c in r
    ensures code in r <==> Revoked(blacklist, code, now)
  {
    if code in blacklist && Expired(blacklist[code], now) then blacklist - {code} else blacklist
  }

  /** What `validate_token(raw)` answers, given the stores as they are when it is called. */
  predicate TokenValid(users: Users, blacklist: Blacklist, raw: string, now: real) {
    var code := SanitizeInput(raw, ACCESS_CODE_MAX_LENGTH);
    && code != ""
    && !Revoked(blacklist, code, now)
    && code in users
    && (users[code].createdAt.None? || !Expired(users[code].createdAt.value, now))
  }

  /** The blacklist after `validate_token(raw)`: only the blacklist check touches it. */
  function BlacklistAfterValidation(blacklist: Blacklist, raw: string, now: real): (r: Blacklist)
    ensures r.Keys <= blacklist.Keys
    ensures forall c :: c in r ==> r[c] == blacklist[c]
    ensures forall c :: c in blacklist && c != SanitizeInput(raw, ACCESS_CODE_MAX_LENGTH) ==> c in r
  {
    var code := SanitizeInput(raw, ACCESS_CODE_MAX_LENGTH);
    if code == "" then blacklist else AfterBlacklistCheck(blacklist, code, now)
  }

  /** The users store after `validate_token(raw)`: a known, unrevoked record without
      `created_at` gets the current time written into it; nothing else changes. */
  function UsersAfterValidation(users: Users, blacklist: Blacklist, raw: string, now: real): (r: Users)
    ensures r.Keys == users.Keys
    ensures forall c :: c in users ==> r[c].profile == users[c].profile && r[c].chatSessions == users[c].chatSessions
    ensures forall c :: c in users && users[c].createdAt.Some? ==> r[c] == users[c]
    ensures forall c :: c in users && r[c] != users[c] ==>
      c == SanitizeInput(raw, ACCESS_CODE_MAX_LENGTH) && r[c].createdAt == Some(now) && TokenValid(users, blacklist, raw, now)
  {
    var code := SanitizeInput(raw, ACCESS_CODE_MAX_LENGTH);
    if code != "" && !Revoked(blacklist, code, now) && code in users && users[code].createdAt.None?
    then users[code := users[code].(createdAt := Some(now))]
    else users
  }

  /** The blacklist store. */
  class TokenStore {
    var blacklist: Blacklist

    constructor (blacklist: Blacklist)
      ensures this.blacklist == blacklist
    {
      this.blacklist := blacklist;
    }

    /** `is_token_blacklisted(code)`: also prunes the entry when it has run out. */
    method IsTokenBlacklisted(code: string, now: real) returns (revoked: bool)
      modifies this
      ensures revoked <==> Revoked(old(blacklist), code, now)
      ensures blacklist == AfterBlacklistCheck(old(blacklist), code, now)
    {
      var loaded := blacklist;
      if code !in loaded {
        return false;
      }
      var since := loaded[code];
      if now > since + EXPIRY_SECONDS {
        loaded := loaded - {code};
        blacklist := loaded;
        return false;
      }
      revoked := true;
    }

    /** `add_to_token_blacklist(code)`: records the logout time, replacing an earlier one. */
    method AddToTokenBlacklist(code: string, now: real)
      modifies this
      ensures blacklist == old(blacklist)[code := now]
    {
      var loaded := blacklist;
      loaded := loaded[code := now];
      blacklist := loaded;
    }

    /** `validate_token(raw)` */
    method ValidateToken(store: UserService.UserStore, raw: string, now: real) returns (valid: bool)
      modifies this, store
      ensures valid <==> TokenValid(old(store.users), old(blacklist), raw, now)
      ensures blacklist == BlacklistAfterValidation(old(blacklist), raw, now)
      ensures store.users == UsersAfterValidation(old(store.users), old(blacklist), raw, now)
    {
      var code := SanitizeInput(raw, ACCESS_CODE_MAX_LENGTH);
      if code == "" {
        return false;
      }
      var revoked := IsTokenBlacklisted(code, now);
      if revoked {
        return false;
      }
      var users := store.users;
      if code !in users {
        return false;
      }
      var record := users[code];
      if record.createdAt.None? {
        users := users[code := record.(createdAt := Some(now))];
        store.users := users;
        return true;
      }
      valid := !(now > record.createdAt.value + EXPIRY_SECONDS);
    }
  }

  /** Validation sanitises first, so padding or control characters around a code do not matter. */
  lemma ValidityIgnoresPadding(users: Users, blacklist: Blacklist, raw: string, now: real)
    ensures TokenValid(users, blacklist, SanitizeInput(raw, ACCESS_CODE_MAX_LENGTH), now) <==> TokenValid(users, blacklist, raw, now)
  {
    SanitizeIdempotent(raw, ACCESS_CODE_MAX_LENGTH);
  }

  /** For a code as stored, with a creation time: valid exactly inside the seven-day
      window and while not revoked. */
  lemma ValidityWindow(users: Users, blacklist: Blacklist, code: string, now: real)
    requires IsClean(code, ACCESS_CODE_MAX_LENGTH) && code != ""
    requires code in users && users[code].createdAt.Some?
    ensures TokenValid(users, blacklist, code, now) <==>
      !Revoked(blacklist, code, now) && now <= users[code].createdAt.value + EXPIRY_SECONDS
  {
    SanitizeFixedPoint(code, ACCESS_CODE_MAX_LENGTH);
  }

  /** A code that is not in the users store is never valid, whatever the blacklist says. */
  lemma UnknownCodeInvalid(users: Users, blacklist: Blacklist, raw: string, now: real)
    requires SanitizeInput(raw, ACCESS_CODE_MAX_LENGTH) !in users
    ensures !TokenValid(users, blacklist, raw, now)
  {
  }

  /** Logging out (blacklisting the sanitised code at time `loggedOut`) invalidates the code
      for good when its record carries a creation time no later than the logout:
      the blacklist covers the next seven days and the expiry covers the rest. */
  lemma RevocationIsPermanent(users: Users, blacklist: Blacklist, raw: string, loggedOut: real, now: real)
    requires var code := SanitizeInput(raw, ACCESS_CODE_MAX_LENGTH);
      code in users ==> users[code].createdAt.Some? && users[code].createdAt.value <= loggedOut
    ensures !TokenValid(users, blacklist[SanitizeInput(raw, ACCESS_CODE_MAX_LENGTH) := loggedOut], raw, now)
  {
  }

  /** The blacklist check prunes an entry that has run out: a second validation
      no longer finds it. */
  lemma StaleEntryPruned(blacklist: Blacklist, raw: string, now: real)
    requires var code := SanitizeInput(raw, ACCESS_CODE_MAX_LENGTH);
      code != "" && code in blacklist && Expired(blacklist[code], now)
    ensures SanitizeInput(raw, ACCESS_CODE_MAX_LENGTH) !in BlacklistAfterValidation(blacklist, raw, now)
  {
  }

  /** Revocation is not permanent for a record without `created_at`: right after logout
      the code is refused, but once the blacklist entry has run out it validates again. */
  lemma LegacyRecordRevives(users: Users, blacklist: Blacklist, code: string, loggedOut: real, later: real)
    requires IsClean(code, ACCESS_CODE_MAX_LENGTH) && code != ""
    requires code in users && users[code].createdAt.None?
    requires later > loggedOut + EXPIRY_SECONDS
    ensures !TokenValid(users, blacklist[code := loggedOut], code, loggedOut)
    ensures TokenValid(users, blacklist[code := loggedOut], code, later)
  {
    SanitizeFixedPoint(code, ACCESS_CODE_MAX_LENGTH);
  }

  /** A backfilled record behaves from then on like one created at the time of the check. */
  lemma BackfillStartsWindow(users: Users, blacklist: Blacklist, code: string, now: real, later: real)
    requires IsClean(code, ACCESS_CODE_MAX_LENGTH) && code != ""
    requires code in users && users[code].createdAt.None? && !Revoked(blacklist, code, now)
    ensures var after := UsersAfterValidation(users, blacklist, code, now);
      TokenValid(after, blacklist, code, later) <==> !Revoked(blacklist, code, later) && later <= now + EXPIRY_SECONDS
  {
    SanitizeFixedPoint(code, ACCESS_CODE_MAX_LENGTH);
  }
}
