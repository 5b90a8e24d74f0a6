/** The user store of lib/services/user_service.py: every mutator is load, change the dict, save. */
module UserService {
  import opened Optional
  import opened Records
  import opened Config

  /** `[s for s in sessions if s["id"] != session_id]` */
  function WithoutSession(sessions: seq<Session>, sessionId: string): (r: seq<Session>)
    ensures |r| <= |sessions|
    ensures forall i :: 0 <= i < |r| ==> r[i].id != sessionId && r[i] in sessions
    decreases |sessions|
  {
    if sessions == [] then []
    else (if sessions[0].id != sessionId then [sessions[0]] else []) + WithoutSession(sessions[1..], sessionId)
  }

  /** The filter works piecewise, so the sessions it keeps stay in their original order. */
  lemma {:induction false} WithoutSessionAppend(a: seq<Session>, b: seq<Session>, sessionId: string)
    ensures WithoutSession(a + b, sessionId) == WithoutSession(a, sessionId) + WithoutSession(b, sessionId)
    decreases |a|
  {
    if a != [] {
      assert (a + b)[1..] == a[1..] + b;
      WithoutSessionAppend(a[1..], b, sessionId);
      var head := if a[0].id != sessionId then [a[0]] else [];
      assert WithoutSession(a + b, sessionId) == head + WithoutSession(a[1..] + b, sessionId);
      assert WithoutSession(a, sessionId) == head + WithoutSession(a[1..], sessionId);
    } else {
      assert a + b == b;
    }
  }

  /** A session is kept exactly when it was there and its id differs. */
  lemma {:induction false} WithoutSessionKeeps(sessions: seq<Session>, sessionId: string, s: Session)
    ensures s in WithoutSession(sessions, sessionId) <==> s in sessions && s.id != sessionId
    decreases |sessions|
  {
    if sessions != [] {
      WithoutSessionKeeps(sessions[1..], sessionId, s);
      assert sessions == [sessions[0]] + sessions[1..];
    }
  }

  /** Deleting changes the list exactly when some session carries the id. */
  lemma {:induction false} WithoutSessionUnchanged(sessions: seq<Session>, sessionId: string)
    ensures WithoutSession(sessions, sessionId) == sessions <==> forall i :: 0 <= i < |sessions| ==> sessions[i].id != sessionId
    decreases |sessions|
  {
    if sessions != [] {
      WithoutSessionUnchanged(sessions[1..], sessionId);
      if sessions[0].id == sessionId {
        assert |WithoutSession(sessions, sessionId)| < |sessions|;
      } else {
        forall i | 1 <= i < |sessions| ensures sessions[i] == sessions[1..][i - 1] { }
      }
    }
  }

  /** The users store behind `load_users` / `save_users`. */
  class UserStore {
    var users: Users

    constructor (users: Users)
      ensures this.users == users
    {
      this.users := users;
    }

    /** No user holds more than `MAX_SESSIONS_PER_USER` sessions. */
    predicate SessionsWithinLimit()
      reads this
    {
      forall c :: c in users ==> |users[c].chatSessions| <= MAX_SESSIONS_PER_USER
    }

    /** `get_user(code)` */
    function GetUser(code: string): (r: Option<UserRecord>)
      reads this
      ensures r.Some? <==> code in users
      ensures r.Some? ==> r.value == users[code]
    {
      if code in users then Some(users[code]) else None
    }

    /** `user_exists(code)` */
    predicate UserExists(code: string)
      reads this
      ensures UserExists(code) <==> GetUser(code).Some?
    {
      code in users
    }

    /** `create_user(code)`: refuses a code that is already taken. */
    method CreateUser(code: string, now: real) returns (created: bool)
      modifies this
      ensures created <==> code !in old(users)
      ensures created ==> users == old(users)[code := UserRecord(Some(now), None, [])]
      ensures !created ==> users == old(users)
    {
      var loaded := users;
      if code in loaded {
        return false;
      }
      loaded := loaded[code := UserRecord(Some(now), None, [])];
      users := loaded;
      created := true;
    }

    /** `update_user_profile(code, profile_data)`: replaces the profile wholesale. */
    method UpdateUserProfile(code: string, profile: Profile) returns (updated: bool)
      modifies this
      ensures updated <==> code in old(users)
      ensures updated ==> users == old(users)[code := old(users)[code].(profile := Some(profile))]
      ensures !updated ==> users == old(users)
    {
      var loaded := users;
      if code !in loaded {
        return false;
      }
      loaded := loaded[code := loaded[code].(profile := Some(profile))];
      users := loaded;
      updated := true;
    }

    /** `get_user_profile(code)`: `None` for an unknown user or one without a profile. */
    function GetUserProfile(code: string): (r: Option<Profile>)
      reads this
      ensures code !in users ==> r == None
      ensures code in users ==> r == users[code].profile
    {
      if code !in users then None else users[code].profile
    }

    /** `get_user_sessions(code)`: `[]` for an unknown user. */
    function GetUserSessions(code: string): (r: seq<Session>)
      reads this
      ensures code !in users ==> r == []
      ensures code in users ==> r == users[code].chatSessions
    {
      if code !in users then [] else users[code].chatSessions
    }

    /** `add_session(code, session)`: appends unless the user is unknown or already full. */
    method AddSession(code: string, session: Session) returns (added: bool)
      modifies this
      ensures added <==> code in old(users) && |old(users)[code].chatSessions| < MAX_SESSIONS_PER_USER
      ensures added ==> users == old(users)[code := old(users)[code].(chatSessions := old(users)[code].chatSessions + [session])]
      ensures !added ==> users == old(users)
      ensures old(SessionsWithinLimit()) ==> SessionsWithinLimit()
    {
      var loaded := users;
      if code !in loaded {
        return false;
      }
      var sessions := loaded[code].chatSessions;
      if |sessions| >= MAX_SESSIONS_PER_USER {
        return false;
      }
      sessions := sessions + [session];
      loaded := loaded[code := loaded[code].(chatSessions := sessions)];
      users := loaded;
      added := true;
    }

    /** `delete_session(code, session_id)`: drops every session with that id; true whenever the user exists. */
    method DeleteSession(code: string, sessionId: string) returns (deleted: bool)
      modifies this
      ensures deleted <==> code in old(users)
      ensures deleted ==> users == old(users)[code := old(users)[code].(chatSessions := WithoutSession(old(users)[code].chatSessions, sessionId))]
      ensures !deleted ==> users == old(users)
      ensures old(SessionsWithinLimit()) ==> SessionsWithinLimit()
    {
      var loaded := users;
      if code !in loaded {
        return false;
      }
      var sessions := loaded[code].chatSessions;
      var kept := WithoutSession(sessions, sessionId);
      loaded := loaded[code := loaded[code].(chatSessions := kept)];
      users := loaded;
      deleted := true;
    }
  }
}
