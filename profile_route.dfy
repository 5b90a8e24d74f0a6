/** `/api/profile` (api/profile/route.py): save and read the player's profile. */
module ProfileRoute {
  import opened Optional
  import opened Records
  import opened Config
  import opened Validators
  import opened Exceptions
  import opened TokenManager
  import opened Http
  import ChatService
  import UserService

  datatype ProfileRequest = ProfileRequest(code: string, name: string, level: string, starPref: string, style: string)

  const NAME_FIELD: string := "玩家名稱"
  const LEVEL_FIELD: string := "最高段位"
  const UNKNOWN_CODE: string := "無效的存取代碼。"
  const PROFILE_SAVED: string := "個人資料已儲存！"

  /** The outcome of the field checks: the message to raise, or the profile to store. */
  datatype Checked = Invalid(message: string) | Valid(profile: Profile)

  /** `profile_data`: the four keys the route stores. */
  function StoredProfile(name: string, level: string, starPref: string, style: string): (p: Profile)
    ensures p.Keys == {"name", "level", "star_pref", "style"}
    ensures p["name"] == name && p["level"] == level && p["star_pref"] == starPref && p["style"] == style
  {
    map["name" := name, "level" := level, "star_pref" := starPref, "style" := style]
  }

  /** The field checks of `save_profile`: `name`, then `level`, are required; `star_pref`
      and `style` are only sanitised. */
  function CheckProfile(req: ProfileRequest): (r: Checked)
    ensures r.Valid? <==>
      SanitizeInput(req.name, USER_NAME_MAX_LENGTH) != "" && SanitizeInput(req.level, USER_NAME_MAX_LENGTH) != ""
    ensures !ValidateRequiredField(req.name, NAME_FIELD, USER_NAME_MAX_LENGTH).0 ==>
      r == Invalid(ValidateRequiredField(req.name, NAME_FIELD, USER_NAME_MAX_LENGTH).1)
    ensures r.Valid? ==> r.profile == StoredProfile(
      SanitizeInput(req.name, USER_NAME_MAX_LENGTH), SanitizeInput(req.level, USER_NAME_MAX_LENGTH),
      SanitizeInput(req.starPref, USER_NAME_MAX_LENGTH), SanitizeInput(req.style, USER_NAME_MAX_LENGTH))
  {
    var (nameOk, name) := ValidateRequiredField(req.name, NAME_FIELD, USER_NAME_MAX_LENGTH);
    if !nameOk then Invalid(name)
    else
      var (levelOk, level) := ValidateRequiredField(req.level, LEVEL_FIELD, USER_NAME_MAX_LENGTH);
      if !levelOk then Invalid(level)
      else
        var starPref := SanitizeInput(req.starPref, USER_NAME_MAX_LENGTH);
        var style := SanitizeInput(req.style, USER_NAME_MAX_LENGTH);
        Valid(StoredProfile(name, level, starPref, style))
  }

  /** A name or level that is empty, or that sanitises to nothing, is refused with the
      field's own message, the name first. */
  lemma RequiredFieldMessages(req: ProfileRequest)
    ensures req.name == "" ==> CheckProfile(req) == Invalid(NAME_FIELD + "不能為空")
    ensures req.name != "" && SanitizeInput(req.name, USER_NAME_MAX_LENGTH) == "" ==>
      CheckProfile(req) == Invalid(NAME_FIELD + "包含無效字符")
    ensures SanitizeInput(req.name, USER_NAME_MAX_LENGTH) != "" && req.level == "" ==>
      CheckProfile(req) == Invalid(LEVEL_FIELD + "不能為空")
  {
  }

  /** A stored profile shows in the chat prompt exactly as it was saved: every value is
      already clean, so the prompt's sanitiser leaves it alone. */
  lemma SavedProfileShowsAsSaved(req: ProfileRequest)
    requires CheckProfile(req).Valid?
    ensures var p := CheckProfile(req).profile;
      && ChatService.ProfileField(p, "name", ChatService.DEFAULT_NAME) == p["name"]
      && ChatService.ProfileField(p, "level", ChatService.UNKNOWN) == p["level"]
      && ChatService.ProfileField(p, "star_pref", ChatService.UNKNOWN) == p["star_pref"]
      && ChatService.ProfileField(p, "style", ChatService.UNKNOWN) == p["style"]
  {
    var p := CheckProfile(req).profile;
    ChatService.ProfileFieldValue(p, "name", ChatService.DEFAULT_NAME);
    ChatService.ProfileFieldValue(p, "level", ChatService.UNKNOWN);
    ChatService.ProfileFieldValue(p, "star_pref", ChatService.UNKNOWN);
    ChatService.ProfileFieldValue(p, "style", ChatService.UNKNOWN);
  }

  /** The answer and the new users store of `save_profile` once `code` has validated:
      the field checks, then the update. */
  function ProfileOutcome(users: Users, code: string, req: ProfileRequest, u: Uuid4): (r: (Response, Users))
    requires code in users
    ensures CheckProfile(req).Invalid? ==> r == (Raise(Validation(u, CheckProfile(req).message)), users)
    ensures CheckProfile(req).Valid? ==>
      && r.0 == Response(200, Done(Some(PROFILE_SAVED)))
      && r.1 == users[code := users[code].(profile := Some(CheckProfile(req).profile))]
  {
    match CheckProfile(req)
    case Invalid(message) => (Raise(Validation(u, message)), users)
    case Valid(profile) => (Response(200, Done(Some(PROFILE_SAVED))), users[code := users[code].(profile := Some(profile))])
  }

  /** `save_profile(req, authorization)` */
  method SaveProfile(store: UserService.UserStore, tokens: TokenStore, header: Option<string>, req: ProfileRequest,
                     now: real, u: Uuid4)
    returns (resp: Response)
    modifies store, tokens
    ensures var code := RequestCode(header, req.code);
      && (code == "" ==>
            resp == Raise(Validation(u, MISSING_CODE)) && store.users == old(store.users) && tokens.blacklist == old(tokens.blacklist))
      && (code != "" ==> tokens.blacklist == BlacklistAfterValidation(old(tokens.blacklist), code, now))
      && (code != "" && !TokenValid(old(store.users), old(tokens.blacklist), code, now) ==>
            resp == Raise(Authentication(u, TOKEN_REJECTED))
            && store.users == UsersAfterValidation(old(store.users), old(tokens.blacklist), code, now))
      && (code != "" && TokenValid(old(store.users), old(tokens.blacklist), code, now) ==>
            var validated := UsersAfterValidation(old(store.users), old(tokens.blacklist), code, now);
            code in validated && (resp, store.users) == ProfileOutcome(validated, code, req, u))
  {
    var code := RequestCode(header, req.code);
    if code == "" {
      return Raise(Validation(u, MISSING_CODE));
    }
    var valid := tokens.ValidateToken(store, code, now);
    if !valid {
      return Raise(Authentication(u, TOKEN_REJECTED));
    }
    resp := StoreProfile(store, code, req, u);
  }

  /** The part of `save_profile` after the code has validated. */
  method StoreProfile(store: UserService.UserStore, code: string, req: ProfileRequest, u: Uuid4) returns (resp: Response)
    requires code in store.users
    modifies store
    ensures (resp, store.users) == ProfileOutcome(old(store.users), code, req, u)
  {
    var checked := CheckProfile(req);
    if checked.Invalid? {
      return Raise(Validation(u, checked.message));
    }
    var updated := store.UpdateUserProfile(code, checked.profile);
    if updated {
      resp := Response(200, Done(Some(PROFILE_SAVED)));
    } else {
      resp := Raise(Authentication(u, UNKNOWN_CODE));
    }
  }

  /** `get_profile(authorization)`: the stored profile, `None` when none was saved yet. */
  method GetProfile(store: UserService.UserStore, tokens: TokenStore, header: Option<string>, now: real, u: Uuid4)
    returns (resp: Response)
    modifies store, tokens
    ensures ParseAuthorization(header).NoHeader? ==>
      resp == Raise(Validation(u, MISSING_HEADER)) && store.users == old(store.users) && tokens.blacklist == old(tokens.blacklist)
    ensures ParseAuthorization(header).BadScheme? ==>
      resp == Raise(Validation(u, BAD_HEADER)) && store.users == old(store.users) && tokens.blacklist == old(tokens.blacklist)
    ensures ParseAuthorization(header).Bearer? ==>
      var code := SanitizeInput(ParseAuthorization(header).token, ACCESS_CODE_MAX_LENGTH);
      && store.users == UsersAfterValidation(old(store.users), old(tokens.blacklist), code, now)
      && tokens.blacklist == BlacklistAfterValidation(old(tokens.blacklist), code, now)
      && (TokenValid(old(store.users), old(tokens.blacklist), code, now) ==>
            code in old(store.users) && resp == Response(200, ProfileOf(old(store.users)[code].profile)))
      && (!TokenValid(old(store.users), old(tokens.blacklist), code, now) ==> resp == Raise(Authentication(u, TOKEN_REJECTED)))
  {
    var auth := ParseAuthorization(header);
    if auth.NoHeader? {
      return Raise(Validation(u, MISSING_HEADER));
    }
    if auth.BadScheme? {
      return Raise(Validation(u, BAD_HEADER));
    }
    var code := SanitizeInput(auth.token, ACCESS_CODE_MAX_LENGTH);
    SanitizeIdempotent(auth.token, ACCESS_CODE_MAX_LENGTH);
    var valid := tokens.ValidateToken(store, code, now);
    if !valid {
      return Raise(Authentication(u, TOKEN_REJECTED));
    }
    var profile := store.GetUserProfile(code);
    resp := Response(200, ProfileOf(profile));
  }
}
