/** What the API routes answer, and the `Authorization` header rules the session and
    profile routes share. */
module Http {
  import opened Optional
  import opened Records
  import opened PyStr
  import opened Config
  import opened Validators
  import opened Exceptions

  /** The JSON bodies the routes return. */
  datatype Body =
    | Error(error: string)                          // `{"error": ...}` built by a route itself
    | RaisedError(error: string, errorId: string)   // what the exception handler renders
    | LoggedIn(needsProfile: bool, profile: Option<Profile>, expiresIn: int)
    | Done(message: Option<string>)                 // `{"success": True}`, with a message or not
    | SessionSaved(sessionId: string)
    | SessionList(sessions: seq<Session>)
    | ProfileOf(profile: Option<Profile>)
    | Stream(text: string)                          // the `text/plain` stream of `/api/chat`

  datatype Response = Response(status: int, body: Body)

  /** `JSONResponse(status_code=status, content={"error": message})`: no error id. */
  function Reject(status: int, message: string): (r: Response)
    ensures r.status == status && r.body == Error(message)
  {
    Response(status, Error(message))
  }

  /** `taiko_exception_handler` (server.py): the exception's status code, message and error id. */
  function Raise(e: AdvisorError): (r: Response)
    ensures r.status == e.statusCode && r.body == RaisedError(e.message, e.errorId)
  {
    Response(e.statusCode, RaisedError(e.message, e.errorId))
  }

  /** A raised validation or authentication failure answers 400 or 401 with an
      eight-digit upper-case hex error id. */
  lemma RaisedCarriesErrorId(u: Uuid4, message: string)
    ensures var r := Raise(Validation(u, message));
      r.status == 400 && r.body.error == message && |r.body.errorId| == 8
    ensures var r := Raise(Authentication(u, message));
      r.status == 401 && r.body.error == message && |r.body.errorId| == 8
    ensures forall i :: 0 <= i < 8 ==>
      var c := Raise(Validation(u, message)).body.errorId[i]; IsAsciiDigit(c) || 'A' <= c <= 'F'
  {
    SubclassesWellFormed(u, message);
  }

  const MISSING_HEADER: string := "缺少 Authorization header"
  const BAD_HEADER: string := "無效的 Authorization header 格式"
  const MISSING_CODE: string := "缺少存取代碼"
  const TOKEN_REJECTED: string := "無效或已過期的存取代碼"

  /** The three ways an `Authorization` header can read. */
  datatype Authorization = NoHeader | BadScheme | Bearer(token: string)

  /** `authorization.split()` must give exactly two words, the first `bearer` in any case;
      an absent or empty header is treated as missing. */
  function ParseAuthorization(header: Option<string>): (a: Authorization)
    ensures a.NoHeader? <==> header.None? || header.value == ""
    ensures a.Bearer? ==> a.token != [] && NoSpace(a.token)
  {
    if header.None? || header.value == "" then NoHeader
    else
      var parts := Split(header.value);
      if |parts| != 2 || LowerAscii(parts[0]) != "bearer" then BadScheme
      else Bearer(parts[1])
  }

  /** `LowerAscii(w) == "bearer"` leaves only the letters of `bearer`, so no blank. */
  lemma SchemeIsWord(scheme: string)
    requires LowerAscii(scheme) == "bearer"
    ensures scheme != [] && NoSpace(scheme)
  {
    forall i | 0 <= i < |scheme| ensures !IsSpace(scheme[i]) {
      assert LowerAscii(scheme)[i] == "bearer"[i];
    }
  }

  /** A header `<scheme> <token>` with the `bearer` scheme in any letter case yields the token. */
  lemma BearerRoundTrip(scheme: string, token: string)
    requires LowerAscii(scheme) == "bearer"
    requires token != [] && NoSpace(token)
    ensures ParseAuthorization(Some(scheme + " " + token)) == Bearer(token)
  {
    SchemeIsWord(scheme);
    SplitWord(scheme, token);
    SplitOneWord(token);
  }

  /** A bare token is a malformed header. */
  lemma BareTokenIsBadScheme(token: string)
    requires token != [] && NoSpace(token)
    ensures ParseAuthorization(Some(token)) == BadScheme
  {
    SplitOneWord(token);
  }

  /** So is a header with a third word. */
  lemma ThreeWordsIsBadScheme(a: string, b: string, c: string)
    requires a != [] && NoSpace(a) && b != [] && NoSpace(b) && c != [] && NoSpace(c)
    ensures ParseAuthorization(Some(a + " " + (b + " " + c))) == BadScheme
  {
    ThreeWords(a, b, c);
  }

  lemma ThreeWords(a: string, b: string, c: string)
    requires a != [] && NoSpace(a) && b != [] && NoSpace(b) && c != [] && NoSpace(c)
    ensures |Split(a + " " + (b + " " + c))| == 3
  {
    SplitWord(a, b + " " + c);
    SplitWord(b, c);
    SplitOneWord(c);
  }

  /** The code the header supplies under the lenient rule of the POST routes: the
      sanitised bearer token, or `""`. */
  function HeaderCode(header: Option<string>): (code: string)
    ensures |code| <= ACCESS_CODE_MAX_LENGTH
    ensures code != "" ==> ParseAuthorization(header).Bearer?
    ensures SanitizeInput(code, ACCESS_CODE_MAX_LENGTH) == code
  {
    match ParseAuthorization(header)
    case Bearer(token) =>
      SanitizeIdempotent(token, ACCESS_CODE_MAX_LENGTH);
      SanitizeInput(token, ACCESS_CODE_MAX_LENGTH)
    case _ => ""
  }

  /** The POST routes' code: the header's when it yields a non-empty one, else the
      sanitised body field. */
  function RequestCode(header: Option<string>, bodyCode: string): (code: string)
    ensures code == HeaderCode(header) || code == SanitizeInput(bodyCode, ACCESS_CODE_MAX_LENGTH)
    ensures code == "" <==> HeaderCode(header) == "" && SanitizeInput(bodyCode, ACCESS_CODE_MAX_LENGTH) == ""
    ensures SanitizeInput(code, ACCESS_CODE_MAX_LENGTH) == code
  {
    var fromHeader := HeaderCode(header);
    SanitizeIdempotent(bodyCode, ACCESS_CODE_MAX_LENGTH);
    if fromHeader != "" then fromHeader else SanitizeInput(bodyCode, ACCESS_CODE_MAX_LENGTH)
  }

  /** A well-formed bearer header with a clean token wins over the body's field. */
  lemma HeaderTakesPrecedence(scheme: string, token: string, bodyCode: string)
    requires LowerAscii(scheme) == "bearer" && NoSpace(token)
    requires token != [] && IsClean(token, ACCESS_CODE_MAX_LENGTH)
    ensures RequestCode(Some(scheme + " " + token), bodyCode) == token
  {
    BearerRoundTrip(scheme, token);
    SanitizeFixedPoint(token, ACCESS_CODE_MAX_LENGTH);
  }

  /** Without a usable header the body's field is used. */
  lemma BodyCodeFallback(header: Option<string>, bodyCode: string)
    requires !ParseAuthorization(header).Bearer? || SanitizeInput(ParseAuthorization(header).token, ACCESS_CODE_MAX_LENGTH) == ""
    ensures RequestCode(header, bodyCode) == SanitizeInput(bodyCode, ACCESS_CODE_MAX_LENGTH)
  {
  }
}
