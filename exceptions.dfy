/** The exception hierarchy of lib/exceptions.py. Every exception carries a short
    error id cut from a fresh version-4 UUID; the UUID is a parameter here. */
module Exceptions {
  import opened PyStr

  type Nibble = n: int | 0 <= n < 16

  /** The 128 bits of a version-4 UUID as 32 hex digits: digit 12 is the version (4),
      digit 16 carries the RFC 4122 variant bits (8 to b). */
  type Uuid4 = s: seq<Nibble> | |s| == 32 && s[12] == 4 && 8 <= s[16] < 12
    witness seq(32, i => if i == 12 then 4 else if i == 16 then 8 else 0)

  /** One lower-case hex digit, as `str(uuid)` writes it. */
  function HexDigit(n: Nibble): (c: char)
    ensures IsAsciiDigit(c) || 'a' <= c <= 'f'
  {
    if n < 10 then DigitChar(n) else ('a' as int + n - 10) as char
  }

  function HexString(ns: seq<Nibble>): (r: string)
    ensures |r| == |ns|
    ensures forall i :: 0 <= i < |ns| ==> r[i] == HexDigit(ns[i])
  {
    seq(|ns|, i requires 0 <= i < |ns| => HexDigit(ns[i]))
  }

  /** `str(uuid4())`: 8-4-4-4-12 lower-case hex digits separated by dashes. */
  function UuidString(u: Uuid4): (r: string)
    ensures |r| == 36
    ensures r[8] == '-' && r[13] == '-' && r[18] == '-' && r[23] == '-'
    ensures r[14] == '4'
    ensures r[..8] == HexString(u[..8])
  {
    HexString(u[..8]) + "-" + HexString(u[8..12]) + "-" + HexString(u[12..16]) + "-"
      + HexString(u[16..20]) + "-" + HexString(u[20..])
  }

  /** Upper-case hex digit: what `.upper()` makes of `HexDigit(n)`. */
  function UpperHexDigit(n: Nibble): (c: char)
    ensures IsAsciiDigit(c) || 'A' <= c <= 'F'
  {
    if n < 10 then DigitChar(n) else ('A' as int + n - 10) as char
  }

  /** `str(uuid4())[:8].upper()`: the first 32 bits of the UUID as eight upper-case hex digits. */
  function ErrorId(u: Uuid4): (r: string)
    ensures |r| == 8
    ensures forall i :: 0 <= i < 8 ==> r[i] == UpperHexDigit(u[i])
  {
    var r := UpperAscii(Prefix(UuidString(u), 8));
    assert Prefix(UuidString(u), 8) == HexString(u[..8]);
    r
  }

  /** Two UUIDs give the same error id exactly when their first eight hex digits agree. */
  lemma ErrorIdInjective(u: Uuid4, v: Uuid4)
    ensures ErrorId(u) == ErrorId(v) <==> u[..8] == v[..8]
  {
    if ErrorId(u) == ErrorId(v) {
      forall i | 0 <= i < 8 ensures u[i] == v[i] {
        assert ErrorId(u)[i] == ErrorId(v)[i];
        UpperHexDigitInjective(u[i], v[i]);
      }
    } else {
      var i :| 0 <= i < 8 && ErrorId(u)[i] != ErrorId(v)[i];
      assert u[..8][i] != v[..8][i];
    }
  }

  lemma UpperHexDigitInjective(m: Nibble, n: Nibble)
    requires UpperHexDigit(m) == UpperHexDigit(n)
    ensures m == n
  {
  }

  datatype ErrorKind =
    | TaikoAdvisorError
    | AuthenticationError
    | ValidationError
    | ResourceNotFoundError
    | RateLimitError

  /** An exception: its class, `message`, `status_code` and `error_id`. */
  datatype AdvisorError = AdvisorError(kind: ErrorKind, message: string, statusCode: int, errorId: string)

  /** `TaikoAdvisorException(message, status_code=500)` */
  function TaikoAdvisorException(u: Uuid4, message: string, statusCode: int := 500): (e: AdvisorError)
    ensures e.kind == TaikoAdvisorError && e.message == message && e.statusCode == statusCode
    ensures e.errorId == ErrorId(u)
  {
    AdvisorError(TaikoAdvisorError, message, statusCode, ErrorId(u))
  }

  /** `AuthenticationError(message="認證失敗")`: status 401. */
  function Authentication(u: Uuid4, message: string := "認證失敗"): (e: AdvisorError)
    ensures e.kind == AuthenticationError && e.message == message && e.statusCode == 401
    ensures e.errorId == ErrorId(u)
  {
    TaikoAdvisorException(u, message, 401).(kind := AuthenticationError)
  }

  /** `ValidationError(message)`: status 400. */
  function Validation(u: Uuid4, message: string): (e: AdvisorError)
    ensures e.kind == ValidationError && e.message == message && e.statusCode == 400
    ensures e.errorId == ErrorId(u)
  {
    TaikoAdvisorException(u, message, 400).(kind := ValidationError)
  }

  /** `ResourceNotFoundError(message="資源不存在")`: status 404. */
  function ResourceNotFound(u: Uuid4, message: string := "資源不存在"): (e: AdvisorError)
    ensures e.kind == ResourceNotFoundError && e.message == message && e.statusCode == 404
    ensures e.errorId == ErrorId(u)
  {
    TaikoAdvisorException(u, message, 404).(kind := ResourceNotFoundError)
  }

  /** `RateLimitError(message="請求過於頻繁，請稍後再試")`: status 429. */
  function RateLimit(u: Uuid4, message: string := "請求過於頻繁，請稍後再試"): (e: AdvisorError)
    ensures e.kind == RateLimitError && e.message == message && e.statusCode == 429
    ensures e.errorId == ErrorId(u)
  {
    TaikoAdvisorException(u, message, 429).(kind := RateLimitError)
  }

  /** Every exception the backend raises has a 4xx or 5xx status and an
      eight-character upper-case hex error id. */
  predicate WellFormed(e: AdvisorError) {
    && 400 <= e.statusCode < 600
    && |e.errorId| == 8
    && forall i :: 0 <= i < 8 ==> IsAsciiDigit(e.errorId[i]) || 'A' <= e.errorId[i] <= 'F'
  }

  lemma SubclassesWellFormed(u: Uuid4, message: string)
    ensures WellFormed(Authentication(u)) && WellFormed(Authentication(u, message))
    ensures WellFormed(Validation(u, message))
    ensures WellFormed(ResourceNotFound(u)) && WellFormed(RateLimit(u))
    ensures WellFormed(TaikoAdvisorException(u, message))
  {
  }
}
