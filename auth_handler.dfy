// backend/internal/handlers/auth_handler.go: the Authorization header check of
// the two middlewares and the input checks of the Google sign-in handlers. The
// token verifier and the OAuth exchange belong to the auth service, which is
// not part of this model; they are parameters here.
module AuthHandler {
  import opened Wrappers
  import Text

  datatype HttpError = HttpError(code: int, message: string)

  const Unauthorized: int := 401
  const BadRequest: int := 400
  const MissingHeader: HttpError := HttpError(401, "Authorization header required")
  const BadFormat: HttpError := HttpError(401, "Invalid authorization header format")
  const BadToken: HttpError := HttpError(401, "Invalid token")
  const Scheme: string := "Bearer"
  const DefaultState: string := "random-state-string"

  /** `strings.SplitN(s, " ", 2)`: the whole string, or the parts before and after the first space. */
  function SplitFirstSpace(s: string): (r: seq<string>)
    ensures 1 <= |r| <= 2
    ensures |r| == 1 <==> ' ' !in s
    ensures |r| == 1 ==> r[0] == s
    ensures |r| == 2 ==> r[0] + [' '] + r[1] == s && ' ' !in r[0]
  {
    match Text.IndexOf(s, ' ')
    case None => [s]
    case Some(i) =>
      assert s == s[..i] + [' '] + s[i + 1..];
      [s[..i], s[i + 1..]]
  }

  /**
   * The header check shared by both middlewares: an empty header, then a
   * header that is not "Bearer", one space and the token, are refused.
   */
  function BearerToken(header: string): (r: Result<string, HttpError>)
    ensures header == "" ==> r == Failure(MissingHeader)
    ensures header != "" && r.Failure? ==> r.error == BadFormat
  {
    if header == "" then Failure(MissingHeader)
    else
      var parts := SplitFirstSpace(header);
      if |parts| != 2 || parts[0] != Scheme then Failure(BadFormat) else Success(parts[1])
  }

  /** A header is accepted with token t exactly when it reads "Bearer " followed by t, whatever t holds. */
  lemma BearerTokenIff(header: string, t: string)
    ensures BearerToken(header) == Success(t) <==> header == Scheme + " " + t
  {
    if header == Scheme + " " + t {
      assert header[6] == ' ';
      assert ' ' !in Scheme;
      var i := Text.IndexOf(header, ' ');
      assert header[..6] == Scheme;
      assert i == Some(6);
      assert header[7..] == t;
    }
    if BearerToken(header) == Success(t) {
      var parts := SplitFirstSpace(header);
      assert parts[0] == Scheme && parts[1] == t;
    }
  }

  /** The scheme is compared case-sensitively, so a lowercase "bearer" is refused. */
  lemma LowercaseSchemeRefused(t: string)
    ensures BearerToken("bearer " + t) == Failure(BadFormat)
  {
    var header := "bearer " + t;
    var parts := SplitFirstSpace(header);
    assert header[0] == 'b';
  }

  /** Whatever follows "Bearer " is the token, even an empty one or one holding spaces. */
  lemma TokenKeepsSpaces(t: string)
    ensures BearerToken("Bearer " + t) == Success(t)
  {
    BearerTokenIff("Bearer " + t, t);
  }

  /**
   * AuthMiddleware: the request passes, with the user the token names, only
   * when the header is well formed and the verifier accepts its token.
   */
  function Authenticate<U>(header: string, verify: string -> Option<U>): (r: Result<U, HttpError>)
    ensures r.Success? <==> BearerToken(header).Success? && verify(BearerToken(header).value).Some?
    ensures r.Success? ==> r.value == verify(BearerToken(header).value).value
    ensures r.Failure? ==> r.error.code == Unauthorized
    ensures BearerToken(header).Success? && r.Failure? ==> r.error == BadToken
  {
    match BearerToken(header)
    case Failure(e) => Failure(e)
    case Success(token) =>
      match verify(token)
      case None => Failure(BadToken)
      case Some(u) => Success(u)
  }

  /** OptionalAuthMiddleware: never refuses; the user is attached exactly when the strict middleware would pass. */
  function OptionalAuthenticate<U>(header: string, verify: string -> Option<U>): (r: Option<U>)
    ensures BearerToken(header).Failure? ==> r.None?
    ensures BearerToken(header).Success? ==> r == verify(BearerToken(header).value)
  {
    if header != "" then
      var parts := SplitFirstSpace(header);
      if |parts| == 2 && parts[0] == Scheme then verify(parts[1]) else None
    else None
  }

  lemma OptionalAgreesWithStrict<U>(header: string, verify: string -> Option<U>)
    ensures OptionalAuthenticate(header, verify).Some? <==> Authenticate(header, verify).Success?
    ensures Authenticate(header, verify).Success? ==>
      OptionalAuthenticate(header, verify).value == Authenticate(header, verify).value
  {
  }

  /** GetGoogleAuthURL: the URL is built for the given state, or for the fixed placeholder when none is given. */
  function AuthUrl(state: string, urlFor: string -> string): (r: string)
    ensures state != "" ==> r == urlFor(state)
    ensures state == "" ==> r == urlFor(DefaultState)
  {
    urlFor(if state == "" then DefaultState else state)
  }

  /** GoogleCallback: an empty code is a 400 before any exchange; a failed exchange is a 401 carrying its message. */
  function GoogleCallback<U>(code: string, exchange: string -> Result<(U, string), string>): (r: Result<(U, string), HttpError>)
    ensures code == "" ==> r == Failure(HttpError(BadRequest, "Authorization code is required"))
    ensures code != "" ==> (r.Success? <==> exchange(code).Success?)
    ensures code != "" && r.Success? ==> r.value == exchange(code).value
    ensures code != "" && r.Failure? ==>
      r.error == HttpError(Unauthorized, "Authentication failed: " + exchange(code).error)
  {
    if code == "" then Failure(HttpError(BadRequest, "Authorization code is required"))
    else
      match exchange(code)
      case Failure(e) => Failure(HttpError(Unauthorized, "Authentication failed: " + e))
      case Success(p) => Success(p)
  }
}
