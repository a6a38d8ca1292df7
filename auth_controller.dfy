/** The authentication endpoints' translation of service outcomes into HTTP
    responses, and the refresh-token cookie they set. */
module AuthenticationController {
  import opened Wrappers
  import opened Store
  import opened AuthenticationService
  import JwtService

  /** A response entity: status, body, and the `Set-Cookie` headers added
      to the servlet response while the endpoint ran. */
  datatype HttpResponse = HttpResponse(status: nat, body: AuthResponse, setCookies: seq<string>)

  /** The attributes after the token; the separator before them ends the value. */
  const CookieAttributes: string := [';'] + " HttpOnly; Secure; SameSite=Strict; Path=/; Max-Age=604800"

  /** Java string concatenation of a possibly null token. */
  function TokenText(token: Option<string>): string
  {
    if token.Some? then token.value else "null"
  }

  /** `setRefreshTokenCookie`: the header value added to the response. */
  function RefreshCookieHeader(token: Option<string>): string
  {
    RefreshCookieName + "=" + TokenText(token) + CookieAttributes
  }

  /** The position of the first `c` in `s`, or `|s|` when there is none. */
  function IndexOf(s: string, c: char): (i: nat)
    ensures i <= |s|
    ensures i < |s| ==> s[i] == c
    ensures forall j :: 0 <= j < i ==> s[j] != c
  {
    if s == [] then 0
    else if s[0] == c then 0
    else 1 + IndexOf(s[1..], c)
  }

  /** The first `c` in `a + b` is the head of `b` when `a` has none. */
  lemma {:induction false} IndexOfAfter(a: string, b: string, c: char)
    requires c !in a && b != [] && b[0] == c
    ensures IndexOf(a + b, c) == |a|
  {
    var s := a + b;
    assert s[|a|] == c;
    assert forall j :: 0 <= j < |a| ==> s[j] == a[j];
  }

  /** How a client reads a `Set-Cookie` value back: the name up to the first
      `=`, the value up to the first `;` after it. */
  function ParseSetCookie(h: string): (r: Option<Cookie>)
    ensures r.Some? ==> |r.value.name| < |h| && h[|r.value.name|] == '=' && '=' !in r.value.name
  {
    var e := IndexOf(h, '=');
    if e == |h| then None
    else
      var rest := h[e + 1..];
      Some(Cookie(h[..e], rest[..IndexOf(rest, ';')]))
  }

  /** A header `name=value; ...` reads back as the cookie `name`=`value`
      when the name has no `=` and the value no `;`. */
  lemma {:induction false} ParseSetCookieOf(name: string, value: string, attrs: string)
    requires '=' !in name && ';' !in value && attrs != [] && attrs[0] == ';'
    ensures ParseSetCookie(name + "=" + value + attrs) == Some(Cookie(name, value))
  {
    var h := name + "=" + value + attrs;
    var rest := value + attrs;
    assert h == name + ("=" + rest);
    IndexOfAfter(name, "=" + rest, '=');
    assert h[|name| + 1..] == rest;
    IndexOfAfter(value, attrs, ';');
    assert h[..|name|] == name;
    assert rest[..|value|] == value;
  }

  /** A token without `;` (a JWT is base64url text joined by dots) comes back
      from the header as the `refresh_token` cookie, and the refresh endpoint
      reads exactly that token from it. */
  lemma {:induction false} RefreshCookieRoundTrip(token: string)
    requires ';' !in token
    ensures ParseSetCookie(RefreshCookieHeader(Some(token))) == Some(Cookie(RefreshCookieName, token))
    ensures RefreshCookieValue(Some([Cookie(RefreshCookieName, token)])) == Some(token)
  {
    assert '=' !in RefreshCookieName;
    ParseSetCookieOf(RefreshCookieName, token, CookieAttributes);
  }

  const RegisterFailurePrefix: string := "Error registering user: "
  const ConflictMessage: string := "User already exists"

  /** `register`: the cookie is set as soon as the service returns, a body
      whose message is "User already exists" answers 409 and any other
      success 201; an exception answers 500 with its message and no cookie. */
  function RegisterResponse(outcome: Result<AuthResponse>): (r: HttpResponse)
    ensures outcome.Ok? ==> r.body == outcome.value && r.setCookies == [RefreshCookieHeader(outcome.value.refreshToken)]
    ensures outcome.Ok? ==> (r.status == 409 <==> outcome.value.message == ConflictMessage)
    ensures outcome.Ok? && outcome.value.message != ConflictMessage ==> r.status == 201
    ensures outcome.Err? ==>
      r == HttpResponse(500, MessageOnly(RegisterFailurePrefix + Message(outcome.error)), [])
  {
    match outcome
    case Err(e) => HttpResponse(500, MessageOnly(RegisterFailurePrefix + Message(e)), [])
    case Ok(body) =>
      var cookie := [RefreshCookieHeader(body.refreshToken)];
      if body.message == ConflictMessage then HttpResponse(409, body, cookie) else HttpResponse(201, body, cookie)
  }

  /** The service reports a taken username by throwing, and a successful
      registration always carries its own message, so `register` never
      answers 409: it is 201 with the new refresh token's cookie, or 500. */
  lemma {:induction false} RegisterNeverConflicts(outcome: Result<AuthResponse>)
    requires outcome.Ok? ==> outcome.value.message == RegisteredMessage && outcome.value.refreshToken.Some?
    ensures RegisterResponse(outcome).status in {201, 500}
    ensures RegisterResponse(outcome).status == 201 ==>
      RegisterResponse(outcome).setCookies == [RefreshCookieName + "=" + outcome.value.refreshToken.value + CookieAttributes]
  {
    assert RegisteredMessage != ConflictMessage by {
      assert RegisteredMessage[5] != ConflictMessage[5];
    }
  }

  /** `login`: no error mapping (an exception leaves the endpoint); on
      success 200 with the cookie. */
  function LoginResponse(outcome: Result<AuthResponse>): (r: Result<HttpResponse>)
    ensures outcome.Err? ==> r == Err(outcome.error)
    ensures outcome.Ok? ==> r == Ok(HttpResponse(200, outcome.value, [RefreshCookieHeader(outcome.value.refreshToken)]))
  {
    match outcome
    case Err(e) => Err(e)
    case Ok(body) => Ok(HttpResponse(200, body, [RefreshCookieHeader(body.refreshToken)]))
  }

  predicate Successful(status: nat) { 200 <= status < 300 }

  /** `refreshToken`: the service's response is passed through unchanged;
      the cookie is set only when its status is 2xx. */
  function RefreshResponse(outcome: Result<Reply>): (r: Result<HttpResponse>)
    ensures outcome.Err? ==> r == Err(outcome.error)
    ensures outcome.Ok? ==> r.Ok? && r.value.status == outcome.value.status && r.value.body == outcome.value.body
    ensures outcome.Ok? ==> (r.value.setCookies != [] <==> Successful(outcome.value.status))
    ensures outcome.Ok? && Successful(outcome.value.status) ==>
      r.value.setCookies == [RefreshCookieHeader(outcome.value.body.refreshToken)]
  {
    match outcome
    case Err(e) => Err(e)
    case Ok(reply) =>
      var cookies := if Successful(reply.status) then [RefreshCookieHeader(reply.body.refreshToken)] else [];
      Ok(HttpResponse(reply.status, reply.body, cookies))
  }

  /** `switchCompany`: every exception the service raises is a runtime
      exception and answers 403 carrying its message, with no cookie. */
  function SwitchCompanyResponse(outcome: Result<AuthResponse>): (r: HttpResponse)
    ensures outcome.Err? ==> r == HttpResponse(403, MessageOnly(Message(outcome.error)), [])
    ensures outcome.Ok? ==> r == HttpResponse(200, outcome.value, [RefreshCookieHeader(outcome.value.refreshToken)])
  {
    match outcome
    case Err(e) => HttpResponse(403, MessageOnly(Message(e)), [])
    case Ok(body) => HttpResponse(200, body, [RefreshCookieHeader(body.refreshToken)])
  }

  // ---- The endpoints over the services ----

  /** POST /api/v2/auth/register. */
  method Register(w: World, request: RegisterRequest, encode: string -> string, cfg: JwtService.JwtConfig, now: nat)
    returns (r: HttpResponse)
    requires w.Valid()
    modifies w`users, w`companies, w`tokens, w`nextId
    ensures w.Valid()
    ensures r.status == 201 || r.status == 500
    ensures r.status == 201 ==> r.body.message == RegisteredMessage && r.body.refreshToken.Some? &&
                                r.setCookies == [RefreshCookieHeader(r.body.refreshToken)]
    ensures r.status == 500 ==> r.setCookies == [] &&
                                w.users == old(w.users) && w.companies == old(w.companies) && w.tokens == old(w.tokens)
  {
    var outcome := AuthenticationService.Register(w, request, encode, cfg, now);
    RegisterNeverConflicts(outcome);
    r := RegisterResponse(outcome);
  }

  /** POST /api/v2/auth/login. */
  method Login(w: World, username: string, password: string, matches: (string, string) -> bool,
               cfg: JwtService.JwtConfig, now: nat)
    returns (r: Result<HttpResponse>)
    requires w.Valid()
    modifies w`tokens
    ensures w.Valid()
    ensures r.Err? ==> r.error == BadCredentials && w.tokens == old(w.tokens)
    ensures r.Ok? ==> r.value.status == 200 && r.value.body.message == LoginMessage &&
                      r.value.setCookies == [RefreshCookieHeader(r.value.body.refreshToken)]
  {
    var outcome, _, _ := AuthenticationService.Authenticate(w, username, password, matches, cfg, now);
    r := LoginResponse(outcome);
  }

  /** POST /api/v2/auth/refresh_token. */
  method RefreshToken(w: World, cookies: Option<seq<Cookie>>, cfg: JwtService.JwtConfig, now: nat)
    returns (r: Result<HttpResponse>)
    requires w.Valid()
    modifies w`tokens
    ensures w.Valid()
    ensures r.Ok? ==> r.value.status in {200, 401}
    ensures r.Ok? ==> (r.value.setCookies != [] <==> r.value.status == 200)
    ensures !(r.Ok? && r.value.status == 200) ==> w.tokens == old(w.tokens)
    ensures r.Ok? && r.value.status == 200 ==>
      r.value.body.message == RefreshedMessage && r.value.setCookies == [RefreshCookieHeader(r.value.body.refreshToken)]
  {
    var outcome, _, _ := AuthenticationService.RefreshToken(w, cookies, cfg, now);
    r := RefreshResponse(outcome);
  }

  /** POST /api/v2/auth/switch_company. */
  method SwitchCompany(w: World, auth: Option<Authentication>, companyId: Option<nat>, cfg: JwtService.JwtConfig,
                       now: nat)
    returns (r: HttpResponse)
    requires w.Valid()
    modifies w`tokens
    ensures w.Valid()
    ensures r.status == 200 || r.status == 403
    ensures r.status == 403 ==> r.setCookies == [] && r.body.accessToken.None? && w.tokens == old(w.tokens)
    ensures r.status == 200 ==> r.setCookies == [RefreshCookieHeader(r.body.refreshToken)] && r.body.refreshToken.Some?
  {
    var outcome := AuthenticationService.SwitchCompany(w, auth, companyId, cfg, now);
    r := SwitchCompanyResponse(outcome);
  }
}
