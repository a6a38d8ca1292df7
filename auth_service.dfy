/** Registration, login, tenant switching and token refresh. Each successful
    login, switch or refresh revokes every live token pair of the user and
    stores the new pair; registration stores the first pair. A token pair is
    bound to one company, the user's active tenant. */
module AuthenticationService {
  import opened Wrappers
  import opened Text
  import opened CompanyModel
  import opened UserModel
  import opened JwtService
  import opened TokenRepository
  import opened Store
  import Tables

  /** The principal of an authentication: the raw token text, or a loaded user. */
  datatype Principal = TextPrincipal(text: string) | UserPrincipal(username: string)

  /** What the security context holds for the current request; `credentials`
      is the bearer token the request carried. */
  datatype Authentication = Authentication(
    authenticated: bool,
    name: string,
    credentials: Option<string>,
    principal: Principal)

  datatype Cookie = Cookie(name: string, value: string)

  const RefreshCookieName: string := "refresh_token"

  /** The user object a client posts to the register endpoint. */
  datatype RegisterRequest = RegisterRequest(
    id: Option<nat>,             // bound from the body like every other field
    firstName: string,
    lastName: string,
    username: string,
    password: string,            // raw
    email: Option<string>,
    roles: Option<set<Role>>)

  datatype AccountDetails = AccountDetails(
    email: Option<string>,
    firstName: string,
    lastName: string,
    roles: set<string>,
    companyNames: set<string>,
    companyName: string,         // the company the tokens are bound to
    companyIds: set<nat>)

  /** The authentication response body: tokens, a message and, on success,
      the account details. */
  datatype AuthResponse = AuthResponse(
    accessToken: Option<string>,
    refreshToken: Option<string>,
    message: string,
    details: Option<AccountDetails>)

  function MessageOnly(message: string): AuthResponse { AuthResponse(None, None, message, None) }

  /** A response entity: HTTP status and body. */
  datatype Reply = Reply(status: nat, body: AuthResponse)

  const RegisteredMessage: string := "User registered successfully"
  const LoginMessage: string := "User login was successful"
  const RefreshedMessage: string := "Tokens refreshed successfully"
  const CompanyNameConstraint: string := "cms_companies.name"

  // ---- Reading the security context ----

  /** `getCurrentUser`: the id of the authenticated user named by the context. */
  function GetCurrentUser(users: map<nat, User>, auth: Option<Authentication>): (r: Result<nat>)
    ensures r.Ok? ==> auth.Some? && auth.value.authenticated && r.value in users &&
                      users[r.value].username == auth.value.name
    ensures (auth.None? || !auth.value.authenticated) ==> r == Err(RuntimeError("User is not authenticated"))
    ensures auth.Some? && auth.value.authenticated && FindUserByUsername(users, auth.value.name) == Ok(None) ==>
              r == Err(RuntimeError("User not found"))
  {
    if auth.None? || !auth.value.authenticated then Err(RuntimeError("User is not authenticated"))
    else
      var found :- FindUserByUsername(users, auth.value.name);
      if found.None? then Err(RuntimeError("User not found")) else Ok(found.value)
  }

  /** `getDefaultCompany`: some company of the user; which one is not
      specified (the first a hash set yields). */
  method GetDefaultCompany(user: User) returns (r: Result<nat>)
    ensures r.Err? <==> user.companies == {}
    ensures r.Err? ==> r.error == RuntimeError("User does not belong to any company")
    ensures r.Ok? ==> r.value in user.companies
  {
    if user.companies == {} {
      return Err(RuntimeError("User does not belong to any company"));
    }
    var c :| c in user.companies;
    return Ok(c);
  }

  /** The first cookie with the given name, if any. */
  function CookieNamed(cookies: seq<Cookie>, name: string): (r: Option<string>)
    ensures r.None? <==> forall i :: 0 <= i < |cookies| ==> cookies[i].name != name
    ensures r.Some? ==> exists i :: 0 <= i < |cookies| && cookies[i].name == name && cookies[i].value == r.value &&
                                    forall j :: 0 <= j < i ==> cookies[j].name != name
  {
    if cookies == [] then None
    else if cookies[0].name == name then Some(cookies[0].value)
    else
      var r := CookieNamed(cookies[1..], name);
      assert r.Some? ==> exists i :: 0 <= i < |cookies[1..]| && cookies[1..][i].name == name && cookies[1..][i].value == r.value &&
                                    forall j :: 0 <= j < i ==> cookies[1..][j].name != name;
      r
  }

  /** The refresh cookie a request carries (no cookie array at all reads as none). */
  function RefreshCookieValue(cookies: Option<seq<Cookie>>): Option<string>
  {
    if cookies.None? then None else CookieNamed(cookies.value, RefreshCookieName)
  }

  /** `extractRefreshTokenFromCookie`: scan the cookies for the first one
      named `refresh_token`. */
  method ExtractRefreshTokenFromCookie(cookies: Option<seq<Cookie>>) returns (token: Option<string>)
    ensures cookies.None? ==> token.None?
    ensures cookies.Some? ==> token == CookieNamed(cookies.value, RefreshCookieName)
  {
    if cookies.None? {
      return None;
    }
    var cs := cookies.value;
    var i := 0;
    while i < |cs|
      invariant 0 <= i <= |cs|
      invariant forall j :: 0 <= j < i ==> cs[j].name != RefreshCookieName
      invariant CookieNamed(cs, RefreshCookieName) == CookieNamed(cs[i..], RefreshCookieName)
    {
      if cs[i].name == RefreshCookieName {
        return Some(cs[i].value);
      }
      assert cs[i..][1..] == cs[i + 1..];
      i := i + 1;
    }
    return None;
  }

  // ---- Building responses ----

  function CompanyNames(ids: set<nat>, companies: map<nat, Company>): set<string>
    requires ids <= companies.Keys
  {
    set c | c in ids :: companies[c].name
  }

  /** `buildAuthResponse`. */
  function BuildAuthResponse(user: User, companies: map<nat, Company>, access: string, refresh: string,
                             message: string, company: Company): AuthResponse
    requires user.companies <= companies.Keys
  {
    AuthResponse(Some(access), Some(refresh), message,
      Some(AccountDetails(user.email, user.firstName, user.lastName, AuthorityNames(user.roles),
                          CompanyNames(user.companies, companies), company.name, user.companies)))
  }

  /** The token record stored for a pair issued to user `uid` bound to `company` at `now`. */
  function IssuedRecord(user: User, company: Company, uid: nat, cfg: JwtConfig, now: nat): TokenRecord
  {
    TokenRecord(GenerateAccessToken(user, company, cfg, now), Some(GenerateRefreshToken(user, company, cfg, now)),
                uid, false, now + cfg.accessTokenExpire)
  }

  /** The response carrying a freshly issued pair. */
  function IssuedResponse(user: User, companies: map<nat, Company>, company: Company, cfg: JwtConfig, now: nat,
                          message: string): AuthResponse
    requires user.companies <= companies.Keys
  {
    BuildAuthResponse(user, companies, GenerateAccessToken(user, company, cfg, now),
                      GenerateRefreshToken(user, company, cfg, now), message, company)
  }

  // ---- Token bookkeeping ----

  /** `revokeAllTokensByUser`: log out every live record of the user. */
  method RevokeAllTokensByUser(w: World, uid: nat)
    requires w.Valid()
    modifies w`tokens
    ensures w.Valid()
    ensures w.tokens == RevokeAll(old(w.tokens), uid)
  {
    var ts := LogOutAll(w.tokens, uid);
    TokenOwnersRevoked(w.tokens, w.users, uid);
    w.tokens := ts;
  }

  /** The `forEach` of `revokeAllTokensByUser` over the records, setting the
      logged-out flag on each live record of the user. */
  method LogOutAll(tokens: seq<TokenRecord>, uid: nat) returns (ts: seq<TokenRecord>)
    ensures ts == RevokeAll(tokens, uid)
  {
    ts := tokens;
    var i := 0;
    while i < |ts|
      invariant 0 <= i <= |ts| == |tokens|
      invariant forall j :: 0 <= j < i ==> ts[j] == Revoked(tokens[j], uid)
      invariant forall j :: i <= j < |ts| ==> ts[j] == tokens[j]
    {
      if LiveFor(ts[i], uid) {
        ts := ts[i := ts[i].(loggedOut := true)];
      }
      i := i + 1;
    }
    forall j | 0 <= j < |ts| ensures ts[j] == RevokeAll(tokens, uid)[j] {
      RevokeAllAt(tokens, uid, j);
    }
  }

  /** `saveUserToken`: store a new live record whose expiration is read
      back from the access token. Callers pass a pair they have just issued. */
  method SaveUserToken(w: World, access: string, refresh: string, uid: nat, now: nat)
    requires w.Valid() && uid in w.users
    requires ExtractExpiration(access, now).Ok?
    modifies w`tokens
    ensures w.Valid()
    ensures w.tokens == old(w.tokens) + [TokenRecord(access, Some(refresh), uid, false, ExtractExpiration(access, now).value)]
  {
    var expiration := ExtractExpiration(access, now).value;
    w.tokens := w.tokens + [TokenRecord(access, Some(refresh), uid, false, expiration)];
  }

  /** Issue a pair to `uid` bound to `cid`, and store it. */
  method StoreIssuedPair(w: World, uid: nat, cid: nat, cfg: JwtConfig, now: nat)
    requires w.Valid() && uid in w.users && cid in w.companies
    modifies w`tokens
    ensures w.Valid()
    ensures w.tokens == old(w.tokens) + [IssuedRecord(w.users[uid], w.companies[cid], uid, cfg, now)]
  {
    var user, company := w.users[uid], w.companies[cid];
    var access := GenerateAccessToken(user, company, cfg, now);
    var refresh := GenerateRefreshToken(user, company, cfg, now);
    IssuedPairReadable(user, company, cfg, now);
    ghost var record := IssuedRecord(user, company, uid, cfg, now);
    assert record == TokenRecord(access, Some(refresh), uid, false, ExtractExpiration(access, now).value);
    SaveUserToken(w, access, refresh, uid, now);
    assert w.tokens == old(w.tokens) + [record];
  }

  /** A pair just issued names its user and reads back its expiration. */
  lemma IssuedPairReadable(user: User, company: Company, cfg: JwtConfig, now: nat)
    ensures ExtractExpiration(GenerateAccessToken(user, company, cfg, now), now) == Ok(now + cfg.accessTokenExpire)
    ensures SubjectOf(GenerateAccessToken(user, company, cfg, now)) == Some(user.username)
    ensures SubjectOf(GenerateRefreshToken(user, company, cfg, now)) == Some(user.username)
  {
    GeneratedTokenClaims(user, company, cfg.accessTokenExpire, now, now);
    GeneratedTokenClaims(user, company, cfg.refreshTokenExpire, now, now);
  }

  // ---- The service operations ----

  function DefaultCompanyName(username: string): string { username + "'s Default Company" }

  /** The company `assignDefaultCompany` saves for a new user. */
  function DefaultCompany(request: RegisterRequest, id: nat): Company
  {
    NewCompany(DefaultCompanyName(request.username)).(id := Some(id), primaryEmail := request.email)
  }

  /** The roles a registration stores: those requested, or ROLE_USER when none are. */
  function RegisteredRoles(requested: Option<set<Role>>): (roles: set<Role>)
    ensures roles != {}
    ensures requested.Some? && requested.value != {} ==> roles == requested.value
  {
    if requested.None? || requested.value == {} then {ROLE_USER} else requested.value
  }

  /** The user row `register` saves. */
  function RegisteredUser(request: RegisterRequest, encode: string -> string, company: nat): User
  {
    User(request.firstName, request.lastName, request.username, encode(request.password), request.email,
         RegisteredRoles(request.roles), {company})
  }

  /** `assignDefaultCompany` followed by the company save: a new company
      named after the user, with the user's address as primary e-mail. */
  method SaveDefaultCompany(w: World, request: RegisterRequest) returns (cid: nat)
    requires w.Valid()
    requires forall k :: k in w.companies ==> w.companies[k].name != DefaultCompanyName(request.username)
    modifies w`companies, w`nextId
    ensures w.Valid()
    ensures cid == old(w.nextId) && w.nextId == cid + 1 && cid !in old(w.companies)
    ensures w.companies == old(w.companies)[cid := DefaultCompany(request, cid)]
  {
    cid := w.NewId();
    var company := DefaultCompany(request, cid);
    CompanyStored(w.companies, w.countries, cid, company);
    CompanyKeysKept(w.users, w.categories, w.emailConfigs, w.companies, w.companies[cid := company]);
    w.companies := w.companies[cid := company];
  }

  /** The user save of a registration: the row with the encoded password,
      the registered roles and the one company `cid`, written over the row
      with the posted id when there is one and as a new row otherwise. */
  method SaveRegisteredUser(w: World, request: RegisterRequest, encode: string -> string, cid: nat) returns (uid: nat)
    requires w.Valid() && cid in w.companies
    requires forall v :: v in w.users ==> w.users[v].username != request.username
    requires request.email.Some? ==> forall v :: v in w.users ==> w.users[v].email != request.email
    modifies w`users, w`nextId
    ensures w.Valid()
    ensures uid == Tables.SaveKey(old(w.users), request.id, old(w.nextId))
    ensures w.nextId == if uid in old(w.users) then old(w.nextId) else old(w.nextId) + 1
    ensures w.users == old(w.users)[uid := RegisteredUser(request, encode, cid)]
  {
    if request.id.Some? && request.id.value in w.users {
      uid := request.id.value;
    } else {
      uid := w.NewId();
    }
    var user := RegisteredUser(request, encode, cid);
    UserStored(w.users, w.companies, uid, user);
    TokenOwnersKept(w.tokens, w.users, w.users[uid := user]);
    ResetTokensKeptForUsers(w.resetTokens, w.users, w.users[uid := user]);
    w.users := w.users[uid := user];
  }

  /** `register`: refuse a taken username or e-mail; otherwise create the
      user's own company, save the user as its only member, and store a
      first token pair bound to that company. The user save is a merge: a
      posted id of an existing account overwrites that account. */
  method Register(w: World, request: RegisterRequest, encode: string -> string, cfg: JwtConfig, now: nat)
    returns (res: Result<AuthResponse>)
    requires w.Valid()
    modifies w`users, w`companies, w`tokens, w`nextId
    ensures w.Valid()
    ensures res.Err? ==> w.users == old(w.users) && w.companies == old(w.companies) && w.tokens == old(w.tokens)
    ensures res.Ok? <==>
      && FindUserByUsername(old(w.users), request.username) == Ok(None)
      && FindUserByEmail(old(w.users), request.email) == Ok(None)
      && FindCompanyByName(old(w.companies), DefaultCompanyName(request.username)) == Ok(None)
    ensures (exists u :: u in old(w.users) && old(w.users)[u].username == request.username) ==>
      res == Err(RuntimeError("Username already exists"))
    ensures FindUserByUsername(old(w.users), request.username) == Ok(None) &&
            (exists u :: u in old(w.users) && old(w.users)[u].email == request.email) ==>
      res.Err? && res.error in {RuntimeError("Email already exists"), NonUniqueResult}
    ensures res.Ok? ==>
      var cid := old(w.nextId);
      var uid := Tables.SaveKey(old(w.users), request.id, cid + 1);
      var company := DefaultCompany(request, cid);
      var user := RegisteredUser(request, encode, cid);
      && w.companies == old(w.companies)[cid := company]
      && w.users == old(w.users)[uid := user]
      && w.tokens == old(w.tokens) + [IssuedRecord(user, company, uid, cfg, now)]
      && res.value == IssuedResponse(user, w.companies, company, cfg, now, RegisteredMessage)
  {
    var byName := FindUserByUsername(w.users, request.username);
    if byName.Err? {
      return Err(NonUniqueResult);
    }
    if byName.value.Some? {
      return Err(RuntimeError("Username already exists"));
    }
    var byEmail := FindUserByEmail(w.users, request.email);
    if byEmail.Err? {
      return Err(byEmail.error);
    }
    if byEmail.value.Some? {
      return Err(RuntimeError("Email already exists"));
    }
    var clash := FindCompanyByName(w.companies, DefaultCompanyName(request.username));
    if clash.Err? {
      return Err(NonUniqueResult);
    }
    if clash.value.Some? {
      return Err(DataIntegrity(CompanyNameConstraint));
    }
    var cid := SaveRegistration(w, request, encode, cfg, now);
    res := Ok(IssuedResponse(RegisteredUser(request, encode, cid), w.companies, DefaultCompany(request, cid), cfg, now,
                             RegisteredMessage));
  }

  /** The three saves of an accepted registration: the default company, the
      user in it, and the first token pair. */
  method SaveRegistration(w: World, request: RegisterRequest, encode: string -> string, cfg: JwtConfig, now: nat)
    returns (cid: nat)
    requires w.Valid()
    requires forall v :: v in w.users ==> w.users[v].username != request.username
    requires forall v :: v in w.users ==> w.users[v].email != request.email
    requires forall k :: k in w.companies ==> w.companies[k].name != DefaultCompanyName(request.username)
    modifies w`users, w`companies, w`tokens, w`nextId
    ensures w.Valid()
    ensures cid == old(w.nextId)
    ensures w.companies == old(w.companies)[cid := DefaultCompany(request, cid)]
    ensures w.users ==
      old(w.users)[Tables.SaveKey(old(w.users), request.id, cid + 1) := RegisteredUser(request, encode, cid)]
    ensures w.tokens ==
      old(w.tokens) + [IssuedRecord(RegisteredUser(request, encode, cid), DefaultCompany(request, cid),
                                    Tables.SaveKey(old(w.users), request.id, cid + 1), cfg, now)]
  {
    var uid;
    cid, uid := SaveCompanyAndUser(w, request, encode);
    StoreIssuedPair(w, uid, cid, cfg, now);
  }

  /** The company and user saves of an accepted registration. */
  method SaveCompanyAndUser(w: World, request: RegisterRequest, encode: string -> string) returns (cid: nat, uid: nat)
    requires w.Valid()
    requires forall v :: v in w.users ==> w.users[v].username != request.username
    requires forall v :: v in w.users ==> w.users[v].email != request.email
    requires forall k :: k in w.companies ==> w.companies[k].name != DefaultCompanyName(request.username)
    modifies w`users, w`companies, w`nextId
    ensures w.Valid()
    ensures cid == old(w.nextId) && uid == Tables.SaveKey(old(w.users), request.id, cid + 1) && w.tokens == old(w.tokens)
    ensures w.companies == old(w.companies)[cid := DefaultCompany(request, cid)]
    ensures w.users == old(w.users)[uid := RegisteredUser(request, encode, cid)]
  {
    cid := SaveDefaultCompany(w, request);
    uid := SaveRegisteredUser(w, request, encode, cid);
  }


  /** What the authentication manager checks: a user with that username
      exists and the raw password matches the stored encoded one. */
  predicate CredentialsAccepted(users: map<nat, User>, username: string, password: string,
                                matches: (string, string) -> bool)
  {
    var found := FindUserByUsername(users, username);
    found.Ok? && found.value.Some? && matches(password, users[found.value.value].password)
  }

  /** `authenticate`: check the credentials, pick one of the user's companies,
      revoke the user's live pairs and store a new pair bound to it. */
  method Authenticate(w: World, username: string, password: string, matches: (string, string) -> bool,
                      cfg: JwtConfig, now: nat)
    returns (res: Result<AuthResponse>, uid: nat, cid: nat)
    requires w.Valid()
    modifies w`tokens
    ensures w.Valid()
    ensures res.Err? ==> w.tokens == old(w.tokens)
    ensures res.Ok? <==> CredentialsAccepted(w.users, username, password, matches)
    ensures res.Err? ==> res.error == BadCredentials
    ensures res.Ok? ==>
      && FindUserByUsername(w.users, username) == Ok(Some(uid))
      && cid in w.users[uid].companies
      && w.tokens == Rotate(old(w.tokens), uid, IssuedRecord(w.users[uid], w.companies[cid], uid, cfg, now))
      && res.value == IssuedResponse(w.users[uid], w.companies, w.companies[cid], cfg, now, LoginMessage)
  {
    uid, cid := 0, 0;
    if !CredentialsAccepted(w.users, username, password, matches) {
      return Err(BadCredentials), uid, cid;
    }
    var found := FindUserByUsername(w.users, username);
    if found.Err? || found.value.None? {
      return Err(RuntimeError("User not found")), uid, cid;
    }
    uid := found.value.value;
    var user := w.users[uid];
    var chosen := GetDefaultCompany(user);
    if chosen.Err? {
      return Err(RuntimeError("User does not belong to any company")), uid, cid;
    }
    cid := chosen.value;
    RevokeAllTokensByUser(w, uid);
    StoreIssuedPair(w, uid, cid, cfg, now);
    res := Ok(IssuedResponse(user, w.companies, w.companies[cid], cfg, now, LoginMessage));
  }

  /** `switchCompany`: the authenticated user must already belong to the
      target company; the user's live pairs are revoked and a pair bound to
      the target company is stored. */
  method SwitchCompany(w: World, auth: Option<Authentication>, companyId: Option<nat>, cfg: JwtConfig, now: nat)
    returns (res: Result<AuthResponse>)
    requires w.Valid()
    modifies w`tokens
    ensures w.Valid()
    ensures res.Err? ==> w.tokens == old(w.tokens)
    ensures res.Ok? <==>
      GetCurrentUser(w.users, auth).Ok? && companyId.Some? &&
      companyId.value in w.users[GetCurrentUser(w.users, auth).value].companies
    ensures GetCurrentUser(w.users, auth).Ok? && companyId.Some? && companyId.value !in w.companies ==>
      res == Err(RuntimeError("Company not found with ID: " + NatToString(companyId.value)))
    ensures GetCurrentUser(w.users, auth).Ok? && companyId.Some? && companyId.value in w.companies &&
            companyId.value !in w.users[GetCurrentUser(w.users, auth).value].companies ==>
      res == Err(RuntimeError("User is not associated with company: " + w.companies[companyId.value].name))
    ensures res.Ok? ==>
      var uid := GetCurrentUser(w.users, auth).value;
      var company := w.companies[companyId.value];
      && w.tokens == Rotate(old(w.tokens), uid, IssuedRecord(w.users[uid], company, uid, cfg, now))
      && res.value == IssuedResponse(w.users[uid], w.companies, company, cfg, now, "Company switched to " + company.name)
  {
    var current := GetCurrentUser(w.users, auth);
    if current.Err? {
      return Err(current.error);
    }
    var uid := current.value;
    if companyId.None? {
      return Err(IllegalArgument("The given id must not be null!"));
    }
    var cid := companyId.value;
    if cid !in w.companies {
      return Err(RuntimeError("Company not found with ID: " + NatToString(cid)));
    }
    var company := w.companies[cid];
    if cid !in w.users[uid].companies {
      return Err(RuntimeError("User is not associated with company: " + company.name));
    }
    RevokeAllTokensByUser(w, uid);
    StoreIssuedPair(w, uid, cid, cfg, now);
    res := Ok(IssuedResponse(w.users[uid], w.companies, company, cfg, now, "Company switched to " + company.name));
  }

  /** How the checks of `refreshToken` end: a response before any write, or
      the user and the company of the new pair. */
  datatype RefreshCheck = Refused(res: Result<Reply>) | Accepted(uid: nat, cid: nat)

  /** The refresh cookie is present, not empty, and its subject is the
      username of user `uid`, the one user the lookup finds by it. */
  predicate RefreshNames(users: map<nat, User>, cookies: Option<seq<Cookie>>, now: nat, uid: nat)
  {
    var cookie := RefreshCookieValue(cookies);
    && cookie.Some? && cookie.value != "" && uid in users
    && ExtractUsername(cookie.value, now) == Ok(Some(users[uid].username))
    && FindUserByUsername(users, users[uid].username) == Ok(Some(uid))
  }

  /** Everything `refreshToken` needs to rotate user `uid` to company `cid`:
      the cookie names the user, its token is a live stored refresh token
      of that user, and it carries the id of an existing company. */
  predicate RefreshAccepted(users: map<nat, User>, companies: map<nat, Company>, tokens: seq<TokenRecord>,
                            cookies: Option<seq<Cookie>>, now: nat, uid: nat, cid: nat)
  {
    && RefreshNames(users, cookies, now, uid)
    && IsValidRefreshToken(RefreshCookieValue(cookies).value, users[uid].username, tokens, now) == Ok(true)
    && ExtractCompanyId(RefreshCookieValue(cookies).value, now) == Ok(Some(cid))
    && cid in companies
  }

  /** The three bodies `refreshToken` answers 401 with. */
  const RefreshRefusals: set<AuthResponse> := {MessageOnly("Refresh token is missing"), MessageOnly("Invalid refresh token"),
                                           MessageOnly("Invalid or expired refresh token")}

  /** The checks of `refreshToken`, in its order: the cookie, the subject,
      the user, the stored token, the company claim and the company. */
  method CheckRefresh(users: map<nat, User>, companies: map<nat, Company>, tokens: seq<TokenRecord>,
                      cookies: Option<seq<Cookie>>, now: nat)
    returns (c: RefreshCheck)
    ensures c.Refused? && c.res.Ok? ==> c.res.value.status == 401 && c.res.value.body in RefreshRefusals
    ensures RefreshCookieValue(cookies) == None || RefreshCookieValue(cookies) == Some("") ==>
      c == Refused(Ok(Reply(401, MessageOnly("Refresh token is missing"))))
    ensures RefreshCookieValue(cookies).Some? && RefreshCookieValue(cookies).value != "" &&
            ExtractUsername(RefreshCookieValue(cookies).value, now) == Ok(None) ==>
      c == Refused(Ok(Reply(401, MessageOnly("Invalid refresh token"))))
    ensures forall u :: RefreshNames(users, cookies, now, u) &&
                        IsValidRefreshToken(RefreshCookieValue(cookies).value, users[u].username, tokens, now) == Ok(false) ==>
      c == Refused(Ok(Reply(401, MessageOnly("Invalid or expired refresh token"))))
    ensures RefreshCookieValue(cookies).Some? && RefreshCookieValue(cookies).value != "" &&
            ExtractUsername(RefreshCookieValue(cookies).value, now).Ok? &&
            ExtractUsername(RefreshCookieValue(cookies).value, now).value.Some? &&
            FindUserByUsername(users, ExtractUsername(RefreshCookieValue(cookies).value, now).value.value) == Ok(None) ==>
      c == Refused(Err(RuntimeError("User not found")))
    ensures forall u, k :: RefreshNames(users, cookies, now, u) &&
                           IsValidRefreshToken(RefreshCookieValue(cookies).value, users[u].username, tokens, now) == Ok(true) &&
                           ExtractCompanyId(RefreshCookieValue(cookies).value, now) == Ok(Some(k)) && k !in companies ==>
      c == Refused(Err(RuntimeError("Company not found")))
    ensures c.Accepted? ==> RefreshAccepted(users, companies, tokens, cookies, now, c.uid, c.cid)
    ensures forall u, k :: RefreshAccepted(users, companies, tokens, cookies, now, u, k) ==> c == Accepted(u, k)
  {
    var cookie := ExtractRefreshTokenFromCookie(cookies);
    if cookie.None? || cookie.value == "" {
      return Refused(Ok(Reply(401, MessageOnly("Refresh token is missing"))));
    }
    var token := cookie.value;
    var subject := ExtractUsername(token, now);
    if subject.Err? {
      return Refused(Err(subject.error));
    }
    if subject.value.None? {
      return Refused(Ok(Reply(401, MessageOnly("Invalid refresh token"))));
    }
    var found := FindUserByUsername(users, subject.value.value);
    if found.Err? {
      return Refused(Err(NonUniqueResult));
    }
    if found.value.None? {
      return Refused(Err(RuntimeError("User not found")));
    }
    var uid := found.value.value;
    var valid := IsValidRefreshToken(token, users[uid].username, tokens, now);
    if valid.Err? {
      return Refused(Err(valid.error));
    }
    if !valid.value {
      return Refused(Ok(Reply(401, MessageOnly("Invalid or expired refresh token"))));
    }
    var companyId := ExtractCompanyId(token, now);
    if companyId.Err? {
      return Refused(Err(MalformedJwt));
    }
    if companyId.value.None? {
      return Refused(Err(IllegalArgument("The given id must not be null!")));
    }
    if companyId.value.value !in companies {
      return Refused(Err(RuntimeError("Company not found")));
    }
    return Accepted(uid, companyId.value.value);
  }

  /** `refreshToken`: answer 401 for a missing, subject-less or no longer
      valid refresh cookie; otherwise rotate to a new pair bound to the
      company the presented token names. Membership in that company is not
      checked again. */
  method RefreshToken(w: World, cookies: Option<seq<Cookie>>, cfg: JwtConfig, now: nat)
    returns (res: Result<Reply>, uid: nat, cid: nat)
    requires w.Valid()
    modifies w`tokens
    ensures w.Valid()
    ensures res.Ok? ==> res.value.status == 200 || (res.value.status == 401 && res.value.body in RefreshRefusals)
    ensures !(res.Ok? && res.value.status == 200) ==> w.tokens == old(w.tokens)
    ensures RefreshCookieValue(cookies) == None || RefreshCookieValue(cookies) == Some("") ==>
      res == Ok(Reply(401, MessageOnly("Refresh token is missing")))
    ensures RefreshCookieValue(cookies).Some? && RefreshCookieValue(cookies).value != "" &&
            ExtractUsername(RefreshCookieValue(cookies).value, now) == Ok(None) ==>
      res == Ok(Reply(401, MessageOnly("Invalid refresh token")))
    ensures forall u :: RefreshNames(w.users, cookies, now, u) &&
                        IsValidRefreshToken(RefreshCookieValue(cookies).value, w.users[u].username, old(w.tokens), now)
                          == Ok(false) ==>
      res == Ok(Reply(401, MessageOnly("Invalid or expired refresh token")))
    ensures RefreshCookieValue(cookies).Some? && RefreshCookieValue(cookies).value != "" &&
            ExtractUsername(RefreshCookieValue(cookies).value, now).Ok? &&
            ExtractUsername(RefreshCookieValue(cookies).value, now).value.Some? &&
            FindUserByUsername(w.users, ExtractUsername(RefreshCookieValue(cookies).value, now).value.value) == Ok(None) ==>
      res == Err(RuntimeError("User not found"))
    ensures forall u, k :: RefreshNames(w.users, cookies, now, u) &&
                           IsValidRefreshToken(RefreshCookieValue(cookies).value, w.users[u].username, old(w.tokens), now)
                             == Ok(true) &&
                           ExtractCompanyId(RefreshCookieValue(cookies).value, now) == Ok(Some(k)) && k !in w.companies ==>
      res == Err(RuntimeError("Company not found"))
    ensures forall u, k :: RefreshAccepted(w.users, w.companies, old(w.tokens), cookies, now, u, k) ==>
      res.Ok? && res.value.status == 200 && uid == u && cid == k
    ensures res.Ok? && res.value.status == 200 ==>
      && RefreshAccepted(w.users, w.companies, old(w.tokens), cookies, now, uid, cid)
      && w.tokens == Rotate(old(w.tokens), uid, IssuedRecord(w.users[uid], w.companies[cid], uid, cfg, now))
      && res.value.body == IssuedResponse(w.users[uid], w.companies, w.companies[cid], cfg, now, RefreshedMessage)
  {
    var check := CheckRefresh(w.users, w.companies, w.tokens, cookies, now);
    if check.Refused? {
      return check.res, 0, 0;
    }
    uid, cid := check.uid, check.cid;
    RevokeAllTokensByUser(w, uid);
    StoreIssuedPair(w, uid, cid, cfg, now);
    res := Ok(Reply(200, IssuedResponse(w.users[uid], w.companies, w.companies[cid], cfg, now, RefreshedMessage)));
  }

  // ---- Registration with a posted id ----

  /** A registration that posts the id of an existing account takes that
      account over: no row is added, the row now holds the new username,
      password, roles and company, and the old username is gone. */
  lemma {:induction false} RegisterTakesOverAccount(users: map<nat, User>, companies: map<nat, Company>,
                                                    request: RegisterRequest, encode: string -> string, cid: nat)
    requires UsersConsistent(users, companies)
    requires request.id.Some? && request.id.value in users
    requires forall v :: v in users ==> users[v].username != request.username
    ensures var x := request.id.value;
            var users' := users[Tables.SaveKey(users, request.id, cid + 1) := RegisteredUser(request, encode, cid)];
            && users'.Keys == users.Keys
            && users'[x].username == request.username && users'[x].password == encode(request.password)
            && users'[x].roles == RegisteredRoles(request.roles) && users'[x].companies == {cid}
            && forall v :: v in users' ==> users'[v].username != users[x].username
  {
    var x := request.id.value;
    assert Tables.SaveKey(users, request.id, cid + 1) == x;
    var users' := users[x := RegisteredUser(request, encode, cid)];
    forall v | v in users' ensures users'[v].username != users[x].username {
      if v != x {
        assert users[v].username != users[x].username;
      }
    }
  }

  /** After such a takeover the pairs stored for the account still name its
      old username, so the store no longer satisfies `TokensConsistent`. */
  lemma {:induction false} TakenOverAccountKeepsOldPairs(users: map<nat, User>, ts: seq<TokenRecord>,
                                                         request: RegisterRequest, encode: string -> string,
                                                         cid: nat, t: TokenRecord)
    requires t in ts && request.id == Some(t.user) && t.user in users
    requires IssuedFor(t, users[t.user].username)
    requires request.username != users[t.user].username
    ensures !TokensConsistent(ts, users[Tables.SaveKey(users, request.id, cid + 1) := RegisteredUser(request, encode, cid)])
  {
    var users' := users[Tables.SaveKey(users, request.id, cid + 1) := RegisteredUser(request, encode, cid)];
    assert users'[t.user].username == request.username;
    assert !IssuedFor(t, users'[t.user].username);
  }

  /** Logins, switches and refreshes keep every stored pair issued for its
      owner's username: the rotation only logs records out and appends a
      pair issued for the user. */
  lemma TokensConsistentRotated(users: map<nat, User>, ts: seq<TokenRecord>, uid: nat, company: Company,
                                cfg: JwtConfig, now: nat)
    requires TokensConsistent(ts, users) && uid in users
    ensures TokensConsistent(Rotate(ts, uid, IssuedRecord(users[uid], company, uid, cfg, now)), users)
  {
    TokensConsistentRevoked(ts, users, uid);
    IssuedPairReadable(users[uid], company, cfg, now);
  }

  // ---- Session properties ----

  /** A refresh token that was valid for a user stops being valid once the
      user's pairs are rotated: a refresh token works at most once. */
  lemma RefreshTokenSingleUse(users: map<nat, User>, companies: map<nat, Company>, ts: seq<TokenRecord>,
                              uid: nat, token: string, issued: TokenRecord, now: nat, later: nat, anyone: string)
    requires UsersConsistent(users, companies) && TokensConsistent(ts, users)
    requires uid in users
    requires IsValidRefreshToken(token, users[uid].username, ts, now) == Ok(true)
    ensures IsValidRefreshToken(token, anyone, Rotate(ts, uid, issued), later) != Ok(true)
  {
    var r := FindByRefreshToken(ts, token).value.value;
    assert r in ts && r.refreshToken == Some(token);
    var i :| 0 <= i < |ts| && ts[i] == r;
    assert SubjectOf(token) == Some(users[r.user].username);
    assert SubjectOf(token) == Some(users[uid].username);
    RotatedOutPairRejected(ts, uid, issued, i, anyone, later);
  }

  /** The same for access tokens: after a login, switch or refresh every
      access token the user held before fails validation. */
  lemma AccessTokenRevokedByRotation(users: map<nat, User>, companies: map<nat, Company>, ts: seq<TokenRecord>,
                                     uid: nat, token: string, issued: TokenRecord, now: nat, later: nat, anyone: string)
    requires UsersConsistent(users, companies) && TokensConsistent(ts, users)
    requires uid in users
    requires IsValid(token, users[uid].username, ts, now) == Ok(true)
    ensures IsValid(token, anyone, Rotate(ts, uid, issued), later) != Ok(true)
  {
    var r := FindByAccessToken(ts, token).value.value;
    assert r in ts && r.accessToken == token;
    var i :| 0 <= i < |ts| && ts[i] == r;
    assert SubjectOf(token) == Some(users[r.user].username);
    assert SubjectOf(token) == Some(users[uid].username);
    RotatedOutPairRejected(ts, uid, issued, i, anyone, later);
  }
}
