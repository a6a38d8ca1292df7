/** Token issuing and checking. A token carries the subject (username), the
    company it is bound to, its issue time and its expiration. The model
    writes the claims out as text with an injective encoding and reads them
    back; the signature is not modelled. The parser refuses a token whose
    expiration lies before the current time, so every extraction fails on an
    expired token. */
module JwtService {
  import opened Wrappers
  import opened Text
  import opened CompanyModel
  import opened UserModel
  import TokenRepository

  datatype Claims = Claims(
    subject: Option<string>,
    companyId: Option<nat>,
    companyName: Option<string>,
    issuedAt: nat,
    expiration: nat)

  /** The configured lifetimes of access and refresh tokens, in milliseconds. */
  datatype JwtConfig = JwtConfig(accessTokenExpire: nat, refreshTokenExpire: nat)

  // ---- Encoding of the claims ----

  function NumField(n: nat): string { NatToString(n) + [';'] }

  function TextField(s: string): string { NumField(|s|) + s }

  function OptNumField(o: Option<nat>): string
  {
    match o
    case None => "-"
    case Some(n) => "+" + NumField(n)
  }

  function OptTextField(o: Option<string>): string
  {
    match o
    case None => "-"
    case Some(s) => "+" + TextField(s)
  }

  function Encode(c: Claims): string
  {
    OptTextField(c.subject) + (OptNumField(c.companyId) + (OptTextField(c.companyName) +
      (NumField(c.issuedAt) + NumField(c.expiration))))
  }

  // ---- Decoding ----

  /** The length of the run of digits that starts `s`. */
  function DigitRun(s: string): (k: nat)
    ensures k <= |s| && AllDigits(s[..k])
    ensures k < |s| ==> !IsDigit(s[k])
  {
    if s == [] || !IsDigit(s[0]) then 0
    else
      var k := 1 + DigitRun(s[1..]);
      assert s[..k] == [s[0]] + s[1..][..k - 1];
      k
  }

  function ParseNum(s: string): Option<(nat, string)>
  {
    var k := DigitRun(s);
    if k == 0 || k == |s| || s[k] != ';' then None else Some((ValueOf(s[..k]), s[k + 1..]))
  }

  function ParseText(s: string): Option<(string, string)>
  {
    var p :- ParseNum(s);
    if p.0 <= |p.1| then Some((p.1[..p.0], p.1[p.0..])) else None
  }

  function ParseOptNum(s: string): Option<(Option<nat>, string)>
  {
    if |s| > 0 && s[0] == '-' then Some((None, s[1..]))
    else if |s| > 0 && s[0] == '+' then
      var p :- ParseNum(s[1..]);
      Some((Some(p.0), p.1))
    else None
  }

  function ParseOptText(s: string): Option<(Option<string>, string)>
  {
    if |s| > 0 && s[0] == '-' then Some((None, s[1..]))
    else if |s| > 0 && s[0] == '+' then
      var p :- ParseText(s[1..]);
      Some((Some(p.0), p.1))
    else None
  }

  function ParseClaims(s: string): Option<Claims>
  {
    var sub :- ParseOptText(s);
    var cid :- ParseOptNum(sub.1);
    var name :- ParseOptText(cid.1);
    var iat :- ParseNum(name.1);
    var exp :- ParseNum(iat.1);
    if exp.1 == [] then Some(Claims(sub.0, cid.0, name.0, iat.0, exp.0)) else None
  }

  /** Reading the claims of a token; text that is not a token fails. */
  function Decode(token: string): (r: Result<Claims>)
    ensures r.Err? ==> r.error == MalformedJwt
  {
    match ParseClaims(token)
    case None => Err(MalformedJwt)
    case Some(c) => Ok(c)
  }

  lemma {:induction false} DigitRunStops(ds: string, rest: string)
    requires AllDigits(ds)
    requires rest != [] && !IsDigit(rest[0])
    ensures DigitRun(ds + rest) == |ds|
    decreases |ds|
  {
    if ds != [] {
      assert (ds + rest)[1..] == ds[1..] + rest;
      DigitRunStops(ds[1..], rest);
    }
  }

  lemma ParseNumField(n: nat, rest: string)
    ensures ParseNum(NumField(n) + rest) == Some((n, rest))
  {
    var ds := NatToString(n);
    var s := NumField(n) + rest;
    assert s == ds + ([';'] + rest);
    DigitRunStops(ds, [';'] + rest);
    assert s[..|ds|] == ds;
    assert s[|ds| + 1..] == rest;
    ValueOfNatToString(n);
  }

  lemma ParseTextField(t: string, rest: string)
    ensures ParseText(TextField(t) + rest) == Some((t, rest))
  {
    assert TextField(t) + rest == NumField(|t|) + (t + rest);
    ParseNumField(|t|, t + rest);
    assert (t + rest)[..|t|] == t;
    assert (t + rest)[|t|..] == rest;
  }

  lemma ParseOptNumField(o: Option<nat>, rest: string)
    ensures ParseOptNum(OptNumField(o) + rest) == Some((o, rest))
  {
    var s := OptNumField(o) + rest;
    if o.Some? {
      assert s[1..] == NumField(o.value) + rest;
      ParseNumField(o.value, rest);
    } else {
      assert s[1..] == rest;
    }
  }

  lemma ParseOptTextField(o: Option<string>, rest: string)
    ensures ParseOptText(OptTextField(o) + rest) == Some((o, rest))
  {
    if o.Some? {
      ParsePresentText(o.value, rest);
    } else {
      ParseAbsentText(rest);
    }
  }

  lemma ParsePresentText(t: string, rest: string)
    ensures ParseOptText(OptTextField(Some(t)) + rest) == Some((Some(t), rest))
  {
    var s := OptTextField(Some(t)) + rest;
    assert s[0] == '+' && s[1..] == TextField(t) + rest;
    ParseTextField(t, rest);
  }

  lemma ParseAbsentText(rest: string)
    ensures ParseOptText(OptTextField(None) + rest) == Some((None, rest))
  {
    var s := OptTextField(None) + rest;
    assert s[0] == '-' && s[1..] == rest;
  }

  /** Every encoded set of claims reads back as itself. */
  lemma DecodeEncode(c: Claims)
    ensures Decode(Encode(c)) == Ok(c)
  {
    var tail4 := NumField(c.expiration);
    var tail3 := NumField(c.issuedAt) + tail4;
    var tail2 := OptTextField(c.companyName) + tail3;
    var tail1 := OptNumField(c.companyId) + tail2;
    ParseOptTextField(c.subject, tail1);
    ParseOptNumField(c.companyId, tail2);
    ParseOptTextField(c.companyName, tail3);
    ParseNumField(c.issuedAt, tail4);
    ParseNumField(c.expiration, []);
    assert tail4 + [] == tail4;
  }

  /** Distinct claims give distinct tokens. */
  lemma EncodeInjective(c: Claims, d: Claims)
    requires Encode(c) == Encode(d)
    ensures c == d
  {
    DecodeEncode(c);
    DecodeEncode(d);
  }

  // ---- Reading tokens ----

  /** `Date.before(now)`, and equally the parser's `now.after(exp)`: the
      expiration instant itself still counts as valid. */
  predicate ExpiredAt(expiration: nat, now: nat) { expiration < now }

  /** `extractAllClaims`: parse the token and refuse it once expired. */
  function ExtractAllClaims(token: string, now: nat): (r: Result<Claims>)
    ensures r.Ok? <==> Decode(token).Ok? && !ExpiredAt(Decode(token).value.expiration, now)
    ensures r.Ok? ==> r.value == Decode(token).value
    ensures r.Err? ==> r.error == MalformedJwt || (Decode(token).Ok? && r.error == ExpiredJwt(Decode(token).value.expiration, now))
  {
    var c :- Decode(token);
    if ExpiredAt(c.expiration, now) then Err(ExpiredJwt(c.expiration, now)) else Ok(c)
  }

  function ExtractUsername(token: string, now: nat): Result<Option<string>>
  {
    var c :- ExtractAllClaims(token, now);
    Ok(c.subject)
  }

  function ExtractCompanyId(token: string, now: nat): Result<Option<nat>>
  {
    var c :- ExtractAllClaims(token, now);
    Ok(c.companyId)
  }

  function ExtractExpiration(token: string, now: nat): Result<nat>
  {
    var c :- ExtractAllClaims(token, now);
    Ok(c.expiration)
  }

  /** `isTokenExpired`. Its expiration comes through the parser, which has
      already refused an expired token, so the call either fails or answers
      false; it never answers true. */
  function IsTokenExpired(token: string, now: nat): (r: Result<bool>)
    ensures r != Ok(true)
    ensures r.Ok? <==> ExtractAllClaims(token, now).Ok?
  {
    var exp :- ExtractExpiration(token, now);
    Ok(ExpiredAt(exp, now))
  }

  /** The subject a token was issued for, read without looking at the clock. */
  function SubjectOf(token: string): Option<string>
  {
    match Decode(token)
    case Ok(c) => c.subject
    case Err(_) => None
  }

  // ---- Issuing tokens ----

  /** `generateToken`: subject, issue time, expiration and the company claims. */
  function GenerateToken(user: User, company: Company, expireTime: nat, now: nat): string
  {
    Encode(Claims(Some(user.username), company.id, Some(company.name), now, now + expireTime))
  }

  function GenerateAccessToken(user: User, company: Company, cfg: JwtConfig, now: nat): string
  {
    GenerateToken(user, company, cfg.accessTokenExpire, now)
  }

  function GenerateRefreshToken(user: User, company: Company, cfg: JwtConfig, now: nat): string
  {
    GenerateToken(user, company, cfg.refreshTokenExpire, now)
  }

  /** A token issued at `issued` reads back the user, the company and the
      expiration it was issued with, at every instant up to its expiration
      and at none after it. */
  lemma GeneratedTokenClaims(user: User, company: Company, expireTime: nat, issued: nat, now: nat)
    ensures ExtractAllClaims(GenerateToken(user, company, expireTime, issued), now).Ok? <==> now <= issued + expireTime
    ensures SubjectOf(GenerateToken(user, company, expireTime, issued)) == Some(user.username)
    ensures now <= issued + expireTime ==>
      ExtractUsername(GenerateToken(user, company, expireTime, issued), now) == Ok(Some(user.username)) &&
      ExtractCompanyId(GenerateToken(user, company, expireTime, issued), now) == Ok(company.id) &&
      ExtractExpiration(GenerateToken(user, company, expireTime, issued), now) == Ok(issued + expireTime)
  {
    var c := Claims(Some(user.username), company.id, Some(company.name), issued, issued + expireTime);
    var t := GenerateToken(user, company, expireTime, issued);
    assert t == Encode(c);
    DecodeEncode(c);
    assert Decode(t) == Ok(c);
    if now <= issued + expireTime {
      assert ExtractAllClaims(t, now) == Ok(c);
    } else {
      assert ExtractAllClaims(t, now).Err?;
    }
  }

  // ---- Validation ----

  /** `isValid`: the token names this user, has not expired, and its stored
      record is not logged out. The record lookup runs before the username is
      compared, so a lookup that matches two records fails the call. */
  function IsValid(token: string, username: string, ts: seq<TokenRepository.TokenRecord>, now: nat): (r: Result<bool>)
    ensures r == Ok(true) <==>
      ExtractUsername(token, now) == Ok(Some(username)) && TokenRepository.Live(TokenRepository.FindByAccessToken(ts, token))
    ensures r.Ok? ==> ExtractAllClaims(token, now).Ok?
  {
    var sub :- ExtractUsername(token, now);
    var found := TokenRepository.FindByAccessToken(ts, token);
    if found.Err? then Err(found.error)
    else if sub.None? then Err(NullPointer)
    else if sub.value != username then Ok(false)
    else
      var expired := IsTokenExpired(token, now).value;
      Ok(!expired && TokenRepository.Live(found))
  }

  /** `isValidRefreshToken`: the same checks against the stored refresh token. */
  function IsValidRefreshToken(token: string, username: string, ts: seq<TokenRepository.TokenRecord>, now: nat): (r: Result<bool>)
    ensures r == Ok(true) <==>
      ExtractUsername(token, now) == Ok(Some(username)) && TokenRepository.Live(TokenRepository.FindByRefreshToken(ts, token))
    ensures r.Ok? ==> ExtractAllClaims(token, now).Ok?
  {
    var sub :- ExtractUsername(token, now);
    var found := TokenRepository.FindByRefreshToken(ts, token);
    if found.Err? then Err(found.error)
    else if sub.None? then Err(NullPointer)
    else if sub.value != username then Ok(false)
    else
      var expired := IsTokenExpired(token, now).value;
      Ok(!expired && TokenRepository.Live(found))
  }

  /** Once a user's pair has been rotated out, neither of its tokens passes
      validation again, whoever presents it and whenever. */
  lemma RotatedOutPairRejected(ts: seq<TokenRepository.TokenRecord>, u: nat, issued: TokenRepository.TokenRecord,
                               i: nat, username: string, now: nat)
    requires i < |ts| && ts[i].user == u
    ensures IsValid(ts[i].accessToken, username, TokenRepository.Rotate(ts, u, issued), now) != Ok(true)
    ensures ts[i].refreshToken.Some? ==>
      IsValidRefreshToken(ts[i].refreshToken.value, username, TokenRepository.Rotate(ts, u, issued), now) != Ok(true)
  {
    TokenRepository.PriorAccessTokenDead(ts, u, issued, i);
    if ts[i].refreshToken.Some? {
      TokenRepository.PriorRefreshTokenDead(ts, u, issued, i);
    }
  }
}
