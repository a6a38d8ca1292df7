/** Single-use password-reset tokens: created with a one-hour lifetime,
    validated against the clock, looked up and deleted. The token text is
    a random UUID in the service; here the caller supplies it. */
module PasswordResetTokenService {
  import opened Wrappers
  import opened Entities
  import opened Store

  /** One hour, in milliseconds. */
  const ResetLifetime: nat := 3_600_000

  /** The row `createPasswordResetToken` stores. */
  function ResetRow(token: string, user: nat, now: nat): PasswordResetToken
  {
    PasswordResetToken(token, user, now + ResetLifetime)
  }

  /** `createPasswordResetToken`: stores a token for the user expiring an
      hour from now and returns its text. */
  method CreatePasswordResetToken(w: World, user: nat, token: string, now: nat) returns (r: string)
    requires w.Valid() && user in w.users
    modifies w`resetTokens, w`nextId
    ensures w.Valid()
    ensures r == token
    ensures old(w.nextId) !in old(w.resetTokens)
    ensures w.resetTokens == old(w.resetTokens)[old(w.nextId) := ResetRow(token, user, now)]
    ensures var row := w.resetTokens[old(w.nextId)];
      row.token == token && row.user == user && row.expirationDate == now + ResetLifetime
  {
    var id := w.NewId();
    w.resetTokens := w.resetTokens[id := ResetRow(token, user, now)];
    return token;
  }

  /** `validateToken`: an unknown token and an expired one raise; a token
      whose expiration is exactly now is still valid. The answer is never
      false. */
  function ValidateToken(resets: map<nat, PasswordResetToken>, token: string, now: nat): (r: Result<bool>)
    ensures r.Ok? ==> r.value
    ensures (forall k :: k in resets ==> resets[k].token != token) ==> r == Err(RuntimeError("Invalid or expired token"))
    ensures forall k :: k in resets && resets[k].token == token &&
                        (forall j :: j in resets && resets[j].token == token ==> j == k) ==>
      (r.Ok? <==> now <= resets[k].expirationDate) &&
      (r.Err? ==> r.error == RuntimeError("Token has expired"))
  {
    match FindResetToken(resets, token)
    case Err(e) => Err(e)
    case Ok(None) => Err(RuntimeError("Invalid or expired token"))
    case Ok(Some(k)) =>
      if resets[k].expirationDate < now then Err(RuntimeError("Token has expired")) else Ok(true)
  }

  /** A token that validates is found by `getTokenByValue`. */
  lemma {:induction false} ValidTokenFound(resets: map<nat, PasswordResetToken>, token: string, now: nat)
    requires ValidateToken(resets, token, now).Ok?
    ensures GetTokenByValue(resets, token).Ok?
    ensures resets[GetTokenByValue(resets, token).value].expirationDate >= now
  {
    match FindResetToken(resets, token)
    case Ok(Some(k)) =>
      assert GetTokenByValue(resets, token) == Ok(k);
  }

  /** `getTokenByValue`. */
  function GetTokenByValue(resets: map<nat, PasswordResetToken>, token: string): (r: Result<nat>)
    ensures (forall k :: k in resets ==> resets[k].token != token) ==> r == Err(RuntimeError("Token not found"))
    ensures r.Ok? ==> r.value in resets && resets[r.value].token == token &&
                      forall j :: j in resets && resets[j].token == token ==> j == r.value
  {
    match FindResetToken(resets, token)
    case Err(e) => Err(e)
    case Ok(None) => Err(RuntimeError("Token not found"))
    case Ok(Some(k)) => Ok(k)
  }

  /** A freshly created token validates for the whole hour, up to and
      including its expiration instant, and is refused after it, as long as
      its text is not already in use. */
  lemma {:induction false} FreshTokenValidFor(resets: map<nat, PasswordResetToken>, k: nat, token: string, user: nat,
                                              created: nat, now: nat)
    requires k !in resets && forall j :: j in resets ==> resets[j].token != token
    ensures ValidateToken(resets[k := ResetRow(token, user, created)], token, now).Ok? <==> now <= created + ResetLifetime
  {
    var resets' := resets[k := ResetRow(token, user, created)];
    assert k in resets' && resets'[k].token == token;
    assert forall j :: j in resets' && resets'[j].token == token ==> j == k;
  }

  /** `delete` of the token row. */
  method Delete(w: World, k: nat)
    requires w.Valid()
    modifies w`resetTokens
    ensures w.Valid()
    ensures w.resetTokens == old(w.resetTokens) - {k}
  {
    w.resetTokens := w.resetTokens - {k};
  }

  /** Once the row a lookup found is deleted, the token is no longer found. */
  lemma {:induction false} DeletedTokenNotFound(resets: map<nat, PasswordResetToken>, token: string, now: nat)
    requires GetTokenByValue(resets, token).Ok?
    ensures GetTokenByValue(resets - {GetTokenByValue(resets, token).value}, token) == Err(RuntimeError("Token not found"))
    ensures ValidateToken(resets - {GetTokenByValue(resets, token).value}, token, now) == Err(RuntimeError("Invalid or expired token"))
  {
    var k := GetTokenByValue(resets, token).value;
    assert forall j :: j in resets - {k} ==> resets[j].token != token;
  }
}
