/** The reset endpoint: validate the token, give its owner the new
    password, and delete the token so that it cannot be used again. */
module PasswordResetController {
  import opened Wrappers
  import opened UserModel
  import opened Entities
  import opened Store
  import opened PasswordResetTokenService

  /** An HTTP reply with a text body. */
  datatype Response = Response(status: nat, body: string)

  const ResetMessage: string := "Password has been reset successfully."

  /** The password change applied to the token's owner. */
  function WithPassword(u: User, password: string): (r: User)
    ensures r.username == u.username && r.email == u.email && r.companies == u.companies && r.roles == u.roles
    ensures r.password == password
  {
    u.(password := password)
  }

  /** `resetPassword`. The validation raises instead of answering false, so
      its `false` branch (400 "Invalid or expired token.") is never taken. */
  method ResetPassword(w: World, token: string, newPassword: string, encode: string -> string, now: nat)
    returns (r: Result<Response>)
    requires w.Valid()
    modifies w`users, w`resetTokens
    ensures w.Valid()
    ensures var v := ValidateToken(old(w.resetTokens), token, now);
      && (v.Err? ==> r == Err(v.error) && w.users == old(w.users) && w.resetTokens == old(w.resetTokens))
      && (v.Ok? ==>
            var k := GetTokenByValue(old(w.resetTokens), token).value;
            var owner := old(w.resetTokens)[k].user;
            && r == Ok(Response(200, ResetMessage))
            && owner in old(w.users)
            && w.users == old(w.users)[owner := WithPassword(old(w.users)[owner], encode(newPassword))]
            && w.resetTokens == old(w.resetTokens) - {k})
  {
    var valid := ValidateToken(w.resetTokens, token, now);
    if valid.Err? {
      return Err(valid.error);
    }
    ValidTokenFound(w.resetTokens, token, now);
    var found := GetTokenByValue(w.resetTokens, token);
    var k := found.value;
    var owner := w.resetTokens[k].user;
    SaveUserPassword(w, owner, encode(newPassword));
    Delete(w, k);
    return Ok(Response(200, ResetMessage));
  }

  /** `userRepository.save` of the owner with the new password. */
  method SaveUserPassword(w: World, u: nat, password: string)
    requires w.Valid() && u in w.users
    modifies w`users
    ensures w.Valid()
    ensures w.users == old(w.users)[u := WithPassword(old(w.users)[u], password)]
  {
    var user := WithPassword(w.users[u], password);
    UserStored(w.users, w.companies, u, user);
    TokenOwnersKept(w.tokens, w.users, w.users[u := user]);
    ResetTokensKeptForUsers(w.resetTokens, w.users, w.users[u := user]);
    w.users := w.users[u := user];
  }

  /** A reset is single-use: replaying the same token afterwards fails with
      the unknown-token error and changes nothing. */
  method ResetTwice(w: World, token: string, first: string, second: string, encode: string -> string, now: nat, later: nat)
    returns (r1: Result<Response>, r2: Result<Response>)
    requires w.Valid()
    modifies w`users, w`resetTokens
    ensures r1.Ok? ==> r2 == Err(RuntimeError("Invalid or expired token"))
  {
    r1 := ResetPassword(w, token, first, encode, now);
    if r1.Ok? {
      ValidTokenFound(old(w.resetTokens), token, now);
      DeletedTokenNotFound(old(w.resetTokens), token, later);
    }
    r2 := ResetPassword(w, token, second, encode, later);
  }
}
