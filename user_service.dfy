/** The tenant the current request acts for, and the administration of a
    user's company memberships. */
module UserService {
  import opened Wrappers
  import opened Text
  import opened UserModel
  import opened JwtService
  import opened Store
  import opened AuthenticationService

  /** A nullable id as string concatenation prints it. */
  function IdText(id: Option<nat>): string
  {
    if id.None? then "null" else NatToString(id.value)
  }

  /** The bearer token the security context carries as credentials. */
  function Credentials(auth: Option<Authentication>): Option<string>
  {
    if auth.None? then None else auth.value.credentials
  }

  /** The request's token names company `c`, and the current user belongs to it. */
  predicate ActsFor(users: map<nat, User>, auth: Option<Authentication>, now: nat, c: nat)
  {
    && GetCurrentUser(users, auth).Ok?
    && Credentials(auth).Some?
    && ExtractCompanyId(Credentials(auth).value, now) == Ok(Some(c))
    && c in users[GetCurrentUser(users, auth).value].companies
  }

  /** `getCurrentUserCompany`: the member company whose id is the token's
      companyId claim. */
  function GetCurrentUserCompany(users: map<nat, User>, auth: Option<Authentication>, now: nat): (r: Result<nat>)
    ensures r.Ok? ==> ActsFor(users, auth, now, r.value)
    ensures forall c: nat :: ActsFor(users, auth, now, c) ==> r == Ok(c)
    ensures GetCurrentUser(users, auth).Ok? && users[GetCurrentUser(users, auth).value].companies == {} ==>
      r == Err(RuntimeError("User does not belong to any company"))
    ensures GetCurrentUser(users, auth).Ok? && users[GetCurrentUser(users, auth).value].companies != {} &&
            Credentials(auth).None? ==>
      r == Err(IllegalState("Authentication context is missing or invalid"))
    ensures GetCurrentUser(users, auth).Err? ==> r == Err(GetCurrentUser(users, auth).error)
  {
    var uid :- GetCurrentUser(users, auth);
    var user := users[uid];
    if user.companies == {} then Err(RuntimeError("User does not belong to any company"))
    else if Credentials(auth).None? then Err(IllegalState("Authentication context is missing or invalid"))
    else
      var companyId :- ExtractCompanyId(Credentials(auth).value, now);
      if companyId.Some? && companyId.value in user.companies then Ok(companyId.value)
      else Err(RuntimeError("User not associated with company ID from JWT: " + IdText(companyId)))
  }

  /** A membership set after removing `cid`: when nothing would be left, the
      fallback company takes its place, and without one the removal fails. */
  function WithoutCompany(memberships: set<nat>, cid: nat, fallback: Option<nat>): (r: Option<set<nat>>)
    ensures r.Some? ==> r.value != {}
    ensures r.None? <==> memberships <= {cid} && fallback.None?
    ensures r.Some? ==> forall c :: c in r.value <==>
      (c in memberships && c != cid) || (memberships <= {cid} && fallback == Some(c))
  {
    var rest := memberships - {cid};
    if rest != {} then Some(rest)
    else if fallback.None? then None
    else Some({fallback.value})
  }

  /** Removing a company that was just added restores the memberships. */
  lemma {:induction false} RemoveUndoesAssign(memberships: set<nat>, cid: nat, fallback: Option<nat>)
    requires cid !in memberships && memberships != {}
    ensures WithoutCompany(memberships + {cid}, cid, fallback) == Some(memberships)
  {
    assert memberships + {cid} - {cid} == memberships;
  }

  const DefaultCompanyName: string := "Default Company"

  /** Under the unique-name rule the lookup by company name never fails. */
  lemma UniqueCompanyNameLookup(companies: map<nat, CompanyModel.Company>, countries: map<nat, Entities.Country>, name: string)
    requires CompaniesConsistent(companies, countries)
    ensures FindCompanyByName(companies, name).Ok?
  {
  }

  /** `userRepository.save` of a user whose membership set was changed. */
  method SaveMemberships(w: World, userId: nat, memberships: set<nat>)
    requires w.Valid() && userId in w.users
    requires memberships != {} && memberships <= w.companies.Keys
    modifies w`users
    ensures w.Valid()
    ensures w.users == old(w.users)[userId := old(w.users)[userId].(companies := memberships)]
  {
    var updated := w.users[userId].(companies := memberships);
    UserStored(w.users, w.companies, userId, updated);
    TokenOwnersKept(w.tokens, w.users, w.users[userId := updated]);
    ResetTokensKeptForUsers(w.resetTokens, w.users, w.users[userId := updated]);
    w.users := w.users[userId := updated];
  }

  /** `assignCompanyToUser`: add the company to the user's memberships. */
  method AssignCompanyToUser(w: World, userId: nat, companyId: nat) returns (r: Result<string>)
    requires w.Valid()
    modifies w`users
    ensures w.Valid()
    ensures userId !in old(w.users) ==> r == Err(RuntimeError("User not found"))
    ensures userId in old(w.users) && companyId !in w.companies ==> r == Err(RuntimeError("Company not found"))
    ensures userId in old(w.users) && companyId in w.companies && companyId in old(w.users)[userId].companies ==>
      r == Ok("User is already assigned to this company.")
    ensures userId !in old(w.users) || companyId !in w.companies || companyId in old(w.users)[userId].companies ==>
      w.users == old(w.users)
    ensures userId in old(w.users) && companyId in w.companies && companyId !in old(w.users)[userId].companies ==>
      var user := old(w.users)[userId];
      && w.users == old(w.users)[userId := user.(companies := user.companies + {companyId})]
      && r == Ok("Company " + w.companies[companyId].name + " assigned to user " + user.username)
  {
    if userId !in w.users {
      return Err(RuntimeError("User not found"));
    }
    if companyId !in w.companies {
      return Err(RuntimeError("Company not found"));
    }
    var user := w.users[userId];
    if companyId in user.companies {
      return Ok("User is already assigned to this company.");
    }
    SaveMemberships(w, userId, user.companies + {companyId});
    return Ok("Company " + w.companies[companyId].name + " assigned to user " + user.username);
  }

  /** `removeCompanyFromUser`: drop the company from the user's memberships;
      a user left with none is given the company named "Default Company". */
  method RemoveCompanyFromUser(w: World, userId: nat, companyId: nat) returns (r: Result<string>)
    requires w.Valid()
    modifies w`users
    ensures w.Valid()
    ensures userId !in old(w.users) ==> r == Err(RuntimeError("User not found"))
    ensures userId in old(w.users) && companyId !in w.companies ==> r == Err(RuntimeError("Company not found"))
    ensures userId in old(w.users) && companyId in w.companies && companyId !in old(w.users)[userId].companies ==>
      r == Ok("User is not assigned to this company.")
    ensures userId !in old(w.users) || companyId !in w.companies || companyId !in old(w.users)[userId].companies ==>
      w.users == old(w.users)
    ensures userId in old(w.users) && companyId in w.companies && companyId in old(w.users)[userId].companies ==>
      var user := old(w.users)[userId];
      var fallback := FindCompanyByName(w.companies, DefaultCompanyName);
      var after := WithoutCompany(user.companies, companyId, if fallback.Ok? then fallback.value else None);
      && fallback.Ok?
      && (after.None? ==> r == Err(RuntimeError("Default company not found")) && w.users == old(w.users))
      && (after.Some? ==>
            && w.users == old(w.users)[userId := user.(companies := after.value)]
            && r == Ok("Company " + w.companies[companyId].name + " removed from user " + user.username))
  {
    if userId !in w.users {
      return Err(RuntimeError("User not found"));
    }
    if companyId !in w.companies {
      return Err(RuntimeError("Company not found"));
    }
    var user := w.users[userId];
    if companyId !in user.companies {
      return Ok("User is not assigned to this company.");
    }
    UniqueCompanyNameLookup(w.companies, w.countries, DefaultCompanyName);
    var fallback: Option<nat> := None;
    if user.companies - {companyId} == {} {
      var found := FindCompanyByName(w.companies, DefaultCompanyName);
      if found.value.None? {
        return Err(RuntimeError("Default company not found"));
      }
      fallback := found.value;
    }
    var remaining := WithoutCompany(user.companies, companyId, fallback).value;
    SaveMemberships(w, userId, remaining);
    return Ok("Company " + w.companies[companyId].name + " removed from user " + user.username);
  }
}
