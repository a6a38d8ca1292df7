/** The URL authorisation rules of the security filter chain: an ordered
    list whose first matching rule decides, ending with a rule that matches
    every request. A refused anonymous caller gets 401, a refused
    authenticated caller 403. */
module SecurityConfig {
  import opened Wrappers
  import opened UserModel

  datatype HttpMethod = GET | POST | PUT | DELETE | PATCH | HEAD | OPTIONS

  /** An Ant path pattern: a literal path, `base` followed by a slash and a double star (the base
      itself and everything below it), or every path. */
  datatype Pattern = Exact(path: string) | Subtree(base: string) | AnyPath

  predicate Matches(p: Pattern, path: string)
  {
    match p
    case Exact(q) => path == q
    case Subtree(b) => path == b || (|path| > |b| && path[..|b| + 1] == b + "/")
    case AnyPath => true
  }

  /** What a rule demands of the caller. `HasAnyRole` holds role names
      without the "ROLE_" prefix, as written in the configuration. */
  datatype Access = PermitAll | HasAnyRole(roles: set<string>) | IsAuthenticated

  /** A rule: an optional HTTP method, the patterns, and the access it grants. */
  datatype Rule = Rule(verb: Option<HttpMethod>, patterns: seq<Pattern>, access: Access)

  datatype Request = Request(verb: HttpMethod, path: string)

  /** The caller as the JWT filter leaves it: anonymous, or authenticated
      with the authority names of the user's roles. */
  datatype Caller = Anonymous | Principal(authorities: set<string>)

  datatype Decision = Granted | Unauthenticated | Denied

  const Api: string := "/api/v2/"
  const InventoryBase: string := Api + "inventoryitem"

  /** The endpoints open to everyone. */
  const PublicPaths: seq<string> := [
    Api + "auth/register", Api + "auth/login", Api + "auth/refresh_token",
    Api + "reset-password", Api + "request-password-reset"]

  function Exacts(paths: seq<string>): (ps: seq<Pattern>)
    ensures |ps| == |paths| && forall i :: 0 <= i < |paths| ==> ps[i] == Exact(paths[i])
  {
    if paths == [] then [] else [Exact(paths[0])] + Exacts(paths[1..])
  }

  const AllRoles: set<string> := {"SUPER_ADMIN", "ADMIN", "USER"}
  const WriterRoles: set<string> := {"SUPER_ADMIN", "ADMIN"}

  /** The rules in the order the filter chain declares them. */
  const Rules: seq<Rule> := [
    Rule(None, Exacts(PublicPaths), PermitAll),
    Rule(None, [Subtree(InventoryBase)], HasAnyRole(AllRoles)),
    Rule(Some(POST), [Subtree(InventoryBase)], HasAnyRole(WriterRoles)),
    Rule(Some(PUT), [Subtree(InventoryBase)], HasAnyRole(WriterRoles)),
    Rule(Some(DELETE), [Subtree(InventoryBase)], HasAnyRole(WriterRoles)),
    Rule(None, [AnyPath], IsAuthenticated)]

  predicate RuleMatches(r: Rule, req: Request)
  {
    (r.verb.None? || r.verb.value == req.verb) &&
    exists i :: 0 <= i < |r.patterns| && Matches(r.patterns[i], req.path)
  }

  /** The index of the first rule that matches the request. */
  function FirstMatch(rules: seq<Rule>, req: Request): (r: Option<nat>)
    ensures r.Some? ==> r.value < |rules| && RuleMatches(rules[r.value], req) &&
                        forall j :: 0 <= j < r.value ==> !RuleMatches(rules[j], req)
    ensures r.None? <==> forall j :: 0 <= j < |rules| ==> !RuleMatches(rules[j], req)
  {
    if rules == [] then None
    else if RuleMatches(rules[0], req) then Some(0)
    else
      match FirstMatch(rules[1..], req)
      case None =>
        assert forall j :: 1 <= j < |rules| ==> rules[j] == rules[1..][j - 1];
        None
      case Some(i) =>
        assert forall j :: 1 <= j < i + 1 ==> rules[j] == rules[1..][j - 1];
        Some(i + 1)
  }

  /** `hasAnyRole` checks the prefixed authority names. */
  predicate Grants(a: Access, c: Caller)
  {
    match a
    case PermitAll => true
    case IsAuthenticated => c.Principal?
    case HasAnyRole(rs) => c.Principal? && exists n :: n in rs && "ROLE_" + n in c.authorities
  }

  /** The filter chain's verdict: the first matching rule decides; a refusal
      is a 401 for an anonymous caller and a 403 otherwise. */
  function Decide(rules: seq<Rule>, req: Request, caller: Caller): (d: Decision)
    ensures d == Unauthenticated ==> caller.Anonymous?
    ensures d == Denied ==> caller.Principal?
    ensures FirstMatch(rules, req).None? ==> d == Granted
    ensures FirstMatch(rules, req).Some? ==> (d == Granted <==> Grants(rules[FirstMatch(rules, req).value].access, caller))
  {
    match FirstMatch(rules, req)
    case None => Granted
    case Some(i) =>
      if Grants(rules[i].access, caller) then Granted
      else if caller.Anonymous? then Unauthenticated
      else Denied
  }

  /** The status a refusal answers with. */
  function Status(d: Decision): (s: Option<nat>)
    ensures d == Granted <==> s.None?
    ensures d == Unauthenticated ==> s == Some(401)
    ensures d == Denied ==> s == Some(403)
  {
    match d
    case Granted => None
    case Unauthenticated => Some(401)
    case Denied => Some(403)
  }

  // ---- What the rule list means ----

  /** Under the inventory subtree the ninth character is the `i` of
      "inventoryitem"; no public path has it. */
  lemma {:induction false} InventoryPathShape(path: string)
    requires Matches(Subtree(InventoryBase), path)
    ensures |path| > 8 && path[8] == 'i' && path !in PublicPaths
  {
    assert |Api| == 8;
    assert InventoryBase[8] == 'i';
    if path == InventoryBase {
    } else {
      assert path[..|InventoryBase| + 1][8] == (InventoryBase + "/")[8];
    }
    forall q | q in PublicPaths ensures q[8] != 'i' {
      assert q[..8] == Api;
    }
  }

  /** The five public endpoints are open to every caller with any method. */
  lemma {:induction false} PublicEndpointsOpen(req: Request, caller: Caller)
    requires req.path in PublicPaths
    ensures FirstMatch(Rules, req) == Some(0)
    ensures Decide(Rules, req, caller) == Granted
  {
    var i :| 0 <= i < |PublicPaths| && PublicPaths[i] == req.path;
    assert Matches(Exacts(PublicPaths)[i], req.path);
    assert RuleMatches(Rules[0], req);
  }

  /** Every inventory request, whatever its method, is decided by the
      three-role rule: anonymous callers get 401, callers holding none of
      the three roles 403, all others pass. */
  lemma {:induction false} InventoryNeedsARole(req: Request, caller: Caller)
    requires Matches(Subtree(InventoryBase), req.path)
    ensures FirstMatch(Rules, req) == Some(1)
    ensures caller.Anonymous? ==> Decide(Rules, req, caller) == Unauthenticated
    ensures caller.Principal? ==>
      (Decide(Rules, req, caller) == Granted <==>
         "ROLE_SUPER_ADMIN" in caller.authorities || "ROLE_ADMIN" in caller.authorities ||
         "ROLE_USER" in caller.authorities)
  {
    InventoryPathShape(req.path);
    assert !RuleMatches(Rules[0], req) by {
      forall i | 0 <= i < |Rules[0].patterns| ensures !Matches(Rules[0].patterns[i], req.path) {
        assert Rules[0].patterns[i] == Exact(PublicPaths[i]);
      }
    }
    assert Matches(Rules[1].patterns[0], req.path);
    assert RuleMatches(Rules[1], req);
    if caller.Principal? {
      var a := caller.authorities;
      assert "ROLE_" + "SUPER_ADMIN" == "ROLE_SUPER_ADMIN" && "ROLE_" + "ADMIN" == "ROLE_ADMIN" &&
             "ROLE_" + "USER" == "ROLE_USER";
      assert forall n :: n in AllRoles ==> "ROLE_" + n in {"ROLE_SUPER_ADMIN", "ROLE_ADMIN", "ROLE_USER"};
      if "ROLE_SUPER_ADMIN" in a || "ROLE_ADMIN" in a || "ROLE_USER" in a {
        var n := if "ROLE_SUPER_ADMIN" in a then "SUPER_ADMIN" else if "ROLE_ADMIN" in a then "ADMIN" else "USER";
        assert n in AllRoles && "ROLE_" + n in a;
      }
    }
  }

  /** The method-specific write rules come after the broader inventory rule
      and so never decide a request. */
  lemma {:induction false} WriteRulesShadowed(req: Request)
    ensures FirstMatch(Rules, req).Some?
    ensures FirstMatch(Rules, req).value !in {2, 3, 4}
  {
    assert RuleMatches(Rules[5], req) by {
      assert Matches(Rules[5].patterns[0], req.path);
    }
    forall j | 2 <= j <= 4 && RuleMatches(Rules[j], req) ensures RuleMatches(Rules[1], req) {
      assert Matches(Rules[j].patterns[0], req.path);
      assert Matches(Rules[1].patterns[0], req.path);
    }
  }

  /** So any user with a role, a plain USER included, may create, update and
      delete inventory through this filter chain. */
  lemma {:induction false} UserMayWriteInventory(req: Request, roles: set<Role>)
    requires Matches(Subtree(InventoryBase), req.path) && roles != {}
    ensures Decide(Rules, req, Principal(AuthorityNames(roles))) == Granted
  {
    var r :| r in roles;
    assert RoleName(r) in AuthorityNames(roles);
    InventoryNeedsARole(req, Principal(AuthorityNames(roles)));
  }

  /** Every other request only needs an authenticated caller. */
  lemma {:induction false} OtherRequestsNeedAuthentication(req: Request, caller: Caller)
    requires req.path !in PublicPaths && !Matches(Subtree(InventoryBase), req.path)
    ensures FirstMatch(Rules, req) == Some(5)
    ensures Decide(Rules, req, caller) == (if caller.Anonymous? then Unauthenticated else Granted)
  {
    assert !RuleMatches(Rules[0], req) by {
      forall i | 0 <= i < |Rules[0].patterns| ensures !Matches(Rules[0].patterns[i], req.path) {
        assert Rules[0].patterns[i] == Exact(PublicPaths[i]);
      }
    }
    forall j | 1 <= j <= 4 ensures !RuleMatches(Rules[j], req) {
      assert Rules[j].patterns == [Subtree(InventoryBase)];
    }
    assert Matches(Rules[5].patterns[0], req.path);
  }
}
