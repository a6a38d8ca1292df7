/** Start-up seeding: two default companies when the company table is
    empty, and a super-administrator "Johnny" in "Company A" when no user of
    that name exists. Each step looks before it writes, so seeding again
    changes nothing. */
module InitialDataService {
  import opened Wrappers
  import opened CompanyModel
  import opened UserModel
  import opened Store
  import UserService

  const CompanyAName: string := "Company A"
  const CompanyBName: string := "Company B"
  const AdminUsername: string := "Johnny"
  const AdminPassword: string := "Admin123*"

  /** `createSuperAdminUser` once "Company A" is found as `companyA`. */
  function SuperAdmin(encode: string -> string, companyA: nat): (u: User)
    ensures u.username == AdminUsername && u.roles == {ROLE_SUPER_ADMIN} && u.companies == {companyA}
    ensures u.email.None? && u.password == encode(AdminPassword)
  {
    User("Johnny", "Doe", AdminUsername, encode(AdminPassword), None, {ROLE_SUPER_ADMIN}, {companyA})
  }

  /** Some user has this username. */
  predicate HasUser(users: map<nat, User>, username: string)
  {
    exists u :: u in users && users[u].username == username
  }

  /** Some company has this name. */
  predicate HasCompany(companies: map<nat, Company>, name: string)
  {
    exists k :: k in companies && companies[k].name == name
  }

  /** The state a completed seeding leaves: some company and the administrator. */
  predicate Seeded(companies: map<nat, Company>, users: map<nat, User>)
  {
    companies != map[] && HasUser(users, AdminUsername)
  }

  /** A default company saved under `k`. */
  function DefaultRow(name: string, k: nat): Company { NewCompany(name).(id := Some(k)) }

  /** The company half: on an empty table, "Company A" and then "Company B"
      under the next two ids. */
  method SeedCompanies(w: World)
    requires w.Valid()
    modifies w`companies, w`nextId
    ensures w.Valid()
    ensures old(w.companies) == map[] ==>
      && w.nextId == old(w.nextId) + 2
      && w.companies == map[old(w.nextId) := DefaultRow(CompanyAName, old(w.nextId)),
                            old(w.nextId) + 1 := DefaultRow(CompanyBName, old(w.nextId) + 1)]
    ensures old(w.companies) != map[] ==> w.companies == old(w.companies) && w.nextId == old(w.nextId)
  {
    if w.companies == map[] {
      var a := SaveDefault(w, CompanyAName);
      assert CompanyAName != CompanyBName by { assert CompanyAName[8] != CompanyBName[8]; }
      var b := SaveDefault(w, CompanyBName);
    }
  }

  /** The save of one default company under a fresh id. */
  method SaveDefault(w: World, name: string) returns (k: nat)
    requires w.Valid()
    requires forall j :: j in w.companies ==> w.companies[j].name != name
    modifies w`companies, w`nextId
    ensures w.Valid()
    ensures k == old(w.nextId) && w.nextId == k + 1
    ensures w.companies == old(w.companies)[k := DefaultRow(name, k)]
  {
    k := w.NewId();
    var c := DefaultRow(name, k);
    CompanyStored(w.companies, w.countries, k, c);
    CompanyKeysKept(w.users, w.categories, w.emailConfigs, w.companies, w.companies[k := c]);
    w.companies := w.companies[k := c];
  }

  /** The user half: nothing when "Johnny" exists; otherwise the
      administrator in "Company A", or IllegalState when there is no such
      company. */
  method SeedAdmin(w: World, encode: string -> string) returns (r: Result<()>)
    requires w.Valid()
    modifies w`users, w`nextId
    ensures w.Valid()
    ensures HasUser(old(w.users), AdminUsername) ==> r == Ok(()) && w.users == old(w.users) && w.nextId == old(w.nextId)
    ensures !HasUser(old(w.users), AdminUsername) && !HasCompany(w.companies, CompanyAName) ==>
      r == Err(IllegalState("Company A not found")) && w.users == old(w.users)
    ensures !HasUser(old(w.users), AdminUsername) && HasCompany(w.companies, CompanyAName) ==>
      && r == Ok(())
      && old(w.nextId) !in old(w.users)
      && (exists a :: a in w.companies && w.companies[a].name == CompanyAName &&
                      w.users == old(w.users)[old(w.nextId) := SuperAdmin(encode, a)])
  {
    UniqueUsernameLookup(w.users, w.companies, AdminUsername);
    var existing := FindUserByUsername(w.users, AdminUsername);
    if existing.value.Some? {
      return Ok(());
    }
    UserService.UniqueCompanyNameLookup(w.companies, w.countries, CompanyAName);
    var companyA := FindCompanyByName(w.companies, CompanyAName);
    if companyA.value.None? {
      return Err(IllegalState("Company A not found"));
    }
    var a := companyA.value.value;
    SaveAdmin(w, encode, a);
    return Ok(());
  }

  /** The save of the administrator in company `a` under a fresh id. */
  method SaveAdmin(w: World, encode: string -> string, a: nat)
    requires w.Valid() && a in w.companies && !HasUser(w.users, AdminUsername)
    modifies w`users, w`nextId
    ensures w.Valid()
    ensures old(w.nextId) !in old(w.users) && w.users == old(w.users)[old(w.nextId) := SuperAdmin(encode, a)]
  {
    var uid := w.NewId();
    var admin := SuperAdmin(encode, a);
    NewUserConsistent(w.users, w.companies, w.countries, w.categories, w.items, w.emailConfigs, w.resetTokens,
                      w.tokens, w.nextId, uid, admin);
    w.users := w.users[uid := admin];
  }

  /** `initDefaultCompaniesAndUser`. */
  method InitDefaultCompaniesAndUser(w: World, encode: string -> string) returns (r: Result<()>)
    requires w.Valid()
    modifies w`companies, w`users, w`nextId
    ensures w.Valid()
    ensures old(w.companies) == map[] ==>
      && r.Ok?
      && w.companies.Keys == {old(w.nextId), old(w.nextId) + 1}
      && w.companies[old(w.nextId)].name == CompanyAName
      && w.companies[old(w.nextId) + 1].name == CompanyBName
    ensures old(w.companies) != map[] ==> w.companies == old(w.companies)
    ensures old(w.companies) != map[] && !HasCompany(old(w.companies), CompanyAName) &&
            !HasUser(old(w.users), AdminUsername) ==>
      r == Err(IllegalState("Company A not found")) && w.users == old(w.users)
    ensures r.Ok? ==> Seeded(w.companies, w.users)
    ensures r.Ok? && !HasUser(old(w.users), AdminUsername) ==>
      exists uid: nat, a: nat :: uid !in old(w.users) && a in w.companies && w.companies[a].name == CompanyAName &&
                       w.users == old(w.users)[uid := SuperAdmin(encode, a)]
    ensures Seeded(old(w.companies), old(w.users)) ==>
      r == Ok(()) && w.companies == old(w.companies) && w.users == old(w.users) && w.nextId == old(w.nextId)
  {
    SeedCompanies(w);
    if old(w.companies) == map[] {
      assert w.companies[old(w.nextId)].name == CompanyAName;
    }
    ghost var uid := w.nextId;
    r := SeedAdmin(w, encode);
    if r.Ok? && !HasUser(old(w.users), AdminUsername) {
      assert w.users[uid].username == AdminUsername;
    }
  }
}
