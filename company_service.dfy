/** Administration of the company table: create, update, read, delete,
    enable and disable, and the lookup of a company's e-mail settings. */
module CompanyService {
  import opened Wrappers
  import opened Text
  import opened CompanyModel
  import opened Entities
  import opened Store
  import UserService
  import AuthenticationService

  /** The fields a client posts for a company. */
  datatype CompanyRequest = CompanyRequest(
    name: string,
    primaryEmail: Option<string>,
    secondaryEmail: Option<string>,
    primaryContact: Option<string>,
    secondaryContact: Option<string>,
    town: Option<string>,
    address: Option<string>,
    registration: Option<string>,
    taxId: Option<string>,
    countryId: nat,
    status: bool)

  /** The company row a request describes, stored under `id`. */
  function CompanyRow(req: CompanyRequest, id: nat): (c: Company)
  {
    Company(Some(id), req.name, req.primaryEmail, req.secondaryEmail, req.primaryContact, req.secondaryContact,
            Some(req.countryId), req.town, req.address, req.registration, req.taxId, req.status)
  }

  /** The unique-name column in use by a row other than `except`. */
  predicate NameUsed(companies: map<nat, Company>, name: string, except: Option<nat>)
  {
    exists k :: k in companies && companies[k].name == name && Some(k) != except
  }

  /** Some row of another table still refers to the company. */
  predicate CompanyReferenced(users: map<nat, UserModel.User>, categories: map<nat, ItemCategory>,
                              items: map<nat, InventoryItem>, configs: map<nat, EmailConfig>, id: nat)
  {
    || (exists u :: u in users && id in users[u].companies)
    || (exists k :: k in categories && categories[k].company == id)
    || (exists k :: k in items && items[k].company == id)
    || (exists k :: k in configs && configs[k].company == id)
  }

  /** The join column that refuses the delete of a referenced company. */
  const CompanyReferenceConstraint: string := "company_id"

  function NotFoundMessage(id: nat): string { "Company not found with ID " + NatToString(id) }

  // ---- What each operation decides ----

  /** `createCompany`: a taken name, then an unknown country, refuse the
      request; otherwise the row to store under `id`. */
  function CreateDecision(companies: map<nat, Company>, countries: map<nat, Country>, req: CompanyRequest, id: nat)
    : (r: Result<Company>)
    ensures NameUsed(companies, req.name, None) ==>
      r == Err(RuntimeError("Company with name " + req.name + " already exists."))
    ensures !NameUsed(companies, req.name, None) && req.countryId !in countries ==> r == Err(RuntimeError("Country not found"))
    ensures r.Ok? <==> !NameUsed(companies, req.name, None) && req.countryId in countries
    ensures r.Ok? ==> r.value == CompanyRow(req, id)
  {
    if NameUsed(companies, req.name, None) then Err(RuntimeError("Company with name " + req.name + " already exists."))
    else if req.countryId !in countries then Err(RuntimeError("Country not found"))
    else Ok(CompanyRow(req, id))
  }

  /** `updateCompany`: an unknown id, then an unknown country, refuse the
      request; the service does not look at the name, so a name another
      company holds is refused only by the unique column when the row is
      written. */
  function UpdateDecision(companies: map<nat, Company>, countries: map<nat, Country>, id: nat, req: CompanyRequest)
    : (r: Result<Company>)
    ensures id !in companies ==> r == Err(RuntimeError("Company with ID " + NatToString(id) + " not found."))
    ensures id in companies && req.countryId !in countries ==> r == Err(RuntimeError("Country not found"))
    ensures id in companies && req.countryId in countries && NameUsed(companies, req.name, Some(id)) ==>
      r == Err(DataIntegrity(AuthenticationService.CompanyNameConstraint))
    ensures r.Ok? <==> id in companies && req.countryId in countries && !NameUsed(companies, req.name, Some(id))
    ensures r.Ok? ==> r.value == CompanyRow(req, id)
  {
    if id !in companies then Err(RuntimeError("Company with ID " + NatToString(id) + " not found."))
    else if req.countryId !in countries then Err(RuntimeError("Country not found"))
    else if NameUsed(companies, req.name, Some(id)) then Err(DataIntegrity(AuthenticationService.CompanyNameConstraint))
    else Ok(CompanyRow(req, id))
  }

  /** `enableCompany` / `disableCompany`: the row with only its status set. */
  function StatusDecision(companies: map<nat, Company>, id: nat, status: bool): (r: Result<Company>)
    ensures id !in companies ==> r == Err(RuntimeError("Company not found with ID: " + NatToString(id)))
    ensures r.Ok? <==> id in companies
    ensures r.Ok? ==> r.value.status == status && r.value.(status := companies[id].status) == companies[id]
  {
    if id !in companies then Err(RuntimeError("Company not found with ID: " + NatToString(id)))
    else Ok(companies[id].(status := status))
  }

  /** Setting the status twice is setting it once. */
  lemma {:induction false} StatusIdempotent(companies: map<nat, Company>, id: nat, status: bool)
    requires StatusDecision(companies, id, status).Ok?
    ensures StatusDecision(companies[id := StatusDecision(companies, id, status).value], id, status)
            == StatusDecision(companies, id, status)
    ensures companies[id := StatusDecision(companies, id, status).value][id := StatusDecision(companies, id, status).value]
            == companies[id := StatusDecision(companies, id, status).value]
  {
  }

  // ---- Reads ----

  /** `getAllCompanies` (paging left out): every company id. */
  function GetAllCompanies(companies: map<nat, Company>): (r: set<nat>)
    ensures forall k :: k in r <==> k in companies
  {
    companies.Keys
  }

  /** `getCompanyById`. */
  function GetCompanyById(companies: map<nat, Company>, id: nat): (r: Result<Company>)
    ensures r.Ok? <==> id in companies
    ensures r.Ok? ==> r.value == companies[id]
    ensures r.Err? ==> r.error == RuntimeError(NotFoundMessage(id))
  {
    if id in companies then Ok(companies[id]) else Err(RuntimeError(NotFoundMessage(id)))
  }

  /** `getEmailConfig`: the company must exist and have its settings row. */
  function GetEmailConfig(companies: map<nat, Company>, configs: map<nat, EmailConfig>, companyId: nat)
    : (r: Result<(nat, EmailConfig)>)
    ensures companyId !in companies ==> r == Err(RuntimeError("Company does not exist"))
    ensures companyId in companies && (forall k :: k in configs ==> configs[k].company != companyId) ==>
      r == Err(RuntimeError("Email configuration does not exist for this company"))
    ensures r.Ok? ==> r.value.0 in configs && configs[r.value.0] == r.value.1 && r.value.1.company == companyId
  {
    if companyId !in companies then Err(RuntimeError("Company does not exist"))
    else
      match FindEmailConfigByCompany(configs, companyId)
      case Err(e) => Err(e)
      case Ok(None) => Err(RuntimeError("Email configuration does not exist for this company"))
      case Ok(Some(k)) => Ok((k, configs[k]))
  }

  // ---- Writes ----

  /** `companyRepository.save` of a row keyed by `k`, with an existing
      country and a name no other row holds. */
  method SaveCompany(w: World, k: nat, c: Company)
    requires w.Valid() && k < w.nextId && c.id == Some(k)
    requires c.country.Some? ==> c.country.value in w.countries
    requires !NameUsed(w.companies, c.name, Some(k))
    modifies w`companies
    ensures w.Valid()
    ensures w.companies == old(w.companies)[k := c]
  {
    CompanyStored(w.companies, w.countries, k, c);
    CompanyKeysKept(w.users, w.categories, w.emailConfigs, w.companies, w.companies[k := c]);
    w.companies := w.companies[k := c];
  }

  /** `createCompany`. */
  method CreateCompany(w: World, req: CompanyRequest) returns (r: Result<Company>)
    requires w.Valid()
    modifies w`companies, w`nextId
    ensures w.Valid()
    ensures var d := CreateDecision(old(w.companies), w.countries, req, old(w.nextId));
      && (d.Err? ==> r == Err(d.error) && w.companies == old(w.companies))
      && (d.Ok? ==> old(w.nextId) !in old(w.companies) && w.companies == old(w.companies)[old(w.nextId) := d.value] &&
                    r == d)
  {
    UserService.UniqueCompanyNameLookup(w.companies, w.countries, req.name);
    var existing := FindCompanyByName(w.companies, req.name);
    if existing.value.Some? {
      return Err(RuntimeError("Company with name " + req.name + " already exists."));
    }
    if req.countryId !in w.countries {
      return Err(RuntimeError("Country not found"));
    }
    var id := w.NewId();
    var c := CompanyRow(req, id);
    SaveCompany(w, id, c);
    return Ok(c);
  }

  /** `updateCompany`. */
  method UpdateCompany(w: World, id: nat, req: CompanyRequest) returns (r: Result<Company>)
    requires w.Valid()
    modifies w`companies
    ensures w.Valid()
    ensures var d := UpdateDecision(old(w.companies), w.countries, id, req);
      && (d.Err? ==> r == Err(d.error) && w.companies == old(w.companies))
      && (d.Ok? ==> w.companies == old(w.companies)[id := d.value] && r == d)
  {
    if id !in w.companies {
      return Err(RuntimeError("Company with ID " + NatToString(id) + " not found."));
    }
    if req.countryId !in w.countries {
      return Err(RuntimeError("Country not found"));
    }
    if NameUsed(w.companies, req.name, Some(id)) {
      return Err(DataIntegrity(AuthenticationService.CompanyNameConstraint));
    }
    var c := CompanyRow(req, id);
    SaveCompany(w, id, c);
    return Ok(c);
  }

  /** `deleteCompany`: an unknown id is refused; a company other rows still
      refer to is refused by the foreign keys; otherwise only its row goes. */
  method DeleteCompany(w: World, id: nat) returns (r: Result<()>)
    requires w.Valid()
    modifies w`companies
    ensures w.Valid()
    ensures id !in old(w.companies) ==> r == Err(RuntimeError(NotFoundMessage(id)))
    ensures id in old(w.companies) && CompanyReferenced(w.users, w.categories, w.items, w.emailConfigs, id) ==>
      r == Err(DataIntegrity(CompanyReferenceConstraint))
    ensures r.Ok? <==> id in old(w.companies) && !CompanyReferenced(w.users, w.categories, w.items, w.emailConfigs, id)
    ensures r.Ok? ==> w.companies == old(w.companies) - {id}
    ensures r.Err? ==> w.companies == old(w.companies)
  {
    if id !in w.companies {
      return Err(RuntimeError(NotFoundMessage(id)));
    }
    if CompanyReferenced(w.users, w.categories, w.items, w.emailConfigs, id) {
      return Err(DataIntegrity(CompanyReferenceConstraint));
    }
    CompanyRemoved(w.users, w.categories, w.items, w.emailConfigs, w.companies, w.countries, id);
    w.companies := w.companies - {id};
    return Ok(());
  }

  /** Removing a company no row refers to keeps the tables consistent. */
  lemma CompanyRemoved(users: map<nat, UserModel.User>, categories: map<nat, ItemCategory>, items: map<nat, InventoryItem>,
                       configs: map<nat, EmailConfig>, companies: map<nat, Company>, countries: map<nat, Country>, id: nat)
    requires !CompanyReferenced(users, categories, items, configs, id)
    requires CompaniesConsistent(companies, countries) && UsersConsistent(users, companies)
    requires CategoriesConsistent(categories, companies) && EmailConfigsConsistent(configs, companies)
    ensures CompaniesConsistent(companies - {id}, countries) && UsersConsistent(users, companies - {id})
    ensures CategoriesConsistent(categories, companies - {id}) && EmailConfigsConsistent(configs, companies - {id})
  {
  }

  /** The shared body of `enableCompany` and `disableCompany`. */
  method SetCompanyStatus(w: World, id: nat, status: bool) returns (r: Result<Company>)
    requires w.Valid()
    modifies w`companies
    ensures w.Valid()
    ensures var d := StatusDecision(old(w.companies), id, status);
      && (d.Err? ==> r == d && w.companies == old(w.companies))
      && (d.Ok? ==> w.companies == old(w.companies)[id := d.value] && r == d)
  {
    if id !in w.companies {
      return Err(RuntimeError("Company not found with ID: " + NatToString(id)));
    }
    var c := w.companies[id].(status := status);
    assert !NameUsed(w.companies, c.name, Some(id));
    SaveCompany(w, id, c);
    return Ok(c);
  }

  /** `enableCompany`. */
  method EnableCompany(w: World, id: nat) returns (r: Result<Company>)
    requires w.Valid()
    modifies w`companies
    ensures w.Valid()
    ensures var d := StatusDecision(old(w.companies), id, true);
      && (d.Err? ==> r == d && w.companies == old(w.companies))
      && (d.Ok? ==> w.companies == old(w.companies)[id := d.value] && r == d)
  {
    r := SetCompanyStatus(w, id, true);
  }

  /** `disableCompany`. */
  method DisableCompany(w: World, id: nat) returns (r: Result<Company>)
    requires w.Valid()
    modifies w`companies
    ensures w.Valid()
    ensures var d := StatusDecision(old(w.companies), id, false);
      && (d.Err? ==> r == d && w.companies == old(w.companies))
      && (d.Ok? ==> w.companies == old(w.companies)[id := d.value] && r == d)
  {
    r := SetCompanyStatus(w, id, false);
  }
}
