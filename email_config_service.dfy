/** A company's outgoing-mail settings: one row per company, created,
    overwritten, switched on and off through the company's id. */
module EmailConfigService {
  import opened Wrappers
  import opened CompanyModel
  import opened Entities
  import opened Store
  import CompanyService

  /** The fields a client posts for the settings. */
  datatype EmailConfigRequest = EmailConfigRequest(
    smtpHost: Option<string>,
    smtpPort: int,
    smtpUsername: Option<string>,
    smtpPassword: Option<string>,
    fromAddress: Option<string>,
    active: bool)

  /** The settings DTO returned to clients. */
  datatype EmailConfigView = EmailConfigView(
    id: nat,
    smtpHost: Option<string>,
    smtpPort: int,
    smtpUsername: Option<string>,
    smtpPassword: Option<string>,
    fromAddress: Option<string>,
    companyId: nat,
    active: bool)

  function View(id: nat, c: EmailConfig): EmailConfigView
  {
    EmailConfigView(id, c.smtpHost, c.smtpPort, c.smtpUsername, c.smtpPassword, c.fromAddress, c.company, c.active)
  }

  /** The settings row a request describes for a company. */
  function ConfigRow(req: EmailConfigRequest, company: nat): EmailConfig
  {
    EmailConfig(req.smtpHost, req.smtpPort, req.smtpUsername, req.smtpPassword, req.fromAddress, req.active, company)
  }

  /** The join column that allows one settings row per company. */
  const ConfigCompanyConstraint: string := "cms_email_configs.company_id"

  const NoCompanyMessage: string := "Company does not exist"

  /** The company has a settings row. */
  predicate HasConfig(configs: map<nat, EmailConfig>, company: nat)
  {
    exists k :: k in configs && configs[k].company == company
  }

  /** Under one row per company the lookup finds that row. */
  lemma ConfigLookup(configs: map<nat, EmailConfig>, companies: map<nat, Company>, company: nat)
    requires EmailConfigsConsistent(configs, companies)
    ensures FindEmailConfigByCompany(configs, company).Ok?
    ensures FindEmailConfigByCompany(configs, company).value.Some? <==> HasConfig(configs, company)
  {
  }

  // ---- What each operation decides ----

  /** `createEmailConfig`: an unknown company is refused; the service does
      not look for an existing row, so a second row for the company is
      refused only by the one-to-one join column. */
  function CreateDecision(companies: map<nat, Company>, configs: map<nat, EmailConfig>, companyId: nat,
                          req: EmailConfigRequest): (r: Result<EmailConfig>)
    ensures companyId !in companies ==> r == Err(RuntimeError(NoCompanyMessage))
    ensures companyId in companies && HasConfig(configs, companyId) ==> r == Err(DataIntegrity(ConfigCompanyConstraint))
    ensures r.Ok? <==> companyId in companies && !HasConfig(configs, companyId)
    ensures r.Ok? ==> r.value.company == companyId && r.value.active == req.active && r.value.smtpHost == req.smtpHost &&
                      r.value.smtpPort == req.smtpPort && r.value.fromAddress == req.fromAddress
    ensures r.Ok? ==> r.value == ConfigRow(req, companyId)
  {
    if companyId !in companies then Err(RuntimeError(NoCompanyMessage))
    else if HasConfig(configs, companyId) then Err(DataIntegrity(ConfigCompanyConstraint))
    else Ok(ConfigRow(req, companyId))
  }

  /** `updateEmailConfig`: an unknown company, then a company without
      settings, are refused; otherwise every posted field is overwritten and
      the row stays bound to its company. */
  function UpdateDecision(companies: map<nat, Company>, configs: map<nat, EmailConfig>, companyId: nat,
                          req: EmailConfigRequest): (r: Result<(nat, EmailConfig)>)
    requires EmailConfigsConsistent(configs, companies)
    ensures companyId !in companies ==> r == Err(RuntimeError(NoCompanyMessage))
    ensures companyId in companies && !HasConfig(configs, companyId) ==>
      r == Err(RuntimeError("Email configuration does not exist for this company."))
    ensures r.Ok? <==> companyId in companies && HasConfig(configs, companyId)
    ensures r.Ok? ==> r.value.0 in configs && configs[r.value.0].company == companyId && r.value.1 == ConfigRow(req, companyId)
  {
    ConfigLookup(configs, companies, companyId);
    if companyId !in companies then Err(RuntimeError(NoCompanyMessage))
    else
      var found := FindEmailConfigByCompany(configs, companyId);
      if found.value.None? then Err(RuntimeError("Email configuration does not exist for this company."))
      else Ok((found.value.value, ConfigRow(req, companyId)))
  }

  /** `activateEmailConfig` / `deactivateEmailConfig`: the company's row with
      only its flag set. */
  function ActiveDecision(companies: map<nat, Company>, configs: map<nat, EmailConfig>, companyId: nat, active: bool)
    : (r: Result<(nat, EmailConfig)>)
    requires EmailConfigsConsistent(configs, companies)
    ensures companyId !in companies ==> r == Err(RuntimeError(NoCompanyMessage))
    ensures companyId in companies && !HasConfig(configs, companyId) ==>
      r == Err(RuntimeError("Email configuration does not exist for this company"))
    ensures r.Ok? <==> companyId in companies && HasConfig(configs, companyId)
    ensures r.Ok? ==> r.value.0 in configs && configs[r.value.0].company == companyId &&
                      r.value.1.active == active && r.value.1.(active := configs[r.value.0].active) == configs[r.value.0]
  {
    ConfigLookup(configs, companies, companyId);
    match CompanyService.GetEmailConfig(companies, configs, companyId)
    case Err(e) => Err(e)
    case Ok((k, c)) => Ok((k, c.(active := active)))
  }

  /** Switching the flag twice is switching it once. */
  lemma {:induction false} ActiveIdempotent(companies: map<nat, Company>, configs: map<nat, EmailConfig>, companyId: nat,
                                            active: bool)
    requires EmailConfigsConsistent(configs, companies)
    requires ActiveDecision(companies, configs, companyId, active).Ok?
    ensures var (k, c) := ActiveDecision(companies, configs, companyId, active).value;
      EmailConfigsConsistent(configs[k := c], companies) &&
      ActiveDecision(companies, configs[k := c], companyId, active) == Ok((k, c))
  {
    var (k, c) := ActiveDecision(companies, configs, companyId, active).value;
    var configs' := configs[k := c];
    assert forall j :: j in configs' && configs'[j].company == companyId ==> j == k;
    Tables.FindOneUnique(configs', (e: EmailConfig) => e.company == companyId, k);
  }

  // ---- Writes ----

  /** `emailConfigRepository.save` of a row bound to an existing company
      that no other row of the company's competes with. */
  method SaveConfig(w: World, k: nat, c: EmailConfig)
    requires w.Valid() && k < w.nextId && c.company in w.companies
    requires forall j :: j in w.emailConfigs && j != k ==> w.emailConfigs[j].company != c.company
    modifies w`emailConfigs
    ensures w.Valid()
    ensures w.emailConfigs == old(w.emailConfigs)[k := c]
  {
    w.emailConfigs := w.emailConfigs[k := c];
  }

  /** `createEmailConfig`. */
  method CreateEmailConfig(w: World, companyId: nat, req: EmailConfigRequest) returns (r: Result<EmailConfigView>)
    requires w.Valid()
    modifies w`emailConfigs, w`nextId
    ensures w.Valid()
    ensures var d := CreateDecision(w.companies, old(w.emailConfigs), companyId, req);
      && (d.Err? ==> r == Err(d.error) && w.emailConfigs == old(w.emailConfigs))
      && (d.Ok? ==> old(w.nextId) !in old(w.emailConfigs) &&
                    w.emailConfigs == old(w.emailConfigs)[old(w.nextId) := d.value] &&
                    r == Ok(View(old(w.nextId), d.value)) && r.value.companyId == companyId)
  {
    if companyId !in w.companies {
      return Err(RuntimeError(NoCompanyMessage));
    }
    if HasConfig(w.emailConfigs, companyId) {
      return Err(DataIntegrity(ConfigCompanyConstraint));
    }
    var id := w.NewId();
    var c := ConfigRow(req, companyId);
    SaveConfig(w, id, c);
    return Ok(View(id, c));
  }

  /** `updateEmailConfig`. */
  method UpdateEmailConfig(w: World, companyId: nat, req: EmailConfigRequest) returns (r: Result<EmailConfigView>)
    requires w.Valid()
    modifies w`emailConfigs
    ensures w.Valid()
    ensures var d := UpdateDecision(w.companies, old(w.emailConfigs), companyId, req);
      && (d.Err? ==> r == Err(d.error) && w.emailConfigs == old(w.emailConfigs))
      && (d.Ok? ==> w.emailConfigs == old(w.emailConfigs)[d.value.0 := d.value.1] &&
                    r == Ok(View(d.value.0, d.value.1)) && r.value.companyId == companyId)
  {
    if companyId !in w.companies {
      return Err(RuntimeError(NoCompanyMessage));
    }
    ConfigLookup(w.emailConfigs, w.companies, companyId);
    var found := FindEmailConfigByCompany(w.emailConfigs, companyId);
    if found.value.None? {
      return Err(RuntimeError("Email configuration does not exist for this company."));
    }
    var k := found.value.value;
    var c := ConfigRow(req, companyId);
    SaveConfig(w, k, c);
    return Ok(View(k, c));
  }

  /** The shared body of `activateEmailConfig` and `deactivateEmailConfig`. */
  method SetActive(w: World, companyId: nat, active: bool) returns (r: Result<EmailConfigView>)
    requires w.Valid()
    modifies w`emailConfigs
    ensures w.Valid()
    ensures var d := ActiveDecision(w.companies, old(w.emailConfigs), companyId, active);
      && (d.Err? ==> r == Err(d.error) && w.emailConfigs == old(w.emailConfigs))
      && (d.Ok? ==> w.emailConfigs == old(w.emailConfigs)[d.value.0 := d.value.1] && r == Ok(View(d.value.0, d.value.1)))
  {
    if companyId !in w.companies {
      return Err(RuntimeError(NoCompanyMessage));
    }
    ConfigLookup(w.emailConfigs, w.companies, companyId);
    var found := FindEmailConfigByCompany(w.emailConfigs, companyId);
    if found.value.None? {
      return Err(RuntimeError("Email configuration does not exist for this company"));
    }
    var k := found.value.value;
    var c := w.emailConfigs[k].(active := active);
    SaveConfig(w, k, c);
    return Ok(View(k, c));
  }

  /** `activateEmailConfig`. */
  method ActivateEmailConfig(w: World, companyId: nat) returns (r: Result<EmailConfigView>)
    requires w.Valid()
    modifies w`emailConfigs
    ensures w.Valid()
    ensures var d := ActiveDecision(w.companies, old(w.emailConfigs), companyId, true);
      && (d.Err? ==> r == Err(d.error) && w.emailConfigs == old(w.emailConfigs))
      && (d.Ok? ==> w.emailConfigs == old(w.emailConfigs)[d.value.0 := d.value.1] && r == Ok(View(d.value.0, d.value.1)))
  {
    r := SetActive(w, companyId, true);
  }

  /** `deactivateEmailConfig`. */
  method DeactivateEmailConfig(w: World, companyId: nat) returns (r: Result<EmailConfigView>)
    requires w.Valid()
    modifies w`emailConfigs
    ensures w.Valid()
    ensures var d := ActiveDecision(w.companies, old(w.emailConfigs), companyId, false);
      && (d.Err? ==> r == Err(d.error) && w.emailConfigs == old(w.emailConfigs))
      && (d.Ok? ==> w.emailConfigs == old(w.emailConfigs)[d.value.0 := d.value.1] && r == Ok(View(d.value.0, d.value.1)))
  {
    r := SetActive(w, companyId, false);
  }
}
