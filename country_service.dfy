/** Administration of the country table. Country names carry no unique
    column: `createCountry` looks for the name first, `updateCountry` does
    not, so two countries can end up with one name. */
module CountryService {
  import opened Wrappers
  import opened Text
  import opened Entities
  import opened Store

  /** The fields a client posts for a country. */
  datatype CountryRequest = CountryRequest(name: string, code: Option<string>, continent: Option<string>)

  function CountryRow(req: CountryRequest): Country { Country(req.name, req.code, req.continent) }

  /** Some company still refers to the country. */
  predicate CountryReferenced(companies: map<nat, CompanyModel.Company>, id: nat)
  {
    exists k :: k in companies && companies[k].country == Some(id)
  }

  /** The join column that refuses the delete of a referenced country. */
  const CountryReferenceConstraint: string := "cms_companies.country_id"

  function NotFoundMessage(id: nat): string { "Country not found with ID " + NatToString(id) }

  /** `createCountry`: the name lookup fails when two countries already
      share the name, refuses the request when one has it, and otherwise
      the new row is the request's name, code and continent. */
  function CreateDecision(countries: map<nat, Country>, req: CountryRequest): (r: Result<Country>)
    ensures (exists k :: k in countries && countries[k].name == req.name) ==> r.Err?
    ensures (exists j, k :: j in countries && k in countries && j != k &&
                            countries[j].name == req.name && countries[k].name == req.name) ==>
      r == Err(NonUniqueResult)
    ensures (exists k :: k in countries && countries[k].name == req.name &&
                         forall j :: j in countries && countries[j].name == req.name ==> j == k) ==>
      r == Err(RuntimeError("Country with name " + req.name + " already exists."))
    ensures r.Ok? <==> forall k :: k in countries ==> countries[k].name != req.name
    ensures r.Ok? ==> r.value.name == req.name && r.value.code == req.code && r.value.continent == req.continent
  {
    match FindCountryByName(countries, req.name)
    case Err(e) => Err(e)
    case Ok(Some(_)) => Err(RuntimeError("Country with name " + req.name + " already exists."))
    case Ok(None) => Ok(CountryRow(req))
  }

  /** `updateCountry`: an unknown id is refused; the name, code and
      continent are overwritten with no look at the other names. */
  function UpdateDecision(countries: map<nat, Country>, id: nat, req: CountryRequest): (r: Result<Country>)
    ensures r.Ok? <==> id in countries
    ensures r.Err? ==> r.error == RuntimeError("Country with ID " + NatToString(id) + " not found.")
    ensures r.Ok? ==> r.value.name == req.name && r.value.code == req.code && r.value.continent == req.continent
  {
    if id !in countries then Err(RuntimeError("Country with ID " + NatToString(id) + " not found."))
    else Ok(CountryRow(req))
  }

  /** `getAllCountries` (paging left out): every country id. */
  function GetAllCountries(countries: map<nat, Country>): (r: set<nat>)
    ensures forall k :: k in r <==> k in countries
  {
    countries.Keys
  }

  /** `getCountryById`. */
  function GetCountryById(countries: map<nat, Country>, id: nat): (r: Result<Country>)
    ensures r.Ok? <==> id in countries
    ensures r.Ok? ==> r.value == countries[id]
    ensures r.Err? ==> r.error == RuntimeError(NotFoundMessage(id))
  {
    if id in countries then Ok(countries[id]) else Err(RuntimeError(NotFoundMessage(id)))
  }

  /** Because update does not look at names, renaming one country to
      another's name is accepted, and from then on `createCountry` with that
      name fails in the lookup itself rather than with its own message. */
  lemma {:induction false} UpdateCanDuplicateName(countries: map<nat, Country>, i: nat, j: nat, req: CountryRequest)
    requires i in countries && j in countries && i != j && countries[j].name == req.name
    ensures UpdateDecision(countries, i, req).Ok?
    ensures CreateDecision(countries[i := UpdateDecision(countries, i, req).value], CountryRequest(req.name, None, None))
            == Err(NonUniqueResult)
  {
    var after := countries[i := UpdateDecision(countries, i, req).value];
    assert i in after && j in after && after[i].name == req.name && after[j].name == req.name;
  }

  /** `createCountry`. */
  method CreateCountry(w: World, req: CountryRequest) returns (r: Result<(nat, Country)>)
    requires w.Valid()
    modifies w`countries, w`nextId
    ensures w.Valid()
    ensures var d := CreateDecision(old(w.countries), req);
      && (d.Err? ==> r == Err(d.error) && w.countries == old(w.countries))
      && (d.Ok? ==> old(w.nextId) !in old(w.countries) && w.countries == old(w.countries)[old(w.nextId) := d.value] &&
                    r == Ok((old(w.nextId), d.value)))
  {
    var existing := FindCountryByName(w.countries, req.name);
    if existing.Err? {
      return Err(existing.error);
    }
    if existing.value.Some? {
      return Err(RuntimeError("Country with name " + req.name + " already exists."));
    }
    var id := w.NewId();
    var c := CountryRow(req);
    w.countries := w.countries[id := c];
    return Ok((id, c));
  }

  /** `updateCountry`. */
  method UpdateCountry(w: World, id: nat, req: CountryRequest) returns (r: Result<(nat, Country)>)
    requires w.Valid()
    modifies w`countries
    ensures w.Valid()
    ensures var d := UpdateDecision(old(w.countries), id, req);
      && (d.Err? ==> r == Err(d.error) && w.countries == old(w.countries))
      && (d.Ok? ==> w.countries == old(w.countries)[id := d.value] && r == Ok((id, d.value)))
  {
    if id !in w.countries {
      return Err(RuntimeError("Country with ID " + NatToString(id) + " not found."));
    }
    var c := CountryRow(req);
    w.countries := w.countries[id := c];
    return Ok((id, c));
  }

  /** `deleteCountry`: an unknown id is refused; a country a company still
      refers to is refused by the foreign key; otherwise only its row goes. */
  method DeleteCountry(w: World, id: nat) returns (r: Result<()>)
    requires w.Valid()
    modifies w`countries
    ensures w.Valid()
    ensures id !in old(w.countries) ==> r == Err(RuntimeError(NotFoundMessage(id)))
    ensures id in old(w.countries) && CountryReferenced(w.companies, id) ==> r == Err(DataIntegrity(CountryReferenceConstraint))
    ensures r.Ok? <==> id in old(w.countries) && !CountryReferenced(w.companies, id)
    ensures r.Ok? ==> w.countries == old(w.countries) - {id}
    ensures r.Err? ==> w.countries == old(w.countries)
  {
    if id !in w.countries {
      return Err(RuntimeError(NotFoundMessage(id)));
    }
    if CountryReferenced(w.companies, id) {
      return Err(DataIntegrity(CountryReferenceConstraint));
    }
    w.countries := w.countries - {id};
    return Ok(());
  }
}
