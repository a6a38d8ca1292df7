/** The database: one table per entity, and the consistency every service
    call keeps. Unique columns and foreign keys are declared in the schema;
    the rest (unique usernames, a company for every user, an item in its
    category's company) is kept by the services themselves. */
module Store {
  import opened Wrappers
  import opened CompanyModel
  import opened UserModel
  import opened Entities
  import TokenRepository
  import Tables
  import JwtService

  /** Every id in use is below the next id the generator hands out. */
  predicate IdsBelow<T>(m: map<nat, T>, n: nat) { forall k :: k in m ==> k < n }

  /** Company rows carry their own key, refer to existing countries, and
      have distinct names (unique column). */
  predicate CompaniesConsistent(companies: map<nat, Company>, countries: map<nat, Country>)
  {
    && (forall k :: k in companies ==> companies[k].id == Some(k))
    && (forall k :: k in companies && companies[k].country.Some? ==> companies[k].country.value in countries)
    && (forall j, k :: j in companies && k in companies && companies[j].name == companies[k].name ==> j == k)
  }

  /** Every user belongs to at least one existing company; usernames are
      distinct, and so are e-mail addresses where present (unique column). */
  predicate UsersConsistent(users: map<nat, User>, companies: map<nat, Company>)
  {
    && (forall u :: u in users ==> users[u].companies != {} && users[u].companies <= companies.Keys)
    && (forall u, v :: u in users && v in users && users[u].username == users[v].username ==> u == v)
    && (forall u, v :: u in users && v in users && users[u].email.Some? && users[u].email == users[v].email ==> u == v)
  }

  /** The unique pair of a category row. */
  predicate SameKey(a: ItemCategory, b: ItemCategory) { a.company == b.company && a.name == b.name }

  /** Categories belong to existing companies; within one company their
      names are distinct (unique pair). */
  predicate CategoriesConsistent(categories: map<nat, ItemCategory>, companies: map<nat, Company>)
  {
    && (forall k :: k in categories ==> categories[k].company in companies)
    && (forall j, k :: j in categories && k in categories && SameKey(categories[j], categories[k]) ==> j == k)
  }

  /** Every item sits in an existing category of its own company. */
  predicate ItemsConsistent(items: map<nat, InventoryItem>, categories: map<nat, ItemCategory>)
  {
    forall k :: k in items ==> items[k].category in categories && categories[items[k].category].company == items[k].company
  }

  /** E-mail settings belong to existing companies, one per company. */
  predicate EmailConfigsConsistent(configs: map<nat, EmailConfig>, companies: map<nat, Company>)
  {
    && (forall k :: k in configs ==> configs[k].company in companies)
    && (forall j, k :: j in configs && k in configs && configs[j].company == configs[k].company ==> j == k)
  }

  /** Every stored pair belongs to an existing user. */
  predicate TokenOwnersExist(tokens: seq<TokenRepository.TokenRecord>, users: map<nat, User>)
  {
    forall t :: t in tokens ==> t.user in users
  }

  /** Every stored pair belongs to an existing user and was issued for that
      user's current username. Logins, switches and refreshes keep this
      (`TokensConsistentRotated`), but a registration that overwrites an
      account renames the owner of the account's earlier pairs, so it is a
      premise of the session properties rather than part of `Consistent`. */
  predicate TokensConsistent(tokens: seq<TokenRepository.TokenRecord>, users: map<nat, User>)
  {
    forall t :: t in tokens ==> t.user in users && IssuedFor(t, users[t.user].username)
  }

  predicate IssuedFor(t: TokenRepository.TokenRecord, username: string)
  {
    && JwtService.SubjectOf(t.accessToken) == Some(username)
    && (t.refreshToken.Some? ==> JwtService.SubjectOf(t.refreshToken.value) == Some(username))
  }

  predicate ResetTokensConsistent(resets: map<nat, PasswordResetToken>, users: map<nat, User>)
  {
    forall k :: k in resets ==> resets[k].user in users
  }

  /** Every table's consistency, and ids below the generator's next value. */
  predicate Consistent(users: map<nat, User>, companies: map<nat, Company>, countries: map<nat, Country>,
                       categories: map<nat, ItemCategory>, items: map<nat, InventoryItem>,
                       emailConfigs: map<nat, EmailConfig>, resetTokens: map<nat, PasswordResetToken>,
                       tokens: seq<TokenRepository.TokenRecord>, nextId: nat)
  {
    && IdsBelow(users, nextId) && IdsBelow(companies, nextId) && IdsBelow(countries, nextId)
    && IdsBelow(categories, nextId) && IdsBelow(items, nextId) && IdsBelow(emailConfigs, nextId)
    && IdsBelow(resetTokens, nextId)
    && CompaniesConsistent(companies, countries)
    && UsersConsistent(users, companies)
    && CategoriesConsistent(categories, companies)
    && ItemsConsistent(items, categories)
    && EmailConfigsConsistent(emailConfigs, companies)
    && TokenOwnersExist(tokens, users)
    && ResetTokensConsistent(resetTokens, users)
  }

  class World {
    var users: map<nat, User>
    var companies: map<nat, Company>
    var countries: map<nat, Country>
    var categories: map<nat, ItemCategory>
    var items: map<nat, InventoryItem>
    var emailConfigs: map<nat, EmailConfig>
    var resetTokens: map<nat, PasswordResetToken>
    var tokens: seq<TokenRepository.TokenRecord>
    var nextId: nat

    ghost predicate Valid()
      reads this
    {
      Consistent(users, companies, countries, categories, items, emailConfigs, resetTokens, tokens, nextId)
    }

    /** An empty database. */
    constructor ()
      ensures Valid()
      ensures users == map[] && companies == map[] && countries == map[] && categories == map[]
      ensures items == map[] && emailConfigs == map[] && resetTokens == map[] && tokens == []
    {
      users, companies, countries, categories := map[], map[], map[], map[];
      items, emailConfigs, resetTokens, tokens := map[], map[], map[], [];
      nextId := 0;
    }

    /** The identity generator: a new id, never used before. */
    method NewId() returns (id: nat)
      requires Valid()
      modifies this`nextId
      ensures Valid()
      ensures id == old(nextId) && nextId == id + 1
    {
      id := nextId;
      nextId := nextId + 1;
    }

    /** `TokenRepository.deleteExpiredOrLoggedOutTokens`, the bulk delete the
        cleanup task runs. */
    method DeleteExpiredOrLoggedOutTokens(currentDate: nat)
      requires Valid()
      modifies this`tokens
      ensures Valid()
      ensures tokens == TokenRepository.Sweep(old(tokens), currentDate)
    {
      tokens := TokenRepository.Sweep(tokens, currentDate);
    }
  }

  // ---- Derived queries ----

  function FindUserByUsername(users: map<nat, User>, username: string): Result<Option<nat>>
  {
    Tables.FindOne(users, (u: User) => u.username == username)
  }

  /** A finder by e-mail; a null address matches the users without one. */
  function FindUserByEmail(users: map<nat, User>, email: Option<string>): Result<Option<nat>>
  {
    Tables.FindOne(users, (u: User) => u.email == email)
  }

  function FindCompanyByName(companies: map<nat, Company>, name: string): Result<Option<nat>>
  {
    Tables.FindOne(companies, (c: Company) => c.name == name)
  }

  function FindCountryByName(countries: map<nat, Country>, name: string): (r: Result<Option<nat>>)
    ensures r.Ok? && r.value.Some? ==>
      r.value.value in countries && countries[r.value.value].name == name &&
      forall k :: k in countries && countries[k].name == name ==> k == r.value.value
    ensures (r.Ok? && r.value.None?) <==> forall k :: k in countries ==> countries[k].name != name
    ensures r.Err? <==> exists j, k :: j in countries && k in countries && j != k && countries[j].name == name &&
                                        countries[k].name == name
    ensures r.Err? ==> r.error == NonUniqueResult
  {
    Tables.FindOne(countries, (c: Country) => c.name == name)
  }

  function FindCategoryByCompanyAndName(categories: map<nat, ItemCategory>, company: nat, name: string): Result<Option<nat>>
  {
    Tables.FindOne(categories, (c: ItemCategory) => c.company == company && c.name == name)
  }

  function FindEmailConfigByCompany(configs: map<nat, EmailConfig>, company: nat): Result<Option<nat>>
  {
    Tables.FindOne(configs, (c: EmailConfig) => c.company == company)
  }

  function FindResetToken(resets: map<nat, PasswordResetToken>, token: string): Result<Option<nat>>
  {
    Tables.FindOne(resets, (r: PasswordResetToken) => r.token == token)
  }

  /** Under the unique-username rule the lookup by username never fails:
      it finds the one user with that name or nobody. */
  lemma UniqueUsernameLookup(users: map<nat, User>, companies: map<nat, Company>, username: string)
    requires UsersConsistent(users, companies)
    ensures FindUserByUsername(users, username).Ok?
  {
  }

  // ---- How single-row changes keep the tables consistent ----

  /** Tables that refer to companies stay consistent while no company disappears. */
  lemma CompanyKeysKept(users: map<nat, User>, categories: map<nat, ItemCategory>, configs: map<nat, EmailConfig>,
                        companies: map<nat, Company>, companies': map<nat, Company>)
    requires companies.Keys <= companies'.Keys
    ensures UsersConsistent(users, companies) ==> UsersConsistent(users, companies')
    ensures CategoriesConsistent(categories, companies) ==> CategoriesConsistent(categories, companies')
    ensures EmailConfigsConsistent(configs, companies) ==> EmailConfigsConsistent(configs, companies')
  {
  }

  /** Storing company `c` under key `k` keeps the company table consistent
      when its country exists and no other row has its name. */
  lemma CompanyStored(companies: map<nat, Company>, countries: map<nat, Country>, k: nat, c: Company)
    requires CompaniesConsistent(companies, countries)
    requires c.id == Some(k)
    requires c.country.Some? ==> c.country.value in countries
    requires forall j :: j in companies && j != k ==> companies[j].name != c.name
    ensures CompaniesConsistent(companies[k := c], countries)
  {
  }

  /** Storing user `user` under key `u` keeps the user table consistent when
      the user has existing companies and no other row has its username or
      its e-mail address. */
  lemma UserStored(users: map<nat, User>, companies: map<nat, Company>, u: nat, user: User)
    requires UsersConsistent(users, companies)
    requires user.companies != {} && user.companies <= companies.Keys
    requires forall v :: v in users && v != u ==> users[v].username != user.username
    requires user.email.Some? ==> forall v :: v in users && v != u ==> users[v].email != user.email
    ensures UsersConsistent(users[u := user], companies)
  {
  }

  /** Storing a new user row under an issued key keeps the whole database
      consistent, on the same conditions as `UserStored`. */
  lemma NewUserConsistent(users: map<nat, User>, companies: map<nat, Company>, countries: map<nat, Country>,
                          categories: map<nat, ItemCategory>, items: map<nat, InventoryItem>,
                          emailConfigs: map<nat, EmailConfig>, resetTokens: map<nat, PasswordResetToken>,
                          tokens: seq<TokenRepository.TokenRecord>, nextId: nat, u: nat, user: User)
    requires Consistent(users, companies, countries, categories, items, emailConfigs, resetTokens, tokens, nextId)
    requires u < nextId && u !in users
    requires user.companies != {} && user.companies <= companies.Keys
    requires forall v :: v in users ==> users[v].username != user.username
    requires user.email.Some? ==> forall v :: v in users ==> users[v].email != user.email
    ensures Consistent(users[u := user], companies, countries, categories, items, emailConfigs, resetTokens, tokens,
                       nextId)
  {
    UserStored(users, companies, u, user);
    TokenOwnersKept(tokens, users, users[u := user]);
    ResetTokensKeptForUsers(resetTokens, users, users[u := user]);
  }

  /** Token owners stay while no user row disappears. */
  lemma TokenOwnersKept(tokens: seq<TokenRepository.TokenRecord>, users: map<nat, User>, users': map<nat, User>)
    requires TokenOwnersExist(tokens, users)
    requires users.Keys <= users'.Keys
    ensures TokenOwnersExist(tokens, users')
  {
  }

  /** Likewise for the password-reset tokens. */
  lemma ResetTokensKeptForUsers(resets: map<nat, PasswordResetToken>, users: map<nat, User>, users': map<nat, User>)
    requires ResetTokensConsistent(resets, users)
    requires users.Keys <= users'.Keys
    ensures ResetTokensConsistent(resets, users')
  {
  }

  /** Changing user rows without renaming them keeps every stored pair
      issued for its owner's username. */
  lemma TokensConsistentForUsers(tokens: seq<TokenRepository.TokenRecord>, users: map<nat, User>,
                                 users': map<nat, User>)
    requires TokensConsistent(tokens, users)
    requires forall u :: u in users ==> u in users' && users'[u].username == users[u].username
    ensures TokensConsistent(tokens, users')
  {
  }

  /** The sweep only deletes records, so it keeps them consistent too. */
  lemma TokensConsistentSwept(tokens: seq<TokenRepository.TokenRecord>, users: map<nat, User>, currentDate: nat)
    requires TokensConsistent(tokens, users)
    ensures TokensConsistent(TokenRepository.Sweep(tokens, currentDate), users)
  {
  }

  /** Logging a user's tokens out keeps every record's owner. */
  lemma TokenOwnersRevoked(tokens: seq<TokenRepository.TokenRecord>, users: map<nat, User>, u: nat)
    requires TokenOwnersExist(tokens, users)
    ensures TokenOwnersExist(TokenRepository.RevokeAll(tokens, u), users)
  {
    forall t | t in TokenRepository.RevokeAll(tokens, u) ensures t.user in users {
      var j :| 0 <= j < |TokenRepository.RevokeAll(tokens, u)| && TokenRepository.RevokeAll(tokens, u)[j] == t;
      TokenRepository.RevokeAllAt(tokens, u, j);
      assert tokens[j] in tokens;
    }
  }

  /** Logging a user's tokens out keeps them consistent. */
  lemma TokensConsistentRevoked(tokens: seq<TokenRepository.TokenRecord>, users: map<nat, User>, u: nat)
    requires TokensConsistent(tokens, users)
    ensures TokensConsistent(TokenRepository.RevokeAll(tokens, u), users)
  {
    forall t | t in TokenRepository.RevokeAll(tokens, u) ensures t.user in users && IssuedFor(t, users[t.user].username) {
      var j :| 0 <= j < |TokenRepository.RevokeAll(tokens, u)| && TokenRepository.RevokeAll(tokens, u)[j] == t;
      TokenRepository.RevokeAllAt(tokens, u, j);
      assert tokens[j] in tokens;
    }
  }

  /** Storing category `cat` under key `k` keeps the category table
      consistent when its company exists and no other row has its
      (company, name) pair. */
  lemma CategoryStored(categories: map<nat, ItemCategory>, companies: map<nat, Company>, k: nat, cat: ItemCategory)
    requires CategoriesConsistent(categories, companies)
    requires cat.company in companies
    requires forall j :: j in categories && j != k ==> !SameKey(categories[j], cat)
    ensures CategoriesConsistent(categories[k := cat], companies)
  {
  }

  /** Items stay consistent while every category they may refer to keeps its company. */
  lemma CategoriesKeptForItems(items: map<nat, InventoryItem>, categories: map<nat, ItemCategory>,
                               categories': map<nat, ItemCategory>)
    requires ItemsConsistent(items, categories)
    requires forall k :: k in categories && (exists i :: i in items && items[i].category == k) ==>
               k in categories' && categories'[k].company == categories[k].company
    ensures ItemsConsistent(items, categories')
  {
    forall i | i in items ensures items[i].category in categories' && categories'[items[i].category].company == items[i].company {
      assert items[i].category in categories;
    }
  }

  /** Under the unique (company, name) rule the category lookup never fails. */
  lemma UniqueCategoryLookup(categories: map<nat, ItemCategory>, companies: map<nat, Company>, company: nat, name: string)
    requires CategoriesConsistent(categories, companies)
    ensures FindCategoryByCompanyAndName(categories, company, name).Ok?
  {
    var key := ItemCategory(name, None, None, company);
    assert forall j :: j in categories && categories[j].company == company && categories[j].name == name ==>
      SameKey(categories[j], key);
  }
}
