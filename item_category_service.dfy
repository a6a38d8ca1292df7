/** Item categories, scoped to the company the request acts for: every read,
    update and delete checks that the category belongs to that company, and
    names are unique within a company. */
module ItemCategoryService {
  import opened Wrappers
  import opened CompanyModel
  import opened UserModel
  import opened Entities
  import opened JwtService
  import opened Store
  import opened AuthenticationService
  import opened UserService

  // ---- The company context ----

  /** The token text: the credentials, or else a principal that is a string. */
  function TokenOf(auth: Authentication): (r: Result<string>)
    ensures auth.credentials.Some? ==> r == Ok(auth.credentials.value)
    ensures auth.credentials.None? && auth.principal.TextPrincipal? ==> r == Ok(auth.principal.text)
    ensures r.Err? <==> auth.credentials.None? && !auth.principal.TextPrincipal?
  {
    if auth.credentials.Some? then Ok(auth.credentials.value)
    else if auth.principal.TextPrincipal? then Ok(auth.principal.text)
    else Err(IllegalState("No valid token found in authentication credentials or principal"))
  }

  /** `validateCompanyContext` (declared alike in the category and the item
      service): the current user's company, checked once more against the
      token's companyId claim. */
  function ValidateCompanyContext(users: map<nat, User>, auth: Option<Authentication>, now: nat): (r: Result<nat>)
    ensures r.Ok? ==> GetCurrentUserCompany(users, auth, now) == r
    ensures r.Ok? ==> auth.Some? && TokenOf(auth.value).Ok? &&
                      ExtractCompanyId(TokenOf(auth.value).value, now) == Ok(Some(r.value))
  {
    match GetCurrentUserCompany(users, auth, now)
    case Err(e) => Err(e)
    case Ok(company) =>
      if auth.None? then Err(IllegalState("Authentication context is missing"))
      else match TokenOf(auth.value)
        case Err(e) => Err(e)
        case Ok(token) =>
          match ExtractCompanyId(token, now)
          case Err(e) => Err(e)
          case Ok(companyId) =>
            if companyId.None? then Err(UnauthorizedAccess("Invalid JWT token: No company ID present."))
            else if companyId.value != company then
              Err(UnauthorizedAccess("Token company does not match user's current company."))
            else Ok(company)
  }

  /** The second check never decides anything: once the current user's
      company is found, its id is already the token's claim, so the context
      is exactly the current user's company, with the same errors. A token
      without a companyId therefore fails in the lookup of the current
      company, not with the dedicated message. */
  lemma {:induction false} ContextIsCurrentUserCompany(users: map<nat, User>, auth: Option<Authentication>, now: nat)
    ensures ValidateCompanyContext(users, auth, now) == GetCurrentUserCompany(users, auth, now)
  {
    var current := GetCurrentUserCompany(users, auth, now);
    if current.Ok? {
      assert ActsFor(users, auth, now, current.value);
      assert TokenOf(auth.value) == Ok(auth.value.credentials.value);
    }
  }

  /** The active company exists. */
  lemma ActiveCompanyExists(users: map<nat, User>, companies: map<nat, CompanyModel.Company>, auth: Option<Authentication>, now: nat)
    requires UsersConsistent(users, companies)
    ensures ValidateCompanyContext(users, auth, now).Ok? ==> ValidateCompanyContext(users, auth, now).value in companies
  {
  }

  // ---- Views and lookups ----

  /** The fields a client posts for a category. */
  datatype CategoryRequest = CategoryRequest(name: string, description: Option<string>, itemType: Option<ItemType>)

  /** The category DTO returned to clients. */
  datatype CategoryView = CategoryView(id: nat, name: string, itemType: Option<ItemType>, description: Option<string>)

  function View(id: nat, c: ItemCategory): CategoryView { CategoryView(id, c.name, c.itemType, c.description) }

  /** The row a request creates in company `company`. */
  function NewCategory(req: CategoryRequest, company: nat): ItemCategory
  {
    ItemCategory(req.name, req.description, req.itemType, company)
  }

  /** Some category of `company` already has this name. */
  predicate NameTaken(categories: map<nat, ItemCategory>, company: nat, name: string)
  {
    exists k :: k in categories && categories[k].company == company && categories[k].name == name
  }

  /** Two requests of a batch share a name. */
  predicate HasDuplicateNames(reqs: seq<CategoryRequest>)
  {
    exists i, j :: 0 <= i < j < |reqs| && reqs[i].name == reqs[j].name
  }

  /** Some item still refers to one of these categories. */
  predicate Referenced(items: map<nat, InventoryItem>, ids: set<nat>)
  {
    exists i :: i in items && items[i].category in ids
  }

  const CategoryKeyConstraint: string := "cms_item_categories(name, company_id)"
  const CategoryReferenceConstraint: string := "cms_inventory_item.item_category_id"
  const NameTakenMessage: string := "ItemCategory with this name already exists in your company."
  const NotOwnedMessage: string := "This item category does not belong to your company."

  const CreateFailurePrefix: string := "Error creating item category: "
  const BatchFailurePrefix: string := "Error batch creating item categories: "

  /** The 500 the catch block of `createItemCategory` makes of a row that
      bean validation refuses on its insert. */
  const CreateInvalidMessage: string := CreateFailurePrefix + Message(ConstraintViolation(CategoryEntity))

  function BatchNameTakenMessage(name: string): string
  {
    "ItemCategory with name '" + name + "' already exists in your company."
  }

  /** `getAllItemCategories`: the ids of the active company's categories. */
  function GetAllItemCategories(users: map<nat, User>, categories: map<nat, ItemCategory>, auth: Option<Authentication>,
                                now: nat): (r: Result<set<nat>>)
    ensures r.Err? <==> ValidateCompanyContext(users, auth, now).Err?
    ensures r.Ok? ==> forall k :: k in r.value ==> k in categories && categories[k].company == ValidateCompanyContext(users, auth, now).value
  {
    var company :- ValidateCompanyContext(users, auth, now);
    Ok(set k | k in categories && categories[k].company == company)
  }

  /** `getItemCategoryById`: 404 for an unknown id, Unauthorized for a
      category of another company. */
  function GetItemCategoryById(users: map<nat, User>, categories: map<nat, ItemCategory>, auth: Option<Authentication>,
                               now: nat, id: nat): (r: Result<CategoryView>)
    ensures r.Ok? <==> ValidateCompanyContext(users, auth, now).Ok? && id in categories &&
                       categories[id].company == ValidateCompanyContext(users, auth, now).value
    ensures r.Ok? ==> r.value == View(id, categories[id])
    ensures ValidateCompanyContext(users, auth, now).Ok? && id !in categories ==>
      r == Err(ResponseStatus(404, "ItemCategory not found."))
    ensures ValidateCompanyContext(users, auth, now).Ok? && id in categories &&
            categories[id].company != ValidateCompanyContext(users, auth, now).value ==>
      r == Err(UnauthorizedAccess(NotOwnedMessage))
  {
    var company :- ValidateCompanyContext(users, auth, now);
    if id !in categories then Err(ResponseStatus(404, "ItemCategory not found."))
    else if categories[id].company != company then Err(UnauthorizedAccess(NotOwnedMessage))
    else Ok(View(id, categories[id]))
  }

  /** Listing and reading agree: a category is listed exactly when it can be read. */
  lemma {:induction false} ListedIffReadable(users: map<nat, User>, categories: map<nat, ItemCategory>,
                                             auth: Option<Authentication>, now: nat, id: nat)
    requires GetAllItemCategories(users, categories, auth, now).Ok?
    ensures id in GetAllItemCategories(users, categories, auth, now).value <==>
            GetItemCategoryById(users, categories, auth, now, id).Ok?
  {
    var company := ValidateCompanyContext(users, auth, now).value;
    assert GetAllItemCategories(users, categories, auth, now).value == set k | k in categories && categories[k].company == company;
  }

  // ---- What each write decides ----

  /** `createItemCategory` within the context: 400 for a name the active
      company already uses; a 500 when the save refuses a row that breaks
      the entity's constraints; otherwise the row to store in that company. */
  function CreateDecision(categories: map<nat, ItemCategory>, context: Result<nat>, req: CategoryRequest)
    : (r: Result<ItemCategory>)
    ensures context.Err? ==> r == Err(context.error)
    ensures context.Ok? && NameTaken(categories, context.value, req.name) ==> r == Err(ResponseStatus(400, NameTakenMessage))
    ensures context.Ok? && !NameTaken(categories, context.value, req.name) && !ValidCategory(NewCategory(req, context.value)) ==>
      r == Err(ResponseStatus(500, CreateInvalidMessage))
    ensures r.Ok? <==>
      context.Ok? && !NameTaken(categories, context.value, req.name) && ValidCategory(NewCategory(req, context.value))
    ensures r.Ok? ==> ValidCategory(r.value)
    ensures r.Ok? ==> r.value.company == context.value && r.value.name == req.name &&
                      r.value.description == req.description && r.value.itemType == req.itemType
  {
    var company :- context;
    if NameTaken(categories, company, req.name) then Err(ResponseStatus(400, NameTakenMessage))
    else if !ValidCategory(NewCategory(req, company)) then Err(ResponseStatus(500, CreateInvalidMessage))
    else Ok(NewCategory(req, company))
  }

  /** `updateItemCategory` within the context: 404 for an unknown id,
      Unauthorized for another company's category, 400 for a name another
      category of the company holds; otherwise the row with the new name,
      description and item type and its company kept. A row that breaks the
      entity's constraints is refused when the transaction commits, after
      the catch block, so the violation itself escapes. */
  function UpdateDecision(categories: map<nat, ItemCategory>, context: Result<nat>, id: nat, req: CategoryRequest)
    : (r: Result<ItemCategory>)
    ensures context.Err? ==> r == Err(context.error)
    ensures context.Ok? && id !in categories ==> r == Err(ResponseStatus(404, "ItemCategory not found."))
    ensures context.Ok? && id in categories && categories[id].company != context.value ==>
      r == Err(UnauthorizedAccess(NotOwnedMessage))
    ensures context.Ok? && id in categories && categories[id].company == context.value &&
            !NameTaken(categories - {id}, context.value, req.name) &&
            !ValidCategory(categories[id].(name := req.name, description := req.description, itemType := req.itemType)) ==>
      r == Err(ConstraintViolation(CategoryEntity))
    ensures r.Ok? <==>
      context.Ok? && id in categories && categories[id].company == context.value &&
      !NameTaken(categories - {id}, context.value, req.name) &&
      ValidCategory(categories[id].(name := req.name, description := req.description, itemType := req.itemType))
    ensures r.Ok? ==> ValidCategory(r.value)
    ensures r.Ok? ==>
      && r.value.company == categories[id].company
      && r.value.name == req.name && r.value.description == req.description && r.value.itemType == req.itemType
  {
    var company :- context;
    if id !in categories then Err(ResponseStatus(404, "ItemCategory not found."))
    else if categories[id].company != company then Err(UnauthorizedAccess(NotOwnedMessage))
    else if NameTaken(categories - {id}, company, req.name) then Err(ResponseStatus(400, NameTakenMessage))
    else
      var cat := categories[id].(name := req.name, description := req.description, itemType := req.itemType);
      if !ValidCategory(cat) then Err(ConstraintViolation(CategoryEntity)) else Ok(cat)
  }

  /** `deleteItemCategory` within the context: 404, Unauthorized, or the
      foreign-key failure while items still refer to the category. */
  function DeleteDecision(categories: map<nat, ItemCategory>, items: map<nat, InventoryItem>, context: Result<nat>,
                          id: nat): (r: Result<bool>)
    ensures context.Err? ==> r == Err(context.error)
    ensures context.Ok? && id !in categories ==> r == Err(ResponseStatus(404, "ItemCategory not found."))
    ensures context.Ok? && id in categories && categories[id].company != context.value ==>
      r == Err(UnauthorizedAccess(NotOwnedMessage))
    ensures r.Ok? <==>
      context.Ok? && id in categories && categories[id].company == context.value && !Referenced(items, {id})
    ensures r.Ok? ==> r.value
  {
    var company :- context;
    if id !in categories then Err(ResponseStatus(404, "ItemCategory not found."))
    else if categories[id].company != company then Err(UnauthorizedAccess(NotOwnedMessage))
    else if Referenced(items, {id}) then Err(DataIntegrity(CategoryReferenceConstraint))
    else Ok(true)
  }

  /** The first index of the batch whose name the company already uses. */
  function FirstTakenIndex(categories: map<nat, ItemCategory>, company: nat, reqs: seq<CategoryRequest>): (r: Option<nat>)
    ensures r.Some? ==> FirstTaken(categories, company, reqs, r.value)
    ensures r.None? <==> forall i :: 0 <= i < |reqs| ==> !NameTaken(categories, company, reqs[i].name)
  {
    if reqs == [] then None
    else if NameTaken(categories, company, reqs[0].name) then Some(0)
    else
      var rest := FirstTakenIndex(categories, company, reqs[1..]);
      if rest.None? then
        assert forall i :: 1 <= i < |reqs| ==> reqs[i] == reqs[1..][i - 1];
        None
      else
        assert forall j :: 1 <= j < rest.value + 1 ==> reqs[j] == reqs[1..][j - 1];
        Some(rest.value + 1)
  }

  /** The first request of the batch whose name the company already uses. */
  predicate FirstTaken(categories: map<nat, ItemCategory>, company: nat, reqs: seq<CategoryRequest>, i: nat)
  {
    i < |reqs| && NameTaken(categories, company, reqs[i].name) &&
    forall j :: 0 <= j < i ==> !NameTaken(categories, company, reqs[j].name)
  }

  const BatchConstraintMessage: string := BatchFailurePrefix + Message(DataIntegrity(CategoryKeyConstraint))

  /** `saveAll` inserts the batch in order and stops at the first row the
      database refuses: a row breaking the entity's constraints, or a row
      whose name an earlier row of the batch already took. */
  predicate RowRefused(reqs: seq<CategoryRequest>, company: nat, i: nat)
    requires i < |reqs|
  {
    !ValidCategory(NewCategory(reqs[i], company)) || exists j :: 0 <= j < i && reqs[j].name == reqs[i].name
  }

  /** The exception the refused row `i` raises. */
  function RowError(reqs: seq<CategoryRequest>, company: nat, i: nat): Error
    requires i < |reqs|
  {
    if !ValidCategory(NewCategory(reqs[i], company)) then ConstraintViolation(CategoryEntity)
    else DataIntegrity(CategoryKeyConstraint)
  }

  /** The first row at or after `from` that `saveAll` refuses. */
  function FirstRefusedRow(reqs: seq<CategoryRequest>, company: nat, from: nat): (r: Option<nat>)
    requires from <= |reqs|
    decreases |reqs| - from
    ensures r.Some? ==> from <= r.value < |reqs| && RowRefused(reqs, company, r.value) &&
                        forall j :: from <= j < r.value ==> !RowRefused(reqs, company, j)
    ensures r.None? <==> forall j :: from <= j < |reqs| ==> !RowRefused(reqs, company, j)
  {
    if from == |reqs| then None
    else if RowRefused(reqs, company, from) then Some(from)
    else FirstRefusedRow(reqs, company, from + 1)
  }

  /** `batchCreateItemCategories` within the context: 400 naming the first
      request whose name the company already uses; otherwise the batch is
      saved in order, and the first row the database refuses (see
      `RowRefused`) becomes a 500 that rolls the whole batch back; when none
      is refused, one new row per request, all in the active company. */
  function BatchCreateDecision(categories: map<nat, ItemCategory>, context: Result<nat>, reqs: seq<CategoryRequest>)
    : (r: Result<seq<ItemCategory>>)
    ensures context.Err? ==> r == Err(context.error)
    ensures forall i: nat :: context.Ok? && FirstTaken(categories, context.value, reqs, i) ==>
      r == Err(ResponseStatus(400, BatchNameTakenMessage(reqs[i].name)))
    ensures forall i :: context.Ok? && (forall j :: 0 <= j < |reqs| ==> !NameTaken(categories, context.value, reqs[j].name)) &&
                        0 <= i < |reqs| && RowRefused(reqs, context.value, i) &&
                        (forall j :: 0 <= j < i ==> !RowRefused(reqs, context.value, j)) ==>
      r == Err(ResponseStatus(500, BatchFailurePrefix + Message(RowError(reqs, context.value, i))))
    ensures context.Ok? && (forall i :: 0 <= i < |reqs| ==> !NameTaken(categories, context.value, reqs[i].name)) &&
            (forall i :: 0 <= i < |reqs| ==> ValidCategory(NewCategory(reqs[i], context.value))) &&
            HasDuplicateNames(reqs) ==>
      r == Err(ResponseStatus(500, BatchConstraintMessage))
    ensures r.Ok? <==>
      context.Ok? && (forall i :: 0 <= i < |reqs| ==> !NameTaken(categories, context.value, reqs[i].name)) &&
      (forall i :: 0 <= i < |reqs| ==> ValidCategory(NewCategory(reqs[i], context.value))) &&
      !HasDuplicateNames(reqs)
    ensures r.Ok? ==> |r.value| == |reqs| && forall i :: 0 <= i < |reqs| ==> ValidCategory(r.value[i])
    ensures r.Ok? ==> forall i :: 0 <= i < |reqs| ==>
      (r.value[i].company == context.value && r.value[i].name == reqs[i].name &&
       r.value[i].description == reqs[i].description && r.value[i].itemType == reqs[i].itemType)
  {
    var company :- context;
    var taken := FirstTakenIndex(categories, company, reqs);
    if taken.Some? then
      assert forall i: nat :: FirstTaken(categories, company, reqs, i) ==> i == taken.value;
      Err(ResponseStatus(400, BatchNameTakenMessage(reqs[taken.value].name)))
    else
      var refused := FirstRefusedRow(reqs, company, 0);
      if refused.Some? then
        assert forall i :: 0 <= i < |reqs| && RowRefused(reqs, company, i) &&
                           (forall j :: 0 <= j < i ==> !RowRefused(reqs, company, j)) ==> i == refused.value;
        Err(ResponseStatus(500, BatchFailurePrefix + Message(RowError(reqs, company, refused.value))))
      else
        assert forall i :: 0 <= i < |reqs| ==> ValidCategory(NewCategory(reqs[i], company)) by {
          forall i | 0 <= i < |reqs| ensures ValidCategory(NewCategory(reqs[i], company)) {
            assert !RowRefused(reqs, company, i);
          }
        }
        assert !HasDuplicateNames(reqs) by {
          forall i, j | 0 <= i < j < |reqs| ensures reqs[i].name != reqs[j].name {
            assert !RowRefused(reqs, company, j);
          }
        }
        Ok(seq(|reqs|, i requires 0 <= i < |reqs| => NewCategory(reqs[i], company)))
  }

  /** The ids of a batch that name existing categories. */
  function FoundIds(ids: seq<nat>, categories: map<nat, ItemCategory>): set<nat>
  {
    set k | k in ids && k in categories
  }

  /** `batchDeleteItemCategories` within the context: 404 if no id exists
      (unknown ids are otherwise ignored), Unauthorized if any found
      category belongs to another company, the foreign-key failure if items
      still refer to one; otherwise the set of ids to delete. */
  function BatchDeleteDecision(categories: map<nat, ItemCategory>, items: map<nat, InventoryItem>, context: Result<nat>,
                               ids: seq<nat>): (r: Result<set<nat>>)
    ensures context.Err? ==> r == Err(context.error)
    ensures context.Ok? && FoundIds(ids, categories) == {} ==> r == Err(ResponseStatus(404, "ItemCategories not found."))
    ensures context.Ok? && FoundIds(ids, categories) != {} &&
            (exists k :: k in FoundIds(ids, categories) && categories[k].company != context.value) ==>
      r == Err(UnauthorizedAccess("You do not have permission to delete this item category."))
    ensures r.Ok? <==>
      && context.Ok? && FoundIds(ids, categories) != {}
      && (forall k :: k in FoundIds(ids, categories) ==> categories[k].company == context.value)
      && !Referenced(items, FoundIds(ids, categories))
    ensures r.Ok? ==> r.value != {} && forall k :: k in r.value <==> k in ids && k in categories
  {
    var company :- context;
    var found := FoundIds(ids, categories);
    if found == {} then Err(ResponseStatus(404, "ItemCategories not found."))
    else if exists k :: k in found && categories[k].company != company then
      Err(UnauthorizedAccess("You do not have permission to delete this item category."))
    else if Referenced(items, found) then Err(DataIntegrity(CategoryReferenceConstraint))
    else Ok(found)
  }

  // ---- Writes ----

  /** `itemCategoryRepository.save` of a new row. */
  method SaveNewCategory(w: World, cat: ItemCategory) returns (id: nat)
    requires w.Valid() && cat.company in w.companies
    requires !NameTaken(w.categories, cat.company, cat.name)
    modifies w`categories, w`nextId
    ensures w.Valid()
    ensures id == old(w.nextId) && w.nextId == id + 1 && id !in old(w.categories)
    ensures w.categories == old(w.categories)[id := cat]
  {
    id := w.NewId();
    assert forall j :: j in w.categories && j != id ==> !SameKey(w.categories[j], cat);
    CategoryStored(w.categories, w.companies, id, cat);
    CategoriesKeptForItems(w.items, w.categories, w.categories[id := cat]);
    w.categories := w.categories[id := cat];
  }

  /** `createItemCategory`. */
  method CreateItemCategory(w: World, auth: Option<Authentication>, now: nat, req: CategoryRequest)
    returns (r: Result<CategoryView>)
    requires w.Valid()
    modifies w`categories, w`nextId
    ensures w.Valid()
    ensures var d := CreateDecision(old(w.categories), ValidateCompanyContext(w.users, auth, now), req);
      && (d.Err? ==> r == Err(d.error) && w.categories == old(w.categories))
      && (d.Ok? ==> w.categories == old(w.categories)[old(w.nextId) := d.value] && r == Ok(View(old(w.nextId), d.value)))
  {
    var context := ValidateCompanyContext(w.users, auth, now);
    if context.Err? {
      return Err(context.error);
    }
    var company := context.value;
    ActiveCompanyExists(w.users, w.companies, auth, now);
    UniqueCategoryLookup(w.categories, w.companies, company, req.name);
    var found := FindCategoryByCompanyAndName(w.categories, company, req.name);
    if found.value.Some? {
      return Err(ResponseStatus(400, NameTakenMessage));
    }
    var cat := NewCategory(req, company);
    if !ValidCategory(cat) {
      return Err(ResponseStatus(500, CreateInvalidMessage));
    }
    var id := SaveNewCategory(w, cat);
    return Ok(View(id, cat));
  }

  /** A name not taken outside row `id` is the key of no other row. */
  lemma NoOtherRowHasKey(categories: map<nat, ItemCategory>, id: nat, cat: ItemCategory)
    requires !NameTaken(categories - {id}, cat.company, cat.name)
    ensures forall j :: j in categories && j != id ==> !SameKey(categories[j], cat)
  {
    forall j | j in categories && j != id ensures !SameKey(categories[j], cat) {
      assert j in categories - {id};
    }
  }

  /** Replacing a category row keeps the tables consistent while its company
      stays and no other row of that company has its name. */
  method SaveCategory(w: World, id: nat, cat: ItemCategory)
    requires w.Valid() && id in w.categories && cat.company == w.categories[id].company
    requires !NameTaken(w.categories - {id}, cat.company, cat.name)
    modifies w`categories
    ensures w.Valid()
    ensures w.categories == old(w.categories)[id := cat]
  {
    NoOtherRowHasKey(w.categories, id, cat);
    CategoryStored(w.categories, w.companies, id, cat);
    CategoriesKeptForItems(w.items, w.categories, w.categories[id := cat]);
    w.categories := w.categories[id := cat];
  }

  /** `updateItemCategory`. */
  method UpdateItemCategory(w: World, auth: Option<Authentication>, now: nat, id: nat, req: CategoryRequest)
    returns (r: Result<CategoryView>)
    requires w.Valid()
    modifies w`categories
    ensures w.Valid()
    ensures var d := UpdateDecision(old(w.categories), ValidateCompanyContext(w.users, auth, now), id, req);
      && (d.Err? ==> r == Err(d.error) && w.categories == old(w.categories))
      && (d.Ok? ==> w.categories == old(w.categories)[id := d.value] && r == Ok(View(id, d.value)))
  {
    var context := ValidateCompanyContext(w.users, auth, now);
    if context.Err? {
      return Err(context.error);
    }
    var company := context.value;
    if id !in w.categories {
      return Err(ResponseStatus(404, "ItemCategory not found."));
    }
    if w.categories[id].company != company {
      return Err(UnauthorizedAccess(NotOwnedMessage));
    }
    UniqueCategoryLookup(w.categories, w.companies, company, req.name);
    var conflict := FindCategoryByCompanyAndName(w.categories, company, req.name);
    if conflict.value.Some? && conflict.value.value != id {
      assert conflict.value.value in w.categories - {id};
      return Err(ResponseStatus(400, NameTakenMessage));
    }
    var cat := w.categories[id].(name := req.name, description := req.description, itemType := req.itemType);
    if !ValidCategory(cat) {
      return Err(ConstraintViolation(CategoryEntity));
    }
    SaveCategory(w, id, cat);
    return Ok(View(id, cat));
  }

  /** Deleting categories no item refers to keeps the tables consistent. */
  method DeleteCategories(w: World, ids: set<nat>)
    requires w.Valid() && !Referenced(w.items, ids)
    modifies w`categories
    ensures w.Valid()
    ensures w.categories == old(w.categories) - ids
  {
    CategoriesKeptForItems(w.items, w.categories, w.categories - ids);
    w.categories := w.categories - ids;
  }

  /** `deleteItemCategory`. */
  method DeleteItemCategory(w: World, auth: Option<Authentication>, now: nat, id: nat) returns (r: Result<bool>)
    requires w.Valid()
    modifies w`categories
    ensures w.Valid()
    ensures var d := DeleteDecision(old(w.categories), w.items, ValidateCompanyContext(w.users, auth, now), id);
      && (d.Err? ==> r == Err(d.error) && w.categories == old(w.categories))
      && (d.Ok? ==> w.categories == old(w.categories) - {id} && r == Ok(true))
  {
    var context := ValidateCompanyContext(w.users, auth, now);
    if context.Err? {
      return Err(context.error);
    }
    if id !in w.categories {
      return Err(ResponseStatus(404, "ItemCategory not found."));
    }
    if w.categories[id].company != context.value {
      return Err(UnauthorizedAccess(NotOwnedMessage));
    }
    if Referenced(w.items, {id}) {
      return Err(DataIntegrity(CategoryReferenceConstraint));
    }
    DeleteCategories(w, {id});
    return Ok(true);
  }

  /** The checking loop of `batchCreateItemCategories`: one lookup per
      request, stopping at the first name the company already uses. */
  method CheckBatchNames(categories: map<nat, ItemCategory>, companies: map<nat, Company>, company: nat,
                         reqs: seq<CategoryRequest>) returns (taken: Option<nat>)
    requires CategoriesConsistent(categories, companies)
    ensures taken.Some? ==> FirstTaken(categories, company, reqs, taken.value)
    ensures taken.None? <==> forall i :: 0 <= i < |reqs| ==> !NameTaken(categories, company, reqs[i].name)
  {
    var i := 0;
    while i < |reqs|
      invariant 0 <= i <= |reqs|
      invariant forall j :: 0 <= j < i ==> !NameTaken(categories, company, reqs[j].name)
    {
      UniqueCategoryLookup(categories, companies, company, reqs[i].name);
      var found := FindCategoryByCompanyAndName(categories, company, reqs[i].name);
      if found.value.Some? {
        return Some(i);
      }
      i := i + 1;
    }
    return None;
  }

  /** `batchCreateItemCategories`: the company context, then the batch
      within it. */
  method BatchCreateItemCategories(w: World, auth: Option<Authentication>, now: nat, reqs: seq<CategoryRequest>)
    returns (r: Result<seq<CategoryView>>)
    requires w.Valid()
    modifies w`categories, w`nextId
    ensures w.Valid()
    ensures var d := BatchCreateDecision(old(w.categories), ValidateCompanyContext(w.users, auth, now), reqs);
      && (d.Err? ==> r == Err(d.error) && w.categories == old(w.categories))
      && (d.Ok? ==> BatchStored(old(w.categories), w.categories, old(w.nextId), d.value, r))
  {
    var context := ValidateCompanyContext(w.users, auth, now);
    if context.Err? {
      return Err(context.error);
    }
    ActiveCompanyExists(w.users, w.companies, auth, now);
    r := BatchCreateIn(w, context.value, reqs);
  }

  /** The batch is stored under consecutive new ids from `start`, in request
      order, and every other row stays. */
  ghost predicate BatchStored(before: map<nat, ItemCategory>, after: map<nat, ItemCategory>, start: nat,
                        rows: seq<ItemCategory>, r: Result<seq<CategoryView>>)
  {
    && r.Ok? && |r.value| == |rows|
    && (forall k :: k in after <==> k in before || start <= k < start + |rows|)
    && (forall k :: k in before ==> after[k] == before[k])
    && (forall i :: 0 <= i < |rows| ==> start + i in after && after[start + i] == rows[i] && r.value[i] == View(start + i, rows[i]))
  }

  /** Storing the next row of the batch under the next id extends the stored prefix. */
  lemma {:induction false} BatchStoredStep(before: map<nat, ItemCategory>, mid: map<nat, ItemCategory>, start: nat,
                                           rows: seq<ItemCategory>, i: nat, views: seq<CategoryView>, id: nat)
    requires i < |rows| && BatchStored(before, mid, start, rows[..i], Ok(views))
    requires id == start + i && id !in mid
    ensures BatchStored(before, mid[id := rows[i]], start, rows[..i + 1], Ok(views + [View(id, rows[i])]))
  {
    var after := mid[id := rows[i]];
    var rows', views' := rows[..i + 1], views + [View(id, rows[i])];
    assert rows' == rows[..i] + [rows[i]];
    assert id !in before;
    forall j | 0 <= j < |rows'| ensures start + j in after && after[start + j] == rows'[j] && views'[j] == View(start + j, rows'[j]) {
      if j < i {
        assert start + j in mid;
      }
    }
  }

  /** The batch within the active company: a checking loop over the
      requests, then one save per request. */
  method BatchCreateIn(w: World, company: nat, reqs: seq<CategoryRequest>) returns (r: Result<seq<CategoryView>>)
    requires w.Valid() && company in w.companies
    modifies w`categories, w`nextId
    ensures w.Valid()
    ensures var d := BatchCreateDecision(old(w.categories), Ok(company), reqs);
      && (d.Err? ==> r == Err(d.error) && w.categories == old(w.categories))
      && (d.Ok? ==> BatchStored(old(w.categories), w.categories, old(w.nextId), d.value, r))
  {
    var taken := CheckBatchNames(w.categories, w.companies, company, reqs);
    if taken.Some? {
      assert forall i: nat :: FirstTaken(w.categories, company, reqs, i) ==> i == taken.value;
      return Err(ResponseStatus(400, BatchNameTakenMessage(reqs[taken.value].name)));
    }
    var refused := FirstRefusedRow(reqs, company, 0);
    if refused.Some? {
      return Err(ResponseStatus(500, BatchFailurePrefix + Message(RowError(reqs, company, refused.value))));
    }
    var rows := seq(|reqs|, i requires 0 <= i < |reqs| => NewCategory(reqs[i], company));
    assert BatchCreateDecision(w.categories, Ok(company), reqs) == Ok(rows);
    assert forall i, j :: 0 <= i < j < |rows| ==> !SameKey(rows[i], rows[j]) by {
      forall i, j | 0 <= i < j < |rows| ensures !SameKey(rows[i], rows[j]) {
        assert !RowRefused(reqs, company, j);
      }
    }
    r := SaveBatch(w, rows);
  }

  /** The `saveAll` of a checked batch: one new row per entry, in order. */
  method SaveBatch(w: World, rows: seq<ItemCategory>) returns (r: Result<seq<CategoryView>>)
    requires w.Valid()
    requires forall i :: 0 <= i < |rows| ==> rows[i].company in w.companies && !NameTaken(w.categories, rows[i].company, rows[i].name)
    requires forall i, j :: 0 <= i < j < |rows| ==> !SameKey(rows[i], rows[j])
    modifies w`categories, w`nextId
    ensures w.Valid()
    ensures BatchStored(old(w.categories), w.categories, old(w.nextId), rows, r)
  {
    var start := w.nextId;
    var views: seq<CategoryView> := [];
    var i := 0;
    while i < |rows|
      invariant 0 <= i <= |rows|
      invariant w.Valid() && w.nextId == start + i
      invariant BatchStored(old(w.categories), w.categories, start, rows[..i], Ok(views))
      invariant forall j :: i <= j < |rows| ==> rows[j].company in w.companies && !NameTaken(w.categories, rows[j].company, rows[j].name)
    {
      ghost var before := w.categories;
      ghost var stored := views;
      var id := SaveNewCategory(w, rows[i]);
      views := views + [View(id, rows[i])];
      forall j | i + 1 <= j < |rows| ensures !NameTaken(w.categories, rows[j].company, rows[j].name) {
        assert !SameKey(rows[i], rows[j]);
        assert !NameTaken(before, rows[j].company, rows[j].name);
      }
      BatchStoredStep(old(w.categories), before, start, rows, i, stored, id);
      i := i + 1;
    }
    assert rows[..i] == rows;
    return Ok(views);
  }

  /** The ownership loop of `batchDeleteItemCategories`: whether any id of
      the batch names a category of another company. */
  method HasForeignCategory(categories: map<nat, ItemCategory>, company: nat, ids: seq<nat>) returns (b: bool)
    ensures b <==> exists k :: k in FoundIds(ids, categories) && categories[k].company != company
  {
    var i := 0;
    while i < |ids|
      invariant 0 <= i <= |ids|
      invariant forall j :: 0 <= j < i && ids[j] in categories ==> categories[ids[j]].company == company
    {
      if ids[i] in categories && categories[ids[i]].company != company {
        assert ids[i] in FoundIds(ids, categories);
        return true;
      }
      i := i + 1;
    }
    return false;
  }

  /** `batchDeleteItemCategories`: the company context, then the batch
      within it. */
  method BatchDeleteItemCategories(w: World, auth: Option<Authentication>, now: nat, ids: seq<nat>)
    returns (r: Result<()>)
    requires w.Valid()
    modifies w`categories
    ensures w.Valid()
    ensures var d := BatchDeleteDecision(old(w.categories), w.items, ValidateCompanyContext(w.users, auth, now), ids);
      && (d.Err? ==> r == Err(d.error) && w.categories == old(w.categories))
      && (d.Ok? ==> w.categories == old(w.categories) - d.value && r == Ok(()))
  {
    var context := ValidateCompanyContext(w.users, auth, now);
    if context.Err? {
      return Err(context.error);
    }
    r := BatchDeleteIn(w, context.value, ids);
  }

  /** The checks of the batch delete within the active company: the found
      rows, the ownership loop over them, and the reference check. */
  method BatchDeleteChecks(categories: map<nat, ItemCategory>, items: map<nat, InventoryItem>, company: nat,
                           ids: seq<nat>) returns (r: Result<set<nat>>)
    ensures r == BatchDeleteDecision(categories, items, Ok(company), ids)
  {
    var found := FoundIds(ids, categories);
    if found == {} {
      return Err(ResponseStatus(404, "ItemCategories not found."));
    }
    var foreign := HasForeignCategory(categories, company, ids);
    if foreign {
      return Err(UnauthorizedAccess("You do not have permission to delete this item category."));
    }
    if Referenced(items, found) {
      return Err(DataIntegrity(CategoryReferenceConstraint));
    }
    return Ok(found);
  }

  /** The batch delete within the active company: the checks, then one
      delete of all the found rows. */
  method BatchDeleteIn(w: World, company: nat, ids: seq<nat>) returns (r: Result<()>)
    requires w.Valid()
    modifies w`categories
    ensures w.Valid()
    ensures var d := BatchDeleteDecision(old(w.categories), w.items, Ok(company), ids);
      && (d.Err? ==> r == Err(d.error) && w.categories == old(w.categories))
      && (d.Ok? ==> w.categories == old(w.categories) - d.value && r == Ok(()))
  {
    var checked := BatchDeleteChecks(w.categories, w.items, company, ids);
    if checked.Err? {
      return Err(checked.error);
    }
    DeleteCategories(w, checked.value);
    return Ok(());
  }

  // ---- Properties across operations ----

  /** A created category is then readable by id in the company that created it. */
  lemma {:induction false} CreatedIsReadable(users: map<nat, User>, categories: map<nat, ItemCategory>,
                                             auth: Option<Authentication>, now: nat, req: CategoryRequest, id: nat)
    requires CreateDecision(categories, ValidateCompanyContext(users, auth, now), req).Ok?
    ensures GetItemCategoryById(users, categories[id := CreateDecision(categories, ValidateCompanyContext(users, auth, now), req).value],
                                auth, now, id)
            == Ok(View(id, NewCategory(req, ValidateCompanyContext(users, auth, now).value)))
  {
  }

  /** After a delete the category reads as not found. */
  lemma {:induction false} DeletedIsGone(users: map<nat, User>, categories: map<nat, ItemCategory>,
                                         auth: Option<Authentication>, now: nat, id: nat)
    requires ValidateCompanyContext(users, auth, now).Ok?
    ensures GetItemCategoryById(users, categories - {id}, auth, now, id) == Err(ResponseStatus(404, "ItemCategory not found."))
  {
  }

  /** An update never moves a category to another company, so it stays
      readable in the active company. */
  lemma {:induction false} UpdatedStaysReadable(users: map<nat, User>, categories: map<nat, ItemCategory>,
                                                auth: Option<Authentication>, now: nat, id: nat, req: CategoryRequest)
    requires UpdateDecision(categories, ValidateCompanyContext(users, auth, now), id, req).Ok?
    ensures GetItemCategoryById(users, categories[id := UpdateDecision(categories, ValidateCompanyContext(users, auth, now), id, req).value],
                                auth, now, id).Ok?
  {
  }
}
