/** Inventory items, scoped to the company the request acts for like the
    categories: an item is stored in the active company and must sit in a
    category of that same company. */
module InventoryItemService {
  import opened Wrappers
  import opened CompanyModel
  import opened UserModel
  import opened Entities
  import opened Store
  import opened AuthenticationService
  import ItemCategoryService
  import Tables

  /** The fields a client posts for an item, id included; the category comes
      as a separate parameter. */
  datatype ItemRequest = ItemRequest(id: Option<nat>, name: string, quantity: int, price: Price,
                                     description: Option<string>)

  /** The item DTO returned to clients. */
  datatype ItemView = ItemView(id: nat, name: string, quantity: int, price: Price, description: Option<string>, categoryId: nat)

  function View(id: nat, it: InventoryItem): ItemView
  {
    ItemView(id, it.name, it.quantity, it.price, it.description, it.category)
  }

  /** The company context, as the category service establishes it. */
  function Context(users: map<nat, User>, auth: Option<Authentication>, now: nat): Result<nat>
  {
    ItemCategoryService.ValidateCompanyContext(users, auth, now)
  }

  const ItemNotFoundMessage: string := "Inventory item not found."
  const CategoryNotFoundMessage: string := "ItemCategory not found."

  function ItemNotOwnedMessage(companyName: string): string
  {
    "This inventory item does not belong to your company: " + companyName
  }

  function CategoryNotOwnedMessage(companyName: string): string
  {
    "ItemCategory does not belong to your company: " + companyName
  }

  /** The active company's name, for the messages that carry it. */
  function CompanyNameOf(companies: map<nat, Company>, context: Result<nat>): string
    requires context.Ok? ==> context.value in companies
  {
    if context.Ok? then companies[context.value].name else ""
  }

  // ---- Reads ----

  /** `findByCompany` / `countByCompany`: the ids of a company's items. */
  function CompanyItems(items: map<nat, InventoryItem>, company: nat): set<nat>
  {
    set k | k in items && items[k].company == company
  }

  /** `getAllInventoryItems` (paging left out): the ids of the active company's items. */
  function GetAllInventoryItems(users: map<nat, User>, items: map<nat, InventoryItem>, auth: Option<Authentication>,
                                now: nat): (r: Result<set<nat>>)
    ensures r.Err? <==> Context(users, auth, now).Err?
    ensures r.Ok? ==> forall k :: k in r.value <==> k in items && items[k].company == Context(users, auth, now).value
  {
    var company :- Context(users, auth, now);
    Ok(CompanyItems(items, company))
  }

  /** `getInventoryItemCount`: `countByCompany` for the active company. */
  function GetInventoryItemCount(users: map<nat, User>, items: map<nat, InventoryItem>, auth: Option<Authentication>,
                                 now: nat): (r: Result<nat>)
    ensures r.Err? <==> Context(users, auth, now).Err?
  {
    var company :- Context(users, auth, now);
    Ok(|CompanyItems(items, company)|)
  }

  /** The count is the size of the listing. */
  lemma {:induction false} CountIsListingSize(users: map<nat, User>, items: map<nat, InventoryItem>,
                                              auth: Option<Authentication>, now: nat)
    ensures GetInventoryItemCount(users, items, auth, now).Ok? <==> GetAllInventoryItems(users, items, auth, now).Ok?
    ensures GetInventoryItemCount(users, items, auth, now).Ok? ==>
      GetInventoryItemCount(users, items, auth, now).value == |GetAllInventoryItems(users, items, auth, now).value|
  {
  }

  /** `getInventoryItemById`: 404 for an unknown id, Unauthorized naming the
      active company for an item of another company. */
  function GetInventoryItemById(users: map<nat, User>, companies: map<nat, Company>, items: map<nat, InventoryItem>,
                                auth: Option<Authentication>, now: nat, id: nat): (r: Result<ItemView>)
    requires Context(users, auth, now).Ok? ==> Context(users, auth, now).value in companies
    ensures Context(users, auth, now).Err? ==> r == Err(Context(users, auth, now).error)
    ensures Context(users, auth, now).Ok? && id !in items ==> r == Err(ResponseStatus(404, ItemNotFoundMessage))
    ensures Context(users, auth, now).Ok? && id in items && items[id].company != Context(users, auth, now).value ==>
      r == Err(UnauthorizedAccess(ItemNotOwnedMessage(CompanyNameOf(companies, Context(users, auth, now)))))
    ensures r.Ok? <==> Context(users, auth, now).Ok? && id in items && items[id].company == Context(users, auth, now).value
    ensures r.Ok? ==> r.value == View(id, items[id])
  {
    var company :- Context(users, auth, now);
    if id !in items then Err(ResponseStatus(404, ItemNotFoundMessage))
    else if items[id].company != company then Err(UnauthorizedAccess(ItemNotOwnedMessage(companies[company].name)))
    else Ok(View(id, items[id]))
  }

  /** `getInventoryItemsByCategory` (paging left out): 404 for an unknown
      category, Unauthorized for another company's; otherwise the ids of the
      active company's items in that category. */
  function GetInventoryItemsByCategory(users: map<nat, User>, companies: map<nat, Company>,
                                       categories: map<nat, ItemCategory>, items: map<nat, InventoryItem>,
                                       auth: Option<Authentication>, now: nat, categoryId: nat): (r: Result<set<nat>>)
    requires Context(users, auth, now).Ok? ==> Context(users, auth, now).value in companies
    ensures Context(users, auth, now).Err? ==> r == Err(Context(users, auth, now).error)
    ensures Context(users, auth, now).Ok? && categoryId !in categories ==> r == Err(ResponseStatus(404, CategoryNotFoundMessage))
    ensures Context(users, auth, now).Ok? && categoryId in categories &&
            categories[categoryId].company != Context(users, auth, now).value ==>
      r == Err(UnauthorizedAccess(CategoryNotOwnedMessage(CompanyNameOf(companies, Context(users, auth, now)))))
    ensures r.Ok? <==> Context(users, auth, now).Ok? && categoryId in categories &&
                       categories[categoryId].company == Context(users, auth, now).value
    ensures r.Ok? ==> forall k :: k in r.value <==>
      k in items && items[k].company == Context(users, auth, now).value && items[k].category == categoryId
  {
    var company :- Context(users, auth, now);
    if categoryId !in categories then Err(ResponseStatus(404, CategoryNotFoundMessage))
    else if categories[categoryId].company != company then
      Err(UnauthorizedAccess(CategoryNotOwnedMessage(companies[company].name)))
    else Ok(set k | k in items && items[k].company == company && items[k].category == categoryId)
  }

  /** Listing by category is the company listing narrowed to that category;
      while the items are consistent the company filter changes nothing. */
  lemma {:induction false} ByCategoryWithinListing(users: map<nat, User>, companies: map<nat, Company>,
                                                   categories: map<nat, ItemCategory>, items: map<nat, InventoryItem>,
                                                   auth: Option<Authentication>, now: nat, categoryId: nat)
    requires Context(users, auth, now).Ok? ==> Context(users, auth, now).value in companies
    requires ItemsConsistent(items, categories)
    requires GetInventoryItemsByCategory(users, companies, categories, items, auth, now, categoryId).Ok?
    ensures GetAllInventoryItems(users, items, auth, now).Ok?
    ensures GetInventoryItemsByCategory(users, companies, categories, items, auth, now, categoryId).value ==
      set k | k in GetAllInventoryItems(users, items, auth, now).value && items[k].category == categoryId
    ensures GetInventoryItemsByCategory(users, companies, categories, items, auth, now, categoryId).value ==
      set k | k in items && items[k].category == categoryId
  {
    var byCategory := GetInventoryItemsByCategory(users, companies, categories, items, auth, now, categoryId).value;
    var all := GetAllInventoryItems(users, items, auth, now).value;
    forall k | k in items && items[k].category == categoryId ensures k in byCategory {
      assert categories[items[k].category].company == items[k].company;
    }
    assert byCategory == set k | k in all && items[k].category == categoryId;
  }

  // ---- What each write decides ----

  /** `createInventoryItem` within the context: 400 for an unknown category,
      Unauthorized for another company's; the save then refuses a row that
      breaks the entity's constraints (no catch block wraps it); otherwise
      the new row, in the active company and in that category. */
  function CreateDecision(categories: map<nat, ItemCategory>, context: Result<nat>, req: ItemRequest, categoryId: nat)
    : (r: Result<InventoryItem>)
    ensures context.Err? ==> r == Err(context.error)
    ensures context.Ok? && categoryId !in categories ==> r == Err(ResponseStatus(400, CategoryNotFoundMessage))
    ensures context.Ok? && categoryId in categories && categories[categoryId].company != context.value ==>
      r == Err(UnauthorizedAccess("ItemCategory does not belong to your company."))
    ensures context.Ok? && categoryId in categories && categories[categoryId].company == context.value &&
            !ValidItem(InventoryItem(req.name, req.quantity, req.price, req.description, context.value, categoryId)) ==>
      r == Err(ConstraintViolation(ItemEntity))
    ensures r.Ok? <==>
      context.Ok? && categoryId in categories && categories[categoryId].company == context.value &&
      1 <= |req.name| <= 255 && req.quantity >= 0
    ensures r.Ok? ==> ValidItem(r.value)
    ensures r.Ok? ==> r.value.company == context.value && r.value.category == categoryId
    ensures r.Ok? ==> r.value.name == req.name && r.value.quantity == req.quantity && r.value.price == req.price &&
                      r.value.description == req.description
  {
    var company :- context;
    if categoryId !in categories then Err(ResponseStatus(400, CategoryNotFoundMessage))
    else if categories[categoryId].company != company then
      Err(UnauthorizedAccess("ItemCategory does not belong to your company."))
    else
      var it := InventoryItem(req.name, req.quantity, req.price, req.description, company, categoryId);
      if !ValidItem(it) then Err(ConstraintViolation(ItemEntity)) else Ok(it)
  }

  /** `updateInventoryItem` within the context: the item checks (404,
      Unauthorized), then the category checks (400, Unauthorized); otherwise
      the row with the posted fields and category, in its own company (a
      posted id is not used: the fields are copied onto the stored row). A
      row that breaks the entity's constraints is refused when the
      transaction commits. */
  function UpdateDecision(companies: map<nat, Company>, categories: map<nat, ItemCategory>, items: map<nat, InventoryItem>,
                          context: Result<nat>, id: nat, req: ItemRequest, categoryId: nat): (r: Result<InventoryItem>)
    requires context.Ok? ==> context.value in companies
    ensures context.Err? ==> r == Err(context.error)
    ensures context.Ok? && id !in items ==> r == Err(ResponseStatus(404, ItemNotFoundMessage))
    ensures context.Ok? && id in items && items[id].company != context.value ==>
      r == Err(UnauthorizedAccess(ItemNotOwnedMessage(CompanyNameOf(companies, context))))
    ensures context.Ok? && id in items && items[id].company == context.value && categoryId !in categories ==>
      r == Err(ResponseStatus(400, CategoryNotFoundMessage))
    ensures context.Ok? && id in items && items[id].company == context.value && categoryId in categories &&
            categories[categoryId].company != context.value ==>
      r == Err(UnauthorizedAccess(CategoryNotOwnedMessage(CompanyNameOf(companies, context))))
    ensures context.Ok? && id in items && items[id].company == context.value && categoryId in categories &&
            categories[categoryId].company == context.value && !(1 <= |req.name| <= 255 && req.quantity >= 0) ==>
      r == Err(ConstraintViolation(ItemEntity))
    ensures r.Ok? <==>
      context.Ok? && id in items && items[id].company == context.value &&
      categoryId in categories && categories[categoryId].company == context.value &&
      1 <= |req.name| <= 255 && req.quantity >= 0
    ensures r.Ok? ==> ValidItem(r.value)
    ensures r.Ok? ==> r.value.company == items[id].company && r.value.category == categoryId
    ensures r.Ok? ==> r.value.name == req.name && r.value.quantity == req.quantity && r.value.price == req.price &&
                      r.value.description == req.description
  {
    var company :- context;
    if id !in items then Err(ResponseStatus(404, ItemNotFoundMessage))
    else if items[id].company != company then Err(UnauthorizedAccess(ItemNotOwnedMessage(companies[company].name)))
    else if categoryId !in categories then Err(ResponseStatus(400, CategoryNotFoundMessage))
    else if categories[categoryId].company != company then
      Err(UnauthorizedAccess(CategoryNotOwnedMessage(companies[company].name)))
    else
      var it := items[id].(name := req.name, quantity := req.quantity, price := req.price, description := req.description,
                           category := categoryId);
      if !ValidItem(it) then Err(ConstraintViolation(ItemEntity)) else Ok(it)
  }

  /** `deleteInventoryItem` within the context: 404, Unauthorized, or true. */
  function DeleteDecision(companies: map<nat, Company>, items: map<nat, InventoryItem>, context: Result<nat>, id: nat)
    : (r: Result<bool>)
    requires context.Ok? ==> context.value in companies
    ensures context.Err? ==> r == Err(context.error)
    ensures context.Ok? && id !in items ==> r == Err(ResponseStatus(404, ItemNotFoundMessage))
    ensures context.Ok? && id in items && items[id].company != context.value ==>
      r == Err(UnauthorizedAccess(ItemNotOwnedMessage(CompanyNameOf(companies, context))))
    ensures r.Ok? <==> context.Ok? && id in items && items[id].company == context.value
    ensures r.Ok? ==> r.value
  {
    var company :- context;
    if id !in items then Err(ResponseStatus(404, ItemNotFoundMessage))
    else if items[id].company != company then Err(UnauthorizedAccess(ItemNotOwnedMessage(companies[company].name)))
    else Ok(true)
  }

  /** A row either write accepts keeps every item in a category of its own
      company. */
  lemma {:induction false} AcceptedRowConsistent(items: map<nat, InventoryItem>, categories: map<nat, ItemCategory>,
                                                 k: nat, it: InventoryItem)
    requires ItemsConsistent(items, categories)
    requires it.category in categories && categories[it.category].company == it.company
    ensures ItemsConsistent(items[k := it], categories)
  {
    var items' := items[k := it];
    forall j | j in items' ensures items'[j].category in categories && categories[items'[j].category].company == items'[j].company {
      if j != k {
        assert items'[j] == items[j];
      }
    }
  }

  // ---- Writes ----

  /** `inventoryItemRepository.save` of a row whose category is in its company. */
  method SaveItem(w: World, k: nat, it: InventoryItem)
    requires w.Valid() && k < w.nextId
    requires it.category in w.categories && w.categories[it.category].company == it.company
    modifies w`items
    ensures w.Valid()
    ensures w.items == old(w.items)[k := it]
  {
    AcceptedRowConsistent(w.items, w.categories, k, it);
    w.items := w.items[k := it];
  }

  /** `save` of a row with a posted id: merged onto the row with that id
      when there is one, otherwise stored under the generator's next id. */
  method SavePostedItem(w: World, posted: Option<nat>, it: InventoryItem) returns (id: nat)
    requires w.Valid()
    requires it.category in w.categories && w.categories[it.category].company == it.company
    modifies w`items, w`nextId
    ensures w.Valid()
    ensures id == Tables.SaveKey(old(w.items), posted, old(w.nextId)) && w.items == old(w.items)[id := it]
  {
    if posted.Some? && posted.value in w.items {
      id := posted.value;
    } else {
      id := w.NewId();
    }
    SaveItem(w, id, it);
  }

  /** `inventoryItemRepository.deleteById`: no other table refers to items. */
  method RemoveItem(w: World, id: nat)
    requires w.Valid()
    modifies w`items
    ensures w.Valid()
    ensures w.items == old(w.items) - {id}
  {
    w.items := w.items - {id};
  }

  /** `createInventoryItem`: the posted item is saved as it is, so a posted
      id of an existing row overwrites that row, whichever company owns it. */
  method CreateInventoryItem(w: World, auth: Option<Authentication>, now: nat, req: ItemRequest, categoryId: nat)
    returns (r: Result<ItemView>)
    requires w.Valid()
    modifies w`items, w`nextId
    ensures w.Valid()
    ensures var d := CreateDecision(w.categories, Context(w.users, auth, now), req, categoryId);
      && (d.Err? ==> r == Err(d.error) && w.items == old(w.items))
      && (d.Ok? ==> var id := Tables.SaveKey(old(w.items), req.id, old(w.nextId));
                    && w.items == old(w.items)[id := d.value] && r == Ok(View(id, d.value))
                    && (id !in old(w.items) <==> req.id.None? || req.id.value !in old(w.items)))
  {
    var context := Context(w.users, auth, now);
    if context.Err? {
      return Err(context.error);
    }
    var company := context.value;
    if categoryId !in w.categories {
      return Err(ResponseStatus(400, CategoryNotFoundMessage));
    }
    if w.categories[categoryId].company != company {
      return Err(UnauthorizedAccess("ItemCategory does not belong to your company."));
    }
    var it := InventoryItem(req.name, req.quantity, req.price, req.description, company, categoryId);
    if !ValidItem(it) {
      return Err(ConstraintViolation(ItemEntity));
    }
    var id := SavePostedItem(w, req.id, it);
    return Ok(View(id, it));
  }

  /** `updateInventoryItem`. */
  method UpdateInventoryItem(w: World, auth: Option<Authentication>, now: nat, id: nat, req: ItemRequest, categoryId: nat)
    returns (r: Result<ItemView>)
    requires w.Valid()
    modifies w`items
    ensures w.Valid()
    ensures Context(w.users, auth, now).Ok? ==> Context(w.users, auth, now).value in w.companies
    ensures var d := UpdateDecision(w.companies, w.categories, old(w.items), Context(w.users, auth, now), id, req, categoryId);
      && (d.Err? ==> r == Err(d.error) && w.items == old(w.items))
      && (d.Ok? ==> w.items == old(w.items)[id := d.value] && r == Ok(View(id, d.value)))
  {
    ItemCategoryService.ActiveCompanyExists(w.users, w.companies, auth, now);
    var context := Context(w.users, auth, now);
    if context.Err? {
      return Err(context.error);
    }
    var company := context.value;
    if id !in w.items {
      return Err(ResponseStatus(404, ItemNotFoundMessage));
    }
    if w.items[id].company != company {
      return Err(UnauthorizedAccess(ItemNotOwnedMessage(w.companies[company].name)));
    }
    if categoryId !in w.categories {
      return Err(ResponseStatus(400, CategoryNotFoundMessage));
    }
    if w.categories[categoryId].company != company {
      return Err(UnauthorizedAccess(CategoryNotOwnedMessage(w.companies[company].name)));
    }
    var it := w.items[id].(name := req.name, quantity := req.quantity, price := req.price, description := req.description,
                           category := categoryId);
    if !ValidItem(it) {
      return Err(ConstraintViolation(ItemEntity));
    }
    SaveItem(w, id, it);
    return Ok(View(id, it));
  }

  /** `deleteInventoryItem`. */
  method DeleteInventoryItem(w: World, auth: Option<Authentication>, now: nat, id: nat) returns (r: Result<bool>)
    requires w.Valid()
    modifies w`items
    ensures w.Valid()
    ensures Context(w.users, auth, now).Ok? ==> Context(w.users, auth, now).value in w.companies
    ensures var d := DeleteDecision(w.companies, old(w.items), Context(w.users, auth, now), id);
      && (d.Err? ==> r == Err(d.error) && w.items == old(w.items))
      && (d.Ok? ==> w.items == old(w.items) - {id} && r == Ok(true))
  {
    ItemCategoryService.ActiveCompanyExists(w.users, w.companies, auth, now);
    var context := Context(w.users, auth, now);
    if context.Err? {
      return Err(context.error);
    }
    if id !in w.items {
      return Err(ResponseStatus(404, ItemNotFoundMessage));
    }
    if w.items[id].company != context.value {
      return Err(UnauthorizedAccess(ItemNotOwnedMessage(w.companies[context.value].name)));
    }
    RemoveItem(w, id);
    return Ok(true);
  }

  // ---- Properties across operations ----

  /** A created item is then readable by id in the company that created it. */
  lemma {:induction false} CreatedIsReadable(users: map<nat, User>, companies: map<nat, Company>,
                                             categories: map<nat, ItemCategory>, items: map<nat, InventoryItem>,
                                             auth: Option<Authentication>, now: nat, req: ItemRequest, categoryId: nat, id: nat)
    requires Context(users, auth, now).Ok? ==> Context(users, auth, now).value in companies
    requires CreateDecision(categories, Context(users, auth, now), req, categoryId).Ok?
    ensures GetInventoryItemById(users, companies, items[id := CreateDecision(categories, Context(users, auth, now), req, categoryId).value],
                                 auth, now, id)
            == Ok(ItemView(id, req.name, req.quantity, req.price, req.description, categoryId))
  {
  }

  /** Creating an item with the posted id of another company's item moves
      that row into the creating company: the row count stays the same and
      the other company can no longer read its item. */
  lemma {:induction false} CreateTakesOverForeignItem(users: map<nat, User>, companies: map<nat, Company>,
                                                      categories: map<nat, ItemCategory>,
                                                      items: map<nat, InventoryItem>, auth: Option<Authentication>,
                                                      owner: Option<Authentication>, now: nat, req: ItemRequest,
                                                      categoryId: nat, next: nat)
    requires Context(users, auth, now).Ok? && Context(users, auth, now).value in companies
    requires Context(users, owner, now).Ok? && Context(users, owner, now).value in companies
    requires CreateDecision(categories, Context(users, auth, now), req, categoryId).Ok?
    requires req.id.Some? && req.id.value in items
    requires items[req.id.value].company == Context(users, owner, now).value != Context(users, auth, now).value
    ensures var items' := items[Tables.SaveKey(items, req.id, next) :=
                                  CreateDecision(categories, Context(users, auth, now), req, categoryId).value];
            && items'.Keys == items.Keys
            && items'[req.id.value].company == Context(users, auth, now).value
            && GetInventoryItemById(users, companies, items', owner, now, req.id.value).Err?
  {
    var items' := items[req.id.value := CreateDecision(categories, Context(users, auth, now), req, categoryId).value];
    assert GetInventoryItemById(users, companies, items', owner, now, req.id.value).Err?;
  }

  /** After a delete the item reads as not found. */
  lemma {:induction false} DeletedIsGone(users: map<nat, User>, companies: map<nat, Company>, items: map<nat, InventoryItem>,
                                         auth: Option<Authentication>, now: nat, id: nat)
    requires Context(users, auth, now).Ok? && Context(users, auth, now).value in companies
    ensures GetInventoryItemById(users, companies, items - {id}, auth, now, id) == Err(ResponseStatus(404, ItemNotFoundMessage))
  {
  }
}
