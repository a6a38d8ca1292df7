# springsecurity: a Dafny model of the session, tenant and inventory core

This project models the core of a multi-tenant Spring Boot back end. That core has three parts:

- **Session management.** It covers registration, login, tenant switching and token refresh. It keeps a table of issued JWT access/refresh pairs. Every new pair revokes the user's earlier pairs, and a periodic sweep deletes dead records.
- **Tenant scoping.** Every read and write of item categories and inventory items is checked against the company bound to the caller's token.
- **Administration.** This covers companies, countries, e-mail settings, company memberships, password-reset tokens, the start-up seeding, the URL authorisation rules, the HTTP mapping of the authentication endpoints and the analytics histogram.

The database is one object, `Store.World`. Each table is a field of the object: a `map<nat, _>` keyed by row id, or a `seq` for the token table, which is kept in insertion order. Next to the tables sits the shared id generator. `World.Valid()` collects what the schema and the services keep together:

- rows carry fresh ids;
- declared unique columns are unique;
- foreign keys resolve;
- every user belongs to at least one company;
- every stored token pair belongs to an existing user;
- every item sits in a category of its own company.

That each stored pair was also issued for its owner's current username is kept by logins, switches and refreshes, but not by a registration that overwrites an existing account (see "Behaviour worth knowing"). It is therefore the separate predicate `Store.TokensConsistent`, a premise of the session lemmas.

Every service is a method on a `World`. It is proved against a pure *decision* function of the old tables: the error cases, in the source's order and with its messages, plus the row to write. Its `ensures` state the whole new state of the tables it may modify, and that `Valid()` is kept. Guards, lookups and queries are functions over table values. Lemmas state what the operations mean together, for example:

- rotation leaves exactly one live pair;
- a rotated-out token is rejected;
- the sweep is idempotent;
- the token codec round-trips;
- a created row can be read back and a deleted one cannot;
- seeding twice changes nothing;
- the first-match rule list leaves the method-specific inventory write rules dead;
- the histogram counts each item once.

The collaborators are abstract:

- The password encoder and matcher are function parameters (`encode`, `matches`).
- The clock is a parameter `now` in milliseconds.
- The authenticated context is an `Authentication` value passed in.
- JWTs are written with an injective textual claims encoding that the model decodes back.

## Model

All source paths are under `src/main/java/com/joe/springsecurity/`; the table spells them out in full.

| member | source | states |
|---|---|---|
| Tables.FindOne | src/main/java/com/joe/springsecurity/auth/repo/TokenRepository.java:19-21 | A derived `Optional` finder over a keyed table returns the one matching row, empty exactly when no row matches, and fails with a non-unique-result error exactly when two rows match |
| Tables.FindOneUnique | src/main/java/com/joe/springsecurity/auth/repo/TokenRepository.java:19-21 | When exactly one row matches, the finder returns it |
| Tables.FindUnique | src/main/java/com/joe/springsecurity/auth/repo/TokenRepository.java:19-21 | The same finder over the ordered token table |
| CompanyModel.NewCompany | src/main/java/com/joe/springsecurity/company/model/Company.java:44 | A new company has no id, no country, e-mail or contact, and status true |
| CompanyModel.HashAgreesWithEquals | src/main/java/com/joe/springsecurity/company/model/Company.java:205-216 | Two companies that `equals` calls equal, meaning equal ids with two null ids equal too, have the same `hashCode` (the 32-bit `Long.hashCode` of the id) |
| CompanyModel.ContainsById | src/main/java/com/joe/springsecurity/company/model/Company.java:205-211 | `Set.contains` on companies holds exactly when the id is among the members' ids, so memberships are sets of ids |
| UserModel.RoleNameInjective | src/main/java/com/joe/springsecurity/auth/model/User.java:105-112 | Distinct roles have distinct authority names |
| UserModel.GetAuthorities | src/main/java/com/joe/springsecurity/auth/model/User.java:105-112 | One authority per role, named after the role, without repeats |
| TokenRepository.FindAllAccessTokensByUser | src/main/java/com/joe/springsecurity/auth/repo/TokenRepository.java:16-17 | Exactly the user's records that are not logged out |
| TokenRepository.FindAllAppend | src/main/java/com/joe/springsecurity/auth/repo/TokenRepository.java:16-17 | The query distributes over appending records |
| TokenRepository.RevokeAllAt | src/main/java/com/joe/springsecurity/auth/service/AuthenticationService.java:239-252 | Revocation acts record by record, in place |
| TokenRepository.RevokeAllEffect | src/main/java/com/joe/springsecurity/auth/service/AuthenticationService.java:239-252 | After revoking a user, that user has no live record; other users' live records are unchanged; each record only gains `loggedOut` when it is the user's |
| TokenRepository.RotateLeavesOneLive | src/main/java/com/joe/springsecurity/auth/service/AuthenticationService.java:130-131 | Revoke-then-save leaves the new pair as the user's only live record and changes no one else's |
| TokenRepository.PriorAccessTokenDead | src/main/java/com/joe/springsecurity/auth/service/AuthenticationService.java:239-263 | After a rotation, looking up any earlier access token of the user finds no live record |
| TokenRepository.PriorRefreshTokenDead | src/main/java/com/joe/springsecurity/auth/service/AuthenticationService.java:239-263 | The same for earlier refresh tokens |
| TokenRepository.Sweep | src/main/java/com/joe/springsecurity/auth/repo/TokenRepository.java:24-27 | The sweep keeps exactly the records that are not logged out, have a refresh token and expire no earlier than the given date |
| TokenRepository.SweepAppend | src/main/java/com/joe/springsecurity/auth/repo/TokenRepository.java:24-27 | The sweep distributes over appending records |
| TokenRepository.SweepIdempotent | src/main/java/com/joe/springsecurity/auth/repo/TokenRepository.java:24-27 | Sweeping again, with the same date or an earlier one, removes nothing more |
| TokenRepository.SweepKeepsLive | src/main/java/com/joe/springsecurity/auth/repo/TokenRepository.java:24-27 | A live record with a refresh token that expires on or after the date survives the sweep |
| Store.World.DeleteExpiredOrLoggedOutTokens | src/main/java/com/joe/springsecurity/auth/repo/TokenRepository.java:24-27 | The bulk delete replaces the token table by its sweep and keeps the store consistent |
| Store.UniqueUsernameLookup | src/main/java/com/joe/springsecurity/auth/model/User.java:27-34 | In a consistent store the username lookup never fails as non-unique; the services keep usernames unique, since the schema does not |
| JwtService.Decode | src/main/java/com/joe/springsecurity/auth/service/JwtService.java:100-107 | Parsing fails only as a malformed token |
| JwtService.DecodeEncode | src/main/java/com/joe/springsecurity/auth/service/JwtService.java:120-129 | A token built from claims parses back to exactly those claims |
| JwtService.EncodeInjective | src/main/java/com/joe/springsecurity/auth/service/JwtService.java:120-129 | Different claims give different tokens |
| JwtService.ExtractAllClaims | src/main/java/com/joe/springsecurity/auth/service/JwtService.java:100-107 | The claims are read only from a well-formed token that has not expired; otherwise it fails as malformed or as expired |
| JwtService.IsTokenExpired | src/main/java/com/joe/springsecurity/auth/service/JwtService.java:78-86 | It can never answer true: an expired token already fails while its claims are read; it answers false exactly when the claims can be read |
| JwtService.GeneratedTokenClaims | src/main/java/com/joe/springsecurity/auth/service/JwtService.java:110-129 | A generated token is readable until `issued + expireTime` inclusive, and yields the user's name, the company's id and that expiration |
| JwtService.IsValid | src/main/java/com/joe/springsecurity/auth/service/JwtService.java:52-61 | True exactly when the subject is the username, the token has not expired, and a live record holds it as access token |
| JwtService.IsValidRefreshToken | src/main/java/com/joe/springsecurity/auth/service/JwtService.java:64-75 | The same rule with the lookup by refresh token |
| JwtService.RotatedOutPairRejected | src/main/java/com/joe/springsecurity/auth/service/JwtService.java:52-75 | After a rotation, no earlier access or refresh token of the user validates |
| AuthenticationService.GetCurrentUser | src/main/java/com/joe/springsecurity/auth/service/AuthenticationService.java:184-201 | The user whose username is the authenticated name; "User is not authenticated" without an authenticated context, "User not found" for an unknown name |
| AuthenticationService.GetDefaultCompany | src/main/java/com/joe/springsecurity/auth/service/AuthenticationService.java:203-214 | Some member company of the user; fails exactly when the user has none |
| AuthenticationService.CookieNamed | src/main/java/com/joe/springsecurity/auth/service/AuthenticationService.java:384-394 | The value of the first cookie with the name, or none when no cookie has it |
| AuthenticationService.ExtractRefreshTokenFromCookie | src/main/java/com/joe/springsecurity/auth/service/AuthenticationService.java:384-394 | No cookies give null; otherwise the first `refresh_token` cookie's value |
| AuthenticationService.RevokeAllTokensByUser | src/main/java/com/joe/springsecurity/auth/service/AuthenticationService.java:239-246 | The token table becomes its revocation for the user; consistency is kept |
| AuthenticationService.LogOutAll | src/main/java/com/joe/springsecurity/auth/service/AuthenticationService.java:240-243 | The loop that sets the logged-out flag yields exactly the user's revocation of the records |
| AuthenticationService.SaveUserToken | src/main/java/com/joe/springsecurity/auth/service/AuthenticationService.java:254-263 | Appends one live record holding the pair, whose expiration is the access token's |
| AuthenticationService.StoreIssuedPair | src/main/java/com/joe/springsecurity/auth/service/AuthenticationService.java:98-102 | Generates a pair for the user and company and appends its record |
| AuthenticationService.IssuedPairReadable | src/main/java/com/joe/springsecurity/auth/service/AuthenticationService.java:254-263 | A freshly generated access token's expiration is `now + accessTokenExpire`, and both tokens name the user |
| AuthenticationService.RegisteredRoles | src/main/java/com/joe/springsecurity/auth/service/AuthenticationService.java:85-87 | Null or empty roles become {USER}; non-empty roles are kept |
| AuthenticationService.SaveDefaultCompany | src/main/java/com/joe/springsecurity/auth/service/AuthenticationService.java:171-178 | Stores "<username>'s Default Company" under a fresh id |
| AuthenticationService.SaveRegisteredUser | src/main/java/com/joe/springsecurity/auth/service/AuthenticationService.java:84-94 | Stores the user, with the encoded password and the default company as its only membership. The save is a merge: a posted id of an existing row overwrites that row and takes no id; otherwise the row gets the next id |
| AuthenticationService.SaveCompanyAndUser | src/main/java/com/joe/springsecurity/auth/service/AuthenticationService.java:89-94 | Stores the default company under the next id, then the user under the posted id when that row exists and under the id after otherwise, leaving the tokens alone; consistency is kept |
| AuthenticationService.SaveRegistration | src/main/java/com/joe/springsecurity/auth/service/AuthenticationService.java:89-102 | Stores exactly the default company, the user row (new or overwritten) and one live token record for the new pair; consistency is kept |
| AuthenticationService.Register | src/main/java/com/joe/springsecurity/auth/service/AuthenticationService.java:70-113 | A taken username and then a taken e-mail are refused with nothing stored. Otherwise it stores exactly one company, writes one user row (the posted id's row if it exists, a new row otherwise) and one live token record, revokes nothing, and returns the issued pair bound to the new company |
| AuthenticationService.RegisterTakesOverAccount | src/main/java/com/joe/springsecurity/auth/service/AuthenticationService.java:84-94 | A registration posting an existing account's id adds no row; that row now has the new username, password, roles and only the new company, and no row keeps the old username |
| AuthenticationService.TakenOverAccountKeepsOldPairs | src/main/java/com/joe/springsecurity/auth/service/AuthenticationService.java:94 | After such a takeover, the pairs stored for the account still name its old username, so not every pair is issued for its owner's username any more |
| AuthenticationService.TokensConsistentRotated | src/main/java/com/joe/springsecurity/auth/service/AuthenticationService.java:239-263 | Revoking a user's pairs and appending a pair issued for the user keeps every stored pair issued for its owner's username |
| AuthenticationService.Authenticate | src/main/java/com/joe/springsecurity/auth/service/AuthenticationService.java:115-140 | Bad credentials change nothing. Success rotates the user's tokens to one pair bound to a member company |
| AuthenticationService.SwitchCompany | src/main/java/com/joe/springsecurity/auth/service/AuthenticationService.java:142-169 | An unknown company or a non-member company is refused with its message and the tokens unchanged. Otherwise the tokens rotate to a pair bound to the chosen company |
| AuthenticationService.CheckRefresh | src/main/java/com/joe/springsecurity/auth/service/AuthenticationService.java:329-365 | The checks of the refresh endpoint in their order. Every answered refusal is a 401 with one of the three messages: a missing or empty cookie gives "Refresh token is missing", a null subject "Invalid refresh token", a token that fails validation for the user it names "Invalid or expired refresh token". It accepts user u and company c exactly when the cookie names u, its token is u's valid refresh token, and its company claim is the existing company c |
| AuthenticationService.RefreshToken | src/main/java/com/joe/springsecurity/auth/service/AuthenticationService.java:325-382 | Answers 200 exactly when the refresh premises hold, rotating the user's tokens to a pair bound to the old token's company claim. Every 401 has the message of the failed check, as for CheckRefresh, and leaves the tokens unchanged |
| AuthenticationService.RefreshTokenSingleUse | src/main/java/com/joe/springsecurity/auth/service/AuthenticationService.java:329-372 | A refresh token accepted once is rejected after the rotation it caused, for anyone and at any later time |
| AuthenticationService.AccessTokenRevokedByRotation | src/main/java/com/joe/springsecurity/auth/service/AuthenticationService.java:130-131 | An access token valid before a rotation of its user is invalid after it |
| UserService.GetCurrentUserCompany | src/main/java/com/joe/springsecurity/auth/service/UserService.java:36-50 | The member company whose id is the token's company claim, and only that one. It fails when the user has no company, when credentials are missing, or when no member matches |
| UserService.WithoutCompany | src/main/java/com/joe/springsecurity/auth/service/UserService.java:83-93 | Removing a membership never leaves the set empty: the "Default Company" fills an emptied set, and without it the removal fails |
| UserService.RemoveUndoesAssign | src/main/java/com/joe/springsecurity/auth/service/UserService.java:54-96 | Removing a just-assigned company restores the previous memberships |
| UserService.UniqueCompanyNameLookup | src/main/java/com/joe/springsecurity/company/model/Company.java:21 | The unique company name keeps the name lookup from failing |
| UserService.SaveMemberships | src/main/java/com/joe/springsecurity/auth/service/UserService.java:65-68 | Saves a user's new non-empty membership set; consistency is kept |
| UserService.AssignCompanyToUser | src/main/java/com/joe/springsecurity/auth/service/UserService.java:54-68 | An unknown user or company fails, and an existing member gets "already assigned", with nothing changed. Otherwise the company is added and every other membership and user is kept |
| UserService.RemoveCompanyFromUser | src/main/java/com/joe/springsecurity/auth/service/UserService.java:72-96 | The mirror of assignment; the set is refilled with the "Default Company" when it would empty, and the call fails unsaved when that company is missing |
| ItemCategoryService.TokenOf | src/main/java/com/joe/springsecurity/inventory/service/ItemCategoryService.java:65-78 | The token is the credentials, else a text principal; otherwise an illegal-state error |
| ItemCategoryService.ValidateCompanyContext | src/main/java/com/joe/springsecurity/inventory/service/ItemCategoryService.java:51-97 | An accepted context is the user's current company and equals the token's company claim |
| ItemCategoryService.ContextIsCurrentUserCompany | src/main/java/com/joe/springsecurity/inventory/service/ItemCategoryService.java:80-90 | The claim comparison never refuses what the current-company lookup accepted: the check equals that lookup |
| ItemCategoryService.ActiveCompanyExists | src/main/java/com/joe/springsecurity/inventory/service/ItemCategoryService.java:51-97 | The active company is a stored company |
| ItemCategoryService.GetAllItemCategories | src/main/java/com/joe/springsecurity/inventory/service/ItemCategoryService.java:139-164 | Only categories of the active company are listed; it fails exactly when the context does |
| ItemCategoryService.GetItemCategoryById | src/main/java/com/joe/springsecurity/inventory/service/ItemCategoryService.java:166-195 | A missing id gives 404 and another company's category Unauthorized; only the active company's category is returned |
| ItemCategoryService.ListedIffReadable | src/main/java/com/joe/springsecurity/inventory/service/ItemCategoryService.java:139-195 | A category is listed exactly when it can be read by id |
| ItemCategoryService.CreateDecision | src/main/java/com/joe/springsecurity/inventory/service/ItemCategoryService.java:99-137 | A name used in the active company gives 400. A row that breaks the entity constraints (a name of 1 to 255 characters, an item type) fails in the save and is answered 500 with the wrapped violation. Otherwise the new row belongs to the active company, copies the request and meets the constraints |
| ItemCategoryService.UpdateDecision | src/main/java/com/joe/springsecurity/inventory/service/ItemCategoryService.java:197-247 | 404, Unauthorized and name-taken by another category are refused; the category may keep its own name. An updated row that breaks the entity constraints fails at commit with the raw violation. Otherwise the company is unchanged and the row meets the constraints |
| ItemCategoryService.DeleteDecision | src/main/java/com/joe/springsecurity/inventory/service/ItemCategoryService.java:249-274 | 404 and Unauthorized are refused; a category still referenced by an item fails on the foreign key |
| ItemCategoryService.FirstTakenIndex | src/main/java/com/joe/springsecurity/inventory/service/ItemCategoryService.java:281-288 | The first request whose name is taken in the company, or none exactly when no name is taken |
| ItemCategoryService.BatchCreateDecision | src/main/java/com/joe/springsecurity/inventory/service/ItemCategoryService.java:276-322 | Nothing is created when any name is taken, and the error names the first such request. Otherwise the first row in order that breaks the entity constraints or repeats an earlier row's name decides a 500 wrapping its violation or the unique-constraint failure. Otherwise one row per request in the active company, each meeting the constraints |
| ItemCategoryService.FirstRefusedRow | src/main/java/com/joe/springsecurity/inventory/service/ItemCategoryService.java:300-316 | `saveAll` inserts in order and stops at the first row the database or the constraints refuse: the result is that row, with every earlier row accepted, or none exactly when every row is accepted |
| ItemCategoryService.BatchDeleteDecision | src/main/java/com/joe/springsecurity/inventory/service/ItemCategoryService.java:324-344 | No id found gives 404; any found category of another company gives Unauthorized; unknown ids are ignored; the rows deleted are exactly the found ids |
| ItemCategoryService.SaveNewCategory | src/main/java/com/joe/springsecurity/inventory/service/ItemCategoryService.java:118 | Stores the row under a fresh id; consistency is kept |
| ItemCategoryService.CreateItemCategory | src/main/java/com/joe/springsecurity/inventory/service/ItemCategoryService.java:99-137 | Refusals, including the constraint refusal of the save, change nothing; acceptance stores the decided row under a fresh id and returns its view |
| ItemCategoryService.SaveCategory | src/main/java/com/joe/springsecurity/inventory/service/ItemCategoryService.java:223-228 | Overwrites one row; consistency is kept |
| ItemCategoryService.UpdateItemCategory | src/main/java/com/joe/springsecurity/inventory/service/ItemCategoryService.java:197-247 | Refusals, including the constraint refusal at commit, change nothing; acceptance overwrites exactly that row |
| ItemCategoryService.DeleteCategories | src/main/java/com/joe/springsecurity/inventory/service/ItemCategoryService.java:341 | Removes exactly the given rows; consistency is kept |
| ItemCategoryService.DeleteItemCategory | src/main/java/com/joe/springsecurity/inventory/service/ItemCategoryService.java:249-274 | Refusals change nothing; acceptance removes exactly that row and answers true |
| ItemCategoryService.CheckBatchNames | src/main/java/com/joe/springsecurity/inventory/service/ItemCategoryService.java:281-288 | The checking loop finds the first taken name or proves none is taken |
| ItemCategoryService.BatchCreateItemCategories | src/main/java/com/joe/springsecurity/inventory/service/ItemCategoryService.java:276-322 | Refusals, including a rolled-back constraint failure, change nothing; acceptance stores the decided rows under consecutive fresh ids and returns their views in order |
| ItemCategoryService.BatchStoredStep | src/main/java/com/joe/springsecurity/inventory/service/ItemCategoryService.java:290-311 | Saving one more row extends a correctly stored batch |
| ItemCategoryService.BatchCreateIn | src/main/java/com/joe/springsecurity/inventory/service/ItemCategoryService.java:281-311 | The batch create within a known company: a taken name, then the first invalid or repeated row, refuse the whole batch without a change; otherwise the rows are stored in order |
| ItemCategoryService.SaveBatch | src/main/java/com/joe/springsecurity/inventory/service/ItemCategoryService.java:290-311 | The `saveAll` loop stores each row under the next id and collects the views in order |
| ItemCategoryService.HasForeignCategory | src/main/java/com/joe/springsecurity/inventory/service/ItemCategoryService.java:334-339 | The loop finds a found category of another company exactly when one exists |
| ItemCategoryService.BatchDeleteItemCategories | src/main/java/com/joe/springsecurity/inventory/service/ItemCategoryService.java:324-344 | Refusals change nothing; acceptance removes exactly the found ids |
| ItemCategoryService.BatchDeleteChecks | src/main/java/com/joe/springsecurity/inventory/service/ItemCategoryService.java:328-340 | The found rows, the ownership loop and the reference check give exactly the batch-delete decision |
| ItemCategoryService.BatchDeleteIn | src/main/java/com/joe/springsecurity/inventory/service/ItemCategoryService.java:328-342 | The batch delete within a known company |
| ItemCategoryService.CreatedIsReadable | src/main/java/com/joe/springsecurity/inventory/service/ItemCategoryService.java:99-195 | A created category reads back by id as the request's fields |
| ItemCategoryService.DeletedIsGone | src/main/java/com/joe/springsecurity/inventory/service/ItemCategoryService.java:166-274 | A deleted category reads back as 404 |
| ItemCategoryService.UpdatedStaysReadable | src/main/java/com/joe/springsecurity/inventory/service/ItemCategoryService.java:166-247 | An updated category is still readable by the same caller |
| InventoryItemService.GetAllInventoryItems | src/main/java/com/joe/springsecurity/inventory/service/InventoryItemService.java:89-103 | Exactly the active company's items |
| InventoryItemService.GetInventoryItemCount | src/main/java/com/joe/springsecurity/inventory/service/InventoryItemService.java:129-133 | Fails exactly when the context does |
| InventoryItemService.CountIsListingSize | src/main/java/com/joe/springsecurity/inventory/service/InventoryItemService.java:89-133 | The count is the size of the listing |
| InventoryItemService.GetInventoryItemById | src/main/java/com/joe/springsecurity/inventory/service/InventoryItemService.java:135-151 | 404 for a missing id; Unauthorized, naming the active company, for another company's item; otherwise the view of exactly that row under its id |
| InventoryItemService.GetInventoryItemsByCategory | src/main/java/com/joe/springsecurity/inventory/service/InventoryItemService.java:207-224 | The category must exist (404) and belong to the active company (Unauthorized); the result is exactly the items of both |
| InventoryItemService.ByCategoryWithinListing | src/main/java/com/joe/springsecurity/inventory/service/InventoryItemService.java:207-224 | The by-category result is the listing filtered by category |
| InventoryItemService.CreateDecision | src/main/java/com/joe/springsecurity/inventory/service/InventoryItemService.java:105-127 | A missing category gives 400 and another company's category Unauthorized. An item that breaks the entity constraints (a name of 1 to 255 characters, a quantity of at least 0) fails in the save with the raw violation, since no catch block wraps it. Otherwise the new item belongs to the active company, whatever the request said, copies the request and meets the constraints |
| InventoryItemService.UpdateDecision | src/main/java/com/joe/springsecurity/inventory/service/InventoryItemService.java:153-188 | Item checks (404, Unauthorized) come first, then category checks (400, Unauthorized). An updated item that breaks the entity constraints fails at commit with the raw violation. Otherwise the fields and category are copied, the company is unchanged and the row meets the constraints |
| InventoryItemService.DeleteDecision | src/main/java/com/joe/springsecurity/inventory/service/InventoryItemService.java:190-205 | 404 and Unauthorized are refused; otherwise true |
| InventoryItemService.AcceptedRowConsistent | src/main/java/com/joe/springsecurity/inventory/service/InventoryItemService.java:110-121 | A row whose category is in its company keeps the items consistent |
| InventoryItemService.SaveItem | src/main/java/com/joe/springsecurity/inventory/service/InventoryItemService.java:121 | Writes one row; consistency is kept |
| InventoryItemService.RemoveItem | src/main/java/com/joe/springsecurity/inventory/service/InventoryItemService.java:202-204 | Removes one row; consistency is kept |
| InventoryItemService.SavePostedItem | src/main/java/com/joe/springsecurity/inventory/service/InventoryItemService.java:121 | The row is merged onto the row with the posted id when one exists, and otherwise stored under the generator's next id, which no row had; consistency is kept |
| InventoryItemService.CreateInventoryItem | src/main/java/com/joe/springsecurity/inventory/service/InventoryItemService.java:105-127 | Refusals, including the constraint refusal, change nothing. Acceptance saves the decided item: over the row with the posted id when that row exists, whatever its company, and otherwise under a new id; the view returned carries that id |
| InventoryItemService.CreateTakesOverForeignItem | src/main/java/com/joe/springsecurity/inventory/service/InventoryItemService.java:105-121 | Creating with another company's item id moves that row into the caller's company without adding a row, and the owner can no longer read it |
| InventoryItemService.UpdateInventoryItem | src/main/java/com/joe/springsecurity/inventory/service/InventoryItemService.java:153-188 | Refusals, including the constraint refusal at commit, change nothing; acceptance overwrites exactly that item |
| InventoryItemService.DeleteInventoryItem | src/main/java/com/joe/springsecurity/inventory/service/InventoryItemService.java:190-205 | Refusals change nothing; acceptance removes exactly that item and answers true |
| InventoryItemService.CreatedIsReadable | src/main/java/com/joe/springsecurity/inventory/service/InventoryItemService.java:105-151 | A created item reads back by id with the request's fields and category |
| InventoryItemService.DeletedIsGone | src/main/java/com/joe/springsecurity/inventory/service/InventoryItemService.java:135-205 | A deleted item reads back as 404 |
| PasswordResetTokenService.CreatePasswordResetToken | src/main/java/com/joe/springsecurity/auth/service/PasswordResetTokenService.java:26-37 | Stores one row for the user expiring one hour from now and returns its text |
| PasswordResetTokenService.ValidateToken | src/main/java/com/joe/springsecurity/auth/service/PasswordResetTokenService.java:40-49 | An unknown token fails. A known token fails "Token has expired" exactly when its expiration is before now, so the expiration instant itself is valid. The answer is never false |
| PasswordResetTokenService.GetTokenByValue | src/main/java/com/joe/springsecurity/auth/service/PasswordResetTokenService.java:52-56 | The unique row holding the text, or "Token not found" |
| PasswordResetTokenService.ValidTokenFound | src/main/java/com/joe/springsecurity/auth/service/PasswordResetTokenService.java:40-56 | A token that validates is found, and it has not expired |
| PasswordResetTokenService.FreshTokenValidFor | src/main/java/com/joe/springsecurity/auth/service/PasswordResetTokenService.java:26-49 | A new token validates exactly until one hour after its creation, inclusive |
| PasswordResetTokenService.Delete | src/main/java/com/joe/springsecurity/auth/service/PasswordResetTokenService.java:58-60 | Removes exactly that row |
| PasswordResetTokenService.DeletedTokenNotFound | src/main/java/com/joe/springsecurity/auth/service/PasswordResetTokenService.java:52-60 | After the found row is deleted, the token is neither found nor valid |
| PasswordResetController.WithPassword | src/main/java/com/joe/springsecurity/auth/controller/PasswordResetController.java:37-42 | Only the password changes |
| PasswordResetController.SaveUserPassword | src/main/java/com/joe/springsecurity/auth/controller/PasswordResetController.java:37-42 | Overwrites one user's password; consistency is kept |
| PasswordResetController.ResetPassword | src/main/java/com/joe/springsecurity/auth/controller/PasswordResetController.java:31-51 | An invalid token changes nothing. A valid one gives only its owner the encoded new password, deletes exactly that token and answers 200 |
| PasswordResetController.ResetTwice | src/main/java/com/joe/springsecurity/auth/controller/PasswordResetController.java:36-45 | Replaying a token that succeeded fails as invalid |
| CompanyService.CreateDecision | src/main/java/com/joe/springsecurity/company/service/CompanyService.java:35-63 | A taken name and then an unknown country are refused with their messages; otherwise the row copies the request |
| CompanyService.UpdateDecision | src/main/java/com/joe/springsecurity/company/service/CompanyService.java:65-94 | A missing company and then an unknown country are refused. No name check is made before the save, so a name held by another company fails on the unique column |
| CompanyService.StatusDecision | src/main/java/com/joe/springsecurity/company/service/CompanyService.java:122-140 | An unknown id fails; otherwise the same row with the status set |
| CompanyService.StatusIdempotent | src/main/java/com/joe/springsecurity/company/service/CompanyService.java:122-140 | Enabling or disabling twice is the same as once |
| CompanyService.GetAllCompanies | src/main/java/com/joe/springsecurity/company/service/CompanyService.java:96-102 | Every company and nothing else |
| CompanyService.GetCompanyById | src/main/java/com/joe/springsecurity/company/service/CompanyService.java:104-110 | The row, or "Company not found with ID <id>" |
| CompanyService.GetEmailConfig | src/main/java/com/joe/springsecurity/company/service/CompanyService.java:142-150 | Fails without the company or without its configuration; otherwise the company's configuration |
| CompanyService.SaveCompany | src/main/java/com/joe/springsecurity/company/service/CompanyService.java:60 | Writes one row; consistency is kept |
| CompanyService.CreateCompany | src/main/java/com/joe/springsecurity/company/service/CompanyService.java:35-63 | Refusals save nothing; acceptance stores the decided row under a fresh id |
| CompanyService.UpdateCompany | src/main/java/com/joe/springsecurity/company/service/CompanyService.java:65-94 | Refusals save nothing; acceptance overwrites exactly that row |
| CompanyService.DeleteCompany | src/main/java/com/joe/springsecurity/company/service/CompanyService.java:112-120 | A missing id fails; a company still referenced fails on the foreign key; otherwise exactly that company is removed |
| CompanyService.CompanyRemoved | src/main/java/com/joe/springsecurity/company/service/CompanyService.java:112-120 | Removing an unreferenced company keeps every foreign key intact |
| CompanyService.SetCompanyStatus | src/main/java/com/joe/springsecurity/company/service/CompanyService.java:122-140 | Writes the decided status change, or nothing |
| CompanyService.EnableCompany | src/main/java/com/joe/springsecurity/company/service/CompanyService.java:122-130 | Sets the status true, changing nothing else |
| CompanyService.DisableCompany | src/main/java/com/joe/springsecurity/company/service/CompanyService.java:132-140 | Sets the status false, changing nothing else |
| CountryService.CreateDecision | src/main/java/com/joe/springsecurity/country/service/CountryService.java:27-43 | A name already present is refused, or fails as non-unique when two rows have it; otherwise the row copies name, code and continent |
| CountryService.UpdateDecision | src/main/java/com/joe/springsecurity/country/service/CountryService.java:45-57 | Fails exactly on an unknown id; otherwise it overwrites name, code and continent with no name check |
| CountryService.GetAllCountries | src/main/java/com/joe/springsecurity/country/service/CountryService.java:59-65 | Every country and nothing else |
| CountryService.GetCountryById | src/main/java/com/joe/springsecurity/country/service/CountryService.java:67-73 | The row, or "Country not found with ID <id>" |
| CountryService.UpdateCanDuplicateName | src/main/java/com/joe/springsecurity/country/service/CountryService.java:45-57 | An update can copy another country's name, after which creating that name fails as non-unique |
| CountryService.CreateCountry | src/main/java/com/joe/springsecurity/country/service/CountryService.java:27-43 | Refusals save nothing; acceptance stores the row under a fresh id |
| CountryService.UpdateCountry | src/main/java/com/joe/springsecurity/country/service/CountryService.java:45-57 | Refusals save nothing; acceptance overwrites exactly that row |
| CountryService.DeleteCountry | src/main/java/com/joe/springsecurity/country/service/CountryService.java:75-82 | A missing id fails; a country a company refers to fails on the foreign key; otherwise exactly that row is removed |
| EmailConfigService.ConfigLookup | src/main/java/com/joe/springsecurity/email/service/EmailConfigService.java:57 | The per-company lookup never fails as non-unique, and finds a row exactly when the company has one |
| EmailConfigService.CreateDecision | src/main/java/com/joe/springsecurity/email/service/EmailConfigService.java:23-50 | An unknown company fails. A second configuration for a company fails on the one-to-one join column. Otherwise the row is bound to the company and holds every field of the request |
| EmailConfigService.UpdateDecision | src/main/java/com/joe/springsecurity/email/service/EmailConfigService.java:52-84 | Fails without the company or its configuration; otherwise it overwrites the fields and keeps the company binding |
| EmailConfigService.ActiveDecision | src/main/java/com/joe/springsecurity/email/service/EmailConfigService.java:86-113 | Fails without the company or its configuration; otherwise the same row with the flag set |
| EmailConfigService.ActiveIdempotent | src/main/java/com/joe/springsecurity/email/service/EmailConfigService.java:86-113 | Activating or deactivating again decides the same row |
| EmailConfigService.SaveConfig | src/main/java/com/joe/springsecurity/email/service/EmailConfigService.java:37 | Writes one row; consistency is kept |
| EmailConfigService.CreateEmailConfig | src/main/java/com/joe/springsecurity/email/service/EmailConfigService.java:23-50 | Refusals save nothing; acceptance stores the row under a fresh id and returns a view carrying the company's id |
| EmailConfigService.UpdateEmailConfig | src/main/java/com/joe/springsecurity/email/service/EmailConfigService.java:52-84 | Refusals save nothing; acceptance overwrites the company's row and returns a view carrying the company's id |
| EmailConfigService.SetActive | src/main/java/com/joe/springsecurity/email/service/EmailConfigService.java:86-113 | Writes the decided flag change, or nothing |
| EmailConfigService.ActivateEmailConfig | src/main/java/com/joe/springsecurity/email/service/EmailConfigService.java:86-99 | Sets `active` true, nothing else |
| EmailConfigService.DeactivateEmailConfig | src/main/java/com/joe/springsecurity/email/service/EmailConfigService.java:101-113 | Sets `active` false, nothing else |
| InitialDataService.SuperAdmin | src/main/java/com/joe/springsecurity/init/InitialDataService.java:64-83 | The administrator "Johnny", with the encoded default password, role SUPER_ADMIN and "Company A" as its only company |
| InitialDataService.SeedCompanies | src/main/java/com/joe/springsecurity/init/InitialDataService.java:39-50 | An empty company table receives exactly "Company A" and "Company B"; a non-empty one is untouched |
| InitialDataService.SaveDefault | src/main/java/com/joe/springsecurity/init/InitialDataService.java:40-46 | Stores one default company under the generator's next id; consistency is kept |
| InitialDataService.SaveAdmin | src/main/java/com/joe/springsecurity/init/InitialDataService.java:55-56 | Adds exactly the administrator, in the given company, under an id no user had; consistency is kept |
| InitialDataService.SeedAdmin | src/main/java/com/joe/springsecurity/init/InitialDataService.java:54-83 | An existing "Johnny" changes nothing. Without "Company A" it fails with an illegal-state error. Otherwise it adds exactly the administrator |
| InitialDataService.InitDefaultCompaniesAndUser | src/main/java/com/joe/springsecurity/init/InitialDataService.java:37-62 | The seeding steps together. A successful run leaves a company and "Johnny". A second run over a seeded store succeeds and changes nothing |
| AuthenticationController.IndexOf | src/main/java/com/joe/springsecurity/auth/controller/AuthenticationController.java:162-165 | The first occurrence of a character, or the length |
| AuthenticationController.ParseSetCookie | src/main/java/com/joe/springsecurity/auth/controller/AuthenticationController.java:162-165 | A parsed cookie's name is the text before the first `=` |
| AuthenticationController.ParseSetCookieOf | src/main/java/com/joe/springsecurity/auth/controller/AuthenticationController.java:162-165 | A `name=value;...` header parses back to that name and value |
| AuthenticationController.RefreshCookieRoundTrip | src/main/java/com/joe/springsecurity/auth/controller/AuthenticationController.java:162-165 | The header the endpoints set reads back as the `refresh_token` cookie holding the token, which the refresh endpoint then extracts |
| AuthenticationController.RegisterResponse | src/main/java/com/joe/springsecurity/auth/controller/AuthenticationController.java:58-75 | Success sets the cookie, with 409 exactly for the "User already exists" message and 201 otherwise; an exception gives 500 with "Error registering user: " and its message, and no cookie |
| AuthenticationController.RegisterNeverConflicts | src/main/java/com/joe/springsecurity/auth/controller/AuthenticationController.java:58-75 | Because the service throws on a taken username, register answers only 201 (with the new token's cookie) or 500 |
| AuthenticationController.LoginResponse | src/main/java/com/joe/springsecurity/auth/controller/AuthenticationController.java:83-90 | No error mapping; success is 200 with the cookie |
| AuthenticationController.RefreshResponse | src/main/java/com/joe/springsecurity/auth/controller/AuthenticationController.java:98-109 | The service's status and body pass through; the cookie is set exactly on a 2xx status |
| AuthenticationController.SwitchCompanyResponse | src/main/java/com/joe/springsecurity/auth/controller/AuthenticationController.java:142-155 | Any failure is 403 carrying its message with no cookie; success is 200 with the cookie |
| AuthenticationController.Register | src/main/java/com/joe/springsecurity/auth/controller/AuthenticationController.java:58-75 | The endpoint over the service: 201 with the registration message and cookie, or 500 with no cookie and no table changed |
| AuthenticationController.Login | src/main/java/com/joe/springsecurity/auth/controller/AuthenticationController.java:83-90 | Bad credentials escape unmapped with the tokens unchanged; success is 200 with the cookie |
| AuthenticationController.RefreshToken | src/main/java/com/joe/springsecurity/auth/controller/AuthenticationController.java:98-109 | 200 with the cookie or 401 without it; the tokens change only on 200 |
| AuthenticationController.SwitchCompany | src/main/java/com/joe/springsecurity/auth/controller/AuthenticationController.java:142-155 | 200 with a new pair and its cookie, or 403 with no cookie and the tokens unchanged |
| SecurityConfig.Exacts | src/main/java/com/joe/springsecurity/auth/config/SecurityConfig.java:47 | One exact pattern per listed path |
| SecurityConfig.FirstMatch | src/main/java/com/joe/springsecurity/auth/config/SecurityConfig.java:46-53 | The index of the first matching rule, or none exactly when no rule matches |
| SecurityConfig.Decide | src/main/java/com/joe/springsecurity/auth/config/SecurityConfig.java:46-61 | The first matching rule decides. Refusals are unauthenticated only for anonymous callers and denied only for authenticated ones |
| SecurityConfig.Status | src/main/java/com/joe/springsecurity/auth/config/SecurityConfig.java:60-61 | Denied is 403, unauthenticated is 401, granted has no error status |
| SecurityConfig.InventoryPathShape | src/main/java/com/joe/springsecurity/auth/config/SecurityConfig.java:47-49 | No public path lies under the inventory subtree |
| SecurityConfig.PublicEndpointsOpen | src/main/java/com/joe/springsecurity/auth/config/SecurityConfig.java:47-48 | The five authentication and reset paths are granted to everyone, with any method |
| SecurityConfig.InventoryNeedsARole | src/main/java/com/joe/springsecurity/auth/config/SecurityConfig.java:49 | Every inventory request is decided by the three-role rule: anonymous callers get 401, and an authenticated caller passes exactly when it holds ROLE_SUPER_ADMIN, ROLE_ADMIN or ROLE_USER |
| SecurityConfig.WriteRulesShadowed | src/main/java/com/joe/springsecurity/auth/config/SecurityConfig.java:49-52 | The POST, PUT and DELETE inventory rules never decide a request |
| SecurityConfig.UserMayWriteInventory | src/main/java/com/joe/springsecurity/auth/config/SecurityConfig.java:49-52 | Any user with a role, a plain USER included, is granted inventory writes by the filter chain |
| SecurityConfig.OtherRequestsNeedAuthentication | src/main/java/com/joe/springsecurity/auth/config/SecurityConfig.java:53 | Every other request is granted exactly to authenticated callers |
| AnalyticsController.TotalRemove | src/main/java/com/joe/springsecurity/analytics/AnalyticsController.java:46-50 | The sum of the histogram does not depend on the order of its keys |
| AnalyticsController.Merge | src/main/java/com/joe/springsecurity/analytics/AnalyticsController.java:49 | `merge(name, 1, Long::sum)` adds `name` as a key with count one, or adds one to its count, and leaves every other count alone |
| AnalyticsController.TotalMerge | src/main/java/com/joe/springsecurity/analytics/AnalyticsController.java:49 | `merge(name, 1, Long::sum)` adds one to the sum |
| AnalyticsController.FiledGrows | src/main/java/com/joe/springsecurity/analytics/AnalyticsController.java:47-49 | Filing one more item adds it under its own category's name only |
| AnalyticsController.HistogramStep | src/main/java/com/joe/springsecurity/analytics/AnalyticsController.java:47-50 | One merge keeps the map an exact per-name count |
| AnalyticsController.CountByCategory | src/main/java/com/joe/springsecurity/analytics/AnalyticsController.java:46-50 | The loop builds the exact per-category-name count of the items, and the counts add up to the number of items |
| AnalyticsController.GetCompanyAnalytics | src/main/java/com/joe/springsecurity/analytics/AnalyticsController.java:31-62 | An empty company list fails as `get(0)`. Otherwise: one company; the item count of the first listed company; the histogram of exactly those items, summing to the count |
| AnalyticsController.HistogramCoversItems | src/main/java/com/joe/springsecurity/analytics/AnalyticsController.java:46-50 | A name is a key exactly when some item of the company is in a category of that name, and no key counts zero |

## Left out

- **Cryptography.** The HS512 signature, the signing key and BCrypt are not modelled.
  - Tokens are an injective, `;`-delimited text encoding of the claims, and the parser refuses anything else.
  - The password encoder and matcher are opaque function parameters.
  - Hence AuthenticationController.RefreshCookieRoundTrip requires a token without `;`, as a base64url JWT is.
- **Clock.** Time is one `now` in milliseconds per call. The token library's truncation to whole seconds is not modelled.
- **Outbound e-mail.** The welcome, login and switch notifications and the password-reset request mail are I/O whose failures are swallowed. They are no-ops here.
- **Servlet and Spring context.** The security context, servlet cookies and response objects are explicit values:
  - an `Authentication` holding the name, credentials and principal;
  - a cookie list;
  - a list of `Set-Cookie` strings.
- **JWT filter, logout and CORS filters.** The filter that derives the caller for the URL rules is not part of this model. `SecurityConfig.Caller` is given. The logout filter answers `/logout` for any caller (SecurityConfig.java:62-66), and the CORS filter answers preflight requests (SecurityConfig.java:44); both run before the URL rules, so `SecurityConfig.OtherRequestsNeedAuthentication` and `SecurityConfig.InventoryNeedsARole` speak of the requests that reach the rules, not of `/logout` or preflights.
- **Persistence.** JPA sessions, transactions, pagination and sorting are not modelled.
  - Tables are maps and listings are sets of ids.
  - Each service call is atomic, so the race between concurrent revoke-then-save sequences is not captured.
  - The constraint names in data-integrity errors are representative.
- **Framework exception texts.** Every `Wrappers.Message` text of an exception raised by a framework (the null-id refusal, data-integrity and constraint failures, the parser's and the authentication manager's exceptions, a non-unique result) is representative. The program's own texts add the framework's detail, such as the "SQL [n/a]" part and the "; nested exception is …" suffix of translated repository exceptions. Two modelled HTTP bodies carry such a text: the 403 of the switch-company endpoint (AuthenticationController.SwitchCompanyResponse) and the 500 of the register endpoint, "Error registering user: " followed by the message (AuthenticationController.RegisterResponse). So do the 500 reasons of category creation and batch creation (ItemCategoryService.CreateDecision, ItemCategoryService.BatchCreateDecision).
- **Scheduler.** TokenCleanupTask only calls the sweep, which is modelled as `Store.World.DeleteExpiredOrLoggedOutTokens`.
- **Prices.** Item prices are floating point in the source and opaque values here. The derived total price is not modelled, nor is the price's lower bound of 0.0 among the item constraints (InventoryItem.java:26).
- **Entity constraints.** Rows are checked against their bean-validation constraints when they are written. The model states the name length and the item type of a category and the name length and quantity of an item. Lengths count characters, not UTF-16 code units, and a null name is not modelled (it is an empty string here). The constraint violation carries a representative message.
- **Controller validation.** The inventory endpoints validate the posted item before the service runs (InventoryItemController.java:108,127; InventoryController.java:70,84) and answer 400 for an item that breaks its constraints. That request-level check is not modelled; the refusal the service's own save makes for the same row is. The category endpoints validate a DTO that declares no constraints, so nothing is refused there.
- **Method security.** Method security is enabled (SecurityConfig.java:27), and the controllers check roles with `@PreAuthorize` before the services run. These checks are not modelled; the services are modelled as reached. Creating and updating items and every category write need ADMIN or SUPER_ADMIN (InventoryItemController.java:107,126; InventoryController.java:69,83; ItemCategoryController.java:48,114,133,158,177). Deleting an item needs ADMIN (InventoryItemController.java:145; InventoryController.java:95). The company and country controllers, and the user-details endpoint (AuthenticationController.java:117), have role checks of their own.
- **Other controllers.** Apart from that validation and those role checks, these map exceptions to status codes or duplicate routes. They are not part of this model:
  - the inventory, item-category, company, country, e-mail, user and reset-request controllers;
  - InventoryController;
  - the global exception handler;
  - AuditLogAspect.
- **User account flags.** The four account flags of User are constant true. They are not fields of the model.
- **Code that does not compile as written.** It is modelled with its evident intent:
  - the user lookup by e-mail;
  - the authentication response built with more arguments than its only constructor takes (AuthenticationResponse.java:34 takes eight; AuthenticationService.java:229-232 passes ten);
  - the authentication response built with three arguments (AuthenticationService.java:333,341,355 and AuthenticationController.java:73,153): the model's `MessageOnly` bodies are these, a message with every other field empty;
  - the item's category: InventoryItem.java:17-37 declares no `itemCategory` field, yet InventoryItemService.java:97,120,126,149,180,186,224 and AnalyticsController.java:48 use its accessors and ItemCategory.java:37 maps its item list by it; the model gives every item a `category` id;
  - company fields that the company DTO lacks;
  - the principal cast and the company-id list that AnalyticsController reads: the caller's company ids are a parameter.
- **Password-reset token text.** It is a random UUID in the source and is supplied by the caller.
- **Null references.** Null category and country ids in requests are not modelled: requests carry ids.
- **Default company choice.** `getDefaultCompany` takes whichever member the hash set yields first. The model chooses an arbitrary member.
- **E-mail configuration uniqueness.** The one-to-one join column from a configuration to its company is treated as unique. A second configuration for a company therefore fails on the constraint.
- AuthenticationService.RefreshTokenSingleUse, AuthenticationService.AccessTokenRevokedByRotation: they assume `Store.TokensConsistent`, which `World.Valid()` does not carry because an overwriting registration breaks it. Its preservation is proved on table values for the rotation (AuthenticationService.TokensConsistentRotated), the sweep and user updates that keep usernames (Store.TokensConsistentSwept, Store.TokensConsistentForUsers), not as a postcondition of each service.
- AuthenticationService.CheckRefresh, AuthenticationService.RefreshToken: of the exceptions, only "User not found" and "Company not found" are stated; those of a malformed token, a non-unique lookup and a null company claim are stated only as a refusal without a reply.
- AuthenticationService.Authenticate: the chosen member company is not characterised beyond being a member, because the source's choice depends on hash-set iteration order.
- ItemCategoryService.GetAllItemCategories: its own contract gives one direction of membership. ItemCategoryService.ListedIffReadable gives the other.
- AuthenticationController.Register: the contract does not restate the 500 body; AuthenticationController.RegisterResponse states it.

## Behaviour worth knowing

- Registration binds the whole posted user, id included, and saves it with a merge (AuthenticationService.java:94; User.java declares a settable id). Posting the id of an existing account overwrites that account with the new username, password, roles and company (AuthenticationService.RegisterTakesOverAccount). The account's earlier token pairs stay stored under their old username (AuthenticationService.TakenOverAccountKeepsOldPairs).
- Item creation saves the posted item the same way (InventoryItemService.java:121). Posting the id of another company's item moves that item into the caller's company, overwriting it (InventoryItemService.CreateTakesOverForeignItem). Update copies fields onto the stored row, so it is not affected.
- Registration keeps any non-empty posted role set (AuthenticationService.RegisteredRoles), so a client can register itself as SUPER_ADMIN.
- The company-claim check in `validateCompanyContext` can never refuse. The current-company lookup it compares with already selected the member company by that same claim (ItemCategoryService.ContextIsCurrentUserCompany).
- Two branches can never run:
  - the 409 branch of the register endpoint (AuthenticationController.RegisterNeverConflicts);
  - the BAD_REQUEST branch of the reset endpoint, because token validation throws instead of answering false (PasswordResetTokenService.ValidateToken never answers false).
- The first-match order of the URL rules makes the method-specific inventory write rules dead, so the filter chain lets a plain USER through to the inventory writes (SecurityConfig.UserMayWriteInventory). The dead rules are redundant rather than a hole: the write endpoints' own role checks refuse a USER with 403 (see "Method security" under Left out). Those checks are stricter than the dead rules in one place: deleting an item needs ADMIN (InventoryItemController.java:145; InventoryController.java:95), so a SUPER_ADMIN's delete is refused although SecurityConfig.java:52 would allow it.
- `updateCountry` does not check names, so two countries can come to share a name. After that, creating that name fails with a non-unique-result error (CountryService.UpdateCanDuplicateName).
