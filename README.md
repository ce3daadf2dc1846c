# Shop cart and catalog core, in Dafny

This project models the core of an electronics shop: the cart, the stores behind it and the catalog helpers around it.

The cart is a list of line items. Each line holds a product id, a quantity of 1 to 5, and snapshots of the product's price, name and image.

Three copies of the cart apply the same rules:
- the server's cart document (`server/models/Cart.js`);
- the Express handlers that work on the JSON-file store (`routes/cart.js`);
- the guest cart kept in the browser (`src/services/cartService.ts`).

Module `LineItems` defines those rules once, as the functions `AddLine`, `SetQuantity` and `RemoveLine` and the two totals. The three copies are imperative:
- `CartModel.CartDocument` is a class over the document's fields;
- `CartRoutes` holds handler methods on the store;
- `LocalCart.CartService` is a class over the stored list.

Each of them proves that its methods do what those functions say.

The stores are classes whose fields are the lists they rewrite:
- `JsonDatabase.Database` (`server/utils/jsonDatabase.js`) keeps one sequence per JSON file;
- `DemoApi.DemoApiService` (`src/services/demoApiService.ts`) keeps the offline back end's two arrays;
- `UserStore.UserService` and `ProductStore.ProductService` (`src/data/users.ts`, `src/data/products.ts`) keep the static seed stores.

`ProductCatalog` covers the pure helpers of `src/services/productService.ts`: client-side filtering, the sorted distinct categories and the demo statistics.

Shared modules:
- `Wrappers` holds `Option`.
- `Seqs` holds filter, find, find-index and filter-out-by-key on sequences, with lemmas about order, membership and idempotence.
- `Text` holds lower-casing, substring search, code-point string order and the UTF-16 length of a string.
- `Entities` holds the product and user records and the object-spread patch.

Conventions:
- Every id or token the program builds from the clock arrives as a parameter named `stamp`.
- Prices are whole currency units, and ratings are tenths of a star.

## Model

| member | source | states |
|---|---|---|
| LineItems.TotalItems | src/services/cartService.ts:208-210 | defines the item count: the sum of the lines' quantities, as the pre-save hook and the guest cart compute it |
| LineItems.TotalAmount | src/services/cartService.ts:204-206 | defines the amount: the sum of each line's price times its quantity |
| LineItems.QuantityOf | src/services/cartService.ts:212-222 | 0 when no line names the product; in a cart without duplicate lines, exactly the quantity of the product's line |
| LineItems.AddLine | server/models/Cart.js:75-94 | refused, with the cap error, exactly when the held quantity plus the added one exceeds 5; on success the product's line holds the sum and the new price/name/image snapshot, a line is appended only when the product had none, every other line is untouched, and unique product ids and the [1, 5] bound are kept (the bound for an added quantity of at least 1) |
| LineItems.SetQuantity | server/models/Cart.js:100-113 | refused exactly when the quantity is outside [1, 5] (checked first, InvalidQuantity) or the product has no line (ItemNotFound); otherwise the length is kept, the product's quantity becomes the new one, every line keeps its product and snapshots, every other line is unchanged, and uniqueness and the bound are kept |
| LineItems.RemoveLine | server/models/Cart.js:117-122 | no line for the product remains, every other line survives, no line appears that was not there, and removing an absent product changes nothing |
| LineItems.TotalsAppend | src/services/cartService.ts:204-210 | the item count and the amount of two concatenated lists are the sums of their parts |
| LineItems.AddLineTotals | routes/cart.js:114-121 | after a successful add the item count rises by exactly the added quantity, and the amount changes only by the product's old and new line |
| LineItems.SetQuantityTotals | routes/cart.js:203-210 | after a quantity change the item count moves from the line's old quantity to the new one |
| LineItems.RemoveLineTotals | routes/cart.js:255-265 | in a cart without duplicate lines, removing a product subtracts exactly its quantity from the item count and its line's amount from the amount |
| LineItems.RemoveLineOrderAndIdempotence | src/services/cartService.ts:93-100 | the remaining lines keep their order, and removing the same product again changes nothing |
| LineItems.RemoveLineKeepsCap | server/models/Cart.js:117-122 | removal keeps every remaining line within [1, 5] |
| LineItems.RemoveLineKeepsUnique | server/models/Cart.js:117-122 | removal keeps product ids unique |
| LineItems.TotalItemsBounds | server/models/Cart.js:9-14 | with every line within [1, 5], the item count lies between the number of lines and five times it |
| LineItems.TotalAmountNonNegative | server/models/Cart.js:38-42 | with quantities of at least 1 and non-negative prices, the amount is never negative |
| CartModel.SchemaValid | server/models/Cart.js:3-27 | defines the line schema a save checks: quantity within [1, 5], a price of at least 0 and a non-empty name |
| CartModel.CartDocument.constructor | server/models/Cart.js:29-52 | a new cart has no lines, zero totals and no stored copy |
| CartModel.CartDocument.Save | server/models/Cart.js:3-65 | when every line passes the schema (quantity in [1, 5], price at least 0, a name), the totals become the quantity sum and the price-times-quantity sum and that snapshot is stored; otherwise the save fails and the stored copy and totals stay as they were; the lines never change, and a stored cart always has unique lines, matching totals and a non-negative amount |
| CartModel.CartDocument.AddItem | server/models/Cart.js:68-97 | a merge refused by the cap leaves the whole document unchanged; otherwise the lines become `AddLine`'s result and the save follows |
| CartModel.CartDocument.UpdateItemQuantity | server/models/Cart.js:100-114 | a quantity outside [1, 5] or an absent line leaves the document unchanged with that error; otherwise the lines become `SetQuantity`'s result and the save follows |
| CartModel.CartDocument.RemoveItem | server/models/Cart.js:117-122 | the lines become `RemoveLine`'s result, then the save follows |
| CartModel.CartDocument.Clear | server/models/Cart.js:125-128 | no lines remain, both totals are 0, and the empty cart is stored |
| CartRoutes.Status | routes/cart.js:58-73 | the status is 404 exactly for a missing product, cart or line, and 400 for every other refusal |
| CartRoutes.Persist | routes/cart.js:113-124 | afterwards the user's stored cart holds exactly the new lines, with both totals recomputed from them |
| CartRoutes.PersistKeepsConsistent | routes/cart.js:113-124 | saving lines without duplicates keeps every stored cart consistent with its totals |
| CartRoutes.EmptyCartKeepsConsistent | routes/cart.js:76-84 | appending an empty cart with zero totals keeps the store consistent |
| CartRoutes.ItemsOfUnique | routes/cart.js:87-89 | in a consistent store the user's lines name each product at most once |
| CartRoutes.LoadOrCreate | routes/cart.js:76-84 | returns the user's first cart unchanged, or appends an empty cart with zero totals when there is none; consistency is kept and products and users are untouched |
| CartRoutes.Save | routes/cart.js:113-124 | the store becomes the upsert of the new lines with recomputed totals, taking into account a cart created earlier in the same request |
| CartRoutes.GetCart | routes/cart.js:9-33 | always succeeds with the user's lines; the store changes only by the lazily created empty cart |
| CartRoutes.PlanAdd | routes/cart.js:40-111 | refuses with a validation error exactly for an empty id or a quantity outside [1, 5], and with product-not-found exactly for an unknown id; for a valid request naming the first catalog product with the id, refuses with out-of-stock exactly when it is out of stock and with the cap error exactly when it is in stock and the held quantity plus the request exceeds 5, and otherwise stores `AddLine`'s lines with that product's price, name and image; a stored result raises the product's quantity by the request to at most 5 and keeps uniqueness and the bound |
| CartRoutes.QuantityAfterAdd | routes/cart.js:91-99 | a successful merge raises the product's quantity by exactly the added amount |
| CartRoutes.AddItem | routes/cart.js:36-147 | every refusal `PlanAdd` decides leaves the carts untouched; otherwise the store becomes the upsert of the planned lines with recomputed totals, and the response is that stored cart; consistency is kept |
| CartRoutes.UpdateItem | routes/cart.js:150-239 | a bad quantity, a missing cart and a missing line each give their error and write nothing; otherwise `SetQuantity`'s lines are saved with recomputed totals and returned |
| CartRoutes.RemoveItem | routes/cart.js:242-282 | a missing cart gives not-found and writes nothing; otherwise `RemoveLine`'s lines are saved with recomputed totals, even when the product was absent |
| CartRoutes.ClearCart | routes/cart.js:285-315 | a missing cart gives not-found; otherwise the cart is saved with no lines and both totals 0 |
| CartRoutes.SyncStep | routes/cart.js:354-379 | defines how one guest entry is folded in: skipped for an unknown or out-of-stock product or a merge over 5, otherwise `AddLine`'s lines |
| CartRoutes.SyncLines | routes/cart.js:351-385 | defines the in-order fold of `SyncStep` over all guest entries |
| CartRoutes.MergeLocal | routes/cart.js:354-379 | one guest entry is folded in as `SyncStep` says: skipped for a missing or out-of-stock product or a refused merge, otherwise `AddLine`'s result |
| CartRoutes.SyncItems | routes/cart.js:351-385 | the loop's result is the in-order fold `SyncLines` of all guest entries |
| CartRoutes.SyncCart | routes/cart.js:318-413 | the cart is found or created, every guest entry is folded in, and the result is saved once with recomputed totals; consistency is kept |
| CartRoutes.SyncedStoreConsistent | routes/cart.js:388-398 | saving the synced lines keeps the store consistent |
| CartRoutes.SyncKeepsUnique | routes/cart.js:357-379 | sync never gives a product a second line |
| CartRoutes.SyncKeepsCap | routes/cart.js:361-379 | when every guest quantity is at least 1, sync keeps every line within [1, 5] |
| CartRoutes.SyncLeavesOtherLines | routes/cart.js:351-385 | sync only appends lines, and a line that no guest entry names stays exactly as it was |
| CartRoutes.SyncAdmitsZeroQuantity | routes/cart.js:369-378 | a guest entry with quantity 0 for an in-stock product becomes a line with quantity 0, outside the bound |
| CartRoutes.SyncSkipsOverCapAndOutOfStock | routes/cart.js:354-368 | a merge over the cap and an out-of-stock product are both skipped, so the existing line is unchanged |
| CartRoutes.SyncIntoEmptyCart | routes/cart.js:351-398 | into an empty cart, each in-stock entry becomes one line in order, with totals 3 and 4030 in the example |
| LocalCart.CanAddMoreItems | src/services/cartService.ts:224-229 | defines the UI pre-check: the held quantity plus the added one (1 when not given) is at most 5 |
| LocalCart.CanAddMoreItemsMatchesAdd | src/services/cartService.ts:224-229 | the UI pre-check holds exactly when adding the units would be accepted |
| LocalCart.CartService.constructor | src/services/cartService.ts:11-19 | a missing storage entry reads as the empty, valid cart |
| LocalCart.CartService.GetLocalCart | src/services/cartService.ts:11-19 | reads back the stored list |
| LocalCart.CartService.SaveLocalCart | src/services/cartService.ts:21-27 | the stored list becomes the given one |
| LocalCart.CartService.ClearLocalCart | src/services/cartService.ts:29-35 | the stored list becomes empty |
| LocalCart.CartService.AddToLocalCart | src/services/cartService.ts:38-72 | the outcome is `AddLine` with the product's snapshot; a refusal stores nothing; validity is kept for a quantity of at least 1 |
| LocalCart.CartService.UpdateLocalCartItem | src/services/cartService.ts:75-90 | the outcome is `SetQuantity`; a refusal stores nothing; validity is kept |
| LocalCart.CartService.RemoveFromLocalCart | src/services/cartService.ts:93-100 | the product's lines are filtered out and saved whether or not it was present; validity is kept |
| LocalCart.AddZeroStoresEmptyLine | src/services/cartService.ts:55-67 | adding 0 units of a new product stores a line with quantity 0 |
| JsonDatabase.ByCategory | server/utils/jsonDatabase.js:37-39 | a category other than empty or "all" keeps only products of that category |
| JsonDatabase.ByBrand | server/utils/jsonDatabase.js:41-43 | a non-empty brand keeps only that brand |
| JsonDatabase.ByMinPrice | server/utils/jsonDatabase.js:45-47 | a given minimum keeps only products priced at least that |
| JsonDatabase.ByMaxPrice | server/utils/jsonDatabase.js:49-51 | a given maximum keeps only products priced at most that |
| JsonDatabase.ByStock | server/utils/jsonDatabase.js:53-55 | a given stock flag keeps only products with that flag |
| JsonDatabase.BySearch | server/utils/jsonDatabase.js:57-64 | a non-empty search keeps only products whose lower-cased name or description contains the lower-cased text |
| JsonDatabase.FilterProducts | server/utils/jsonDatabase.js:37-64 | a product is kept exactly when it is in the catalog and passes every supplied filter |
| JsonDatabase.EffectivePage | server/utils/jsonDatabase.js:87 | the page is never 0: a missing, unparsable or zero page becomes 1 |
| JsonDatabase.EffectiveLimit | server/utils/jsonDatabase.js:88 | the limit is never 0: a missing, unparsable or zero limit becomes 12 |
| JsonDatabase.SliceIndex | server/utils/jsonDatabase.js:92 | a slice index is clamped into [0, n], and a non-negative index is kept up to n |
| JsonDatabase.GetProducts | server/utils/jsonDatabase.js:32-104 | every product on the page matches the query; totalProducts is the filtered count, currentPage is the effective page, and hasPreviousPage holds exactly when it is above 1 |
| JsonDatabase.PageWindow | server/utils/jsonDatabase.js:87-100 | for a positive page and limit, the page is the window of the sorted list that starts at (page-1)*limit and holds at most limit products, cut at the end; hasNextPage holds exactly when the window ends before the list does |
| JsonDatabase.NextPageBeforeLast | server/utils/jsonDatabase.js:97-100 | for a positive page and limit, hasNextPage holds exactly when currentPage is below totalPages |
| JsonDatabase.BelowCeil | server/utils/jsonDatabase.js:98 | k is below the rounded-up quotient n/d exactly when k*d is below n |
| JsonDatabase.FindProduct | server/utils/jsonDatabase.js:106-109 | nothing exactly when no product has the id; otherwise the first catalog product with that id |
| JsonDatabase.FindCart | server/utils/jsonDatabase.js:199-202 | nothing exactly when the user has no cart; otherwise the user's first stored cart, so a later duplicate is never returned |
| JsonDatabase.UpsertCart | server/utils/jsonDatabase.js:217-232 | rewrites the lines and totals of the user's first cart, keeping its id, or appends a new cart when the user has none; every other record is unchanged |
| JsonDatabase.DuplicateCartIsShadowed | server/utils/jsonDatabase.js:204-215 | a second cart for a user is stored, but lookups keep returning the first one |
| JsonDatabase.CreateThenUpsert | server/utils/jsonDatabase.js:217-223 | creating an empty cart and then saving lines into it stores the same as an upsert that creates the cart directly |
| JsonDatabase.Database.constructor | server/utils/jsonDatabase.js:4-7 | the store starts from the three given file contents |
| JsonDatabase.Database.GetProductPage | server/utils/jsonDatabase.js:32-104 | exactly `GetProducts` over the products file, so its filtering, pagination fields and page window carry over; every listed product is a stored one matching the query, and the total counts the matches |
| JsonDatabase.Database.GetProductById | server/utils/jsonDatabase.js:106-109 | nothing exactly when no product has the id; otherwise the first stored product with that id |
| JsonDatabase.Database.CreateProduct | server/utils/jsonDatabase.js:111-122 | appends the payload under the id the payload carries, or the fresh id when it carries none; users and carts are untouched |
| JsonDatabase.Database.UpdateProduct | server/utils/jsonDatabase.js:124-136 | an unknown id returns nothing and writes nothing; otherwise only the first product with the id is patched, and it is returned |
| JsonDatabase.Database.DeleteProduct | server/utils/jsonDatabase.js:138-143 | every product with the id is removed, and the answer is true exactly when one existed |
| JsonDatabase.Database.GetUsers | server/utils/jsonDatabase.js:146-148 | the whole users file |
| JsonDatabase.Database.GetUserById | server/utils/jsonDatabase.js:150-153 | nothing exactly when no user has the id; otherwise the first stored user with it |
| JsonDatabase.Database.GetUserByEmail | server/utils/jsonDatabase.js:155-158 | nothing exactly when no user has the email; otherwise the first stored user with it |
| JsonDatabase.Database.CreateUser | server/utils/jsonDatabase.js:160-171 | appends the payload under the id it carries, or the fresh id |
| JsonDatabase.Database.UpdateUser | server/utils/jsonDatabase.js:173-185 | an unknown id returns nothing and writes nothing; otherwise only the first user with the id is patched |
| JsonDatabase.Database.DeleteUser | server/utils/jsonDatabase.js:187-192 | every user with the id is removed, and the answer is true exactly when one existed |
| JsonDatabase.Database.GetCarts | server/utils/jsonDatabase.js:195-197 | the whole carts file |
| JsonDatabase.Database.GetCartByUserId | server/utils/jsonDatabase.js:199-202 | nothing exactly when the user has no cart; otherwise the user's first stored cart |
| JsonDatabase.Database.CreateCart | server/utils/jsonDatabase.js:204-215 | appends a cart under the fresh id without looking for an existing one |
| JsonDatabase.Database.UpdateCart | server/utils/jsonDatabase.js:217-232 | the carts become `UpsertCart`'s result, and the returned record is what a lookup now finds |
| JsonDatabase.Database.DeleteCart | server/utils/jsonDatabase.js:234-239 | every cart of the user is removed, and the answer is true exactly when one existed |
| DemoApi.SetRole | src/services/demoApiService.ts:222-240 | an unknown id is refused; demoting an administrator is refused while at most one exists; otherwise only that user's role changes, and at least one administrator is always left |
| DemoApi.RemoveUser | src/services/demoApiService.ts:242-261 | an unknown id is refused; deleting an administrator is refused while at most one exists; otherwise exactly the first user with the id is spliced out, and at least one administrator is always left |
| DemoApi.SetRoleAdminCount | src/services/demoApiService.ts:230-239 | a role change moves the administrator count down by one for a demotion and up by one for a promotion |
| DemoApi.DemoUsers | src/services/demoApiService.ts:73-95 | the seed has exactly one administrator |
| DemoApi.SeedAdminIsProtected | src/services/demoApiService.ts:222-261 | the only seeded administrator can be neither demoted nor deleted |
| DemoApi.NewProduct | src/services/demoApiService.ts:167-187 | a new product has id "product-" plus the stamp, rating 0, no reviews, and every other field from the draft |
| DemoApi.DemoApiService.constructor | src/services/demoApiService.ts:6-95 | the service starts from the seed catalog and seed users |
| DemoApi.DemoApiService.Login | src/services/demoApiService.ts:102-119 | succeeds exactly for a known email with a password of at least six UTF-16 code units (JavaScript's `length`), returning the first user with that email and a token from the stamp; an unknown email is reported before a short password |
| DemoApi.LoginCountsCodeUnits | src/services/demoApiService.ts:111 | for a known email, a password of three emoji (three characters, six code units) is accepted |
| Text.Utf16Length | src/services/demoApiService.ts:111 | a string's `length` in UTF-16 code units lies between its number of characters and twice that |
| Text.Utf16LengthBmp | src/services/demoApiService.ts:111 | the code-unit length equals the character count exactly when every character is in the Basic Multilingual Plane |
| Text.ThreeEmojiAreSixUnits | src/services/demoApiService.ts:111 | three emoji are three characters but six code units |
| DemoApi.DemoApiService.Register | src/services/demoApiService.ts:121-148 | a taken email is refused and nothing changes; otherwise one customer with id "user-" plus the stamp is appended and signed in |
| DemoApi.DemoApiService.GetProducts | src/services/demoApiService.ts:162-165 | the whole catalog |
| DemoApi.DemoApiService.GetUsers | src/services/demoApiService.ts:217-220 | the whole user list |
| DemoApi.DemoApiService.CreateProduct | src/services/demoApiService.ts:167-187 | appends `NewProduct` of the draft |
| DemoApi.DemoApiService.UpdateProduct | src/services/demoApiService.ts:189-203 | an unknown id fails and changes nothing; otherwise only the first product with the id is patched (an `originalPrice` key present but undefined clears the field), and its id is kept |
| DemoApi.DemoApiService.DeleteProduct | src/services/demoApiService.ts:205-214 | an unknown id fails and changes nothing; otherwise exactly the first product with the id is spliced out |
| DemoApi.DemoApiService.UpdateUserRole | src/services/demoApiService.ts:222-240 | behaves as `SetRole`, writes only on success, keeps at least one administrator, and returns the updated user: the found user with the new role |
| DemoApi.DemoApiService.DeleteUser | src/services/demoApiService.ts:242-261 | behaves as `RemoveUser`, writes only on success, and keeps at least one administrator |
| UserStore.Stats | src/data/users.ts:101-115 | total is the number of users, admins counts the administrators and users counts the customers, the two split the total between them, and there are no admins exactly when every user is a customer |
| UserStore.SeedStats | src/data/users.ts:4-41 | the seed has four users: one administrator and three customers |
| UserStore.LastAdminCanBeDemoted | src/data/users.ts:82-84 | this store lets the only administrator be demoted, leaving none |
| UserStore.UserService.constructor | src/data/users.ts:44-45 | the store starts as a copy of the seed |
| UserStore.UserService.GetAllUsers | src/data/users.ts:48-50 | a copy of the current list |
| UserStore.UserService.GetUserById | src/data/users.ts:53-55 | nothing exactly when no user has the id; otherwise the first stored user with it |
| UserStore.UserService.GetUserByEmail | src/data/users.ts:58-60 | nothing exactly when no user has the email; otherwise the first stored user with it |
| UserStore.UserService.AddUser | src/data/users.ts:63-70 | appends exactly one user, with the fresh id replacing any id it came with and all other fields copied |
| UserStore.UserService.UpdateUser | src/data/users.ts:73-79 | an unknown id returns nothing; otherwise only that index is patched, and the patched user is returned |
| UserStore.UserService.ChangeUserRole | src/data/users.ts:82-84 | only the role of the first user with the id changes |
| UserStore.UserService.DeleteUser | src/data/users.ts:87-93 | false and no change for an unknown id; otherwise exactly the first user with the id is spliced out |
| UserStore.UserService.ResetUsers | src/data/users.ts:96-98 | the list is the seed again |
| UserStore.UserService.GetUserStats | src/data/users.ts:101-115 | `Stats` of the current list: total is its length, admins counts the administrators and users the customers, and the two add up to the total |
| ProductStore.ProductService.constructor | src/data/products.ts:126-127 | the store starts as a copy of the seed |
| ProductStore.ProductService.GetAllProducts | src/data/products.ts:129-131 | a copy of the current list |
| ProductStore.ProductService.GetProductById | src/data/products.ts:133-135 | nothing exactly when no product has the id; otherwise the first stored product with it |
| ProductStore.ProductService.AddProduct | src/data/products.ts:137-144 | appends exactly one product, with the fresh id replacing any id it came with |
| ProductStore.ProductService.UpdateProduct | src/data/products.ts:146-152 | an unknown id returns nothing; otherwise only that index is patched, and the patched product is returned |
| ProductStore.ProductService.DeleteProduct | src/data/products.ts:154-160 | false and no change for an unknown id; otherwise exactly the first product with the id is spliced out |
| ProductStore.ProductService.ResetProducts | src/data/products.ts:162-164 | the list is the seed again |
| ProductStore.SpliceRemovesFirstMatch | src/data/products.ts:154-160 | deleting removes one element, keeps the others in order, and keeps every other product |
| Entities.PatchProduct | src/services/demoApiService.ts:200 | defines the object spread of a patch over a product: every key the patch carries wins, even an `originalPrice` key that is present but undefined, which clears the field |
| Entities.PatchProductLaws | src/services/demoApiService.ts:200 | spreading a patch twice is the same as once, the empty patch changes nothing, an `originalPrice` key present but undefined clears the field, and an absent key keeps it |
| Entities.PatchUser | src/data/users.ts:77 | defines the object spread of a patch over a user, with `avatar` as the optional field |
| Entities.PatchUserLaws | src/data/users.ts:77 | the same laws for users: idempotent, the empty patch changes nothing, an `avatar` key present but undefined clears it, and an absent key keeps it |
| ProductCatalog.ProductMatches | src/services/productService.ts:191-202 | defines the filter test: no search term, or the lower-cased term occurs in the lower-cased name, description or brand; and no category, "all", or the product's own category |
| ProductCatalog.Categories | src/services/productService.ts:206 | defines the list of categories, one per product, in the catalog's order |
| ProductCatalog.FilterProducts | src/services/productService.ts:186-203 | every kept product is from the input and matches the search (case-insensitively, in name, description or brand) and the category, and every matching product is kept |
| ProductCatalog.FilterProductsOrderAndIdempotence | src/services/productService.ts:186-203 | the result keeps the input's order, and filtering it again changes nothing |
| ProductCatalog.FilterProductsWithoutCriteria | src/services/productService.ts:192-199 | with no search term and no category (or "all"), every product comes back |
| ProductCatalog.Dedupe | src/services/productService.ts:207 | the same elements as the input, each once |
| ProductCatalog.Insert | src/services/productService.ts:207 | inserting one element adds exactly that element to the multiset of the list |
| ProductCatalog.Sort | src/services/productService.ts:207 | the result is a permutation of the input: the same elements with the same multiplicities |
| ProductCatalog.SortSorts | src/services/productService.ts:207 | sorting a list without repeats gives a strictly ascending list |
| ProductCatalog.UniqueCategories | src/services/productService.ts:205-208 | strictly ascending, and it holds exactly the categories that occur in the input |
| ProductCatalog.UniqueCategoriesCount | src/services/productService.ts:205-208 | it has no repeats, and its length is the number of distinct categories |
| ProductCatalog.Stats | src/services/productService.ts:163-170 | totalProducts is the count; inStockProducts and outOfStockProducts count the in-stock and the out-of-stock products and make the total between them, and every product is in stock exactly when inStockProducts is the total; totalValue is the sum of the prices; categoriesCount is the number of distinct categories (the length of `UniqueCategories`), at most the total and 0 only for an empty catalog |
| ProductCatalog.AllInStock | src/services/productService.ts:166 | the in-stock filter keeps every product exactly when every product is in stock |
| ProductCatalog.TotalValue | src/services/productService.ts:168 | defines the sum of the catalog's prices |
| ProductCatalog.TotalValueAppend | src/services/productService.ts:168 | the sum of the prices of two catalogs put together is the sum of their sums |
| ProductCatalog.CategoryCount | src/services/productService.ts:169 | the size of the category set equals the length of the distinct category list, is at most the number of products, and is 0 only for an empty catalog |
| ProductCatalog.StatsAppend | src/services/productService.ts:163-170 | over two catalogs put together, the product, in-stock, out-of-stock and total-value statistics add up, and the category count is at most the sum |
| ProductCatalog.CategoriesAppend | src/services/productService.ts:169 | categories the two catalogs share are counted once, so the distinct categories of both together are at most those of each, added |
| ProductCatalog.DemoCatalogStats | src/services/productService.ts:160-171 | over the demo catalog: four products, three in stock, a total value of 5196 and three categories |

## Left out

- Ids and timestamps: `Date.now()` ids and tokens are the `stamp` parameter, and `Register` uses one stamp for both the id and the token. The `createdAt`/`updatedAt` fields are not modelled.
- Delays and I/O: the demo service's artificial delays are not modelled. So are localStorage reads and writes and their swallowed errors, and the JSON files' read and write with their `[]`/`false` fallbacks. Each store is a sequence field, so a failed write is not modelled.
- `verifyToken` (src/services/demoApiService.ts:150-160) only reads localStorage, and is not part of this model.
- The network-backed methods of `cartService.ts` (lines 103-201) forward to the HTTP API and are not part of this model. The same goes for the auth middleware in front of the cart routes. The authenticated user's id is a parameter.
- Floating point: prices, totals and ratings are JavaScript numbers. Here prices are integers and ratings are in tenths of a star. Quantities typed as strings in a request body are not modelled.
- Case folding: `Text.Lower` folds ASCII letters and the basic Cyrillic letters, Ё included. Other scripts are left as they are.
- `Text.Before` orders by code point, which equals JavaScript's UTF-16 order for characters in the Basic Multilingual Plane only.
- JsonDatabase.GetProducts: the sort step is not computed. Its comparator never answers "equal", so the order of equal keys is up to the engine. The sorted order is the `sorted` parameter, required to be a rearrangement of the filtered list.
- JsonDatabase.GetProducts: the exact page window is stated only for a positive page and limit (`PageWindow`). A negative page or limit goes through the same slice rules, but no lemma describes the window.
- A non-numeric `page` or `limit` is `None` in the query, the same as a missing one.
- CartRoutes.UpdateItem: the second range check (routes/cart.js:192-197) cannot fail after the request validator, so it is omitted.
- The create branch of `UpdateCart` cannot be reached from the handlers: each handler loads or creates the cart first. It is modelled all the same.
- CartRoutes.SyncKeepsCap holds only when every guest quantity is at least 1. Sync does not check the lower bound, and `SyncAdmitsZeroQuantity` exhibits a quantity-0 line.
- LocalCart.CartService.AddToLocalCart keeps `Valid` only for a quantity of at least 1. The lower bound is not checked, as `AddZeroStoresEmptyLine` shows.
- DemoApi.DemoApiService.UpdateProduct requires a patch that names only the fields of `CreateProductData`, which is what its TypeScript parameter type allows.
- Aliasing: `updateUserRole` in the demo back end sets the role on the found object in place. Here the list element is replaced at that index, so anyone holding the old object does not see the change.
- The store getters return copies, so no aliasing is modelled there either.
- Concurrency: each handler call is one sequential step. Interleaved requests and their last-write-wins effect on cart records are not modelled.
- Where the written description and the code differ, the model follows the code:
  - `Cart.js`'s `updateItemQuantity` checks the quantity range before it looks up the line;
  - `createProduct`/`createUser` in `jsonDatabase.js` let an id in the payload override the fresh id;
  - `addUser`/`addProduct` in the static stores always use the fresh id.
