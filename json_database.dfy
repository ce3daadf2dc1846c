/**
 * The file-backed store of server/utils/jsonDatabase.js. Each JSON file
 * (products.json, users.json, carts.json) is one sequence field of
 * `Database`; reading a file and writing it back are the reads and the
 * assignments of that field. Generated ids (`Date.now()`) arrive as the
 * `stamp` parameter.
 */
module JsonDatabase {
  import opened Wrappers
  import opened Seqs
  import opened Text
  import opened Entities
  import opened LineItems

  datatype CartRecord = CartRecord(id: string, userId: string, items: seq<LineItem>, totalAmount: int, totalItems: int)

  function CartOwner(c: CartRecord): string { c.userId }

  /**
   * The options of `getProducts`. `None` is an option left undefined (for
   * `page` and `limit` also one whose `parseInt` is NaN).
   */
  datatype ProductQuery = ProductQuery(
    page: Option<int>,
    limit: Option<int>,
    category: Option<string>,
    brand: Option<string>,
    minPrice: Option<int>,
    maxPrice: Option<int>,
    inStock: Option<bool>,
    search: Option<string>)

  datatype Pagination = Pagination(
    currentPage: int,
    totalPages: int,
    totalProducts: int,
    hasNextPage: bool,
    hasPreviousPage: bool)

  datatype ProductPage = ProductPage(products: seq<Product>, pagination: Pagination)

  /** A string option JavaScript treats as true: present and non-empty. */
  predicate Truthy(o: Option<string>)
  {
    o.Some? && o.value != ""
  }

  predicate CategoryActive(q: ProductQuery) { Truthy(q.category) && q.category.value != "all" }
  predicate CategoryOk(q: ProductQuery, p: Product) { q.category.Some? ==> p.category == q.category.value }
  predicate BrandOk(q: ProductQuery, p: Product) { q.brand.Some? ==> p.brand == q.brand.value }
  predicate MinPriceOk(q: ProductQuery, p: Product) { q.minPrice.Some? ==> p.price >= q.minPrice.value }
  predicate MaxPriceOk(q: ProductQuery, p: Product) { q.maxPrice.Some? ==> p.price <= q.maxPrice.value }
  predicate StockOk(q: ProductQuery, p: Product) { q.inStock.Some? ==> p.inStock == q.inStock.value }
  /** The search text, lower-cased, occurs in the lower-cased name or description. */
  predicate SearchOk(q: ProductQuery, p: Product)
  {
    q.search.Some? ==>
      Contains(Lower(p.name), Lower(q.search.value)) || Contains(Lower(p.description), Lower(q.search.value))
  }

  /** Everything the six filters of `getProducts` ask of one product. */
  predicate MatchesQuery(p: Product, q: ProductQuery)
  {
    && (CategoryActive(q) ==> CategoryOk(q, p))
    && (Truthy(q.brand) ==> BrandOk(q, p))
    && (q.minPrice.Some? ==> MinPriceOk(q, p))
    && (q.maxPrice.Some? ==> MaxPriceOk(q, p))
    && (q.inStock.Some? ==> StockOk(q, p))
    && (Truthy(q.search) ==> SearchOk(q, p))
  }

  /** One filter step that runs only when its option is set. */
  function Stage(s: seq<Product>, active: bool, keep: Product -> bool): (r: seq<Product>)
    ensures forall p :: p in r <==> p in s && (active ==> keep(p))
  {
    if active then FilterMembership(s, keep); Filter(s, keep) else s
  }

  lemma FilterMembership<T>(s: seq<T>, keep: T -> bool)
    ensures forall x :: x in Filter(s, keep) <==> x in s && keep(x)
  {
  }

  /** The filter stage of `getProducts`: category, brand, price range, stock, then the search text. */
  function FilterProducts(products: seq<Product>, q: ProductQuery): (r: seq<Product>)
    ensures forall p :: p in r <==> p in products && MatchesQuery(p, q)
  {
    BySearch(ByStock(ByMaxPrice(ByMinPrice(ByBrand(ByCategory(products, q), q), q), q), q), q)
  }

  function ByCategory(s: seq<Product>, q: ProductQuery): (r: seq<Product>)
    ensures forall p :: p in r <==> p in s && (CategoryActive(q) ==> CategoryOk(q, p))
  {
    Stage(s, CategoryActive(q), p => CategoryOk(q, p))
  }

  function ByBrand(s: seq<Product>, q: ProductQuery): (r: seq<Product>)
    ensures forall p :: p in r <==> p in s && (Truthy(q.brand) ==> BrandOk(q, p))
  {
    Stage(s, Truthy(q.brand), p => BrandOk(q, p))
  }

  function ByMinPrice(s: seq<Product>, q: ProductQuery): (r: seq<Product>)
    ensures forall p :: p in r <==> p in s && MinPriceOk(q, p)
  {
    Stage(s, q.minPrice.Some?, p => MinPriceOk(q, p))
  }

  function ByMaxPrice(s: seq<Product>, q: ProductQuery): (r: seq<Product>)
    ensures forall p :: p in r <==> p in s && MaxPriceOk(q, p)
  {
    Stage(s, q.maxPrice.Some?, p => MaxPriceOk(q, p))
  }

  function ByStock(s: seq<Product>, q: ProductQuery): (r: seq<Product>)
    ensures forall p :: p in r <==> p in s && StockOk(q, p)
  {
    Stage(s, q.inStock.Some?, p => StockOk(q, p))
  }

  function BySearch(s: seq<Product>, q: ProductQuery): (r: seq<Product>)
    ensures forall p :: p in r <==> p in s && (Truthy(q.search) ==> SearchOk(q, p))
  {
    Stage(s, Truthy(q.search), p => SearchOk(q, p))
  }

  /** The requested page, with 1 in place of a missing, unparsable or zero value. */
  function EffectivePage(page: Option<int>): (r: int)
    ensures r != 0
  {
    match page
    case Some(p) => if p == 0 then 1 else p
    case None => 1
  }

  /** The requested page size, with 12 in place of a missing, unparsable or zero value. */
  function EffectiveLimit(limit: Option<int>): (r: int)
    ensures r != 0
  {
    match limit
    case Some(l) => if l == 0 then 12 else l
    case None => 12
  }

  /** How `Array.prototype.slice` reads an index: negative counts from the end, and it is clamped to [0, n]. */
  function SliceIndex(i: int, n: nat): (r: nat)
    ensures r <= n
    ensures 0 <= i ==> r == if i <= n then i else n
  {
    if i < 0 then (if n + i < 0 then 0 else n + i)
    else if i > n then n
    else i
  }

  /** JavaScript's array slice between two indices, each read as by `SliceIndex`. */
  function Slice<T>(s: seq<T>, start: int, end: int): seq<T>
  {
    var a := SliceIndex(start, |s|);
    var b := SliceIndex(end, |s|);
    if b <= a then [] else s[a..b]
  }

  /** The quotient `n / d` rounded up, as the page count computes it. */
  function CeilDiv(n: nat, d: int): int
    requires d != 0
  {
    if d > 0 then (n + d - 1) / d else -(n / -d)
  }

  /**
   * `getProducts` after the filters. The sort that runs next orders by a
   * comparator that never answers "equal", so its order is the engine's;
   * `sorted` is that order, any arrangement of the filtered list. The
   * result is one page of it with the pagination summary.
   */
  function GetProducts(products: seq<Product>, q: ProductQuery, sorted: seq<Product>): (r: ProductPage)
    requires multiset(sorted) == multiset(FilterProducts(products, q))
    ensures forall p | p in r.products :: p in products && MatchesQuery(p, q)
    ensures r.pagination.totalProducts == |FilterProducts(products, q)|
    ensures r.pagination.currentPage == EffectivePage(q.page)
    ensures r.pagination.hasPreviousPage <==> EffectivePage(q.page) > 1
  {
    var page := EffectivePage(q.page);
    var limit := EffectiveLimit(q.limit);
    var startIndex := (page - 1) * limit;
    var endIndex := startIndex + limit;
    var window := Slice(sorted, startIndex, endIndex);
    SortedMembers(products, q, sorted);
    assert |sorted| == |multiset(sorted)| == |FilterProducts(products, q)|;
    ProductPage(
      window,
      Pagination(page, CeilDiv(|sorted|, limit), |sorted|, endIndex < |sorted|, page > 1))
  }

  /** An arrangement of the filtered list holds exactly the matching products. */
  lemma SortedMembers(products: seq<Product>, q: ProductQuery, sorted: seq<Product>)
    requires multiset(sorted) == multiset(FilterProducts(products, q))
    ensures forall p :: p in sorted <==> p in products && MatchesQuery(p, q)
  {
    forall p ensures p in sorted <==> p in FilterProducts(products, q) {
      assert p in sorted <==> p in multiset(sorted);
      assert p in FilterProducts(products, q) <==> p in multiset(FilterProducts(products, q));
    }
  }

  /**
   * For a positive page and limit, page `k` is the window that starts at
   * `(k-1)*limit` and holds `limit` products, cut off at the end of the
   * sorted list; there is a next page exactly when the window ends before
   * the list does.
   */
  lemma PageWindow(products: seq<Product>, q: ProductQuery, sorted: seq<Product>)
    requires multiset(sorted) == multiset(FilterProducts(products, q))
    requires EffectivePage(q.page) >= 1 && EffectiveLimit(q.limit) >= 1
    ensures var limit := EffectiveLimit(q.limit);
      var start := PageStart(EffectivePage(q.page), limit);
      var n := |sorted|;
      var r := GetProducts(products, q, sorted);
      && r.products == sorted[if start < n then start else n .. if start + limit < n then start + limit else n]
      && |r.products| <= limit
      && (r.pagination.hasNextPage <==> start + limit < n)
  {
    var page, limit := EffectivePage(q.page), EffectiveLimit(q.limit);
    var start := PageStart(page, limit);
    SliceWithin(sorted, start, start + limit);
  }

  /** The index of the first product of a page: `(page - 1) * limit`, never negative for a positive page and limit. */
  function PageStart(page: int, limit: int): (r: int)
    requires page >= 1 && limit >= 1
    ensures r >= 0
  {
    MulMonotone(0, page - 1, limit);
    (page - 1) * limit
  }

  /** For non-negative bounds, `slice` is the sub-sequence cut off at the end. */
  lemma SliceWithin<T>(s: seq<T>, a: int, b: int)
    requires 0 <= a <= b
    ensures Slice(s, a, b) == s[if a < |s| then a else |s| .. if b < |s| then b else |s|]
  {
  }

  /** For a positive page and limit, there is a next page exactly when the page is below the page count. */
  lemma NextPageBeforeLast(products: seq<Product>, q: ProductQuery, sorted: seq<Product>)
    requires multiset(sorted) == multiset(FilterProducts(products, q))
    requires EffectivePage(q.page) >= 1 && EffectiveLimit(q.limit) >= 1
    ensures var r := GetProducts(products, q, sorted);
      r.pagination.hasNextPage <==> r.pagination.currentPage < r.pagination.totalPages
  {
    var page, limit := EffectivePage(q.page), EffectiveLimit(q.limit);
    assert (page - 1) * limit + limit == page * limit;
    BelowCeil(page, |sorted|, limit);
  }

  /** `k < ceil(n / d)` exactly when `k * d < n`. */
  lemma {:induction false} BelowCeil(k: int, n: nat, d: int)
    requires k >= 1 && d >= 1
    ensures k < CeilDiv(n, d) <==> k * d < n
  {
    var t := (n + d - 1) / d;
    var m := (n + d - 1) % d;
    assert n + d - 1 == t * d + m && 0 <= m < d;
    if k * d < n {
      if t <= k {
        MulMonotone(t, k, d);
      }
    } else if k < t {
      MulMonotone(k + 1, t, d);
    }
  }

  lemma MulMonotone(a: int, b: int, d: int)
    requires a <= b && d >= 1
    ensures a * d <= b * d
  {
  }

  /** `Array.prototype.find` on products by id, as `getProductById` returns it. */
  function FindProduct(products: seq<Product>, id: string): (r: Option<Product>)
    ensures r.None? <==> forall i :: 0 <= i < |products| ==> products[i].id != id
    ensures r.Some? ==> r.value.id == id && r.value in products
    ensures r.Some? ==> 0 <= FindIndex(products, ProductId, id) && r.value == products[FindIndex(products, ProductId, id)]
  {
    Find(products, ProductId, id)
  }

  /** `getCartByUserId`: the first cart of the user, if any. */
  function FindCart(carts: seq<CartRecord>, userId: string): (r: Option<CartRecord>)
    ensures r.None? <==> forall i :: 0 <= i < |carts| ==> carts[i].userId != userId
    ensures r.Some? ==> r.value.userId == userId && r.value in carts
    ensures r.Some? ==> 0 <= FindIndex(carts, CartOwner, userId) && r.value == carts[FindIndex(carts, CartOwner, userId)]
  {
    Find(carts, CartOwner, userId)
  }

  /**
   * `updateCart`: overwrite the lines and totals of the user's first cart,
   * or, when the user has none, append a new cart with id `stamp`.
   */
  function UpsertCart(carts: seq<CartRecord>, userId: string, items: seq<LineItem>, totalAmount: int, totalItems: int, stamp: string): (r: seq<CartRecord>)
    ensures var i := FindIndex(carts, CartOwner, userId);
      && |r| == |carts| + (if i == -1 then 1 else 0)
      && (forall j :: 0 <= j < |carts| && j != i ==> r[j] == carts[j])
      && FindCart(r, userId) == Some(CartRecord(if i == -1 then stamp else carts[i].id, userId, items, totalAmount, totalItems))
  {
    var i := FindIndex(carts, CartOwner, userId);
    if i == -1 then
      var c := CartRecord(stamp, userId, items, totalAmount, totalItems);
      FindIndexAfterAppend(carts, CartOwner, userId, c);
      carts + [c]
    else
      var c := carts[i].(items := items, totalAmount := totalAmount, totalItems := totalItems);
      FindIndexAfterUpdate(carts, CartOwner, userId, i, c);
      carts[i := c]
  }

  /**
   * `createCart` does not look for an existing cart, so a user can end up
   * with two; lookups keep returning the older one.
   */
  lemma DuplicateCartIsShadowed(carts: seq<CartRecord>, c: CartRecord)
    requires FindCart(carts, c.userId).Some?
    ensures FindCart(carts + [c], c.userId) == FindCart(carts, c.userId)
    ensures |carts + [c]| == |carts| + 1
  {
    FindIndexAfterAppend(carts, CartOwner, c.userId, c);
  }

  /** Creating an empty cart and then saving lines into it is the same as the upsert creating the cart. */
  lemma CreateThenUpsert(carts: seq<CartRecord>, userId: string, items: seq<LineItem>, totalAmount: int, totalItems: int, stamp: string, stamp': string)
    requires FindCart(carts, userId).None?
    ensures UpsertCart(carts + [CartRecord(stamp, userId, [], 0, 0)], userId, items, totalAmount, totalItems, stamp')
         == UpsertCart(carts, userId, items, totalAmount, totalItems, stamp)
  {
    var c := CartRecord(stamp, userId, [], 0, 0);
    FindIndexAfterAppend(carts, CartOwner, userId, c);
    assert (carts + [c])[|carts| := c.(items := items, totalAmount := totalAmount, totalItems := totalItems)]
        == carts + [CartRecord(stamp, userId, items, totalAmount, totalItems)];
  }

  class Database {
    var products: seq<Product>
    var users: seq<User>
    var carts: seq<CartRecord>

    constructor (products: seq<Product>, users: seq<User>, carts: seq<CartRecord>)
      ensures this.products == products && this.users == users && this.carts == carts
    {
      this.products := products;
      this.users := users;
      this.carts := carts;
    }

    /** `getProducts`: filter, take the engine's order of the result, and paginate. */
    function GetProductPage(q: ProductQuery, sorted: seq<Product>): (r: ProductPage)
      requires multiset(sorted) == multiset(FilterProducts(products, q))
      reads this
      ensures r == GetProducts(products, q, sorted)
      ensures forall p | p in r.products :: p in products && MatchesQuery(p, q)
      ensures r.pagination.totalProducts == |FilterProducts(products, q)|
    {
      GetProducts(products, q, sorted)
    }

    function GetProductById(id: string): (r: Option<Product>)
      reads this
      ensures r.Some? ==> r.value in products && r.value.id == id
      ensures r.Some? ==> 0 <= FindIndex(products, ProductId, id) && r.value == products[FindIndex(products, ProductId, id)]
      ensures r.None? <==> forall i :: 0 <= i < |products| ==> products[i].id != id
    {
      FindProduct(products, id)
    }

    /**
     * `createProduct`: append the record. The fresh id `stamp` comes first
     * in the object literal, so an id the payload carries (`payloadId`)
     * overrides it.
     */
    method CreateProduct(data: Product, payloadId: Option<string>, stamp: string) returns (p: Product)
      modifies this
      ensures p == data.(id := if payloadId.Some? then payloadId.value else stamp)
      ensures products == old(products) + [p]
      ensures users == old(users) && carts == old(carts)
    {
      p := data.(id := Pick(payloadId, stamp));
      products := products + [p];
    }

    /** `updateProduct`: merge the patch into the first product with the id; `None` and no write when there is none. */
    method UpdateProduct(id: string, patch: ProductPatch) returns (r: Option<Product>)
      modifies this
      ensures var i := FindIndex(old(products), ProductId, id);
        if i == -1 then r == None && products == old(products)
        else products == old(products)[i := PatchProduct(old(products)[i], patch)] && r == Some(products[i])
      ensures users == old(users) && carts == old(carts)
    {
      var index := FindIndex(products, ProductId, id);
      if index == -1 {
        return None;
      }
      products := products[index := PatchProduct(products[index], patch)];
      r := Some(products[index]);
    }

    /** `deleteProduct`: drop every product with the id; true iff the file got shorter. */
    method DeleteProduct(id: string) returns (deleted: bool)
      modifies this
      ensures products == Without(old(products), ProductId, id)
      ensures deleted <==> exists i :: 0 <= i < |old(products)| && old(products)[i].id == id
      ensures users == old(users) && carts == old(carts)
    {
      var filtered := Without(products, ProductId, id);
      WithoutShrinks(products, ProductId, id);
      deleted := |filtered| < |products|;
      products := filtered;
    }

    /** `getUsers`: the whole users file. */
    function GetUsers(): (r: seq<User>)
      reads this
      ensures r == users
    {
      users
    }

    function GetUserById(id: string): (r: Option<User>)
      reads this
      ensures r.Some? ==> r.value in users && r.value.id == id
      ensures r.Some? ==> 0 <= FindIndex(users, UserId, id) && r.value == users[FindIndex(users, UserId, id)]
      ensures r.None? <==> forall i :: 0 <= i < |users| ==> users[i].id != id
    {
      Find(users, UserId, id)
    }

    function GetUserByEmail(email: string): (r: Option<User>)
      reads this
      ensures r.Some? ==> r.value in users && r.value.email == email
      ensures r.Some? ==> 0 <= FindIndex(users, UserEmail, email) && r.value == users[FindIndex(users, UserEmail, email)]
      ensures r.None? <==> forall i :: 0 <= i < |users| ==> users[i].email != email
    {
      Find(users, UserEmail, email)
    }

    /** `createUser`: append the record; as in `createProduct`, an id in the payload overrides `stamp`. */
    method CreateUser(data: User, payloadId: Option<string>, stamp: string) returns (u: User)
      modifies this
      ensures u == data.(id := if payloadId.Some? then payloadId.value else stamp)
      ensures users == old(users) + [u]
      ensures products == old(products) && carts == old(carts)
    {
      u := data.(id := Pick(payloadId, stamp));
      users := users + [u];
    }

    /** `updateUser`: merge the patch into the first user with the id; `None` and no write when there is none. */
    method UpdateUser(id: string, patch: UserPatch) returns (r: Option<User>)
      modifies this
      ensures var i := FindIndex(old(users), UserId, id);
        if i == -1 then r == None && users == old(users)
        else users == old(users)[i := PatchUser(old(users)[i], patch)] && r == Some(users[i])
      ensures products == old(products) && carts == old(carts)
    {
      var index := FindIndex(users, UserId, id);
      if index == -1 {
        return None;
      }
      users := users[index := PatchUser(users[index], patch)];
      r := Some(users[index]);
    }

    /** `deleteUser`: drop every user with the id; true iff the file got shorter. */
    method DeleteUser(id: string) returns (deleted: bool)
      modifies this
      ensures users == Without(old(users), UserId, id)
      ensures deleted <==> exists i :: 0 <= i < |old(users)| && old(users)[i].id == id
      ensures products == old(products) && carts == old(carts)
    {
      var filtered := Without(users, UserId, id);
      WithoutShrinks(users, UserId, id);
      deleted := |filtered| < |users|;
      users := filtered;
    }

    /** `getCarts`: the whole carts file. */
    function GetCarts(): (r: seq<CartRecord>)
      reads this
      ensures r == carts
    {
      carts
    }

    function GetCartByUserId(userId: string): (r: Option<CartRecord>)
      reads this
      ensures r.Some? ==> r.value in carts && r.value.userId == userId
      ensures r.Some? ==> 0 <= FindIndex(carts, CartOwner, userId) && r.value == carts[FindIndex(carts, CartOwner, userId)]
      ensures r.None? <==> forall i :: 0 <= i < |carts| ==> carts[i].userId != userId
    {
      FindCart(carts, userId)
    }

    /** `createCart`: append a cart for the user under a fresh id, without looking for an existing one. */
    method CreateCart(userId: string, items: seq<LineItem>, totalAmount: int, totalItems: int, stamp: string) returns (c: CartRecord)
      modifies this
      ensures c == CartRecord(stamp, userId, items, totalAmount, totalItems)
      ensures carts == old(carts) + [c]
      ensures products == old(products) && users == old(users)
    {
      c := CartRecord(stamp, userId, items, totalAmount, totalItems);
      carts := carts + [c];
    }

    /** `updateCart`: the upsert; returns the record now stored for the user. */
    method UpdateCart(userId: string, items: seq<LineItem>, totalAmount: int, totalItems: int, stamp: string) returns (c: CartRecord)
      modifies this
      ensures carts == UpsertCart(old(carts), userId, items, totalAmount, totalItems, stamp)
      ensures FindCart(carts, userId) == Some(c)
      ensures c.userId == userId && c.items == items && c.totalAmount == totalAmount && c.totalItems == totalItems
      ensures products == old(products) && users == old(users)
    {
      var index := FindIndex(carts, CartOwner, userId);
      if index == -1 {
        c := CreateCart(userId, items, totalAmount, totalItems, stamp);
        return;
      }
      c := carts[index].(items := items, totalAmount := totalAmount, totalItems := totalItems);
      carts := carts[index := c];
    }

    /** `deleteCart`: drop every cart of the user; true iff the file got shorter. */
    method DeleteCart(userId: string) returns (deleted: bool)
      modifies this
      ensures carts == Without(old(carts), CartOwner, userId)
      ensures deleted <==> exists i :: 0 <= i < |old(carts)| && old(carts)[i].userId == userId
      ensures products == old(products) && users == old(users)
    {
      var filtered := Without(carts, CartOwner, userId);
      WithoutShrinks(carts, CartOwner, userId);
      deleted := |filtered| < |carts|;
      carts := filtered;
    }
  }
}
