/**
 * The Express cart handlers of routes/cart.js over the JSON store. Each
 * handler is a method on the `Database`: the request's validated fields
 * and the authenticated user's id are parameters, and the id a lazily
 * created cart gets from the clock is `stamp`. Every handler that writes
 * recomputes both totals from the lines just before `updateCart`, so the
 * stored carts stay consistent with their lines.
 */
module CartRoutes {
  import opened Wrappers
  import opened Seqs
  import opened Entities
  import opened LineItems
  import opened JsonDatabase

  /** The failure responses the handlers send before touching the store (or after a lazy create). */
  datatype RouteError =
    | ValidationError
    | ProductNotFound
    | ProductOutOfStock
    | CapExceeded
    | CartNotFound
    | ItemNotInCart

  datatype Response = Ok(cart: CartRecord) | Fail(error: RouteError)

  /** One entry of the guest cart sent to `/sync`; only its product id and quantity are read. */
  datatype LocalLine = LocalLine(productId: string, quantity: int)

  function Status(e: RouteError): (code: int)
    ensures code == 404 <==> e in {ProductNotFound, CartNotFound, ItemNotInCart}
    ensures code == 400 || code == 404
  {
    match e
    case ValidationError => 400
    case ProductNotFound => 404
    case ProductOutOfStock => 400
    case CapExceeded => 400
    case CartNotFound => 404
    case ItemNotInCart => 404
  }

  /** The lines of the user's cart, or none when the user has no cart yet. */
  function ItemsOf(carts: seq<CartRecord>, userId: string): seq<LineItem>
  {
    match FindCart(carts, userId)
    case Some(c) => c.items
    case None => []
  }

  /** Recompute both totals from the lines and upsert the cart: lines 114-124 and their three siblings. */
  function Persist(carts: seq<CartRecord>, userId: string, items: seq<LineItem>, stamp: string): (r: seq<CartRecord>)
    ensures FindCart(r, userId).Some?
    ensures var c := FindCart(r, userId).value;
      c.items == items && c.totalItems == TotalItems(items) && c.totalAmount == TotalAmount(items)
  {
    UpsertCart(carts, userId, items, TotalAmount(items), TotalItems(items), stamp)
  }

  /** Every stored cart has at most one line per product and totals that match its lines. */
  ghost predicate StoreConsistent(carts: seq<CartRecord>)
  {
    forall i :: 0 <= i < |carts| ==>
      && UniqueProducts(carts[i].items)
      && carts[i].totalItems == TotalItems(carts[i].items)
      && carts[i].totalAmount == TotalAmount(carts[i].items)
  }

  lemma PersistKeepsConsistent(carts: seq<CartRecord>, userId: string, items: seq<LineItem>, stamp: string)
    requires StoreConsistent(carts) && UniqueProducts(items)
    ensures StoreConsistent(Persist(carts, userId, items, stamp))
  {
  }

  lemma EmptyCartKeepsConsistent(carts: seq<CartRecord>, userId: string, stamp: string)
    requires StoreConsistent(carts)
    ensures StoreConsistent(carts + [CartRecord(stamp, userId, [], 0, 0)])
  {
    var r := carts + [CartRecord(stamp, userId, [], 0, 0)];
    assert r[|carts|].items == [];
  }

  /** In a consistent store the user's lines name each product at most once. */
  lemma ItemsOfUnique(carts: seq<CartRecord>, userId: string)
    requires StoreConsistent(carts)
    ensures UniqueProducts(ItemsOf(carts, userId))
  {
    if FindCart(carts, userId).Some? {
      var i := FindIndex(carts, CartOwner, userId);
      assert ItemsOf(carts, userId) == carts[i].items;
    }
  }

  /**
   * Find the user's cart, creating and persisting an empty one when there
   * is none (lines 11-20, 76-84 and 340-348).
   */
  method LoadOrCreate(db: Database, userId: string, stamp: string) returns (c: CartRecord)
    modifies db
    ensures c.userId == userId && c.items == ItemsOf(old(db.carts), userId)
    ensures FindCart(old(db.carts), userId).Some? ==> db.carts == old(db.carts) && c == FindCart(db.carts, userId).value
    ensures FindCart(old(db.carts), userId).None? ==>
      c == CartRecord(stamp, userId, [], 0, 0) && db.carts == old(db.carts) + [c]
    ensures StoreConsistent(old(db.carts)) ==> StoreConsistent(db.carts)
    ensures db.products == old(db.products) && db.users == old(db.users)
  {
    var found := db.GetCartByUserId(userId);
    if found.Some? {
      c := found.value;
    } else {
      c := db.CreateCart(userId, [], 0, 0, stamp);
      if StoreConsistent(old(db.carts)) {
        EmptyCartKeepsConsistent(old(db.carts), userId, stamp);
      }
    }
  }

  /** Save new lines for the user with recomputed totals, after a possible lazy create. */
  method Save(db: Database, userId: string, items: seq<LineItem>, ghost before: seq<CartRecord>, stamp: string) returns (c: CartRecord)
    requires db.carts == before || (FindCart(before, userId).None? && db.carts == before + [CartRecord(stamp, userId, [], 0, 0)])
    modifies db
    ensures db.carts == Persist(before, userId, items, stamp)
    ensures FindCart(db.carts, userId) == Some(c) && c.items == items
    ensures c.totalItems == TotalItems(items) && c.totalAmount == TotalAmount(items)
    ensures db.products == old(db.products) && db.users == old(db.users)
  {
    if db.carts != before {
      CreateThenUpsert(before, userId, items, TotalAmount(items), TotalItems(items), stamp, stamp);
    }
    c := db.UpdateCart(userId, items, TotalAmount(items), TotalItems(items), stamp);
  }

  /** GET /: the user's cart, lazily created. */
  method GetCart(db: Database, userId: string, stamp: string) returns (r: Response)
    modifies db
    ensures r.Ok? && r.cart.userId == userId && r.cart.items == ItemsOf(old(db.carts), userId)
    ensures FindCart(db.carts, userId) == Some(r.cart)
    ensures FindCart(old(db.carts), userId).Some? ==> db.carts == old(db.carts)
    ensures FindCart(old(db.carts), userId).None? ==> db.carts == old(db.carts) + [CartRecord(stamp, userId, [], 0, 0)]
    ensures StoreConsistent(old(db.carts)) ==> StoreConsistent(db.carts)
    ensures db.products == old(db.products) && db.users == old(db.users)
  {
    var c := LoadOrCreate(db, userId, stamp);
    if FindCart(old(db.carts), userId).None? {
      FindIndexAfterAppend(old(db.carts), CartOwner, userId, c);
    }
    r := Ok(c);
  }

  /** The input checks of POST /items: a non-empty product id and a quantity in [1, 5]. */
  predicate AddRequestValid(productId: string, quantity: int)
  {
    productId != "" && 1 <= quantity <= MAX_ITEM_QUANTITY
  }

  /** What a handler decides before it writes: refuse with an error, or store these lines. */
  datatype Plan = Refuse(error: RouteError) | Store(items: seq<LineItem>)

  /**
   * The decision of POST /items on the user's current lines. The checks run
   * in order: input, product exists, product in stock, then the merge,
   * which refuses a sum over the cap. Because the input check demands at
   * least one unit, the lines it stores are always within the cap if the
   * old ones were.
   */
  function PlanAdd(products: seq<Product>, items: seq<LineItem>, productId: string, quantity: int): (d: Plan)
    ensures d == Refuse(ValidationError) <==> !AddRequestValid(productId, quantity)
    ensures d == Refuse(ProductNotFound) <==> AddRequestValid(productId, quantity) && FindProduct(products, productId).None?
    ensures d.Refuse? ==> d.error in {ValidationError, ProductNotFound, ProductOutOfStock, CapExceeded}
    ensures AddRequestValid(productId, quantity) && FindProduct(products, productId).Some? ==>
      var p := FindProduct(products, productId).value;
      && (d == Refuse(ProductOutOfStock) <==> !p.inStock)
      && (d == Refuse(CapExceeded) <==> p.inStock && QuantityOf(items, productId) + quantity > MAX_ITEM_QUANTITY)
      && (p.inStock && QuantityOf(items, productId) + quantity <= MAX_ITEM_QUANTITY ==>
            d == Store(AddLine(items, productId, quantity, p.price, p.name, p.image).items))
    ensures d.Store? ==> AddRequestValid(productId, quantity) && FindProduct(products, productId).Some?
    ensures d.Store? ==> (
      var p := FindProduct(products, productId).value;
      && p in products && p.id == productId && p.inStock
      && AddLine(items, productId, quantity, p.price, p.name, p.image) == Updated(d.items))
    ensures d.Store? ==> QuantityOf(d.items, productId) == QuantityOf(items, productId) + quantity <= MAX_ITEM_QUANTITY
    ensures d.Store? && UniqueProducts(items) ==> UniqueProducts(d.items)
    ensures d.Store? && WithinCap(items) ==> WithinCap(d.items)
  {
    if productId == "" || quantity < 1 || quantity > MAX_ITEM_QUANTITY then Refuse(ValidationError)
    else match FindProduct(products, productId)
      case None => Refuse(ProductNotFound)
      case Some(p) =>
        if !p.inStock then Refuse(ProductOutOfStock)
        else match AddLine(items, productId, quantity, p.price, p.name, p.image)
          case Rejected(_) => Refuse(CapExceeded)
          case Updated(next) =>
            QuantityAfterAdd(items, productId, quantity, p.price, p.name, p.image);
            Store(next)
  }

  lemma QuantityAfterAdd(items: seq<LineItem>, productId: string, quantity: int, price: int, name: string, image: string)
    requires AddLine(items, productId, quantity, price, name, image).Updated?
    ensures QuantityOf(AddLine(items, productId, quantity, price, name, image).items, productId)
         == QuantityOf(items, productId) + quantity
  {
    var r := AddLine(items, productId, quantity, price, name, image).items;
    assert LineFor(r, productId).Some?;
  }

  /**
   * POST /items: carry out `PlanAdd` on the user's lines. A refusal writes
   * nothing: a refused merge implies the line, and so the cart, existed.
   */
  method AddItem(db: Database, userId: string, productId: string, quantity: int, stamp: string) returns (r: Response)
    modifies db
    ensures match PlanAdd(old(db.products), ItemsOf(old(db.carts), userId), productId, quantity)
      case Refuse(e) => r == Fail(e) && db.carts == old(db.carts)
      case Store(next) =>
        db.carts == Persist(old(db.carts), userId, next, stamp) && r.Ok? && FindCart(db.carts, userId) == Some(r.cart)
    ensures StoreConsistent(old(db.carts)) ==> StoreConsistent(db.carts)
    ensures db.products == old(db.products) && db.users == old(db.users)
  {
    if productId == "" || quantity < 1 || quantity > MAX_ITEM_QUANTITY {
      return Fail(ValidationError);
    }
    var product := db.GetProductById(productId);
    if product.None? {
      return Fail(ProductNotFound);
    }
    var p := product.value;
    if !p.inStock {
      return Fail(ProductOutOfStock);
    }
    ghost var before := db.carts;
    var cart := LoadOrCreate(db, userId, stamp);
    match AddLine(cart.items, productId, quantity, p.price, p.name, p.image)
    case Rejected(_) =>
      // an empty, just created cart never refuses a quantity within the cap
      assert cart.items != [];
      return Fail(CapExceeded);
    case Updated(items) =>
      if StoreConsistent(before) {
        ItemsOfUnique(before, userId);
        PersistKeepsConsistent(before, userId, items, stamp);
      }
      var saved := Save(db, userId, items, before, stamp);
      r := Ok(saved);
  }

  /**
   * PUT /items/:productId. The quantity check comes first, then the cart,
   * then the line; only that line's quantity changes.
   */
  method UpdateItem(db: Database, userId: string, productId: string, quantity: int, stamp: string) returns (r: Response)
    modifies db
    ensures !(1 <= quantity <= MAX_ITEM_QUANTITY) ==> r == Fail(ValidationError) && db.carts == old(db.carts)
    ensures 1 <= quantity <= MAX_ITEM_QUANTITY && FindCart(old(db.carts), userId).None? ==>
      r == Fail(CartNotFound) && db.carts == old(db.carts)
    ensures 1 <= quantity <= MAX_ITEM_QUANTITY && FindCart(old(db.carts), userId).Some? ==>
      match SetQuantity(ItemsOf(old(db.carts), userId), productId, quantity)
      case Rejected(_) => r == Fail(ItemNotInCart) && db.carts == old(db.carts)
      case Updated(next) =>
        db.carts == Persist(old(db.carts), userId, next, stamp) && r.Ok? && FindCart(db.carts, userId) == Some(r.cart)
    ensures StoreConsistent(old(db.carts)) ==> StoreConsistent(db.carts)
    ensures db.products == old(db.products) && db.users == old(db.users)
  {
    if quantity < 1 || quantity > MAX_ITEM_QUANTITY {
      return Fail(ValidationError);
    }
    var cart := db.GetCartByUserId(userId);
    if cart.None? {
      return Fail(CartNotFound);
    }
    var items := cart.value.items;
    var i := FindIndex(items, LineProduct, productId);
    if i == -1 {
      return Fail(ItemNotInCart);
    }
    items := items[i := items[i].(quantity := quantity)];
    if StoreConsistent(db.carts) {
      ItemsOfUnique(db.carts, userId);
      PersistKeepsConsistent(db.carts, userId, items, stamp);
    }
    var saved := Save(db, userId, items, db.carts, stamp);
    r := Ok(saved);
  }

  /** DELETE /items/:productId: filter the product's lines out; an absent product still saves. */
  method RemoveItem(db: Database, userId: string, productId: string, stamp: string) returns (r: Response)
    modifies db
    ensures FindCart(old(db.carts), userId).None? ==> r == Fail(CartNotFound) && db.carts == old(db.carts)
    ensures FindCart(old(db.carts), userId).Some? ==>
      db.carts == Persist(old(db.carts), userId, RemoveLine(ItemsOf(old(db.carts), userId), productId), stamp)
      && r.Ok? && FindCart(db.carts, userId) == Some(r.cart)
    ensures StoreConsistent(old(db.carts)) ==> StoreConsistent(db.carts)
    ensures db.products == old(db.products) && db.users == old(db.users)
  {
    var cart := db.GetCartByUserId(userId);
    if cart.None? {
      return Fail(CartNotFound);
    }
    var items := RemoveLine(cart.value.items, productId);
    if StoreConsistent(db.carts) {
      ItemsOfUnique(db.carts, userId);
      RemoveLineKeepsUnique(cart.value.items, productId);
      PersistKeepsConsistent(db.carts, userId, items, stamp);
    }
    var saved := Save(db, userId, items, db.carts, stamp);
    r := Ok(saved);
  }

  /** DELETE /: empty the cart and zero both totals. */
  method ClearCart(db: Database, userId: string, stamp: string) returns (r: Response)
    modifies db
    ensures FindCart(old(db.carts), userId).None? ==> r == Fail(CartNotFound) && db.carts == old(db.carts)
    ensures FindCart(old(db.carts), userId).Some? ==>
      db.carts == Persist(old(db.carts), userId, [], stamp)
      && r.Ok? && r.cart.items == [] && r.cart.totalItems == 0 && r.cart.totalAmount == 0
    ensures StoreConsistent(old(db.carts)) ==> StoreConsistent(db.carts)
    ensures db.products == old(db.products) && db.users == old(db.users)
  {
    var cart := db.GetCartByUserId(userId);
    if cart.None? {
      return Fail(CartNotFound);
    }
    if StoreConsistent(db.carts) {
      PersistKeepsConsistent(db.carts, userId, [], stamp);
    }
    var saved := Save(db, userId, [], db.carts, stamp);
    r := Ok(saved);
  }

  /**
   * One iteration of the sync loop: a missing or out-of-stock product is
   * skipped; otherwise the entry is merged as by `AddLine`, and a merge
   * the cap refuses is skipped rather than failing the sync.
   */
  function SyncStep(items: seq<LineItem>, local: LocalLine, products: seq<Product>): seq<LineItem>
  {
    match FindProduct(products, local.productId)
    case None => items
    case Some(p) =>
      if !p.inStock then items
      else match AddLine(items, local.productId, local.quantity, p.price, p.name, p.image)
        case Updated(next) => next
        case Rejected(_) => items
  }

  /**
   * The body of the sync loop (lines 354-379), on the lines loaded so far.
   * Its merge has the branches of `AddLine`; a refused merge leaves the
   * lines as they were.
   */
  method MergeLocal(db: Database, items: seq<LineItem>, local: LocalLine) returns (next: seq<LineItem>)
    ensures next == SyncStep(items, local, db.products)
  {
    next := items;
    var product := db.GetProductById(local.productId);
    if product.Some? && product.value.inStock {
      var p := product.value;
      var merged := AddLine(items, local.productId, local.quantity, p.price, p.name, p.image);
      if merged.Updated? {
        next := merged.items;
      }
    }
  }

  /** The sync loop over the guest entries in order. */
  function SyncLines(items: seq<LineItem>, locals: seq<LocalLine>, products: seq<Product>): seq<LineItem>
    decreases |locals|
  {
    if |locals| == 0 then items
    else SyncStep(SyncLines(items, locals[..|locals| - 1], products), locals[|locals| - 1], products)
  }

  /**
   * POST /sync: find or create the cart, fold every guest entry into it,
   * then save once with recomputed totals.
   */
  method SyncCart(db: Database, userId: string, locals: seq<LocalLine>, stamp: string) returns (r: Response)
    modifies db
    ensures db.carts == Persist(old(db.carts), userId, SyncLines(ItemsOf(old(db.carts), userId), locals, old(db.products)), stamp)
    ensures r.Ok? && FindCart(db.carts, userId) == Some(r.cart)
    ensures StoreConsistent(old(db.carts)) ==> StoreConsistent(db.carts)
    ensures db.products == old(db.products) && db.users == old(db.users)
  {
    ghost var before := db.carts;
    var cart := LoadOrCreate(db, userId, stamp);
    var items := SyncItems(db, cart.items, locals);
    if StoreConsistent(before) {
      SyncedStoreConsistent(before, userId, locals, db.products, stamp);
    }
    var saved := Save(db, userId, items, before, stamp);
    r := Ok(saved);
  }

  /** The sync loop (lines 351-385): fold the guest entries into the lines one at a time. */
  method SyncItems(db: Database, items: seq<LineItem>, locals: seq<LocalLine>) returns (r: seq<LineItem>)
    ensures r == SyncLines(items, locals, db.products)
  {
    r := items;
    var i := 0;
    while i < |locals|
      invariant 0 <= i <= |locals|
      invariant r == SyncLines(items, locals[..i], db.products)
    {
      assert locals[..i + 1][..i] == locals[..i];
      r := MergeLocal(db, r, locals[i]);
      i := i + 1;
    }
    assert locals[..|locals|] == locals;
  }

  lemma SyncedStoreConsistent(carts: seq<CartRecord>, userId: string, locals: seq<LocalLine>, products: seq<Product>, stamp: string)
    requires StoreConsistent(carts)
    ensures StoreConsistent(Persist(carts, userId, SyncLines(ItemsOf(carts, userId), locals, products), stamp))
  {
    ItemsOfUnique(carts, userId);
    SyncKeepsUnique(ItemsOf(carts, userId), locals, products);
    PersistKeepsConsistent(carts, userId, SyncLines(ItemsOf(carts, userId), locals, products), stamp);
  }

  /** Sync never gives a product a second line. */
  lemma {:induction false} SyncKeepsUnique(items: seq<LineItem>, locals: seq<LocalLine>, products: seq<Product>)
    requires UniqueProducts(items)
    ensures UniqueProducts(SyncLines(items, locals, products))
    decreases |locals|
  {
    if |locals| > 0 {
      SyncKeepsUnique(items, locals[..|locals| - 1], products);
    }
  }

  /** With guest quantities of at least 1, sync keeps every line within [1, 5]. */
  lemma {:induction false} SyncKeepsCap(items: seq<LineItem>, locals: seq<LocalLine>, products: seq<Product>)
    requires WithinCap(items)
    requires forall k :: 0 <= k < |locals| ==> locals[k].quantity >= 1
    ensures WithinCap(SyncLines(items, locals, products))
    decreases |locals|
  {
    if |locals| > 0 {
      SyncKeepsCap(items, locals[..|locals| - 1], products);
    }
  }

  /**
   * Sync only appends lines, and a line whose product no guest entry names
   * is left exactly as it was.
   */
  lemma {:induction false} SyncLeavesOtherLines(items: seq<LineItem>, locals: seq<LocalLine>, products: seq<Product>)
    ensures var r := SyncLines(items, locals, products);
      && |items| <= |r|
      && forall j :: 0 <= j < |items| && (forall k :: 0 <= k < |locals| ==> locals[k].productId != items[j].productId) ==>
           r[j] == items[j]
    decreases |locals|
  {
    if |locals| > 0 {
      var init := locals[..|locals| - 1];
      SyncLeavesOtherLines(items, init, products);
      forall j | 0 <= j < |items| && (forall k :: 0 <= k < |locals| ==> locals[k].productId != items[j].productId)
        ensures SyncLines(items, locals, products)[j] == items[j]
      {
        assert forall k :: 0 <= k < |init| ==> init[k] == locals[k];
        assert locals[|locals| - 1].productId != items[j].productId;
      }
    }
  }

  /**
   * Sync never checks that a guest quantity is at least 1: a guest entry
   * with quantity 0 for an in-stock product becomes a line of quantity 0,
   * which no other path can create.
   */
  lemma SyncAdmitsZeroQuantity()
    ensures var p := Product("p1", "Phone", "", 100, None, "phone.png", "phones", "Acme", true, 45, 10, []);
      var r := SyncLines([], [LocalLine("p1", 0)], [p]);
      r == [LineItem("p1", 0, 100, "Phone", "phone.png")] && !WithinCap(r)
  {
    var p := Product("p1", "Phone", "", 100, None, "phone.png", "phones", "Acme", true, 45, 10, []);
    var locals := [LocalLine("p1", 0)];
    assert locals[..0] == [];
    assert FindProduct([p], "p1") == Some(p);
  }

  /**
   * Sync leniency: a merge over the cap and an out-of-stock product are both
   * skipped, and the line already there keeps its quantity.
   */
  lemma SyncSkipsOverCapAndOutOfStock()
    ensures var p1 := Product("p1", "Phone", "", 100, None, "phone.png", "phones", "Acme", true, 45, 10, []);
      var p2 := Product("p2", "Case", "", 20, None, "case.png", "accessories", "Acme", false, 40, 3, []);
      var line := LineItem("p1", 3, 100, "Phone", "phone.png");
      SyncLines([line], [LocalLine("p1", 4), LocalLine("p2", 1)], [p1, p2]) == [line]
  {
    var p1 := Product("p1", "Phone", "", 100, None, "phone.png", "phones", "Acme", true, 45, 10, []);
    var p2 := Product("p2", "Case", "", 20, None, "case.png", "accessories", "Acme", false, 40, 3, []);
    var line := LineItem("p1", 3, 100, "Phone", "phone.png");
    var locals := [LocalLine("p1", 4), LocalLine("p2", 1)];
    assert locals[..1] == [LocalLine("p1", 4)];
    assert locals[..1][..0] == [];
    assert ProductId([p1, p2][0]) != "p2" && ProductId([p1, p2][1]) == "p2";
    assert FindProduct([p1, p2], "p1") == Some(p1);
    assert FindProduct([p1, p2], "p2") == Some(p2);
    assert SyncLines([line], locals[..1], [p1, p2]) == [line];
  }

  /** Sync into an empty cart: each in-stock entry becomes one line with its quantity, in order. */
  lemma SyncIntoEmptyCart()
    ensures var p3 := Product("p3", "Laptop", "", 2000, None, "laptop.png", "laptops", "Acme", true, 48, 7, []);
      var p4 := Product("p4", "Mouse", "", 30, None, "mouse.png", "accessories", "Acme", true, 42, 12, []);
      var r := SyncLines([], [LocalLine("p3", 2), LocalLine("p4", 1)], [p3, p4]);
      && r == [LineItem("p3", 2, 2000, "Laptop", "laptop.png"), LineItem("p4", 1, 30, "Mouse", "mouse.png")]
      && TotalItems(r) == 3 && TotalAmount(r) == 4030
  {
    var p3 := Product("p3", "Laptop", "", 2000, None, "laptop.png", "laptops", "Acme", true, 48, 7, []);
    var p4 := Product("p4", "Mouse", "", 30, None, "mouse.png", "accessories", "Acme", true, 42, 12, []);
    var locals := [LocalLine("p3", 2), LocalLine("p4", 1)];
    assert locals[..1] == [LocalLine("p3", 2)];
    assert locals[..1][..0] == [];
    assert ProductId([p3, p4][0]) != "p4" && ProductId([p3, p4][1]) == "p4";
    assert FindProduct([p3, p4], "p3") == Some(p3);
    assert FindProduct([p3, p4], "p4") == Some(p4);
    var l3 := LineItem("p3", 2, 2000, "Laptop", "laptop.png");
    var l4 := LineItem("p4", 1, 30, "Mouse", "mouse.png");
    assert SyncLines([], locals[..1][..0], [p3, p4]) == [];
    assert SyncLines([], locals[..1], [p3, p4]) == [l3];
    assert LineProduct([l3][0]) != "p4";
    assert SyncLines([], locals, [p3, p4]) == [l3, l4];
    assert [l3, l4][1..] == [l4] && [l4][1..] == [];
    assert TotalItems([l4]) == 1 && TotalAmount([l4]) == 30;
    assert Amount(l3) == 4000;
    assert TotalAmount([l3, l4]) == Amount(l3) + TotalAmount([l4]);
    assert TotalItems([l3, l4]) == 3 && TotalAmount([l3, l4]) == 4030;
  }
}
