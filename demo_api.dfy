/**
 * The offline back end of src/services/demoApiService.ts: two module-level
 * arrays, `mockProducts` and `mockUsers`, that the service's methods read,
 * push to, splice and rewrite in place. They are the two fields of
 * `DemoApiService`. The artificial delays are left out; `Date.now()` is the
 * `stamp` parameter.
 */
module DemoApi {
  import opened Wrappers
  import opened Seqs
  import opened Entities
  import opened Text

  datatype DemoError = UserNotFound | WrongPassword | EmailTaken | ProductNotFound | LastAdmin

  datatype AuthResult = Authenticated(user: User, token: string) | AuthFailed(error: DemoError)

  datatype UsersOutcome = UsersChanged(users: seq<User>) | UsersRefused(error: DemoError)

  const TOKEN_PREFIX: string := "demo-jwt-token-"

  /** The shortest password the demo login accepts. */
  const MIN_PASSWORD_LENGTH: int := 6

  function AdminCount(users: seq<User>): nat
  {
    Count(users, IsAdmin)
  }

  /**
   * `updateUserRole` on the list: a missing id is refused; demoting an
   * administrator is refused while at most one administrator exists;
   * otherwise the user's role is set and nothing else changes.
   */
  function SetRole(users: seq<User>, id: string, role: Role): (r: UsersOutcome)
    ensures var i := FindIndex(users, UserId, id);
      && (i == -1 ==> r == UsersRefused(UserNotFound))
      && (i != -1 ==>
            if users[i].role == Admin && role == Customer && AdminCount(users) <= 1
            then r == UsersRefused(LastAdmin)
            else r.UsersChanged? && r.users == users[i := users[i].(role := role)])
    ensures r.UsersChanged? && AdminCount(users) >= 1 ==> AdminCount(r.users) >= 1
  {
    var i := FindIndex(users, UserId, id);
    if i == -1 then UsersRefused(UserNotFound)
    else if users[i].role == Admin && role == Customer && AdminCount(users) <= 1 then UsersRefused(LastAdmin)
    else
      var u := users[i].(role := role);
      CountUpdate(users, i, u, IsAdmin);
      UsersChanged(users[i := u])
  }

  /**
   * `deleteUser` on the list: a missing id is refused; deleting an
   * administrator is refused while at most one administrator exists;
   * otherwise the first user with the id is spliced out.
   */
  function RemoveUser(users: seq<User>, id: string): (r: UsersOutcome)
    ensures var i := FindIndex(users, UserId, id);
      && (i == -1 ==> r == UsersRefused(UserNotFound))
      && (i != -1 ==>
            if users[i].role == Admin && AdminCount(users) <= 1
            then r == UsersRefused(LastAdmin)
            else r.UsersChanged? && r.users == users[..i] + users[i + 1..])
    ensures r.UsersChanged? && AdminCount(users) >= 1 ==> AdminCount(r.users) >= 1
  {
    var i := FindIndex(users, UserId, id);
    if i == -1 then UsersRefused(UserNotFound)
    else if users[i].role == Admin && AdminCount(users) <= 1 then UsersRefused(LastAdmin)
    else
      CountRemove(users, i, IsAdmin);
      UsersChanged(users[..i] + users[i + 1..])
  }

  /** How the role change moves the administrator count: down by one for a demotion, up by one for a promotion. */
  lemma SetRoleAdminCount(users: seq<User>, id: string, role: Role)
    requires SetRole(users, id, role).UsersChanged?
    ensures var i := FindIndex(users, UserId, id);
      AdminCount(SetRole(users, id, role).users)
        == AdminCount(users) - (if users[i].role == Admin then 1 else 0) + (if role == Admin then 1 else 0)
  {
    var i := FindIndex(users, UserId, id);
    CountUpdate(users, i, users[i].(role := role), IsAdmin);
  }

  /** The seed users of the demo. */
  function DemoUsers(): (r: seq<User>)
    ensures AdminCount(r) == 1
  {
    var users := [
      User("admin-1", "admin@shop.com", "Админ", "Системы", Admin, None),
      User("user-1", "user@shop.com", "Иван", "Петров", Customer, None),
      User("user-2", "maria@example.com", "Мария", "Сидорова", Customer, None)
    ];
    assert users == [users[0]] + [users[1]] + [users[2]];
    FilterAppend([users[0]] + [users[1]], [users[2]], IsAdmin);
    FilterAppend([users[0]], [users[1]], IsAdmin);
    users
  }

  /** The seed catalog of the demo (ratings in tenths of a star). */
  const DEMO_PRODUCTS: seq<Product> :=
    [
      Product("1", "iPhone 15 Pro", "Новейший смартфон Apple с титановым корпусом и камерой Pro",
        1199, Some(1299),
        "https://store.storeimages.cdn-apple.com/4982/as-images.apple.com/is/iphone-15-pro-finish-select-202309-6-7inch-naturaltitanium?wid=5120&hei=2880&fmt=p-jpg&qlt=80&.v=1692895395254",
        "smartphones", "Apple", true, 48, 156,
        ["Titanium корпус", "Камера Pro 48MP", "A17 Pro chip", "USB-C"]),
      Product("2", "Samsung Galaxy S24 Ultra", "Флагманский Android смартфон с S Pen и мощной камерой",
        1099, Some(1199),
        "https://images.samsung.com/is/image/samsung/p6pim/levant/2401/gallery/levant-galaxy-s24-ultra-s928-sm-s928bztqmea-thumb-539573050",
        "smartphones", "Samsung", true, 47, 203,
        ["S Pen", "200MP камера", "AI функции", "5G"]),
      Product("3", "MacBook Pro 16\"", "Профессиональный ноутбук Apple с чипом M3 Pro",
        2499, None,
        "https://store.storeimages.cdn-apple.com/4982/as-images.apple.com/is/mbp16-spacegray-select-202310?wid=904&hei=840&fmt=jpeg&qlt=90&.v=1697311054290",
        "laptops", "Apple", true, 49, 89,
        ["M3 Pro chip", "Liquid Retina XDR", "18 часов работы", "Studio звук"]),
      Product("4", "Sony WH-1000XM5", "Беспроводные наушники с лучшим шумоподавлением",
        399, Some(449),
        "https://sony.scene7.com/is/image/sonyglobalsolutions/wh-1000xm5_Primary_image?$categorypdpnav$&fmt=png-alpha",
        "headphones", "Sony", false, 46, 324,
        ["30ч работы", "Hi-Res Audio", "Быстрая зарядка", "Multipoint"])
    ]

  /** The seed has exactly one administrator, so it can be neither demoted nor deleted. */
  lemma SeedAdminIsProtected()
    ensures SetRole(DemoUsers(), "admin-1", Customer) == UsersRefused(LastAdmin)
    ensures RemoveUser(DemoUsers(), "admin-1") == UsersRefused(LastAdmin)
  {
    assert UserId(DemoUsers()[0]) == "admin-1";
  }

  /** The product a draft creates: a fresh id, no rating and no reviews yet. */
  function NewProduct(data: ProductDraft, stamp: string): (p: Product)
    ensures p.id == "product-" + stamp && p.rating == 0 && p.reviewCount == 0
    ensures p.name == data.name && p.description == data.description && p.price == data.price
    ensures p.originalPrice == data.originalPrice && p.image == data.image && p.category == data.category
    ensures p.brand == data.brand && p.inStock == data.inStock && p.features == data.features
  {
    Product("product-" + stamp, data.name, data.description, data.price, data.originalPrice,
      data.image, data.category, data.brand, data.inStock, 0, 0, data.features)
  }

  class DemoApiService {
    var products: seq<Product>
    var users: seq<User>

    /** At least one administrator is left. */
    ghost predicate Valid()
      reads this
    {
      AdminCount(users) >= 1
    }

    constructor ()
      ensures products == DEMO_PRODUCTS && users == DemoUsers()
      ensures Valid()
    {
      products := DEMO_PRODUCTS;
      users := DemoUsers();
    }

    /**
     * `login`: the first user with the email, with any password at least six
     * UTF-16 code units long; an unknown email is reported before a short
     * password.
     */
    function Login(email: string, password: string, stamp: string): (r: AuthResult)
      reads this
      ensures r.Authenticated? <==>
        (exists i :: 0 <= i < |users| && users[i].email == email) && Utf16Length(password) >= MIN_PASSWORD_LENGTH
      ensures r.Authenticated? ==> r.user in users && r.user.email == email && r.token == TOKEN_PREFIX + stamp
      ensures r.Authenticated? ==>
        0 <= FindIndex(users, UserEmail, email) && r.user == users[FindIndex(users, UserEmail, email)]
      ensures (forall i :: 0 <= i < |users| ==> users[i].email != email) ==> r == AuthFailed(UserNotFound)
      ensures r.AuthFailed? ==> r.error in {UserNotFound, WrongPassword}
    {
      match Find(users, UserEmail, email)
      case None => AuthFailed(UserNotFound)
      case Some(user) =>
        if Utf16Length(password) < MIN_PASSWORD_LENGTH then AuthFailed(WrongPassword)
        else Authenticated(user, TOKEN_PREFIX + stamp)
    }

    /**
     * `register`: refused when the email is taken; otherwise a customer
     * with id "user-" + stamp is appended and signed in. The password is
     * neither checked nor stored.
     */
    method Register(firstName: string, lastName: string, email: string, password: string, stamp: string) returns (r: AuthResult)
      modifies this
      ensures (exists i :: 0 <= i < |old(users)| && old(users)[i].email == email) ==>
        r == AuthFailed(EmailTaken) && users == old(users)
      ensures (forall i :: 0 <= i < |old(users)| ==> old(users)[i].email != email) ==>
        && r == Authenticated(User("user-" + stamp, email, firstName, lastName, Customer, None), TOKEN_PREFIX + stamp)
        && users == old(users) + [r.user]
      ensures products == old(products)
      ensures old(Valid()) ==> Valid()
    {
      var existing := Find(users, UserEmail, email);
      if existing.Some? {
        return AuthFailed(EmailTaken);
      }
      var newUser := User("user-" + stamp, email, firstName, lastName, Customer, None);
      FilterAppend(users, [newUser], IsAdmin);
      users := users + [newUser];
      r := Authenticated(newUser, TOKEN_PREFIX + stamp);
    }

    /** `getProducts`: a copy of the catalog. */
    function GetProducts(): (r: seq<Product>)
      reads this
      ensures r == products
    {
      products
    }

    /** `getUsers`: a copy of the user list. */
    function GetUsers(): (r: seq<User>)
      reads this
      ensures r == users
    {
      users
    }

    /** `createProduct`: push the new product. */
    method CreateProduct(data: ProductDraft, stamp: string) returns (p: Product)
      modifies this
      ensures p == NewProduct(data, stamp) && products == old(products) + [p]
      ensures users == old(users)
    {
      p := NewProduct(data, stamp);
      products := products + [p];
    }

    /** `updateProduct`: merge the patch into the first product with the id, or fail when there is none. */
    method UpdateProduct(id: string, patch: ProductPatch) returns (r: Option<Product>)
      requires IsDraftPatch(patch)
      modifies this
      ensures var i := FindIndex(old(products), ProductId, id);
        if i == -1 then r == None && products == old(products)
        else r == Some(PatchProduct(old(products)[i], patch)) && products == old(products)[i := r.value]
      ensures r.Some? ==> r.value.id == id
      ensures users == old(users)
    {
      var index := FindIndex(products, ProductId, id);
      if index == -1 {
        return None;
      }
      var updated := PatchProduct(products[index], patch);
      products := products[index := updated];
      r := Some(updated);
    }

    /** `deleteProduct`: splice out the first product with the id, or fail when there is none. */
    method DeleteProduct(id: string) returns (r: Option<DemoError>)
      modifies this
      ensures var i := FindIndex(old(products), ProductId, id);
        if i == -1 then r == Some(ProductNotFound) && products == old(products)
        else r == None && products == old(products)[..i] + old(products)[i + 1..]
      ensures users == old(users)
    {
      var index := FindIndex(products, ProductId, id);
      if index == -1 {
        return Some(ProductNotFound);
      }
      products := products[..index] + products[index + 1..];
      r := None;
    }

    /** `updateUserRole`: `updated` is the user it returns, the changed element of the new list. */
    method UpdateUserRole(id: string, role: Role) returns (r: UsersOutcome, updated: Option<User>)
      modifies this
      ensures r == SetRole(old(users), id, role)
      ensures r.UsersChanged? ==> updated == Some(r.users[FindIndex(old(users), UserId, id)])
      ensures r.UsersChanged? ==> updated == Some(old(users)[FindIndex(old(users), UserId, id)].(role := role))
      ensures r.UsersRefused? ==> updated == None
      ensures users == (if r.UsersChanged? then r.users else old(users))
      ensures products == old(products)
      ensures old(Valid()) ==> Valid()
    {
      var index := FindIndex(users, UserId, id);
      if index == -1 {
        return UsersRefused(UserNotFound), None;
      }
      var user := users[index];
      if user.role == Admin && role == Customer {
        var adminCount := |Filter(users, IsAdmin)|;
        if adminCount <= 1 {
          return UsersRefused(LastAdmin), None;
        }
      }
      users := users[index := user.(role := role)];
      r, updated := UsersChanged(users), Some(users[index]);
    }

    /** `deleteUser`. */
    method DeleteUser(id: string) returns (r: UsersOutcome)
      modifies this
      ensures r == RemoveUser(old(users), id)
      ensures users == (if r.UsersChanged? then r.users else old(users))
      ensures products == old(products)
      ensures old(Valid()) ==> Valid()
    {
      var index := FindIndex(users, UserId, id);
      if index == -1 {
        return UsersRefused(UserNotFound);
      }
      var user := users[index];
      if user.role == Admin {
        var adminCount := |Filter(users, IsAdmin)|;
        if adminCount <= 1 {
          return UsersRefused(LastAdmin);
        }
      }
      users := users[..index] + users[index + 1..];
      r := UsersChanged(users);
    }
  }

  /**
   * The password check counts UTF-16 code units: three emoji are three
   * characters but six code units, so they pass for a known email.
   */
  lemma LoginCountsCodeUnits(service: DemoApiService, email: string, stamp: string)
    requires exists i :: 0 <= i < |service.users| && service.users[i].email == email
    ensures service.Login(email, "\U{1F600}\U{1F600}\U{1F600}", stamp).Authenticated?
  {
    ThreeEmojiAreSixUnits();
  }
}
