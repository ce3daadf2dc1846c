/**
 * The records the shop stores: products and users, and the partial
 * updates (`Partial<Product>`, `Partial<User>`) that object spread
 * applies to them. Prices are whole numbers in the
 * catalog's currency unit; ratings are in tenths of a star.
 */
module Entities {
  import opened Wrappers

  datatype Product = Product(
    id: string,
    name: string,
    description: string,
    price: int,
    originalPrice: Option<int>,
    image: string,
    category: string,
    brand: string,
    inStock: bool,
    rating: int,
    reviewCount: int,
    features: seq<string>)

  /**
   * A partial product: every field the update names replaces the stored one.
   * `originalPrice` is optional on a product, so its patch field has three
   * states: `None` (key absent: keep), `Some(None)` (key present but
   * undefined or null: clear) and `Some(Some(v))` (set).
   */
  datatype ProductPatch = ProductPatch(
    id: Option<string>,
    name: Option<string>,
    description: Option<string>,
    price: Option<int>,
    originalPrice: Option<Option<int>>,
    image: Option<string>,
    category: Option<string>,
    brand: Option<string>,
    inStock: Option<bool>,
    rating: Option<int>,
    reviewCount: Option<int>,
    features: Option<seq<string>>)

  /** The fields an administrator fills in to create a product (`CreateProductData`). */
  datatype ProductDraft = ProductDraft(
    name: string,
    description: string,
    price: int,
    originalPrice: Option<int>,
    image: string,
    category: string,
    brand: string,
    inStock: bool,
    features: seq<string>)

  datatype Role = Admin | Customer

  datatype User = User(
    id: string,
    email: string,
    firstName: string,
    lastName: string,
    role: Role,
    avatar: Option<string>)

  /** A partial user: every field the update names replaces the stored one; `avatar` has the same three states as `ProductPatch.originalPrice`. */
  datatype UserPatch = UserPatch(
    id: Option<string>,
    email: Option<string>,
    firstName: Option<string>,
    lastName: Option<string>,
    role: Option<Role>,
    avatar: Option<Option<string>>)

  /** The patch that changes only the role. */
  function RolePatch(role: Role): UserPatch
  {
    UserPatch(None, None, None, None, Some(role), None)
  }

  /** A patch that names only the fields of `CreateProductData` (no id, rating or review count). */
  predicate IsDraftPatch(p: ProductPatch)
  {
    p.id.None? && p.rating.None? && p.reviewCount.None?
  }

  /** One key of an object spread: a key the update carries wins, whatever its value; an absent key keeps the current one. */
  function Pick<T>(update: Option<T>, current: T): T
  {
    match update
    case Some(v) => v
    case None => current
  }

  /** Object spread of the patch over the product: named fields win. */
  function PatchProduct(p: Product, patch: ProductPatch): Product
  {
    Product(
      Pick(patch.id, p.id),
      Pick(patch.name, p.name),
      Pick(patch.description, p.description),
      Pick(patch.price, p.price),
      Pick(patch.originalPrice, p.originalPrice),
      Pick(patch.image, p.image),
      Pick(patch.category, p.category),
      Pick(patch.brand, p.brand),
      Pick(patch.inStock, p.inStock),
      Pick(patch.rating, p.rating),
      Pick(patch.reviewCount, p.reviewCount),
      Pick(patch.features, p.features))
  }

  /** Object spread of the patch over the user: named fields win. */
  function PatchUser(u: User, patch: UserPatch): User
  {
    User(
      Pick(patch.id, u.id),
      Pick(patch.email, u.email),
      Pick(patch.firstName, u.firstName),
      Pick(patch.lastName, u.lastName),
      Pick(patch.role, u.role),
      Pick(patch.avatar, u.avatar))
  }

  /** A role patch changes the role and nothing else. */
  lemma RolePatchChangesOnlyRole(u: User, role: Role)
    ensures PatchUser(u, RolePatch(role)) == u.(role := role)
  {
  }

  /** The patch that names no field. */
  function EmptyProductPatch(): ProductPatch
  {
    ProductPatch(None, None, None, None, None, None, None, None, None, None, None, None)
  }

  /**
   * Spreading a patch is idempotent, the empty patch changes nothing, and an
   * `originalPrice` key that is present but undefined clears the field.
   */
  lemma PatchProductLaws(p: Product, patch: ProductPatch)
    ensures PatchProduct(PatchProduct(p, patch), patch) == PatchProduct(p, patch)
    ensures PatchProduct(p, EmptyProductPatch()) == p
    ensures patch.originalPrice == Some(None) ==> PatchProduct(p, patch).originalPrice == None
    ensures patch.originalPrice == None ==> PatchProduct(p, patch).originalPrice == p.originalPrice
  {
  }

  /** The same laws for users, with `avatar` as the optional field. */
  lemma PatchUserLaws(u: User, patch: UserPatch)
    ensures PatchUser(PatchUser(u, patch), patch) == PatchUser(u, patch)
    ensures PatchUser(u, UserPatch(None, None, None, None, None, None)) == u
    ensures patch.avatar == Some(None) ==> PatchUser(u, patch).avatar == None
    ensures patch.avatar == None ==> PatchUser(u, patch).avatar == u.avatar
  {
  }

  // Keys the lookups go by.
  function ProductId(p: Product): string { p.id }
  function UserId(u: User): string { u.id }
  function UserEmail(u: User): string { u.email }
  function ProductCategory(p: Product): string { p.category }
  predicate IsAdmin(u: User) { u.role == Admin }
  predicate IsCustomer(u: User) { u.role == Customer }
  predicate InStock(p: Product) { p.inStock }
  predicate OutOfStock(p: Product) { !p.inStock }
}
