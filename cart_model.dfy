/**
 * The server-side cart document of server/models/Cart.js: a list of lines
 * plus the two totals, and the four instance methods that change the list
 * and then save. Saving first runs the schema checks on every line
 * (quantity in [1, 5], price >= 0, a non-empty name); only when they pass
 * does the pre-save hook recompute the totals and the document reach the
 * store. A failed save leaves the in-memory list as the method changed it
 * and the stored copy as it was.
 */
module CartModel {
  import opened Wrappers
  import opened LineItems

  /** The per-line checks of `CartItemSchema`. */
  predicate SchemaValid(items: seq<LineItem>)
  {
    forall i :: 0 <= i < |items| ==>
      1 <= items[i].quantity <= MAX_ITEM_QUANTITY && items[i].price >= 0 && items[i].name != ""
  }

  /** What a successful save wrote to the store. */
  datatype SavedCart = SavedCart(items: seq<LineItem>, totalItems: int, totalAmount: int)

  /** A line rule refused the change, or the schema refused the save. */
  datatype CartError = LineRefused(reason: LineError) | ValidationFailed

  datatype SaveResult = Saved(cart: SavedCart) | Failed(error: CartError)

  /** The snapshot a save of these lines writes: the lines and their recomputed totals. */
  function Snapshot(items: seq<LineItem>): SavedCart
  {
    SavedCart(items, TotalItems(items), TotalAmount(items))
  }

  class CartDocument {
    const userId: string
    var items: seq<LineItem>
    var totalItems: int
    var totalAmount: int
    /** The copy in the store: `None` until the first successful save. */
    var saved: Option<SavedCart>

    ghost predicate Valid()
      reads this
    {
      && UniqueProducts(items)
      && (saved.Some? ==>
            && SchemaValid(saved.value.items)
            && UniqueProducts(saved.value.items)
            && saved.value == Snapshot(saved.value.items)
            && saved.value.totalAmount >= 0)
    }

    /** The outcome of a save of the current lines, given what the store and the totals held before. */
    ghost predicate SaveReflects(r: SaveResult, prevSaved: Option<SavedCart>, prevItems: int, prevAmount: int)
      reads this
    {
      if SchemaValid(items) then
        && r == Saved(Snapshot(items))
        && saved == Some(r.cart)
        && totalItems == TotalItems(items) && totalAmount == TotalAmount(items)
      else
        && r == Failed(ValidationFailed)
        && saved == prevSaved
        && totalItems == prevItems && totalAmount == prevAmount
    }

    constructor (userId: string)
      ensures Valid()
      ensures this.userId == userId && items == [] && totalItems == 0 && totalAmount == 0 && saved == None
    {
      this.userId := userId;
      items := [];
      totalItems := 0;
      totalAmount := 0;
      saved := None;
    }

    /** `this.save()`: validate the lines, run the totals hook, write. */
    method Save() returns (r: SaveResult)
      requires Valid()
      modifies this
      ensures Valid()
      ensures items == old(items)
      ensures SaveReflects(r, old(saved), old(totalItems), old(totalAmount))
    {
      if !SchemaValid(items) {
        r := Failed(ValidationFailed);
        return;
      }
      totalItems := TotalItems(items);
      totalAmount := TotalAmount(items);
      TotalAmountNonNegative(items);
      saved := Some(SavedCart(items, totalItems, totalAmount));
      r := Saved(saved.value);
    }

    /** `addItem`: add units of a product, refreshing the line's snapshots, then save. */
    method AddItem(productId: string, quantity: int, price: int, name: string, image: string) returns (r: SaveResult)
      requires Valid()
      modifies this
      ensures Valid()
      ensures match AddLine(old(items), productId, quantity, price, name, image)
        case Rejected(e) => r == Failed(LineRefused(QuantityCapExceeded)) && unchanged(this)
        case Updated(next) => items == next && SaveReflects(r, old(saved), old(totalItems), old(totalAmount))
    {
      var i := Seqs.FindIndex(items, LineProduct, productId);
      if i != -1 {
        var newQuantity := items[i].quantity + quantity;
        if newQuantity > MAX_ITEM_QUANTITY {
          r := Failed(LineRefused(QuantityCapExceeded));
          return;
        }
        items := items[i := items[i].(quantity := newQuantity, price := price, name := name, image := image)];
      } else {
        if quantity > MAX_ITEM_QUANTITY {
          r := Failed(LineRefused(QuantityCapExceeded));
          return;
        }
        items := items + [LineItem(productId, quantity, price, name, image)];
      }
      r := Save();
    }

    /** `updateItemQuantity`: range check first, then the lookup, then only that line's quantity changes. */
    method UpdateItemQuantity(productId: string, quantity: int) returns (r: SaveResult)
      requires Valid()
      modifies this
      ensures Valid()
      ensures match SetQuantity(old(items), productId, quantity)
        case Rejected(e) => r == Failed(LineRefused(e)) && unchanged(this)
        case Updated(next) => items == next && SaveReflects(r, old(saved), old(totalItems), old(totalAmount))
    {
      if quantity < 1 || quantity > MAX_ITEM_QUANTITY {
        r := Failed(LineRefused(InvalidQuantity));
        return;
      }
      var i := Seqs.FindIndex(items, LineProduct, productId);
      if i == -1 {
        r := Failed(LineRefused(ItemNotFound));
        return;
      }
      items := items[i := items[i].(quantity := quantity)];
      r := Save();
    }

    /** `removeItem`: drop every line for the product, then save. */
    method RemoveItem(productId: string) returns (r: SaveResult)
      requires Valid()
      modifies this
      ensures Valid()
      ensures items == RemoveLine(old(items), productId)
      ensures SaveReflects(r, old(saved), old(totalItems), old(totalAmount))
    {
      RemoveLineKeepsUnique(items, productId);
      items := RemoveLine(items, productId);
      r := Save();
    }

    /** `clear`: empty the list, then save; the hook brings both totals to 0. */
    method Clear() returns (r: SaveResult)
      requires Valid()
      modifies this
      ensures Valid()
      ensures items == [] && totalItems == 0 && totalAmount == 0
      ensures r == Saved(SavedCart([], 0, 0)) && saved == Some(r.cart)
    {
      items := [];
      r := Save();
    }
  }
}
