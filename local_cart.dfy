/**
 * The guest cart of src/services/cartService.ts. The browser's
 * localStorage entry is the `stored` field (a missing or unreadable entry
 * reads as the empty list), and each operation reads it, changes the list
 * and writes it back. A thrown error is a `Rejected` outcome; the entry is
 * then left as it was.
 */
module LocalCart {
  import opened Wrappers
  import opened Entities
  import opened LineItems

  /** `canAddMoreItems`: would `additional` more units stay within the cap? */
  predicate CanAddMoreItems(current: int, additional: int := 1)
  {
    current + additional <= MAX_ITEM_QUANTITY
  }

  /** The UI's pre-check agrees exactly with what `addToLocalCart` (and the server's add) accepts. */
  lemma CanAddMoreItemsMatchesAdd(items: seq<LineItem>, product: Product, quantity: int)
    ensures CanAddMoreItems(QuantityOf(items, product.id), quantity)
        <==> AddLine(items, product.id, quantity, product.price, product.name, product.image).Updated?
  {
  }

  class CartService {
    /** The JSON list under the cart's localStorage key. */
    var stored: seq<LineItem>

    /** The lines name each product once and hold 1 to 5 units each. */
    ghost predicate Valid()
      reads this
    {
      UniqueProducts(stored) && WithinCap(stored)
    }

    constructor ()
      ensures stored == [] && Valid()
    {
      stored := [];
    }

    /** `getLocalCart`. */
    function GetLocalCart(): (r: seq<LineItem>)
      reads this
      ensures r == stored
    {
      stored
    }

    /** `saveLocalCart`. */
    method SaveLocalCart(items: seq<LineItem>)
      modifies this
      ensures stored == items
    {
      stored := items;
    }

    /** `clearLocalCart`: removing the entry, which then reads as the empty list. */
    method ClearLocalCart()
      modifies this
      ensures stored == [] && Valid()
    {
      stored := [];
    }

    /**
     * `addToLocalCart`: merge into the product's line with a fresh snapshot,
     * or push a new line; over the cap it throws and saves nothing. The
     * quantity's lower bound is not checked, so the cart stays valid only
     * for a quantity of at least 1.
     */
    method AddToLocalCart(product: Product, quantity: int := 1) returns (r: LineOutcome)
      modifies this
      ensures r == AddLine(old(stored), product.id, quantity, product.price, product.name, product.image)
      ensures stored == (if r.Updated? then r.items else old(stored))
      ensures old(Valid()) && quantity >= 1 ==> Valid()
    {
      var localCart := GetLocalCart();
      var i := Seqs.FindIndex(localCart, LineProduct, product.id);
      if i != -1 {
        var newQuantity := localCart[i].quantity + quantity;
        if newQuantity > MAX_ITEM_QUANTITY {
          return Rejected(QuantityCapExceeded);
        }
        localCart := localCart[i := localCart[i].(quantity := newQuantity, price := product.price, name := product.name, image := product.image)];
      } else {
        if quantity > MAX_ITEM_QUANTITY {
          return Rejected(QuantityCapExceeded);
        }
        localCart := localCart + [LineItem(product.id, quantity, product.price, product.name, product.image)];
      }
      SaveLocalCart(localCart);
      r := Updated(localCart);
    }

    /** `updateLocalCartItem`: range check, then the lookup, then only that line's quantity changes. */
    method UpdateLocalCartItem(productId: string, quantity: int) returns (r: LineOutcome)
      modifies this
      ensures r == SetQuantity(old(stored), productId, quantity)
      ensures stored == (if r.Updated? then r.items else old(stored))
      ensures old(Valid()) ==> Valid()
    {
      if quantity < 1 || quantity > MAX_ITEM_QUANTITY {
        return Rejected(InvalidQuantity);
      }
      var localCart := GetLocalCart();
      var i := Seqs.FindIndex(localCart, LineProduct, productId);
      if i == -1 {
        return Rejected(ItemNotFound);
      }
      localCart := localCart[i := localCart[i].(quantity := quantity)];
      SaveLocalCart(localCart);
      r := Updated(localCart);
    }

    /** `removeFromLocalCart`: filter the product out and save, whether or not it was there. */
    method RemoveFromLocalCart(productId: string) returns (r: seq<LineItem>)
      modifies this
      ensures r == RemoveLine(old(stored), productId) && stored == r
      ensures old(Valid()) ==> Valid()
    {
      var localCart := GetLocalCart();
      var filtered := RemoveLine(localCart, productId);
      if Valid() {
        RemoveLineKeepsUnique(localCart, productId);
        RemoveLineKeepsCap(localCart, productId);
      }
      SaveLocalCart(filtered);
      r := filtered;
    }
  }

  /**
   * `addToLocalCart` does not check that the quantity is at least 1: adding
   * 0 units of a product not yet in the cart stores a line of quantity 0.
   */
  lemma AddZeroStoresEmptyLine(product: Product)
    ensures AddLine([], product.id, 0, product.price, product.name, product.image)
         == Updated([LineItem(product.id, 0, product.price, product.name, product.image)])
  {
  }
}
