/**
 * The rules every copy of the cart applies to its list of lines: the server
 * model (server/models/Cart.js), the JSON-store handlers (routes/cart.js) and
 * the guest cart (src/services/cartService.ts). A line carries a product id,
 * a quantity, and a snapshot of the product's price, name and image taken
 * when the line was last written.
 */
module LineItems {
  import opened Wrappers
  import opened Seqs

  /** The most units of one product a cart may hold. */
  const MAX_ITEM_QUANTITY: int := 5

  datatype LineItem = LineItem(productId: string, quantity: int, price: int, name: string, image: string)

  datatype LineError = QuantityCapExceeded | InvalidQuantity | ItemNotFound

  /** What a change to the list of lines produces: the new list, or the reason it was refused. */
  datatype LineOutcome = Updated(items: seq<LineItem>) | Rejected(error: LineError)

  function LineProduct(l: LineItem): string { l.productId }

  /** What one line costs: its price snapshot times its quantity. */
  function Amount(l: LineItem): int { l.price * l.quantity }

  /** The item count: the sum of the lines' quantities. */
  function TotalItems(items: seq<LineItem>): int
  {
    if |items| == 0 then 0 else items[0].quantity + TotalItems(items[1..])
  }

  /** The amount: the sum of every line's price times its quantity. */
  function TotalAmount(items: seq<LineItem>): int
  {
    if |items| == 0 then 0 else Amount(items[0]) + TotalAmount(items[1..])
  }

  /** No two lines are for the same product. */
  ghost predicate UniqueProducts(items: seq<LineItem>)
  {
    forall i, j :: 0 <= i < j < |items| ==> items[i].productId != items[j].productId
  }

  /** Every line holds between 1 and `MAX_ITEM_QUANTITY` units. */
  ghost predicate WithinCap(items: seq<LineItem>)
  {
    forall i :: 0 <= i < |items| ==> 1 <= items[i].quantity <= MAX_ITEM_QUANTITY
  }

  /** The first line for a product, if the cart has one. */
  function LineFor(items: seq<LineItem>, productId: string): Option<LineItem>
  {
    Find(items, LineProduct, productId)
  }

  /** How many units of the product the cart holds: the line's quantity, or 0 without a line. */
  function QuantityOf(items: seq<LineItem>, productId: string): (q: int)
    ensures (forall i :: 0 <= i < |items| ==> items[i].productId != productId) ==> q == 0
    ensures UniqueProducts(items) ==>
      forall i :: 0 <= i < |items| && items[i].productId == productId ==> q == items[i].quantity
  {
    var i := FindIndex(items, LineProduct, productId);
    if i == -1 then 0 else items[i].quantity
  }

  /** What the product's line costs, or 0 without a line. */
  function AmountOf(items: seq<LineItem>, productId: string): int
  {
    var i := FindIndex(items, LineProduct, productId);
    if i == -1 then 0 else Amount(items[i])
  }

  /**
   * Adding `quantity` units of a product. An existing line takes the sum and
   * a fresh price/name/image snapshot, unless the sum exceeds the cap; a new
   * product gets one line appended at the end, unless `quantity` alone
   * exceeds the cap.
   */
  function AddLine(items: seq<LineItem>, productId: string, quantity: int, price: int, name: string, image: string): (r: LineOutcome)
    ensures r.Rejected? <==> QuantityOf(items, productId) + quantity > MAX_ITEM_QUANTITY
    ensures r.Rejected? ==> r.error == QuantityCapExceeded
    ensures r.Updated? ==>
      LineFor(r.items, productId) == Some(LineItem(productId, QuantityOf(items, productId) + quantity, price, name, image))
    ensures r.Updated? ==>
      |r.items| == |items| + (if LineFor(items, productId).None? then 1 else 0)
    ensures r.Updated? ==>
      forall j :: 0 <= j < |items| && items[j].productId != productId ==> r.items[j] == items[j]
    ensures r.Updated? && UniqueProducts(items) ==> UniqueProducts(r.items)
    ensures r.Updated? && WithinCap(items) && quantity >= 1 ==> WithinCap(r.items)
  {
    var i := FindIndex(items, LineProduct, productId);
    assert QuantityOf(items, productId) == if i == -1 then 0 else items[i].quantity;
    assert LineFor(items, productId).None? <==> i == -1;
    if i != -1 then
      var newQuantity := items[i].quantity + quantity;
      if newQuantity > MAX_ITEM_QUANTITY then Rejected(QuantityCapExceeded)
      else
        var line := LineItem(productId, newQuantity, price, name, image);
        ReplaceLineFacts(items, i, line);
        Updated(items[i := line])
    else if quantity > MAX_ITEM_QUANTITY then Rejected(QuantityCapExceeded)
    else
      var line := LineItem(productId, quantity, price, name, image);
      AppendLineFacts(items, line);
      Updated(items + [line])
  }

  /** Rewriting the first line of a product with a line for the same product. */
  lemma ReplaceLineFacts(items: seq<LineItem>, i: nat, line: LineItem)
    requires i < |items| && FindIndex(items, LineProduct, line.productId) == i
    ensures LineFor(items[i := line], line.productId) == Some(line)
    ensures forall j :: 0 <= j < |items| && items[j].productId != line.productId ==> items[i := line][j] == items[j]
    ensures UniqueProducts(items) ==> UniqueProducts(items[i := line])
    ensures WithinCap(items) && 1 <= line.quantity <= MAX_ITEM_QUANTITY ==> WithinCap(items[i := line])
  {
    var r := items[i := line];
    FindIndexAfterUpdate(items, LineProduct, line.productId, i, line);
    if UniqueProducts(items) {
      forall a, b | 0 <= a < b < |r| ensures r[a].productId != r[b].productId {
        if a == i || b == i {
          assert items[a].productId != items[b].productId;
        }
      }
    }
  }

  /** Appending the first line of a product. */
  lemma AppendLineFacts(items: seq<LineItem>, line: LineItem)
    requires FindIndex(items, LineProduct, line.productId) == -1
    ensures LineFor(items + [line], line.productId) == Some(line)
    ensures forall j :: 0 <= j < |items| ==> (items + [line])[j] == items[j]
    ensures UniqueProducts(items) ==> UniqueProducts(items + [line])
    ensures WithinCap(items) && 1 <= line.quantity <= MAX_ITEM_QUANTITY ==> WithinCap(items + [line])
  {
    var r := items + [line];
    FindIndexAfterAppend(items, LineProduct, line.productId, line);
    assert r[|items|] == line;
    if UniqueProducts(items) {
      forall i, j | 0 <= i < j < |r| ensures r[i].productId != r[j].productId {
        if j == |items| {
          assert LineProduct(items[i]) != line.productId;
        } else {
          assert r[i] == items[i] && r[j] == items[j];
        }
      }
    }
    if WithinCap(items) && 1 <= line.quantity <= MAX_ITEM_QUANTITY {
      forall i | 0 <= i < |r| ensures 1 <= r[i].quantity <= MAX_ITEM_QUANTITY {
        if i < |items| {
          assert r[i] == items[i];
        }
      }
    }
  }

  /**
   * Setting a line's quantity outright. A quantity outside [1, cap] is
   * refused before the line is looked up; a missing line is refused next;
   * otherwise only that line's quantity changes (its price, name and image
   * snapshots are kept).
   */
  function SetQuantity(items: seq<LineItem>, productId: string, quantity: int): (r: LineOutcome)
    ensures r.Rejected? <==>
      quantity < 1 || quantity > MAX_ITEM_QUANTITY || LineFor(items, productId).None?
    ensures quantity < 1 || quantity > MAX_ITEM_QUANTITY ==> r == Rejected(InvalidQuantity)
    ensures r.Rejected? && 1 <= quantity <= MAX_ITEM_QUANTITY ==> r.error == ItemNotFound
    ensures r.Updated? ==> |r.items| == |items| && QuantityOf(r.items, productId) == quantity
    ensures r.Updated? ==> forall j :: 0 <= j < |items| ==>
      && r.items[j].productId == items[j].productId
      && r.items[j].price == items[j].price
      && r.items[j].name == items[j].name
      && r.items[j].image == items[j].image
      && (items[j].productId != productId ==> r.items[j] == items[j])
    ensures r.Updated? && UniqueProducts(items) ==> UniqueProducts(r.items)
    ensures r.Updated? && WithinCap(items) ==> WithinCap(r.items)
  {
    if quantity < 1 || quantity > MAX_ITEM_QUANTITY then Rejected(InvalidQuantity)
    else
      var i := FindIndex(items, LineProduct, productId);
      assert LineFor(items, productId).None? <==> i == -1;
      if i == -1 then Rejected(ItemNotFound)
      else
        var line := items[i].(quantity := quantity);
        ReplaceLineFacts(items, i, line);
        Updated(items[i := line])
  }

  /** Every line except those for the product, in their order. */
  function RemoveLine(items: seq<LineItem>, productId: string): (r: seq<LineItem>)
    ensures LineFor(r, productId).None?
    ensures forall j :: 0 <= j < |items| && items[j].productId != productId ==> items[j] in r
    ensures forall x | x in r :: x in items
    ensures LineFor(items, productId).None? ==> r == items
  {
    WithoutShrinks(items, LineProduct, productId);
    WithoutMembers(items, LineProduct, productId);
    Without(items, LineProduct, productId)
  }

  lemma {:induction false} TotalsAppend(a: seq<LineItem>, b: seq<LineItem>)
    ensures TotalItems(a + b) == TotalItems(a) + TotalItems(b)
    ensures TotalAmount(a + b) == TotalAmount(a) + TotalAmount(b)
  {
    if |a| == 0 {
      assert a + b == b;
    } else {
      assert (a + b)[1..] == a[1..] + b;
      TotalsAppend(a[1..], b);
    }
  }

  /** Rewriting one line changes the totals by that line alone. */
  lemma TotalsUpdate(s: seq<LineItem>, i: nat, x: LineItem)
    requires i < |s|
    ensures TotalItems(s[i := x]) == TotalItems(s) - s[i].quantity + x.quantity
    ensures TotalAmount(s[i := x]) == TotalAmount(s) - Amount(s[i]) + Amount(x)
  {
    assert s == s[..i] + [s[i]] + s[i + 1..];
    assert s[i := x] == s[..i] + [x] + s[i + 1..];
    TotalsAppend(s[..i] + [s[i]], s[i + 1..]);
    TotalsAppend(s[..i], [s[i]]);
    TotalsAppend(s[..i] + [x], s[i + 1..]);
    TotalsAppend(s[..i], [x]);
  }

  /** A successful add raises the item count by exactly the added quantity and re-prices the product's line. */
  lemma AddLineTotals(items: seq<LineItem>, productId: string, quantity: int, price: int, name: string, image: string)
    requires AddLine(items, productId, quantity, price, name, image).Updated?
    ensures var r := AddLine(items, productId, quantity, price, name, image).items;
      && TotalItems(r) == TotalItems(items) + quantity
      && TotalAmount(r) == TotalAmount(items) - AmountOf(items, productId)
                           + Amount(LineItem(productId, QuantityOf(items, productId) + quantity, price, name, image))
  {
    var i := FindIndex(items, LineProduct, productId);
    var line := LineItem(productId, QuantityOf(items, productId) + quantity, price, name, image);
    assert AddLine(items, productId, quantity, price, name, image).items
        == if i != -1 then items[i := line] else items + [line];
    if i != -1 {
      TotalsUpdate(items, i, line);
    } else {
      TotalsAppend(items, [line]);
    }
  }

  /** A successful quantity change moves the item count from the old quantity to the new one. */
  lemma SetQuantityTotals(items: seq<LineItem>, productId: string, quantity: int)
    requires SetQuantity(items, productId, quantity).Updated?
    ensures TotalItems(SetQuantity(items, productId, quantity).items)
         == TotalItems(items) - QuantityOf(items, productId) + quantity
  {
    var i := FindIndex(items, LineProduct, productId);
    TotalsUpdate(items, i, items[i].(quantity := quantity));
  }

  /** Removing a product from a cart without duplicate lines subtracts exactly that line from both totals. */
  lemma {:induction false} RemoveLineTotals(items: seq<LineItem>, productId: string)
    requires UniqueProducts(items)
    ensures TotalItems(RemoveLine(items, productId)) == TotalItems(items) - QuantityOf(items, productId)
    ensures TotalAmount(RemoveLine(items, productId)) == TotalAmount(items) - AmountOf(items, productId)
  {
    if |items| > 0 {
      var rest := items[1..];
      UniqueTail(items);
      RemoveLineTotals(rest, productId);
      if items[0].productId == productId {
        assert RemoveLine(items, productId) == RemoveLine(rest, productId);
      } else {
        assert RemoveLine(items, productId) == [items[0]] + RemoveLine(rest, productId);
        TotalsAppend([items[0]], RemoveLine(rest, productId));
        assert FindIndex(items, LineProduct, productId) == (if FindIndex(rest, LineProduct, productId) == -1 then -1
          else FindIndex(rest, LineProduct, productId) + 1);
      }
    }
  }

  /** Without duplicates, the tail has none either and never names the head's product. */
  lemma UniqueTail(items: seq<LineItem>)
    requires UniqueProducts(items) && |items| > 0
    ensures UniqueProducts(items[1..])
    ensures LineFor(items[1..], items[0].productId).None?
  {
    var rest := items[1..];
    forall i, j | 0 <= i < j < |rest| ensures rest[i].productId != rest[j].productId {
      assert rest[i] == items[i + 1] && rest[j] == items[j + 1];
    }
    forall j | 0 <= j < |rest| ensures rest[j].productId != items[0].productId {
      assert rest[j] == items[j + 1];
    }
  }

  /** Removing a product keeps the other lines in their order, and removing it again changes nothing. */
  lemma RemoveLineOrderAndIdempotence(items: seq<LineItem>, productId: string)
    ensures IsSubsequence(RemoveLine(items, productId), items)
    ensures RemoveLine(RemoveLine(items, productId), productId) == RemoveLine(items, productId)
  {
    WithoutIsSubsequence(items, LineProduct, productId);
    WithoutIdempotent(items, LineProduct, productId);
  }

  /** Removing lines keeps every remaining line within the cap. */
  lemma RemoveLineKeepsCap(items: seq<LineItem>, productId: string)
    requires WithinCap(items)
    ensures WithinCap(RemoveLine(items, productId))
  {
    var r := RemoveLine(items, productId);
    forall i | 0 <= i < |r| ensures 1 <= r[i].quantity <= MAX_ITEM_QUANTITY {
      assert r[i] in items;
    }
  }

  /** Removing lines keeps the lines unique. */
  lemma {:induction false} RemoveLineKeepsUnique(items: seq<LineItem>, productId: string)
    requires UniqueProducts(items)
    ensures UniqueProducts(RemoveLine(items, productId))
  {
    if |items| > 0 {
      var rest := items[1..];
      assert UniqueProducts(rest) by {
        forall i, j | 0 <= i < j < |rest| ensures rest[i].productId != rest[j].productId {
          assert rest[i] == items[i + 1] && rest[j] == items[j + 1];
        }
      }
      RemoveLineKeepsUnique(rest, productId);
      var tail := RemoveLine(rest, productId);
      if items[0].productId != productId {
        assert RemoveLine(items, productId) == [items[0]] + tail;
        forall j | 0 <= j < |tail| ensures tail[j].productId != items[0].productId {
          assert tail[j] in rest;
        }
      } else {
        assert RemoveLine(items, productId) == tail;
      }
    }
  }

  /** With every line within the cap, the item count lies between the number of lines and five times it. */
  lemma {:induction false} TotalItemsBounds(items: seq<LineItem>)
    requires WithinCap(items)
    ensures |items| <= TotalItems(items) <= MAX_ITEM_QUANTITY * |items|
  {
    if |items| > 0 {
      TotalItemsBounds(items[1..]);
    }
  }

  /** With positive quantities and non-negative prices the amount is never negative. */
  lemma {:induction false} TotalAmountNonNegative(items: seq<LineItem>)
    requires forall i :: 0 <= i < |items| ==> items[i].quantity >= 1 && items[i].price >= 0
    ensures TotalAmount(items) >= 0
  {
    if |items| > 0 {
      TotalAmountNonNegative(items[1..]);
    }
  }
}
