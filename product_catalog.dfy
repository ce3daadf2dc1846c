/**
 * The client-side catalog helpers of src/services/productService.ts: the
 * search-and-category filter, the sorted list of distinct categories, and
 * the statistics the demo mode computes over the demo catalog.
 */
module ProductCatalog {
  import opened Seqs
  import opened Text
  import opened Entities
  import DemoApi

  /**
   * `filterProducts`'s test: an empty search term matches everything, as
   * does an empty category or "all"; otherwise the lower-cased term must
   * occur in the lower-cased name, description or brand, and the category
   * must be equal.
   */
  predicate ProductMatches(p: Product, searchTerm: string, category: string)
  {
    && (searchTerm == ""
        || Contains(Lower(p.name), Lower(searchTerm))
        || Contains(Lower(p.description), Lower(searchTerm))
        || Contains(Lower(p.brand), Lower(searchTerm)))
    && (category == "" || category == "all" || p.category == category)
  }

  function FilterProducts(products: seq<Product>, searchTerm: string, category: string): (r: seq<Product>)
    ensures |r| <= |products|
    ensures forall p | p in r :: p in products && ProductMatches(p, searchTerm, category)
    ensures forall i | 0 <= i < |products| && ProductMatches(products[i], searchTerm, category) :: products[i] in r
  {
    Filter(products, p => ProductMatches(p, searchTerm, category))
  }

  /** The filter keeps the catalog's order, and filtering its own output again changes nothing. */
  lemma FilterProductsOrderAndIdempotence(products: seq<Product>, searchTerm: string, category: string)
    ensures IsSubsequence(FilterProducts(products, searchTerm, category), products)
    ensures var r := FilterProducts(products, searchTerm, category);
      FilterProducts(r, searchTerm, category) == r
  {
    FilterIsSubsequence(products, p => ProductMatches(p, searchTerm, category));
    var r := FilterProducts(products, searchTerm, category);
    assert forall i :: 0 <= i < |r| ==> r[i] in r;
    FilterKeepsAll(r, p => ProductMatches(p, searchTerm, category));
  }

  /** With no search term and no category (or "all") the whole catalog comes back. */
  lemma FilterProductsWithoutCriteria(products: seq<Product>, category: string)
    requires category == "" || category == "all"
    ensures FilterProducts(products, "", category) == products
  {
    FilterKeepsAll(products, p => ProductMatches(p, "", category));
  }

  /** No two elements are equal. */
  ghost predicate Distinct(s: seq<string>)
  {
    forall i, j :: 0 <= i < j < |s| ==> s[i] != s[j]
  }

  /** Every element comes strictly before every later one. */
  ghost predicate StrictlySorted(s: seq<string>)
  {
    forall i, j :: 0 <= i < j < |s| ==> Before(s[i], s[j])
  }

  function Categories(products: seq<Product>): (r: seq<string>)
    ensures |r| == |products|
    ensures forall i :: 0 <= i < |products| ==> r[i] == products[i].category
  {
    seq(|products|, i requires 0 <= i < |products| => products[i].category)
  }

  /** The elements of a JavaScript `Set` built from `s`, spread back into a list: the first occurrence of each, in order. */
  function Dedupe(s: seq<string>): (r: seq<string>)
    ensures forall x :: x in r <==> x in s
    ensures Distinct(r)
    ensures |r| <= |s|
  {
    if |s| == 0 then []
    else
      var d := Dedupe(s[..|s| - 1]);
      var x := s[|s| - 1];
      assert s == s[..|s| - 1] + [x];
      if x in d then d else d + [x]
  }

  /** A list without repeats has as many elements as its set, so the size of the category set is the length of `Dedupe`. */
  lemma {:induction false} DistinctCardinality(s: seq<string>)
    requires Distinct(s)
    ensures |set x | x in s| == |s|
  {
    if |s| > 0 {
      var init := s[..|s| - 1];
      var x := s[|s| - 1];
      assert Distinct(init);
      DistinctCardinality(init);
      assert (set y | y in s) == (set y | y in init) + {x};
      assert x !in init;
    }
  }

  /** Insert into a sorted list in front of the first element that does not come before it. */
  function Insert(x: string, s: seq<string>): (r: seq<string>)
    ensures |r| == |s| + 1
    ensures multiset(r) == multiset(s) + multiset{x}
    ensures forall y :: y in r <==> y == x || y in s
  {
    if |s| == 0 then [x]
    else if Before(x, s[0]) then [x] + s
    else
      assert s == [s[0]] + s[1..];
      [s[0]] + Insert(x, s[1..])
  }

  /** Inserting a new element into a strictly sorted list keeps it strictly sorted. */
  lemma {:induction false} InsertKeepsSorted(x: string, s: seq<string>)
    requires StrictlySorted(s) && x !in s
    ensures StrictlySorted(Insert(x, s))
  {
    if |s| == 0 {
    } else if Before(x, s[0]) {
      SortedTail(s);
      forall y | y in s ensures Before(x, y) {
        if y != s[0] {
          BeforeTransitive(x, s[0], y);
        }
      }
      ConsSorted(x, s);
    } else {
      var rest := Insert(x, s[1..]);
      BeforeTotal(x, s[0]);
      SortedTail(s);
      InsertKeepsSorted(x, s[1..]);
      ConsSorted(s[0], rest);
      assert Insert(x, s) == [s[0]] + rest;
    }
  }

  /** The tail of a strictly sorted list is strictly sorted and comes after its head. */
  lemma SortedTail(s: seq<string>)
    requires StrictlySorted(s) && |s| > 0
    ensures StrictlySorted(s[1..])
    ensures forall y | y in s[1..] :: Before(s[0], y)
  {
    var t := s[1..];
    forall i, j | 0 <= i < j < |t| ensures Before(t[i], t[j]) {
      assert t[i] == s[i + 1] && t[j] == s[j + 1];
    }
    forall y | y in t ensures Before(s[0], y) {
      var k :| 0 <= k < |t| && t[k] == y;
      assert s[k + 1] == y;
    }
  }

  /** A head that comes before every element of a strictly sorted list extends it. */
  lemma ConsSorted(h: string, t: seq<string>)
    requires StrictlySorted(t)
    requires forall y | y in t :: Before(h, y)
    ensures StrictlySorted([h] + t)
  {
    var r := [h] + t;
    forall i, j | 0 <= i < j < |r| ensures Before(r[i], r[j]) {
      assert r[j] == t[j - 1];
      if i > 0 {
        assert r[i] == t[i - 1];
      }
    }
  }

  /** Insertion sort by `Before` (the default `Array.prototype.sort` order on these strings). */
  function Sort(s: seq<string>): (r: seq<string>)
    ensures |r| == |s|
    ensures multiset(r) == multiset(s)
    ensures forall y :: y in r <==> y in s
  {
    if |s| == 0 then []
    else
      var init := s[..|s| - 1];
      var x := s[|s| - 1];
      assert s == init + [x];
      Insert(x, Sort(init))
  }

  /** Sorting a list without repeats yields a strictly sorted list. */
  lemma {:induction false} SortSorts(s: seq<string>)
    requires Distinct(s)
    ensures StrictlySorted(Sort(s))
  {
    if |s| > 0 {
      var init := s[..|s| - 1];
      var x := s[|s| - 1];
      assert s == init + [x];
      assert Distinct(init);
      SortSorts(init);
      assert x !in Sort(init);
      InsertKeepsSorted(x, Sort(init));
    }
  }

  /** `getUniqueCategories`. */
  function UniqueCategories(products: seq<Product>): (r: seq<string>)
    ensures StrictlySorted(r)
    ensures forall c :: c in r <==> exists i :: 0 <= i < |products| && products[i].category == c
  {
    var d := Dedupe(Categories(products));
    SortSorts(d);
    Sort(d)
  }

  /** A strictly sorted list has no repeats, so its length is the number of distinct categories. */
  lemma UniqueCategoriesCount(products: seq<Product>)
    ensures |UniqueCategories(products)| == |set c | c in Categories(products)|
    ensures Distinct(UniqueCategories(products))
  {
    var r := UniqueCategories(products);
    var d := Dedupe(Categories(products));
    forall i, j | 0 <= i < j < |r| ensures r[i] != r[j] {
      if r[i] == r[j] {
        BeforeIrreflexive(r[i]);
      }
    }
    DistinctCardinality(d);
    assert (set c | c in d) == (set c | c in Categories(products));
  }

  datatype ProductStats = ProductStats(
    totalProducts: int,
    inStockProducts: int,
    outOfStockProducts: int,
    totalValue: int,
    categoriesCount: int)

  /** The sum of the catalog's prices (one unit of each product). */
  function TotalValue(products: seq<Product>): int
  {
    if |products| == 0 then 0 else products[0].price + TotalValue(products[1..])
  }

  /**
   * The statistics `getProductStats` computes in demo mode: the number of
   * products, how many are in and out of stock, the sum of the prices, and
   * the number of distinct categories, which is the length of the list
   * `getUniqueCategories` returns.
   */
  function Stats(products: seq<Product>): (s: ProductStats)
    ensures s.totalProducts == |products|
    ensures s.inStockProducts == Count(products, InStock) && s.outOfStockProducts == Count(products, OutOfStock)
    ensures s.inStockProducts + s.outOfStockProducts == s.totalProducts
    ensures s.inStockProducts == s.totalProducts <==> forall i :: 0 <= i < |products| ==> products[i].inStock
    ensures s.totalValue == TotalValue(products)
    ensures s.categoriesCount == |UniqueCategories(products)|
    ensures 0 <= s.categoriesCount <= s.totalProducts
    ensures s.categoriesCount == 0 <==> |products| == 0
  {
    FilterComplementLength(products, InStock, OutOfStock);
    AllInStock(products);
    CategoryCount(products);
    ProductStats(
      |products|,
      |Filter(products, InStock)|,
      |Filter(products, OutOfStock)|,
      TotalValue(products),
      |set c | c in Categories(products)|)
  }

  /** The size of the category set is the length of the category list, at most the catalog's size, and 0 only for an empty catalog. */
  lemma CategoryCount(products: seq<Product>)
    ensures |set c | c in Categories(products)| == |UniqueCategories(products)|
    ensures |UniqueCategories(products)| <= |products|
    ensures |UniqueCategories(products)| == 0 <==> |products| == 0
  {
    var categories := Categories(products);
    UniqueCategoriesCount(products);
    var d := Dedupe(categories);
    assert |products| > 0 ==> categories[0] in UniqueCategories(products);
  }

  /** Every product is in stock exactly when the in-stock filter keeps them all. */
  lemma AllInStock(products: seq<Product>)
    ensures |Filter(products, InStock)| == |products| <==> forall i :: 0 <= i < |products| ==> products[i].inStock
  {
    FilterComplementLength(products, InStock, OutOfStock);
    if forall i :: 0 <= i < |products| ==> products[i].inStock {
      FilterKeepsAll(products, InStock);
    } else {
      var k :| 0 <= k < |products| && !products[k].inStock;
      assert products[k] in Filter(products, OutOfStock);
    }
  }

  /** The sum of the prices of two catalogs put together is the sum of their sums. */
  lemma {:induction false} TotalValueAppend(a: seq<Product>, b: seq<Product>)
    ensures TotalValue(a + b) == TotalValue(a) + TotalValue(b)
  {
    if |a| > 0 {
      assert (a + b)[1..] == a[1..] + b;
      TotalValueAppend(a[1..], b);
    } else {
      assert a + b == b;
    }
  }

  /**
   * Every statistic but the category count adds up over two catalogs put
   * together; categories the two share are counted once, so that count is
   * at most the sum.
   */
  lemma StatsAppend(a: seq<Product>, b: seq<Product>)
    ensures var s, sa, sb := Stats(a + b), Stats(a), Stats(b);
      && s.totalProducts == sa.totalProducts + sb.totalProducts
      && s.inStockProducts == sa.inStockProducts + sb.inStockProducts
      && s.outOfStockProducts == sa.outOfStockProducts + sb.outOfStockProducts
      && s.totalValue == sa.totalValue + sb.totalValue
      && s.categoriesCount <= sa.categoriesCount + sb.categoriesCount
  {
    var s, sa, sb := Stats(a + b), Stats(a), Stats(b);
    FilterAppend(a, b, InStock);
    FilterAppend(a, b, OutOfStock);
    TotalValueAppend(a, b);
    CategoriesAppend(a, b);
  }

  /** The distinct categories of two catalogs put together are at most those of each, added. */
  lemma CategoriesAppend(a: seq<Product>, b: seq<Product>)
    ensures |UniqueCategories(a + b)| <= |UniqueCategories(a)| + |UniqueCategories(b)|
  {
    UniqueCategoriesCount(a + b);
    UniqueCategoriesCount(a);
    UniqueCategoriesCount(b);
    CategoriesOfAppend(a, b);
    ElementsOfAppend(Categories(a), Categories(b));
  }

  lemma CategoriesOfAppend(a: seq<Product>, b: seq<Product>)
    ensures Categories(a + b) == Categories(a) + Categories(b)
  {
  }

  /** The elements of two lists put together number at most the elements of each, added. */
  lemma ElementsOfAppend(x: seq<string>, y: seq<string>)
    ensures |set c | c in x + y| <= |set c | c in x| + |set c | c in y|
  {
    var sx, sy := set c | c in x, set c | c in y;
    assert (set c | c in x + y) == sx + sy;
    assert |sx + sy| + |sx * sy| == |sx| + |sy|;
  }

  /** Over the demo catalog: four products, three in stock, a total price of 5196, three categories. */
  lemma DemoCatalogStats()
    ensures Stats(DemoApi.DEMO_PRODUCTS) == ProductStats(4, 3, 1, 5196, 3)
  {
    var ps := DemoApi.DEMO_PRODUCTS;
    assert |ps| == 4;
    assert ps[0].inStock && ps[1].inStock && ps[2].inStock && !ps[3].inStock;
    assert ps[0].price == 1199 && ps[1].price == 1099 && ps[2].price == 2499 && ps[3].price == 399;
    assert ps[0].category == ps[1].category == "smartphones";
    assert ps[2].category == "laptops" && ps[3].category == "headphones";
    StatsOfFour(ps);
  }

  lemma StatsOfFour(ps: seq<Product>)
    requires |ps| == 4
    requires ps[0].inStock && ps[1].inStock && ps[2].inStock && !ps[3].inStock
    requires ps[0].price == 1199 && ps[1].price == 1099 && ps[2].price == 2499 && ps[3].price == 399
    requires ps[0].category == ps[1].category == "smartphones"
    requires ps[2].category == "laptops" && ps[3].category == "headphones"
    ensures Stats(ps) == ProductStats(4, 3, 1, 5196, 3)
  {
    InStockOfFour(ps);
    TotalValueOfFour(ps);
    CategoriesOfFour(ps);
  }

  lemma InStockOfFour(ps: seq<Product>)
    requires |ps| == 4
    requires ps[0].inStock && ps[1].inStock && ps[2].inStock && !ps[3].inStock
    ensures |Filter(ps, InStock)| == 3
  {
    assert ps == [ps[0]] + ([ps[1]] + ([ps[2]] + [ps[3]]));
    FilterAppend([ps[2]], [ps[3]], InStock);
    FilterAppend([ps[1]], [ps[2]] + [ps[3]], InStock);
    FilterAppend([ps[0]], [ps[1]] + ([ps[2]] + [ps[3]]), InStock);
  }

  lemma TotalValueOfFour(ps: seq<Product>)
    requires |ps| == 4
    requires ps[0].price == 1199 && ps[1].price == 1099 && ps[2].price == 2499 && ps[3].price == 399
    ensures TotalValue(ps) == 5196
  {
    var t3 := ps[3..];
    assert t3 == [ps[3]] && t3[1..] == [];
    assert TotalValue(t3) == 399;
    assert ps[2..][1..] == t3;
    assert TotalValue(ps[2..]) == 2499 + 399;
    assert ps[1..][1..] == ps[2..];
    assert TotalValue(ps[1..]) == 1099 + 2499 + 399;
  }

  lemma CategoriesOfFour(ps: seq<Product>)
    requires |ps| == 4
    requires ps[0].category == ps[1].category == "smartphones"
    requires ps[2].category == "laptops" && ps[3].category == "headphones"
    ensures |set c | c in Categories(ps)| == 3
  {
    var categories := Categories(ps);
    assert categories == ["smartphones", "smartphones", "laptops", "headphones"];
    assert (set c | c in categories) == {"smartphones", "laptops", "headphones"};
  }
}
