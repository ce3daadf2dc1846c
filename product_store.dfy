/**
 * The static catalog of src/data/products.ts: `ProductService.products`,
 * a copy of the seed list that the static methods search, push to,
 * rewrite and splice. Ratings are in tenths of a star.
 */
module ProductStore {
  import opened Wrappers
  import opened Seqs
  import opened Entities

  const MOCK_PRODUCTS: seq<Product> := [
    Product("1", "iPhone 15 Pro Max 256GB", "Новейший iPhone с титановым корпусом и передовой камерой",
      1349, Some(1499), "https://images.unsplash.com/photo-1695048133142-1a20484d2569?w=400&h=300&fit=crop",
      "Смартфоны", "Apple", true, 48, 245, ["A17 Pro чип", "48MP камера", "Titanium корпус"]),
    Product("2", "MacBook Air M3 13\"", "Ультратонкий ноутбук с чипом M3 для повседневных задач",
      1199, Some(1299), "https://images.unsplash.com/photo-1541807084-5c52b6b3adef?w=400&h=300&fit=crop",
      "Ноутбуки", "Apple", true, 49, 189, ["M3 чип", "18 часов работы", "Liquid Retina дисплей"]),
    Product("3", "Samsung Galaxy S24 Ultra", "Флагманский смартфон с S Pen и мощной камерой",
      1249, None, "https://images.unsplash.com/photo-1610945265064-0e34e5519bbf?w=400&h=300&fit=crop",
      "Смартфоны", "Samsung", true, 47, 312, ["200MP камера", "S Pen", "Snapdragon 8 Gen 3"]),
    Product("4", "Sony WH-1000XM5", "Беспроводные наушники с активным шумоподавлением",
      349, Some(399), "https://images.unsplash.com/photo-1583394838336-acd977736f90?w=400&h=300&fit=crop",
      "Наушники", "Sony", true, 46, 567, ["30 часов работы", "Быстрая зарядка", "Hi-Res Audio"]),
    Product("5", "iPad Pro 12.9\" M2", "Профессиональный планшет для творчества и работы",
      1099, None, "https://images.unsplash.com/photo-1544244015-0df4b3ffc6b0?w=400&h=300&fit=crop",
      "Планшеты", "Apple", false, 48, 143, ["M2 чип", "Liquid Retina XDR", "Apple Pencil 2"]),
    Product("6", "Dell XPS 13 Plus", "Премиальный ультрабук с InfinityEdge дисплеем",
      899, Some(999), "https://images.unsplash.com/photo-1496181133206-80ce9b88a853?w=400&h=300&fit=crop",
      "Ноутбуки", "Dell", true, 45, 89, ["Intel Core i7", "16GB RAM", "4K дисплей"]),
    Product("7", "AirPods Pro 2", "Беспроводные наушники с адаптивным шумоподавлением",
      249, Some(279), "https://images.unsplash.com/photo-1606220945770-b5b6c2c55bf1?w=400&h=300&fit=crop",
      "Наушники", "Apple", true, 47, 892, ["H2 чип", "Адаптивное шумоподавление", "MagSafe зарядка"]),
    Product("8", "Samsung 55\" Neo QLED 4K", "Премиальный телевизор с Quantum Matrix Technology",
      1599, Some(1799), "https://images.unsplash.com/photo-1593359677879-a4bb92f829d1?w=400&h=300&fit=crop",
      "Телевизоры", "Samsung", true, 46, 234, ["Neo QLED", "4K 120Hz", "Smart TV"])
  ]

  class ProductService {
    var products: seq<Product>

    constructor ()
      ensures products == MOCK_PRODUCTS
    {
      products := MOCK_PRODUCTS;
    }

    /** `getAllProducts`: a copy of the catalog. */
    function GetAllProducts(): (r: seq<Product>)
      reads this
      ensures r == products
    {
      products
    }

    /** `getProductById`: the first product with the id. */
    function GetProductById(id: string): (r: Option<Product>)
      reads this
      ensures r.Some? ==> r.value in products && r.value.id == id
      ensures r.Some? ==> 0 <= FindIndex(products, ProductId, id) && r.value == products[FindIndex(products, ProductId, id)]
      ensures r.None? <==> forall i :: 0 <= i < |products| ==> products[i].id != id
    {
      Find(products, ProductId, id)
    }

    /** `addProduct`: push the product under the id `Date.now().toString()`, which replaces any id it came with. */
    method AddProduct(data: Product, stamp: string) returns (p: Product)
      modifies this
      ensures p == data.(id := stamp) && products == old(products) + [p]
    {
      p := data.(id := stamp);
      products := products + [p];
    }

    /** `updateProduct`: merge the patch into the first product with the id; `None` when there is none. */
    method UpdateProduct(id: string, patch: ProductPatch) returns (r: Option<Product>)
      modifies this
      ensures var i := FindIndex(old(products), ProductId, id);
        if i == -1 then r == None && products == old(products)
        else r == Some(PatchProduct(old(products)[i], patch)) && products == old(products)[i := r.value]
    {
      var index := FindIndex(products, ProductId, id);
      if index == -1 {
        return None;
      }
      products := products[index := PatchProduct(products[index], patch)];
      r := Some(products[index]);
    }

    /** `deleteProduct`: splice out the first product with the id; false when there is none. */
    method DeleteProduct(id: string) returns (deleted: bool)
      modifies this
      ensures var i := FindIndex(old(products), ProductId, id);
        if i == -1 then !deleted && products == old(products)
        else deleted && products == old(products)[..i] + old(products)[i + 1..]
    {
      var index := FindIndex(products, ProductId, id);
      if index == -1 {
        return false;
      }
      products := products[..index] + products[index + 1..];
      deleted := true;
    }

    /** `resetProducts`. */
    method ResetProducts()
      modifies this
      ensures products == MOCK_PRODUCTS
    {
      products := MOCK_PRODUCTS;
    }
  }

  /**
   * Deleting by id removes exactly the first product with that id: the
   * list loses one element, every other product keeps its relative order,
   * and a later product with the same id would still be found.
   */
  lemma SpliceRemovesFirstMatch(products: seq<Product>, id: string)
    requires FindIndex(products, ProductId, id) != -1
    ensures var i := FindIndex(products, ProductId, id);
      var r := products[..i] + products[i + 1..];
      && |r| == |products| - 1
      && IsSubsequence(r, products)
      && (forall j :: 0 <= j < |products| && j != i ==> products[j] in r)
  {
    var i := FindIndex(products, ProductId, id);
    SpliceIsSubsequence(products, i);
    var r := products[..i] + products[i + 1..];
    forall j | 0 <= j < |products| && j != i ensures products[j] in r {
      if j < i {
        assert r[j] == products[j];
      } else {
        assert r[j - 1] == products[j];
      }
    }
  }
}
