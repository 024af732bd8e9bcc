/**
 * The product service: an in-memory map from id to product with an id
 * counter, the loader that fills it from a fetched feed (falling back to
 * three built-in products when the fetch or a record fails), the
 * create/update/delete operations, and the search and category filters.
 */
module ProductService {
  import opened Wrappers
  import opened Entities
  import opened Text

  /** The map and the next id to hand out. */
  datatype Catalog = Catalog(products: map<Id, Product>, idCounter: int)

  /** The store invariant: the counter is positive and above every stored id. */
  ghost predicate CounterBound(c: Catalog)
  {
    c.idCounter >= 1 && forall k :: k in c.products ==> k < c.idCounter
  }

  /** Every product is stored under its own id. */
  ghost predicate KeyedById(products: map<Id, Product>)
  {
    forall k :: k in products ==> products[k].id == k
  }

  ghost predicate StoreInvariant(c: Catalog)
  {
    CounterBound(c) && KeyedById(c.products)
  }

  /**
   * One record of the fetched feed. A field is None when it is absent
   * (for the price: also when its text is not a number).
   */
  datatype RawProduct = RawProduct(
    id: Option<int>,
    title: Option<string>,
    description: Option<string>,
    price: Option<real>,
    category: Option<string>,
    stock: Option<int>,
    brand: Option<string>,
    rating: Option<real>,
    images: Option<seq<string>>)

  /** What the fetch of the external catalog produced. */
  datatype Feed =
    | Unreachable                    // the request or the parse threw
    | NoProductsArray                // the reply has no "products" array
    | Records(records: seq<RawProduct>)

  const DefaultBrand := "Generic"
  const DefaultRating := 0.0

  /**
   * The loader's conversion of one record: brand "Generic" and rating 0.0
   * when absent, the image list (empty when absent) and its first entry
   * as the image URL. None when a required field is missing, where the
   * loader throws.
   */
  function FromRaw(raw: RawProduct): (r: Option<Product>)
    ensures r.Some? <==>
      raw.id.Some? && raw.title.Some? && raw.description.Some? && raw.price.Some?
      && raw.category.Some? && raw.stock.Some?
    ensures r.Some? ==> r.value.id == raw.id.value && r.value.stock == raw.stock.value
    ensures r.Some? ==>
      r.value.name == raw.title.value && r.value.description == raw.description.value
      && r.value.price == raw.price.value && r.value.category == raw.category.value
    ensures r.Some? ==> r.value.images == if raw.images.Some? then raw.images.value else []
    ensures r.Some? ==> r.value.brand == Some(if raw.brand.Some? then raw.brand.value else DefaultBrand)
    ensures r.Some? ==> r.value.rating == Some(if raw.rating.Some? then raw.rating.value else DefaultRating)
    ensures r.Some? ==> (r.value.imageUrl.Some? <==> r.value.images != [])
    ensures r.Some? && r.value.images != [] ==> r.value.imageUrl == Some(r.value.images[0])
  {
    if raw.id.None? || raw.title.None? || raw.description.None? || raw.price.None?
       || raw.category.None? || raw.stock.None?
    then None
    else
      var images := if raw.images.Some? then raw.images.value else [];
      Some(Product(
        raw.id.value, raw.title.value, raw.description.value, raw.price.value,
        raw.category.value, raw.stock.value,
        if images == [] then None else Some(images[0]),
        Some(if raw.brand.Some? then raw.brand.value else DefaultBrand),
        Some(if raw.rating.Some? then raw.rating.value else DefaultRating),
        images))
  }

  /** The loader's store of one product under its own id, with the counter bump. */
  function Put(c: Catalog, p: Product): (r: Catalog)
    ensures r.products == c.products[p.id := p]
    ensures r.idCounter == if p.id >= c.idCounter then p.id + 1 else c.idCounter
    ensures StoreInvariant(c) ==> StoreInvariant(r)
    ensures r.idCounter >= c.idCounter && r.idCounter > p.id
  {
    Catalog(c.products[p.id := p], if p.id >= c.idCounter then p.id + 1 else c.idCounter)
  }

  /**
   * The loader's loop over the records; it stops at the first record that
   * cannot be converted, reporting the failure.
   */
  function LoadRecords(c: Catalog, records: seq<RawProduct>): (r: (Catalog, bool))
    ensures StoreInvariant(c) ==> StoreInvariant(r.0)
    decreases |records|
  {
    if records == [] then (c, false)
    else match FromRaw(records[0])
      case None => (c, true)
      case Some(p) => LoadRecords(Put(c, p), records[1..])
  }

  /** `createProduct`: store under the counter's value, whatever id was given. */
  function Create(c: Catalog, p: Product): (r: (Catalog, Product))
    ensures r.1 == p.(id := c.idCounter)
    ensures r.0.idCounter == c.idCounter + 1
    ensures CounterBound(c) ==> r.1.id !in c.products
    ensures StoreInvariant(c) ==> StoreInvariant(r.0)
    ensures CounterBound(c) ==> forall k :: k in c.products ==> k in r.0.products && r.0.products[k] == c.products[k]
    ensures r.0.products.Keys == c.products.Keys + {r.1.id}
    ensures r.0.products == c.products[c.idCounter := r.1]
  {
    var created := p.(id := c.idCounter);
    (Catalog(c.products[c.idCounter := created], c.idCounter + 1), created)
  }

  const ImgLaptop := "https://images.unsplash.com/photo-1496181133206-80ce9b88a853?w=400"
  const ImgPhone := "https://images.unsplash.com/photo-1511707171634-5f897ff02aa9?w=400"
  const ImgHeadphones := "https://images.unsplash.com/photo-1505740420928-5e560c06d30e?w=400"

  /** The built-in products; their id (null in the source) is replaced on creation. */
  const FallbackProducts: seq<Product> := [
    Product(0, "Laptop", "High-performance laptop", 999.99, "Electronics", 10,
            Some(ImgLaptop), Some(DefaultBrand), Some(4.5), [ImgLaptop]),
    Product(0, "Smartphone", "Latest smartphone model", 699.99, "Electronics", 25,
            Some(ImgPhone), Some(DefaultBrand), Some(4.7), [ImgPhone]),
    Product(0, "Headphones", "Wireless noise-canceling headphones", 199.99, "Electronics", 50,
            Some(ImgHeadphones), Some(DefaultBrand), Some(4.3), [ImgHeadphones])
  ]

  /** The three creations of the fallback. */
  function WithFallback(c: Catalog): (r: Catalog)
    ensures r.idCounter == c.idCounter + 3
    ensures r.products == c.products
      [c.idCounter := FallbackProducts[0].(id := c.idCounter)]
      [c.idCounter + 1 := FallbackProducts[1].(id := c.idCounter + 1)]
      [c.idCounter + 2 := FallbackProducts[2].(id := c.idCounter + 2)]
    ensures StoreInvariant(c) ==> StoreInvariant(r)
  {
    Create(Create(Create(c, FallbackProducts[0]).0, FallbackProducts[1]).0, FallbackProducts[2]).0
  }

  /** The whole loader: the catalog after the fetch has produced `feed`. */
  function Initialized(c: Catalog, feed: Feed): (r: Catalog)
    ensures StoreInvariant(c) ==> StoreInvariant(r)
  {
    match feed
    case Unreachable => WithFallback(c)
    case NoProductsArray => c
    case Records(records) =>
      var (loaded, failed) := LoadRecords(c, records);
      if failed then WithFallback(loaded) else loaded
  }

  /** A record whose id is not below the counter moves the counter past it. */
  lemma LoadedIdsBelowCounter(c: Catalog, records: seq<RawProduct>, i: nat)
    requires i < |records| && FromRaw(records[i]).Some?
    requires forall j :: 0 <= j < i ==> FromRaw(records[j]).Some?
    ensures FromRaw(records[i]).value.id in LoadRecords(c, records).0.products
    ensures FromRaw(records[i]).value.id < LoadRecords(c, records).0.idCounter
    decreases i
  {
    if i == 0 {
      LoadKeepsKeys(Put(c, FromRaw(records[0]).value), records[1..]);
    } else {
      assert FromRaw(records[0]).Some?;
      assert records[1..][i - 1] == records[i];
      LoadedIdsBelowCounter(Put(c, FromRaw(records[0]).value), records[1..], i - 1);
    }
  }

  lemma {:induction false} LoadKeepsKeys(c: Catalog, records: seq<RawProduct>)
    ensures c.products.Keys <= LoadRecords(c, records).0.products.Keys
    ensures c.idCounter <= LoadRecords(c, records).0.idCounter
    decreases |records|
  {
    if records != [] && FromRaw(records[0]).Some? {
      LoadKeepsKeys(Put(c, FromRaw(records[0]).value), records[1..]);
    }
  }

  /** `searchProducts`: the lower-cased query occurs in the lower-cased name or description. */
  predicate MatchesQuery(p: Product, query: string)
  {
    Contains(Lower(p.name), Lower(query)) || Contains(Lower(p.description), Lower(query))
  }

  /** `searchProducts(query)` over the stored products, as the entries it keeps. */
  function Search(products: map<Id, Product>, query: string): (r: map<Id, Product>)
    ensures forall k :: k in r <==> k in products && MatchesQuery(products[k], query)
    ensures forall k :: k in r ==> r[k] == products[k]
  {
    map k | k in products && MatchesQuery(products[k], query) :: products[k]
  }

  /** Searching ignores the case of the query. */
  lemma SearchIgnoresQueryCase(products: map<Id, Product>, query: string)
    ensures Search(products, Lower(query)) == Search(products, query)
  {
    LowerIdempotent(query);
  }

  /** The brand is not searched: changing a product's brand never changes the result. */
  lemma SearchIgnoresBrand(products: map<Id, Product>, k: Id, brand: Option<string>, query: string)
    requires k in products
    ensures k in Search(products[k := products[k].(brand := brand)], query) <==> k in Search(products, query)
  {
  }

  /** The empty query keeps every product. */
  lemma EmptyQueryKeepsAll(products: map<Id, Product>)
    ensures Search(products, "") == products
  {
    forall k | k in products ensures MatchesQuery(products[k], "") {
      assert StartsWith(Lower(products[k].name), Lower(""));
    }
  }

  /** `getProductsByCategory(category)`: the category equals the argument ignoring case. */
  function ByCategory(products: map<Id, Product>, category: string): (r: map<Id, Product>)
    ensures forall k :: k in r <==> k in products && EqualsIgnoreCase(products[k].category, category)
    ensures forall k :: k in r ==> r[k] == products[k]
  {
    map k | k in products && EqualsIgnoreCase(products[k].category, category) :: products[k]
  }

  /** The category filter ignores the case of its argument. */
  lemma ByCategoryIgnoresCase(products: map<Id, Product>, category: string)
    ensures ByCategory(products, Lower(category)) == ByCategory(products, category)
  {
    LowerIdempotent(category);
  }

  /** The service object: the `products` map and the `idCounter`. */
  class ProductStore {
    var products: map<Id, Product>
    var idCounter: int

    function Snapshot(): Catalog
      reads this
    {
      Catalog(products, idCounter)
    }

    ghost predicate Valid()
      reads this
    {
      StoreInvariant(Snapshot())
    }

    /** The service starts empty with counter 1 and runs the loader on the fetched `feed`. */
    constructor(feed: Feed)
      ensures Valid()
      ensures Snapshot() == Initialized(Catalog(map[], 1), feed)
    {
      products := map[];
      idCounter := 1;
      new;
      InitializeFromApi(feed);
    }

    method InitializeFromApi(feed: Feed)
      requires Valid()
      modifies this
      ensures Valid()
      ensures Snapshot() == Initialized(old(Snapshot()), feed)
    {
      match feed {
        case Unreachable =>
          InitializeFallbackProducts();
        case NoProductsArray =>
        case Records(records) =>
          var i := 0;
          var failed := false;
          while i < |records| && !failed
            invariant 0 <= i <= |records|
            invariant Valid()
            invariant LoadRecords(old(Snapshot()), records) ==
              if failed then (Snapshot(), true) else LoadRecords(Snapshot(), records[i..])
            decreases |records| - i, if failed then 0 else 1
          {
            assert records[i..][1..] == records[i + 1..];
            match FromRaw(records[i]) {
              case None =>
                failed := true;
              case Some(p) =>
                products := products[p.id := p];
                if p.id >= idCounter {
                  idCounter := p.id + 1;
                }
                i := i + 1;
            }
          }
          if failed {
            InitializeFallbackProducts();
          }
      }
    }

    method InitializeFallbackProducts()
      requires Valid()
      modifies this
      ensures Valid()
      ensures Snapshot() == WithFallback(old(Snapshot()))
    {
      var _ := CreateProduct(FallbackProducts[0]);
      var _ := CreateProduct(FallbackProducts[1]);
      var _ := CreateProduct(FallbackProducts[2]);
    }

    /**
     * `getAllProducts`: every stored product, in no particular order. Since
     * each is keyed by its own id, a product is listed exactly when it is
     * the entry under its id.
     */
    function GetAllProducts(): (r: set<Product>)
      requires Valid()
      reads this
      ensures forall p :: p in r <==> p.id in products && products[p.id] == p
    {
      set k | k in products :: products[k]
    }

    /** `getProductById`: a plain lookup. */
    function GetProductById(id: Id): (r: Option<Product>)
      reads this
      ensures r.Some? <==> id in products
      ensures r.Some? ==> r.value == products[id]
    {
      if id in products then Some(products[id]) else None
    }

    method CreateProduct(product: Product) returns (created: Product)
      requires Valid()
      modifies this
      ensures Valid()
      ensures (Snapshot(), created) == Create(old(Snapshot()), product)
    {
      created := product.(id := idCounter);
      products := products[idCounter := created];
      idCounter := idCounter + 1;
    }

    /** `updateProduct`: a present id has its entry replaced, carrying that id; nothing else changes. */
    method UpdateProduct(id: Id, product: Product) returns (r: Option<Product>)
      requires Valid()
      modifies this
      ensures Valid()
      ensures idCounter == old(idCounter)
      ensures id in old(products) ==> r == Some(product.(id := id)) && products == old(products)[id := product.(id := id)]
      ensures id !in old(products) ==> r == None && products == old(products)
    {
      if id in products {
        var stored := product.(id := id);
        products := products[id := stored];
        return Some(stored);
      }
      return None;
    }

    /** `deleteProduct`: true exactly when the id was present; every other entry stays. */
    method DeleteProduct(id: Id) returns (deleted: bool)
      requires Valid()
      modifies this
      ensures Valid()
      ensures idCounter == old(idCounter)
      ensures deleted <==> id in old(products)
      ensures products == old(products) - {id}
    {
      deleted := id in products;
      products := products - {id};
    }
  }
}
