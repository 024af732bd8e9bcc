/**
 * The catalog page: the load lifecycle (`products`, `loading`), the
 * five-star rating row, and each card's stock badge and add button.
 */
module ProductList {
  import opened Wrappers
  import opened Entities

  datatype Star = Lit | Dim

  /** JavaScript's `r % 1`: the remainder keeps the sign of `r` (truncation toward zero). */
  function JsRemOne(r: real): real
  {
    if r >= 0.0 then r - r.Floor as real else r + (-r).Floor as real
  }

  /**
   * Star `i` is lit when it lies below `Math.floor(rating)`, or sits at
   * that position and the rating's remainder is at least one half.
   * A half star looks the same as a full one.
   */
  predicate StarLit(rating: real, i: int)
  {
    i < rating.Floor || (i == rating.Floor && JsRemOne(rating) >= 0.5)
  }

  /** `renderStars(rating)`: a loop of five pushes, one per star. */
  method RenderStars(rating: real) returns (stars: seq<Star>)
    ensures |stars| == 5
    ensures forall i :: 0 <= i < 5 ==> (stars[i] == Lit <==> StarLit(rating, i))
  {
    stars := [];
    var fullStars := rating.Floor;
    var hasHalfStar := JsRemOne(rating) >= 0.5;
    var i := 0;
    while i < 5
      invariant 0 <= i <= 5
      invariant |stars| == i
      invariant forall j :: 0 <= j < i ==> (stars[j] == Lit <==> StarLit(rating, j))
    {
      if i < fullStars {
        stars := stars + [Lit];
      } else if i == fullStars && hasHalfStar {
        stars := stars + [Lit];
      } else {
        stars := stars + [Dim];
      }
      i := i + 1;
    }
  }

  /** The row `renderStars` produces, as a value. */
  function Stars(rating: real): (s: seq<Star>)
    ensures |s| == 5
  {
    seq(5, i requires 0 <= i < 5 => if StarLit(rating, i) then Lit else Dim)
  }

  /** The lit stars are those below the rating rounded half up. */
  lemma StarsRoundHalfUp(rating: real, i: int)
    requires 0 <= i
    ensures StarLit(rating, i) <==> i < (rating + 0.5).Floor
  {
    if rating < 0.0 {
      assert rating.Floor < 0;
      assert (rating + 0.5).Floor <= 0;
    } else {
      assert JsRemOne(rating) == rating - rating.Floor as real;
      if JsRemOne(rating) >= 0.5 {
        assert (rating + 0.5).Floor == rating.Floor + 1;
      } else {
        assert (rating + 0.5).Floor == rating.Floor;
      }
    }
  }

  /** The lit stars form a prefix of the row: a lit star has only lit stars before it. */
  lemma LitStarsPrefix(rating: real, i: int, j: int)
    requires 0 <= j <= i < 5
    requires Stars(rating)[i] == Lit
    ensures Stars(rating)[j] == Lit
  {
    StarsRoundHalfUp(rating, i);
    StarsRoundHalfUp(rating, j);
  }

  /** `product.rating && ...`: a missing or zero rating hides the whole rating block. */
  predicate RatingShown(rating: Option<real>)
  {
    rating.Some? && rating.value != 0.0
  }

  const OutOfStockLabel := "Out of Stock"
  const AddLabel := "Add to Cart"

  /** One product card. `product` is what the add button hands to `addToCart`. */
  datatype Card = Card(
    product: Product,
    brandShown: bool,
    onlyLeftBadge: Option<int>,
    outOfStockBadge: bool,
    stars: Option<seq<Star>>,
    addDisabled: bool,
    addLabel: string)

  function RenderCard(p: Product): (c: Card)
    ensures c.product == p
    ensures c.brandShown <==> p.brand.Some? && p.brand.value != ""
    ensures c.onlyLeftBadge.Some? <==> 0 < p.stock < 10
    ensures c.onlyLeftBadge.Some? ==> c.onlyLeftBadge.value == p.stock
    ensures c.outOfStockBadge <==> p.stock == 0
    ensures !(c.onlyLeftBadge.Some? && c.outOfStockBadge)
    ensures c.addDisabled <==> p.stock == 0
    ensures c.addLabel == OutOfStockLabel <==> c.addDisabled
    ensures c.stars.Some? <==> RatingShown(p.rating)
    ensures c.stars.Some? ==> |c.stars.value| == 5
  {
    Card(
      p,
      p.brand.Some? && p.brand.value != "",
      if p.stock < 10 && p.stock > 0 then Some(p.stock) else None,
      p.stock == 0,
      if RatingShown(p.rating) then Some(Stars(p.rating.value)) else None,
      p.stock == 0,
      if p.stock == 0 then OutOfStockLabel else AddLabel)
  }

  datatype PageView = LoadingText | Grid(cards: seq<Card>)

  /** The page's `products` and `loading` state slots, set by the fetch callbacks. */
  class ProductListPage {
    var products: seq<Product>
    var loading: bool

    constructor()
      ensures products == [] && loading
    {
      products := [];
      loading := true;
    }

    /** The fetch resolved with `data`. */
    method OnFetched(data: seq<Product>)
      modifies this
      ensures products == data && !loading
    {
      products := data;
      loading := false;
    }

    /** The fetch failed: the products stay as they were. */
    method OnFetchFailed()
      modifies this
      ensures products == old(products) && !loading
    {
      loading := false;
    }

    /** The loading text while loading, else one card per product in fetched order. */
    function View(): (v: PageView)
      reads this
      ensures v.LoadingText? <==> loading
      ensures v.Grid? ==> |v.cards| == |products|
      ensures v.Grid? ==> forall k :: 0 <= k < |products| ==> v.cards[k] == RenderCard(products[k])
    {
      if loading then LoadingText
      else Grid(seq(|products|, k requires 0 <= k < |products| reads this => RenderCard(products[k])))
    }
  }

  /** The page mounts and its one fetch fails: no products, loading over, an empty grid. */
  method MountThenFail() returns (page: ProductListPage)
    ensures page.products == [] && !page.loading
    ensures page.View() == Grid([])
  {
    page := new ProductListPage();
    page.OnFetchFailed();
  }
}
