/** The list logic of components/ProductGrid.tsx: the category filter and
    the inline AI panel that shows the top recommendations. */
module ProductGrid {
  import opened Schema
  import opened Server

  /** The category button that shows the whole catalog. */
  const AllCategories: string := "All"

  /** `products.filter(p => p.category === category)`. */
  function WithCategory(products: seq<Product>, category: string): (r: seq<Product>)
    ensures |r| <= |products|
    ensures forall p :: p in r <==> p in products && p.category == category
  {
    if products == [] then []
    else
      var init, last := products[..|products| - 1], products[|products| - 1];
      assert forall p :: p in products <==> p in init || p == last;
      WithCategory(init, category) + (if last.category == category then [last] else [])
  }

  /** The grid's product list for the active category. */
  function FilterProducts(products: seq<Product>, category: string): (r: seq<Product>)
    ensures category == AllCategories ==> r == products
    ensures category != AllCategories ==> forall i :: 0 <= i < |r| ==> r[i].category == category
  {
    if category == AllCategories then products
    else
      var r := WithCategory(products, category);
      assert forall i :: 0 <= i < |r| ==> r[i] in r;
      r
  }

  /** The filter keeps the relative order of what it keeps: filtering a
      concatenation is concatenating the filtered parts. */
  lemma {:induction false} WithCategoryAppend(a: seq<Product>, b: seq<Product>, category: string)
    ensures WithCategory(a + b, category) == WithCategory(a, category) + WithCategory(b, category)
    decreases |b|
  {
    if b != [] {
      var init := b[..|b| - 1];
      WithCategoryAppend(a, init, category);
      assert (a + b)[..|a + b| - 1] == a + init;
    } else {
      assert a + b == a;
    }
  }

  /** The filter drops no matching product: each product of the category
      occurs in the result exactly as often as in the catalog, any other
      product not at all. */
  lemma {:induction false} WithCategoryMultiplicity(products: seq<Product>, category: string, p: Product)
    ensures multiset(WithCategory(products, category))[p] ==
            (if p.category == category then multiset(products)[p] else 0)
  {
    if products != [] {
      var init, last := products[..|products| - 1], products[|products| - 1];
      WithCategoryMultiplicity(init, category, p);
      assert products == init + [last];
    }
  }

  /** `products.find(p => p.id === id)`: the first product with that id. */
  function FindProduct(products: seq<Product>, id: string): (r: Option<Product>)
    ensures r.Some? ==> r.value in products && r.value.id == id
    ensures r.None? <==> forall p :: p in products ==> p.id != id
    ensures r.Some? ==> exists i :: 0 <= i < |products| && products[i] == r.value &&
                                   forall j :: 0 <= j < i ==> products[j].id != id
  {
    if products == [] then None
    else if products[0].id == id then
      assert products[0] == products[0];
      Some(products[0])
    else
      var r := FindProduct(products[1..], id);
      assert forall p :: p in products ==> p == products[0] || p in products[1..];
      if r.Some? then
        var i :| 0 <= i < |products[1..]| && products[1..][i] == r.value &&
                 forall j :: 0 <= j < i ==> products[1..][j].id != id;
        assert products[i + 1] == r.value;
        r
      else r
  }

  /** One card of the AI panel: the catalog product and the percentage. */
  datatype Card = Card(product: Product, probability: int)

  /** The card for one recommendation: one when its id is in the catalog,
      showing the first product with that id, and none otherwise. */
  function CardOf(r: Recommendation, products: seq<Product>): (cards: seq<Card>)
    ensures FindProduct(products, r.id).None? ==> cards == []
    ensures FindProduct(products, r.id).Some? ==> cards == [Card(FindProduct(products, r.id).value, r.probability)]
  {
    match FindProduct(products, r.id)
    case Some(p) => [Card(p, r.probability)]
    case None => []
  }

  /** The cards for a list of recommendations, skipping any whose id is not
      in the catalog. */
  function Cards(recs: seq<Recommendation>, products: seq<Product>): (cards: seq<Card>)
    ensures |cards| <= |recs|
    ensures forall c :: c in cards ==> c.product in products
    ensures forall c :: c in cards ==> exists r :: r in recs && r.id == c.product.id && r.probability == c.probability
  {
    if recs == [] then []
    else
      var first := match FindProduct(products, recs[0].id)
        case Some(p) => [Card(p, recs[0].probability)]
        case None => [];
      var rest := Cards(recs[1..], products);
      assert forall r :: r in recs[1..] ==> r in recs;
      first + rest
  }

  /** A single recommendation gives exactly its own card, if any. */
  lemma CardsOfOne(r: Recommendation, products: seq<Product>)
    ensures Cards([r], products) == CardOf(r, products)
  {
    assert [r][1..] == [];
  }

  /** Cards are produced recommendation by recommendation: the cards of a
      concatenation are the cards of each part, in order. */
  lemma {:induction false} CardsAppend(a: seq<Recommendation>, b: seq<Recommendation>, products: seq<Product>)
    ensures Cards(a + b, products) == Cards(a, products) + Cards(b, products)
  {
    if a == [] {
      assert a + b == b;
    } else {
      var tail := a[1..];
      CardsAppend(tail, b, products);
      ConsSplit(a, b);
      CardsCons(a[0], tail, products);
      CardsCons(a[0], tail + b, products);
      ConcatAssoc(CardOf(a[0], products), Cards(tail, products), Cards(b, products));
    }
  }

  lemma CardsCons(r: Recommendation, rest: seq<Recommendation>, products: seq<Product>)
    ensures Cards([r] + rest, products) == CardOf(r, products) + Cards(rest, products)
  {
    assert ([r] + rest)[0] == r;
    assert ([r] + rest)[1..] == rest;
  }

  lemma ConsSplit<T>(a: seq<T>, b: seq<T>)
    requires a != []
    ensures a == [a[0]] + a[1..]
    ensures a + b == [a[0]] + (a[1..] + b)
  {
  }

  lemma ConcatAssoc<T>(x: seq<T>, y: seq<T>, z: seq<T>)
    ensures x + (y + z) == (x + y) + z
  {
  }

  /** When every recommended id is in the catalog, there is one card per
      recommendation, in recommendation order. */
  lemma {:induction false} CardsWhenAllKnown(recs: seq<Recommendation>, products: seq<Product>)
    requires forall r :: r in recs ==> exists p :: p in products && p.id == r.id
    ensures |Cards(recs, products)| == |recs|
    ensures forall i :: 0 <= i < |recs| ==>
              Cards(recs, products)[i].product.id == recs[i].id && Cards(recs, products)[i].probability == recs[i].probability
  {
    if recs != [] {
      var rest := recs[1..];
      assert forall r :: r in rest ==> r in recs;
      CardsWhenAllKnown(rest, products);
      assert recs[0] in recs;
      var found := FindProduct(products, recs[0].id);
      assert found.Some?;
      var cards := Cards(recs, products);
      assert cards == [Card(found.value, recs[0].probability)] + Cards(rest, products);
      forall i | 0 <= i < |recs|
        ensures cards[i].product.id == recs[i].id && cards[i].probability == recs[i].probability
      {
        if i > 0 {
          assert cards[i] == Cards(rest, products)[i - 1];
          assert recs[i] == rest[i - 1];
        }
      }
    }
  }

  /** `aiRecommendations.slice(0, 3)`. */
  function TopThree(recs: seq<Recommendation>): (top: seq<Recommendation>)
    ensures |top| <= 3 && |top| <= |recs|
    ensures top == recs[..|top|]
    ensures |recs| <= 3 ==> top == recs
  {
    if |recs| <= 3 then recs else recs[..3]
  }

  /** The inline panel: shown only when the flag is set and the list is
      present and non-empty; then at most three cards, taken from the
      first three recommendations in order. */
  function AiPanel(show: bool, recs: Option<seq<Recommendation>>, products: seq<Product>): (panel: Option<seq<Card>>)
    ensures panel.Some? <==> show && recs.Some? && |recs.value| > 0
    ensures panel.Some? ==> |panel.value| <= 3
    ensures panel.Some? ==> panel.value == Cards(TopThree(recs.value), products)
    ensures panel.Some? ==> forall c :: c in panel.value ==>
              c.product in products && exists i :: 0 <= i < |recs.value| && i < 3 && recs.value[i].id == c.product.id
  {
    if show && recs.Some? && |recs.value| > 0 then
      var top := TopThree(recs.value);
      var cards := Cards(top, products);
      assert forall c :: c in cards ==> exists i :: 0 <= i < |recs.value| && i < 3 && recs.value[i].id == c.product.id by {
        forall c | c in cards
          ensures exists i :: 0 <= i < |recs.value| && i < 3 && recs.value[i].id == c.product.id
        {
          var r :| r in top && r.id == c.product.id && r.probability == c.probability;
          var i :| 0 <= i < |top| && top[i] == r;
          assert recs.value[i] == r;
        }
      }
      Some(cards)
    else None
  }
}
