/**
  Candidate selection in the chat handler (main.py): the keyword hits, or the
  top-rated products when there are none; then the budget filter that falls
  back to the unfiltered list when nothing is affordable; then the first three.
  The database queries are inputs: the keyword hits are any at most eight
  products of the collection, and the top-rated list is any list the sorted,
  limited query may return (IsTopRated).
*/
module Selection {
  import opened Wrappers
  import opened Documents
  import opened Sequences
  import Budget

  /** A product is the document the collection stores; the handler reads its fields by key. */
  type Product = Document

  /**
    What the handler reads of a product it recommends: `str(p["_id"])` needs
    an `_id`, and joining the categories needs `p.get("category")` to be a string.
  */
  predicate IsShownProduct(p: Product) {
    "_id" in p && "category" in p && p["category"].Text?
  }

  /** `p.get("price", 0) <= budget` needs a number when the price is present. */
  predicate HasComparablePrice(p: Product) {
    "price" in p ==> p["price"].Number?
  }

  /** `p.get("price", 0)`; a non-numeric price lies outside HasComparablePrice. */
  function PriceOrZero(p: Product): real {
    if "price" in p && p["price"].Number? then p["price"].x else 0.0
  }

  /** The `rating` key the top-rated query sorts on; a missing or null rating counts as 0 here. */
  function Rating(p: Product): real {
    if "rating" in p && p["rating"].Number? then p["rating"].x else 0.0
  }

  /** `p.get("category")`; a missing or non-string one lies outside IsShownProduct. */
  function Category(p: Product): string {
    if "category" in p && p["category"].Text? then p["category"].s else ""
  }

  /** to_public leaves the price as it was, so the response shows the price the budget was checked against. */
  lemma PublicKeepsPrice(p: Product)
    ensures PriceOrZero(PublicDoc(p)) == PriceOrZero(p)
  {
    var r := PublicDoc(p);
    assert "price" != "_id" && "price" != "id";
    if "price" in p {
      assert "price" in r && r["price"] == Publicize(p["price"]);
    }
  }

  predicate Affordable(p: Product, budget: nat) {
    PriceOrZero(p) <= budget as real
  }

  /** Some item is affordable: the case in which the budget filter narrows the list. */
  predicate AnyAffordable(items: seq<Product>, budget: nat) {
    exists p :: p in items && Affordable(p, budget)
  }

  function Min(a: int, b: int): int {
    if a <= b then a else b
  }

  /** `[p for p in items if p.get("price", 0) <= budget]`: exactly the affordable items, in their order. */
  function Under(items: seq<Product>, budget: nat): (r: seq<Product>)
    ensures Subseq(r, items)
    ensures forall p :: p in r ==> Affordable(p, budget)
    ensures forall p :: multiset(r)[p] == if Affordable(p, budget) then multiset(items)[p] else 0
    ensures r == [] <==> forall p :: p in items ==> !Affordable(p, budget)
  {
    if items == [] then []
    else
      var rest := Under(items[1..], budget);
      assert items == [items[0]] + items[1..];
      if Affordable(items[0], budget) then
        assert ([items[0]] + rest)[1..] == rest;
        [items[0]] + rest
      else
        rest
  }

  /** `if budget: items = under or items`. */
  function BudgetFilter(items: seq<Product>, budget: Option<nat>): (r: seq<Product>)
    ensures !Budget.IsActive(budget) ==> r == items
    ensures Budget.IsActive(budget) && (exists p :: p in items && Affordable(p, budget.value)) ==>
      r == Under(items, budget.value) && forall p :: p in r ==> Affordable(p, budget.value)
    ensures Budget.IsActive(budget) && (forall p :: p in items ==> !Affordable(p, budget.value)) ==> r == items
    ensures Subseq(r, items)
    ensures items != [] ==> r != []
  {
    SubseqRefl(items);
    if Budget.IsActive(budget) then
      var under := Under(items, budget.value);
      if under != [] then under else items
    else
      items
  }

  /**
    What `find().sort("rating", -1).limit(5)` may return from the collection
    `all`: min(5, |all|) of its products, by non-increasing rating, with no
    omitted product rated above an included one. Ties are in any order.
  */
  ghost predicate IsTopRated(top: seq<Product>, all: seq<Product>) {
    && |top| == Min(5, |all|)
    && multiset(top) <= multiset(all)
    && (forall i, j :: 0 <= i < j < |top| ==> Rating(top[i]) >= Rating(top[j]))
    && (forall p, q :: p in multiset(all) - multiset(top) && q in top ==> Rating(p) <= Rating(q))
  }

  /**
    What `find({"$or": ...}).limit(8)` may return from the collection `all`:
    at most eight of its products, each no more often than stored. The order
    of an unsorted find is the database's and is left open.
  */
  predicate IsKeywordHits(hits: seq<Product>, all: seq<Product>) {
    |hits| <= 8 && multiset(hits) <= multiset(all)
  }

  /** The list the budget filter starts from: keyword hits, else the top-rated fallback. */
  function PreFilter(hits: seq<Product>, topRated: seq<Product>): (r: seq<Product>)
    ensures r == hits || r == topRated
    ensures r == hits <==> hits != [] || topRated == []
    ensures r == [] <==> hits == [] && topRated == []
  {
    if hits == [] then topRated else hits
  }

  /**
    The pre-filter list holds at most eight products of the collection; when
    there are no keyword hits it is the top-rated list: at most five, by
    non-increasing rating.
  */
  lemma PreFilterShape(hits: seq<Product>, topRated: seq<Product>, all: seq<Product>)
    requires IsKeywordHits(hits, all)
    requires IsTopRated(topRated, all)
    ensures var pre := PreFilter(hits, topRated);
      && |pre| <= 8
      && multiset(pre) <= multiset(all)
      && (hits == [] ==> pre == topRated && |pre| <= 5)
      && (hits == [] ==> forall i, j :: 0 <= i < j < |pre| ==> Rating(pre[i]) >= Rating(pre[j]))
  {
  }

  /** `items[:3]`. */
  function Take3(items: seq<Product>): (r: seq<Product>)
    ensures |r| == Min(3, |items|) && r <= items
  {
    items[..Min(3, |items|)]
  }

  /** `recs` in the handler: at most three, taken from the front of the budget-filtered list. */
  function Recommendations(budget: Option<nat>, hits: seq<Product>, topRated: seq<Product>): (r: seq<Product>)
    ensures r <= BudgetFilter(PreFilter(hits, topRated), budget)
    ensures |r| == Min(3, |BudgetFilter(PreFilter(hits, topRated), budget)|)
  {
    Take3(BudgetFilter(PreFilter(hits, topRated), budget))
  }

  /** The recommendations are a subsequence of the pre-filter list, at most three long, and empty only when it is. */
  lemma RecommendationsShape(budget: Option<nat>, hits: seq<Product>, topRated: seq<Product>)
    ensures var pre := PreFilter(hits, topRated);
      var recs := Recommendations(budget, hits, topRated);
      && |recs| <= 3
      && Subseq(recs, pre)
      && (recs == [] <==> pre == [])
      && recs <= BudgetFilter(pre, budget)
  {
    var pre := PreFilter(hits, topRated);
    var filtered := BudgetFilter(pre, budget);
    PrefixIsSubseq(filtered, Min(3, |filtered|));
    SubseqTrans(Take3(filtered), filtered, pre);
  }

  /** With an active budget, if anything in the pre-filter list is affordable then every recommendation is. */
  lemma RecommendationsWithinBudget(budget: Option<nat>, hits: seq<Product>, topRated: seq<Product>)
    requires Budget.IsActive(budget)
    requires exists p :: p in PreFilter(hits, topRated) && Affordable(p, budget.value)
    ensures forall r :: r in Recommendations(budget, hits, topRated) ==> Affordable(r, budget.value)
  {
  }

  /** A zero budget selects exactly what no budget selects. */
  lemma ZeroBudgetIsNoBudget(hits: seq<Product>, topRated: seq<Product>)
    ensures Recommendations(Some(0), hits, topRated) == Recommendations(None, hits, topRated)
  {
  }

  /** A product left out of a prefix of top but not out of top itself lies in the rest of top. */
  lemma OmittedFromPrefix(top: seq<Product>, all: seq<Product>, k: nat, p: Product)
    requires k <= |top|
    requires p in multiset(all) - multiset(top[..k])
    requires p !in multiset(all) - multiset(top)
    ensures exists j :: k <= j < |top| && top[j] == p
  {
    assert top == top[..k] + top[k..];
    assert multiset(top) == multiset(top[..k]) + multiset(top[k..]);
    assert p in top[k..];
    var j' :| 0 <= j' < |top[k..]| && top[k..][j'] == p;
    assert top[k + j'] == p;
  }

  /**
    With no keyword hits and no active budget, the recommendations are the
    first min(3, n) of the top-rated list, and no product of the collection
    left out of them is rated above one of them.
  */
  lemma FallbackRecommendsHighestRated(budget: Option<nat>, topRated: seq<Product>, all: seq<Product>)
    requires IsTopRated(topRated, all)
    requires !Budget.IsActive(budget)
    ensures var recs := Recommendations(budget, [], topRated);
      && recs == topRated[..Min(3, |all|)]
      && forall p, q :: p in multiset(all) - multiset(recs) && q in recs ==> Rating(p) <= Rating(q)
  {
    var k := Min(3, |topRated|);
    var recs := topRated[..k];
    assert Recommendations(budget, [], topRated) == recs;
    forall p, q | p in multiset(all) - multiset(recs) && q in recs
      ensures Rating(p) <= Rating(q)
    {
      var i :| 0 <= i < k && recs[i] == q;
      if p !in multiset(all) - multiset(topRated) {
        OmittedFromPrefix(topRated, all, k, p);
        var j :| k <= j < |topRated| && topRated[j] == p;
        assert Rating(topRated[i]) >= Rating(topRated[j]);
      } else {
        assert q in topRated;
      }
    }
  }

  /** Every recommendation is a product of the collection, without repeating any stored product more often than it occurs. */
  lemma RecommendationsFromCollection(budget: Option<nat>, hits: seq<Product>, topRated: seq<Product>, all: seq<Product>)
    requires IsKeywordHits(hits, all)
    requires IsTopRated(topRated, all)
    ensures multiset(Recommendations(budget, hits, topRated)) <= multiset(all)
  {
    var pre := PreFilter(hits, topRated);
    RecommendationsShape(budget, hits, topRated);
    SubseqMultiset(Recommendations(budget, hits, topRated), pre);
  }
}
