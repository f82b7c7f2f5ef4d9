/**
  The chat heuristic (`chat` in main.py) with its database reads as inputs:
  parse a budget, select up to three products, explain the choice, and shape
  the response and the two messages the handler stores. Also the role check
  of incoming messages (`MessageIn.role`).
*/
module Chat {
  import opened Wrappers
  import opened Documents
  import opened Budget
  import opened Selection

  // ---------- Text helpers ----------

  /** x appears in s starting at position k. */
  predicate OccursAt(x: string, s: string, k: int) {
    0 <= k <= |s| - |x| && s[k..k + |x|] == x
  }

  /** x appears in s as a contiguous piece. */
  predicate Occurs(x: string, s: string) {
    exists k :: 0 <= k <= |s| - |x| && OccursAt(x, s, k)
  }

  lemma OccursLeft(x: string, a: string, b: string)
    requires Occurs(x, a)
    ensures Occurs(x, a + b)
  {
    var k :| 0 <= k <= |a| - |x| && OccursAt(x, a, k);
    assert a[k..k + |x|] == x;
    assert (a + b)[k..k + |x|] == a[k..k + |x|];
    assert OccursAt(x, a + b, k);
  }

  lemma OccursRight(x: string, a: string, b: string)
    requires Occurs(x, b)
    ensures Occurs(x, a + b)
  {
    var k :| 0 <= k <= |b| - |x| && OccursAt(x, b, k);
    assert b[k..k + |x|] == x;
    assert (a + b)[|a| + k..|a| + k + |x|] == b[k..k + |x|];
    assert OccursAt(x, a + b, |a| + k);
  }

  /** x sits at the front of x + b. */
  lemma OccursAtFront(x: string, b: string)
    ensures OccursAt(x, x + b, 0)
  {
    assert (x + b)[0..|x|] == x;
  }

  /** A piece of b at k is a piece of a + b at |a| + k. */
  lemma OccursAtShift(x: string, a: string, b: string, k: int)
    requires OccursAt(x, b, k)
    ensures OccursAt(x, a + b, |a| + k)
  {
    assert (a + b)[|a| + k..|a| + k + |x|] == b[k..k + |x|];
  }

  /** One step of Join's layout: the parts of the tail, placed after `parts[0] + sep`. */
  lemma {:induction false} JoinPartsStep(parts: seq<string>, sep: string, rest: string)
    requires |parts| >= 2
    requires forall i :: 0 <= i < |parts| - 1 ==> OccursAt(parts[1..][i], rest, Start(parts[1..], sep, i))
    ensures forall i :: 0 <= i < |parts| ==> OccursAt(parts[i], parts[0] + sep + rest, Start(parts, sep, i))
  {
    forall i | 0 <= i < |parts|
      ensures OccursAt(parts[i], parts[0] + sep + rest, Start(parts, sep, i))
    {
      if i == 0 {
        OccursAtFront(parts[0], sep + rest);
        assert parts[0] + sep + rest == parts[0] + (sep + rest);
      } else {
        assert parts[i] == parts[1..][i - 1];
        OccursAtShift(parts[i], parts[0] + sep, rest, Start(parts[1..], sep, i - 1));
      }
    }
  }

  /** One step of Join's layout: the separators of the tail, and the one after `parts[0]`. */
  lemma {:induction false} JoinSepsStep(parts: seq<string>, sep: string, rest: string)
    requires |parts| >= 2
    requires forall i :: 1 <= i < |parts| - 1 ==> OccursAt(sep, rest, Start(parts[1..], sep, i) - |sep|)
    ensures forall i :: 1 <= i < |parts| ==> OccursAt(sep, parts[0] + sep + rest, Start(parts, sep, i) - |sep|)
  {
    forall i | 1 <= i < |parts|
      ensures OccursAt(sep, parts[0] + sep + rest, Start(parts, sep, i) - |sep|)
    {
      if i == 1 {
        OccursAtFront(sep, rest);
        OccursAtShift(sep, parts[0], sep + rest, 0);
        assert parts[0] + sep + rest == parts[0] + (sep + rest);
      } else {
        var k := Start(parts[1..], sep, i - 1) - |sep|;
        assert OccursAt(sep, rest, k);
        assert Start(parts, sep, i) - |sep| == |parts[0] + sep| + k;
        OccursAtShift(sep, parts[0] + sep, rest, k);
      }
    }
  }

  /** Where part i starts in the joined text: the lengths of the parts before it, each followed by sep. */
  function Start(parts: seq<string>, sep: string, i: nat): nat
    requires i <= |parts|
  {
    if i == 0 then 0 else |parts[0]| + |sep| + Start(parts[1..], sep, i - 1)
  }

  /** Part i + 1 starts one part and one separator after part i, so a separator follows each part but the last. */
  lemma {:induction false} StartNext(parts: seq<string>, sep: string, i: nat)
    requires i < |parts|
    ensures Start(parts, sep, i + 1) == Start(parts, sep, i) + |parts[i]| + |sep|
  {
    if i > 0 {
      assert parts[1..][i - 1] == parts[i];
      StartNext(parts[1..], sep, i - 1);
    }
  }

  /** Join's layout for `parts[0] + sep + rest`, given the layout of the tail in `rest`. */
  lemma {:induction false} JoinStep(parts: seq<string>, sep: string, rest: string)
    requires |parts| >= 2
    requires |rest| + |sep| == Start(parts[1..], sep, |parts| - 1)
    requires forall i :: 0 <= i < |parts| - 1 ==> OccursAt(parts[1..][i], rest, Start(parts[1..], sep, i))
    requires forall i :: 1 <= i < |parts| - 1 ==> OccursAt(sep, rest, Start(parts[1..], sep, i) - |sep|)
    ensures |parts[0] + sep + rest| + |sep| == Start(parts, sep, |parts|)
    ensures forall i :: 0 <= i < |parts| ==> OccursAt(parts[i], parts[0] + sep + rest, Start(parts, sep, i))
    ensures forall i :: 1 <= i < |parts| ==> OccursAt(sep, parts[0] + sep + rest, Start(parts, sep, i) - |sep|)
  {
    JoinPartsStep(parts, sep, rest);
    JoinSepsStep(parts, sep, rest);
  }

  /**
    `sep.join(parts)`: part i sits at Start(parts, sep, i), a sep ends where
    each part but the first starts, and nothing else is in the text.
  */
  function Join(parts: seq<string>, sep: string): (r: string)
    ensures parts == [] ==> r == ""
    ensures parts != [] ==> |r| + |sep| == Start(parts, sep, |parts|)
    ensures forall i :: 0 <= i < |parts| ==> OccursAt(parts[i], r, Start(parts, sep, i))
    ensures forall i :: 1 <= i < |parts| ==> OccursAt(sep, r, Start(parts, sep, i) - |sep|)
  {
    if parts == [] then ""
    else if |parts| == 1 then
      OccursAtFront(parts[0], "");
      assert parts[0] + "" == parts[0];
      parts[0]
    else
      var rest := Join(parts[1..], sep);
      JoinStep(parts, sep, rest);
      parts[0] + sep + rest
  }

  /** `str(n)` for a natural number: its decimal digits, without leading zeros. */
  function DecimalText(n: nat): (s: string)
    ensures |s| >= 1 && forall i :: 0 <= i < |s| ==> IsDigit(s[i])
    ensures n >= 10 ==> |s| >= 2
    ensures n > 0 ==> s[0] != '0'
    ensures n == 0 ==> s == "0"
  {
    if n < 10 then [DigitChar(n)] else DecimalText(n / 10) + [DigitChar(n % 10)]
  }

  lemma {:induction false} DecimalTextValue(n: nat)
    ensures DigitsValue(DecimalText(n)) == n
  {
    if n >= 10 {
      var s := DecimalText(n);
      assert s[..|s| - 1] == DecimalText(n / 10);
      DecimalTextValue(n / 10);
    }
  }

  lemma {:induction false} DecimalTextLength(n: nat, k: nat)
    requires 1 <= k && n < Pow10(k)
    ensures |DecimalText(n)| <= k
  {
    if n >= 10 {
      DecimalTextLength(n / 10, k - 1);
    }
  }

  // ---------- Reasons ----------

  /** `{p.get("category") for p in recs}`. */
  function Categories(recs: seq<Product>): (cats: set<string>)
    ensures forall p :: p in recs ==> Category(p) in cats
    ensures forall c :: c in cats ==> exists p :: p in recs && Category(p) == c
    ensures cats == {} <==> recs == []
  {
    assert recs != [] ==> Category(recs[0]) in set p | p in recs :: Category(p);
    set p | p in recs :: Category(p)
  }

  /** order lists every element of cats exactly once: one possible iteration of the set. */
  predicate Enumerates(order: seq<string>, cats: set<string>) {
    && (forall c :: c in order ==> c in cats)
    && (forall c :: c in cats ==> c in order)
    && (forall i, j :: 0 <= i < j < |order| ==> order[i] != order[j])
  }

  const BudgetPrefix: string := "Fits your budget around $"
  const CategoryPrefix: string := "Popular picks in "
  const CategorySuffix: string := " with strong ratings"

  /** f"Fits your budget around ${int(budget)}": the prefix, then the amount written entirely in decimal digits. */
  function BudgetReasonText(amount: nat): (t: string)
    ensures BudgetPrefix <= t && |t| > |BudgetPrefix|
    ensures forall i :: |BudgetPrefix| <= i < |t| ==> IsDigit(t[i])
    ensures DigitsValue(t[|BudgetPrefix|..]) == amount
    ensures amount > 0 ==> t[|BudgetPrefix|] != '0'
    ensures amount == 0 ==> t == BudgetPrefix + "0"
  {
    var d := DecimalText(amount);
    DecimalTextValue(amount);
    assert (BudgetPrefix + d)[|BudgetPrefix|..] == d;
    BudgetPrefix + d
  }

  /** f"Popular picks in {', '.join(cats)} with strong ratings", for the order in which the set is iterated. */
  function CategoryReasonText(order: seq<string>): (t: string)
    ensures CategoryPrefix <= t
    ensures |t| >= |CategoryPrefix| + |CategorySuffix| && t[|t| - |CategorySuffix|..] == CategorySuffix
    ensures t[|CategoryPrefix|..|t| - |CategorySuffix|] == Join(order, ", ")
  {
    var j := Join(order, ", ");
    assert (CategoryPrefix + j + CategorySuffix)[|CategoryPrefix| + |j|..] == CategorySuffix;
    assert (CategoryPrefix + j + CategorySuffix)[|CategoryPrefix|..|CategoryPrefix| + |j|] == j;
    CategoryPrefix + j + CategorySuffix
  }

  /** The category reason names every category of the recommendations. */
  lemma CategoryReasonNamesEach(order: seq<string>, cats: set<string>)
    requires Enumerates(order, cats)
    ensures forall c :: c in cats ==> Occurs(c, CategoryReasonText(order))
  {
    var j := Join(order, ", ");
    forall c | c in cats
      ensures Occurs(c, CategoryReasonText(order))
    {
      var i :| 0 <= i < |order| && order[i] == c;
      assert OccursAt(c, j, Start(order, ", ", i));
      OccursRight(c, CategoryPrefix, j);
      OccursLeft(c, CategoryPrefix + j, CategorySuffix);
    }
  }

  /**
    What the handler's reasons are, given the order in which the category set
    is iterated: a budget reason first exactly when a non-zero budget was
    parsed, a category reason last exactly when there are recommendations, and
    nothing else.
  */
  predicate ReasonsFor(reasons: seq<string>, budget: Option<nat>, recs: seq<Product>, order: seq<string>) {
    && |reasons| == (if IsActive(budget) then 1 else 0) + (if recs != [] then 1 else 0)
    && (IsActive(budget) <==> (reasons != [] && BudgetPrefix <= reasons[0]))
    && (IsActive(budget) ==> reasons[0] == BudgetReasonText(budget.value))
    && (recs != [] <==> (reasons != [] && CategoryPrefix <= reasons[|reasons| - 1]))
    && (recs != [] ==> reasons[|reasons| - 1] == CategoryReasonText(order))
  }

  /** The reasons list, built by appending under the two conditions of the handler. */
  method BuildReasons(budget: Option<nat>, recs: seq<Product>, order: seq<string>) returns (reasons: seq<string>)
    requires Enumerates(order, Categories(recs))
    ensures ReasonsFor(reasons, budget, recs, order)
  {
    reasons := [];
    if IsActive(budget) {
      var t := BudgetReasonText(budget.value);
      assert t[0] == 'F';
      reasons := reasons + [t];
    }
    if recs != [] {
      var t := CategoryReasonText(order);
      assert t[0] == 'P';
      reasons := reasons + [t];
    }
  }

  // ---------- Messages ----------

  datatype Role = User | Assistant

  function RoleName(r: Role): string {
    match r
    case User => "user"
    case Assistant => "assistant"
  }

  /** `Field(..., pattern="^(user|assistant)$")`, with an end anchor that matches only at the end of the text. */
  function ValidateRole(role: string): (r: Option<Role>)
    ensures r.Some? ==> RoleName(r.value) == role
    ensures r.None? ==> forall x: Role :: RoleName(x) != role
  {
    if role == "user" then Some(User)
    else if role == "assistant" then Some(Assistant)
    else None
  }

  lemma RoleExamples()
    ensures ValidateRole("user") == Some(User) && ValidateRole("assistant") == Some(Assistant)
    ensures ValidateRole("User").None? && ValidateRole("users").None? && ValidateRole("").None? && ValidateRole("system").None?
  {
  }

  /** What the assistant message stores under `meta`. */
  datatype ChatMeta = ChatMeta(recommendations: seq<string>, reasons: seq<string>)

  /** A stored message; the user's message in the chat handler has no `meta`. Timestamps are not modelled. */
  datatype Message = Message(sessionId: string, role: string, content: string, meta: Option<ChatMeta>)

  datatype ChatResponse = ChatResponse(message: string, reasons: seq<string>, products: seq<Document>, compareOn: seq<string>)

  const AssistantText: string :=
    "Here are a few options I think you'll like. I've compared core specs, pricing across retailers, and highlighted why each stands out."

  const CompareOn: seq<string> := ["price", "rating", "key_features"]

  /** `[to_public(p) for p in recs]`: each recommendation in public form, in order. */
  function PublicProducts(recs: seq<Product>): (r: seq<Document>)
    ensures |r| == |recs|
    ensures forall i :: 0 <= i < |r| ==> r[i] == PublicDoc(recs[i])
  {
    if recs == [] then [] else [PublicDoc(recs[0])] + PublicProducts(recs[1..])
  }

  /** `[str(p["_id"]) for p in recs]`: the string form of each recommendation's `_id`, in order. */
  function RecommendedIds(recs: seq<Product>): (ids: seq<string>)
    requires forall p :: p in recs ==> "_id" in p
    ensures |ids| == |recs|
    ensures forall i :: 0 <= i < |ids| ==> "_id" in recs[i] && ids[i] == Stringify(recs[i]["_id"])
  {
    if recs == [] then []
    else
      assert forall p :: p in recs[1..] ==> p in recs;
      [Stringify(recs[0]["_id"])] + RecommendedIds(recs[1..])
  }

  /** The id each response product carries is the id the assistant message records for it, in the same position. */
  lemma PublicIdsAreStoredIds(recs: seq<Product>)
    requires forall p :: p in recs ==> "_id" in p
    ensures var products, ids := PublicProducts(recs), RecommendedIds(recs);
      forall i :: 0 <= i < |recs| ==> "id" in products[i] && products[i]["id"] == Text(ids[i])
  {
    var products, ids := PublicProducts(recs), RecommendedIds(recs);
    forall i | 0 <= i < |recs|
      ensures "id" in products[i] && products[i]["id"] == Text(ids[i])
    {
      assert "_id" in recs[i];
    }
  }

  /** The products the handler recommends for a query. */
  function Recommended(query: string, hits: seq<Product>, topRated: seq<Product>): seq<Product> {
    Recommendations(ParseBudget(query), hits, topRated)
  }

  /** With an active budget that something in the pre-filter list fits, every product in the response shows a price within it. */
  lemma PublicWithinBudget(query: string, hits: seq<Product>, topRated: seq<Product>)
    ensures var budget, products := ParseBudget(query), PublicProducts(Recommended(query, hits, topRated));
      IsActive(budget) && AnyAffordable(PreFilter(hits, topRated), budget.value) ==>
      forall i :: 0 <= i < |products| ==> PriceOrZero(products[i]) <= budget.value as real
  {
    var budget := ParseBudget(query);
    var recs := Recommended(query, hits, topRated);
    if IsActive(budget) && AnyAffordable(PreFilter(hits, topRated), budget.value) {
      RecommendationsWithinBudget(budget, hits, topRated);
      forall i | 0 <= i < |recs|
        ensures PriceOrZero(PublicProducts(recs)[i]) <= budget.value as real
      {
        assert recs[i] in recs;
        PublicKeepsPrice(recs[i]);
      }
    }
  }

  /** The selection steps of the handler: parse the budget, take the hits or the top-rated list, filter by budget, keep three. */
  method Select(query: string, hits: seq<Product>, topRated: seq<Product>) returns (budget: Option<nat>, recs: seq<Product>)
    ensures budget == ParseBudget(query)
    ensures recs == Recommended(query, hits, topRated)
  {
    budget := ParseBudget(query);
    var items := if hits == [] then topRated else hits;
    if IsActive(budget) {
      var under := Under(items, budget.value);
      if under != [] {
        items := under;
      }
    }
    recs := Take3(items);
  }

  /**
    What one chat turn produces when the parsed budget is `budget`, the
    recommendations are `recs` and the category set is iterated in `order`:
    the constant text and comparison fields, the reasons ReasonsFor describes,
    the public forms of the recommendations in order, and two stored messages
    (the user's query, then the assistant text with the string forms of the
    recommendations' `_id`s in order and the same reasons), both with a valid
    role.
  */
  predicate IsTurn(response: ChatResponse, stored: seq<Message>, sessionId: string, query: string,
                   budget: Option<nat>, recs: seq<Product>, order: seq<string>) {
    && response.message == AssistantText && response.compareOn == ["price", "rating", "key_features"]
    && ReasonsFor(response.reasons, budget, recs, order)
    && |stored| == 2 && stored[0] == Message(sessionId, "user", query, None)
    && stored[1].sessionId == sessionId && stored[1].role == "assistant" && stored[1].content == AssistantText
    && stored[1].meta.Some? && stored[1].meta.value.reasons == response.reasons
    && response.products == PublicProducts(recs)
    && (forall p :: p in recs ==> "_id" in p)
    && stored[1].meta.value.recommendations == RecommendedIds(recs)
    && (forall m :: m in stored ==> ValidateRole(m.role).Some?)
  }

  /** The handler after selection: the reasons, the two stored messages and the response. */
  method Respond(sessionId: string, query: string, budget: Option<nat>, recs: seq<Product>, order: seq<string>)
    returns (response: ChatResponse, stored: seq<Message>)
    requires forall p :: p in recs ==> "_id" in p
    requires Enumerates(order, Categories(recs))
    ensures IsTurn(response, stored, sessionId, query, budget, recs, order)
  {
    var reasons := BuildReasons(budget, recs, order);
    var ids := RecommendedIds(recs);
    var products := PublicProducts(recs);
    stored := [
      Message(sessionId, "user", query, None),
      Message(sessionId, "assistant", AssistantText, Some(ChatMeta(ids, reasons)))
    ];
    response := ChatResponse(AssistantText, reasons, products, CompareOn);
  }

  /**
    One chat turn. `hits` is what the keyword search returned, `topRated`
    what the rating-sorted query returned, and `order` the order in which the
    set of recommended categories is iterated; `stored` lists, in order, the
    messages the handler inserts.
  */
  method HandleChat(sessionId: string, query: string, hits: seq<Product>, topRated: seq<Product>, order: seq<string>)
    returns (response: ChatResponse, stored: seq<Message>)
    requires forall p :: p in Recommended(query, hits, topRated) ==> IsShownProduct(p)
    requires IsActive(ParseBudget(query)) ==> forall p :: p in PreFilter(hits, topRated) ==> HasComparablePrice(p)
    requires Enumerates(order, Categories(Recommended(query, hits, topRated)))
    ensures IsTurn(response, stored, sessionId, query, ParseBudget(query), Recommended(query, hits, topRated), order)
    ensures |response.products| <= 3
    ensures IsActive(ParseBudget(query)) && AnyAffordable(PreFilter(hits, topRated), ParseBudget(query).value) ==>
      forall i :: 0 <= i < |response.products| ==> PriceOrZero(response.products[i]) <= ParseBudget(query).value as real
    ensures |stored[1].meta.value.recommendations| == |response.products|
    ensures forall i :: 0 <= i < |response.products| ==>
      "id" in response.products[i] && response.products[i]["id"] == Text(stored[1].meta.value.recommendations[i])
  {
    var budget, recs := Select(query, hits, topRated);
    response, stored := Respond(sessionId, query, budget, recs, order);
    assert response.products == PublicProducts(Recommended(query, hits, topRated));
    PublicWithinBudget(query, hits, topRated);
    PublicIdsAreStoredIds(recs);
  }

  /** Given what the database guarantees of its two queries, there are no recommendations only when there are no products. */
  lemma NoRecommendationsOnlyWhenNoProducts(budget: Option<nat>, hits: seq<Product>, topRated: seq<Product>, all: seq<Product>)
    requires IsKeywordHits(hits, all)
    requires IsTopRated(topRated, all)
    ensures Recommendations(budget, hits, topRated) == [] <==> all == []
  {
  }
}
