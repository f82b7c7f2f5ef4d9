# Shopping assistant chat heuristic — a verified model

This project models the decision logic of the shopping-assistant API's chat
endpoint (`chat` in `main.py`) and the `to_public` helper that every read
endpoint uses to shape stored documents. The database queries are inputs.

- **Budget extraction.** Commas are removed from the query. The leftmost `$`
  followed by at least two digits starts the match, and up to five digits are
  taken greedily (`\$(\d{2,5})`). So `$200` gives 200, `$1,299` gives 1299 and
  `$123456` gives 12345, while `$5` or a query without `$` gives no budget.
  A budget of zero is falsy in Python, so it is treated like no budget.
- **Candidate selection.** The keyword hits are used, or the top-rated products
  when there are none. With a non-zero budget, the list is cut to the products
  priced at or under it (a missing price counts as 0). If that leaves nothing,
  the unfiltered list is kept. The first three are recommended.
- **Reasons.** A budget reason comes first exactly when a non-zero budget was
  parsed. It spells the integer budget in decimal digits. A category reason
  comes last exactly when there are recommendations. It names every category
  among them, in whatever order the set is iterated.
- **Response and stored messages.** These are the constant assistant text, the
  reasons, the recommended products after `to_public`, the constant comparison
  fields, and the two inserted messages. The assistant message records the
  recommended ids in order.
- **`to_public`.** A missing or empty document is returned unchanged.
  Otherwise `_id` becomes `id` holding its string form, and every other
  object-id value is replaced by its string form.
- **Role validation** of incoming messages (`^(user|assistant)$`).

Modules: `Wrappers` (Option), `Sequences` (subsequences), `ObjectIds` (`str`
of an object id as lowercase hexadecimal), `Documents` (`to_public`),
`Budget`, `Selection`, `Chat`.

A product is the document the collection stores. The handler reads `_id`,
`price` and `category` from that document, the top-rated query sorts on
`rating`, and the response returns the same document after `to_public`.
The handler reads each field only in one place, and `Chat.HandleChat` asks
for the field only there:
- `_id` and `category` only of the (at most three) recommendations, for the
  stored ids (main.py:327) and the category reason (main.py:315-316)
  (`Selection.IsShownProduct`).
- `price` only of the pre-filter list and only under an active budget, through
  `p.get("price", 0)` (main.py:305), so a missing price reads as 0 and a
  present one must be a number (`Selection.HasComparablePrice`).

The database results are abstract inputs:
- The keyword search is any list of at most eight products of the collection,
  each occurring no more often than it is stored (`Selection.IsKeywordHits`).
- The rating-sorted query is any list that `sort("rating", -1).limit(5)` may
  return (`Selection.IsTopRated`): min(5, n) products of the collection, by
  non-increasing rating, with no product left out rated above an included
  one. Ties may come in any order.

Three details of the source that the model follows:
- The keyword search passes the raw query to the database as a regular
  expression (main.py:295-299), so it is a pattern match, not a substring test.
- The budget pattern has no boundary after the digit group (main.py:289), so a
  run of more than five digits after `$` still matches, and its first five
  digits are taken.
- The comment in `to_public` (main.py:42) speaks of nested object ids, but the
  loop only rewrites top-level values. The model does the same.

## Model

| member | source | states |
|---|---|---|
| `Documents.ToPublic` | main.py:36-46 | None stays None. A present document (empty ones included) becomes exactly `PublicDoc` of it. The loop over a snapshot of the keys is proved against that function. The caller's document is a value and cannot change. |
| `Documents.PublicDoc` | main.py:39-46 | Keys: `_id` is dropped and `id` is added exactly when `_id` was present. `id` holds `str` of the old `_id`. Every other key keeps its value, with object ids turned into their string form. No object id is left. An empty document maps to itself. |
| `Documents.PublicDocIdempotent` | main.py:36-46 | Applying to_public to its own output changes nothing. |
| `ObjectIds.Hex` | main.py:45 | `str(ObjectId)` has two lowercase hexadecimal characters per byte. |
| `ObjectIds.HexRoundTrip` | main.py:45 | Reading the hexadecimal text back gives the original bytes. |
| `ObjectIds.IdStringInjective` | main.py:41 | Distinct ids have distinct string forms, so the `id` that replaces `_id` still identifies the document. |
| `Budget.StripCommas` | main.py:289 | The result has no comma. It is a subsequence of the query, so the other characters keep their order. Every other character keeps its number of occurrences. |
| `Budget.StripCommasNoComma` | main.py:289 | Text without commas is unchanged. |
| `Budget.FirstMatch` | main.py:289 | Gives the leftmost position where `$` is followed by two digits, or None exactly when there is no such position. |
| `Budget.DigitRun` | main.py:289 | The greedy `\d{..5}` run: at most the cap, only digits, and it stops only at the cap, the end of the text, or a non-digit. |
| `Budget.DigitsValue` | main.py:291 | The decimal value of k digits is below 10^k. |
| `Budget.MatchValue` | main.py:289-291 | The value captured at a match is below 100000. It is the value of the two to five digits the greedy group takes. |
| `Budget.SearchBudget` | main.py:289-291 | None exactly when the pattern matches nowhere. Otherwise the value captured at the leftmost match. |
| `Budget.ParseBudget` | main.py:288-291 | The same, after commas are removed from the query. |
| `Budget.ParseBudgetAt` | main.py:289-291 | Whatever leftmost match and captured value the text has, ParseBudget returns exactly that value. |
| `Budget.ExampleWholeQuery` | main.py:289-291 | "$200" gives 200. |
| `Budget.ExampleInSentence` | main.py:289-291 | "headphones under $200" gives 200. |
| `Budget.ExampleThousands` | main.py:289-291 | "$1,299" gives 1299. |
| `Budget.ExampleFiveDigitCap` | main.py:289-291 | "$123456" gives 12345. |
| `Budget.ExampleOneDigit` | main.py:289-291 | "$5" gives no budget. |
| `Budget.ExampleAfterOneDigit` | main.py:289-291 | "$5 or $80" gives 80: a `$` with one digit is skipped. |
| `Budget.ExampleZero` | main.py:289-291 | "$00" parses to 0, which is not an active budget. |
| `Selection.PublicKeepsPrice` | main.py:305-334 | to_public leaves the price as it was, so a response product shows the price the filter compared. |
| `Selection.Under` | main.py:305 | The comprehension is a subsequence of the items. Every element is affordable. Each affordable product occurs exactly as often as in the items, and no other product occurs. It is empty exactly when nothing is affordable. |
| `Selection.BudgetFilter` | main.py:304-306 | No active budget: items unchanged. Something affordable: exactly the affordable items in order, all within budget. Nothing affordable: items unchanged. Always a subsequence, never empty when the items are not. |
| `Selection.PreFilter` | main.py:295-302 | The keyword hits when there are any, otherwise the top-rated list. It is empty only when both are. |
| `Selection.PreFilterShape` | main.py:295-302 | The pre-filter list has at most eight products of the collection. Without keyword hits it is the top-rated list: at most five, by non-increasing rating. |
| `Selection.Take3` | main.py:309 | A prefix of length min(3, n). |
| `Selection.Recommendations` | main.py:301-309 | The recommendations are a prefix of the budget-filtered list, of length exactly min(3, n) for a filtered list of n products: `items[:3]`. |
| `Selection.RecommendationsShape` | main.py:301-309 | At most three recommendations. They are a subsequence of the pre-filter list and a prefix of the filtered list. They are empty only when the pre-filter list is. |
| `Selection.RecommendationsWithinBudget` | main.py:304-309 | With an active budget, if any pre-filter product is affordable, then every recommendation is. |
| `Selection.ZeroBudgetIsNoBudget` | main.py:304 | A zero budget selects exactly what no budget selects. |
| `Selection.FallbackRecommendsHighestRated` | main.py:301-309 | No hits and no active budget: the recommendations are the first min(3, n) top-rated products. No product of the collection left out of them is rated higher than one of them. |
| `Selection.RecommendationsFromCollection` | main.py:295-309 | The recommendations are drawn from the collection, with no product more often than it is stored. |
| `Chat.Join` | main.py:316 | `', '.join`: empty for no parts. Part i sits at `Start(parts, sep, i)`, the sum of the lengths of the parts before it, each followed by sep. A separator ends where each part but the first starts. The length is the parts' lengths plus one separator between each pair of neighbours, so nothing else is in the text. |
| `Chat.StartNext` | main.py:316 | Each part starts one part and one separator after the previous one, so the separator `Join` places before part i + 1 directly follows part i. |
| `Chat.Categories` | main.py:315 | The set holds the category of every recommendation and nothing else. It is empty exactly when there are no recommendations. |
| `Chat.DecimalText` | main.py:313 | `str(int(budget))`: decimal digits only, at least one, and at least two from 10 on. There is no leading zero: 0 is written "0", and any other number starts with a non-zero digit. |
| `Chat.DecimalTextValue` | main.py:313 | The digits written for n read back as n. |
| `Chat.DecimalTextLength` | main.py:313 | A number below 10^k is written with at most k digits. |
| `Chat.BudgetReasonText` | main.py:313 | The budget reason is the fixed prefix followed only by decimal digits, and those digits spell the amount. There is no leading zero: the first digit is non-zero unless the amount is 0, which is written as the single digit "0". |
| `Chat.CategoryReasonText` | main.py:316 | The category reason is the fixed prefix, then the joined categories, then the fixed suffix. |
| `Chat.CategoryReasonNamesEach` | main.py:314-316 | For any iteration order of the category set, the category reason names every category of the recommendations. |
| `Chat.BuildReasons` | main.py:311-316 | 0–2 reasons. The budget reason comes first exactly when the budget is non-zero, and it spells the integer budget. The category reason comes last exactly when there are recommendations, and it joins the categories in the given iteration order. |
| `Chat.ValidateRole` | main.py:55 | A role is accepted exactly when it is the name of one of the two roles, and then as that role. Every other string is rejected. |
| `Chat.RoleExamples` | main.py:55 | "user" and "assistant" are accepted. "User", "users", "" and "system" are rejected. |
| `Chat.PublicProducts` | main.py:334 | One public document per recommendation, in order: `to_public` of each. |
| `Chat.RecommendedIds` | main.py:327 | One string per recommendation, in order: `str` of its `_id`. |
| `Chat.PublicIdsAreStoredIds` | main.py:327-334 | The `id` of each response product equals the string that the assistant message records at the same position. |
| `Chat.PublicWithinBudget` | main.py:304-334 | With an active budget and some affordable pre-filter product, every response product shows a price within the budget. |
| `Chat.Select` | main.py:288-309 | The selection steps return the parsed budget and exactly the recommendations `Recommendations` describes. |
| `Chat.Respond` | main.py:311-336 | From a budget and recommendations: the constant text and comparison fields, the reasons that `ReasonsFor` describes, and the public form of each recommendation in order. Two messages are stored: the user's query, then the assistant text with the recommended ids in order and the same reasons. Both roles are valid. |
| `Chat.HandleChat` | main.py:270-336 | For documents that carry the fields the handler reads (an `_id` and a string category on each recommendation, a numeric price when present under an active budget), one turn satisfies `IsTurn` for the parsed budget and the recommended products. It returns at most three products. With an active budget that some pre-filter product fits, every returned product's price is within it. Each returned product's `id` is the id stored at the same position in the assistant message. |
| `Chat.NoRecommendationsOnlyWhenNoProducts` | main.py:295-314 | Given the database's guarantees, there are no recommendations (and so no category reason) only when the collection is empty. |

## Left out

- Database calls (`find`, `sort`, `limit`, `insert_one`) are not modelled. Their results are inputs constrained by `IsKeywordHits` and `IsTopRated`.
- The inserts are returned as the list of stored messages. Timestamps (`datetime.utcnow`) are not modelled.
- The regular-expression meaning of the keyword search is not modelled, because it is evaluated by the database. The raw query is a MongoDB regex, so `$` acts as an end anchor, and a query such as "headphones under $200" can never match and always falls back to top-rated. The hits are an abstract selection from the collection instead.
- The order of the keyword hits is not modelled. `IsKeywordHits` only bounds which products and how many, because an unsorted `find` returns documents in the database's own order.
- Non-ASCII digits are not modelled: `Budget.IsDigit` accepts only ASCII `0`–`9`. Python's `\d` and `float` also accept other Unicode decimal digits.
- Floating point is not modelled. Prices and ratings are reals. The budget is the integer its digits spell, which is exactly what `float` then `int` give for at most five digits.
- Chat.HandleChat: requires that each recommendation has an `_id` and a string `category`, and, under an active budget, that each pre-filter product's price is a number when present. A document that breaks these makes the handler raise when it reads the field: a missing `_id` raises `KeyError`, and a null or non-numeric price or a missing or non-string category raises `TypeError`. Those failures are not modelled.
- Selection.IsTopRated: assumes every numeric rating is non-negative, as schemas.py:30 declares (`ge=0`), although the database does not enforce it. A missing or null `rating` counts as 0. The database's descending sort puts numbers first and missing or null ratings after them. With non-negative ratings `IsTopRated` admits that order, and also a missing rating tied with a 0 in either order. With a negative rating the database's order is not admitted. Non-numeric, non-null ratings sort in the database's own type order and are not modelled.
- Chat.HandleChat: always stores two messages. A query that is not a valid regular expression (such as "+" or "[") makes the keyword `find` (main.py:295) raise after the user message is stored (main.py:279-284), so no assistant message follows. Regular-expression syntax is not modelled.
- Chat.CategoryReasonText: does not fix the order of the category names. Python's set iteration order is unspecified, so the order is an input that `Enumerates` constrains to name each category once.
- `Documents.Stringify` does not compute `str()` for floats, lists, dates and nested documents. Those values carry their `str()` text as data.
- How object ids are generated and validated (`PyObjectId.validate`, `ObjectId(product_id)`) is not modelled, because it belongs to the bson library.
- Chat.ValidateRole: models the pattern the way the Rust regular-expression engine behind `Field(pattern=...)` reads it, with `$` matching only at the end of the text. Python's `re` would also accept a trailing newline.
- The missing-database `HTTPException`, CORS, routing, `/test`, startup, `seed_products` (random data and float rounding) and the other endpoints are not modelled. Each of those endpoints is a single database call.
- `schemas.py` is not modelled. It is field declarations enforced by the validation library, and the handler reads the stored documents without it.
