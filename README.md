# Resilient content fetcher of a headless-WordPress blog front end

This project is a Dafny model of the data-access layer in `lib/api.ts` of a
Next.js blog. The blog's posts and categories come from a WordPress GraphQL
endpoint. The layer does two things:

- **Normalisation.** Raw GraphQL nodes, whose fields may all be missing, become
  records where every field has a default: `""` for text, `null` for the date,
  the custom field `testPost` and the featured image, and `[]` for categories.
  The custom field is looked up in three places, in a fixed priority order:
  the direct field, then `customFields.testPost`, then `posts.testPost`. The
  first non-nullish one wins, even an empty string.
- **The fallback chain.** Every post lookup builds four query variants:
  `DirectACF`, `CustomFieldsACF`, `PostsGroupACF` and `Fallback`. They differ
  only in where they select the custom field. The variants are tried strictly
  in order. The first whose request does not throw, and whose transform
  returns something other than `undefined`, decides the result. Later variants
  are never requested. When every variant fails, the lookup returns a fixed
  fallback (`[]` or `null`) and never throws. The category lookup is a single
  request with no fallback, so its failure reaches the caller.

Modules, one per concern of the source file:

- `JsValues` (`js_values.dfy`): nullish values with `??`, `Array.isArray`,
  `map` and `join`.
- `Normalise` (`normalise.dfy`): the raw and normalised record types and the
  four mapping functions.
- `Endpoint` (`endpoint.dfy`): requests, replies and the endpoint as an oracle
  (`Server = Request -> Reply`). The oracle gives one reply per request and
  stays fixed while the backend does not change.
- `Fallback` (`fallback.dfy`): the combinator. It is an imperative method with
  a loop, proved against a recursive definition `Chain`.
- `QueryVariants` (`query_variants.dfy`): the variant builders and their
  transforms.
- `Api` (`api.dfy`): the four exported lookups.

Each lookup returns the requests it issued as a ghost log. That is how "stops
at the first success", "zero requests for an empty slug" and "exactly one
request" are stated.

JavaScript's `null` and `undefined` are both the `Null` case of `Nullable`:
`??` and `?.` treat them alike, and no output field can be `undefined`. A
transform's `undefined` result is the `Undefined` case of `Step`. An
exception thrown by the transform is the `Raised` case, since the source's
`try` covers the transform as well as the request.

The summary keeps the whole raw `featuredImage` object (`node.sourceUrl`
inside it), as `lib/api.ts:114` does.

## Model

| member | source | states |
|---|---|---|
| `Normalise.AcfPriority` | lib/api.ts:90-97 | about `NormaliseAcfValue`, the model of `normaliseAcfValue`: the custom field is the first of the three locations (direct, `customFields`, `posts`) that holds a value; an empty string counts as a value and wins |
| `Normalise.AcfAbsent` | lib/api.ts:90-97 | the custom field is `null` when none of the three locations holds a value, including when the node itself is nullish |
| `Normalise.AcfFromOneCandidate` | lib/api.ts:90-97 | a non-null custom field is the value held at one of the three locations, never a merge |
| `Normalise.MapCategory` | lib/api.ts:99-104 | a present `name`/`slug` is copied unchanged and a missing one becomes `""`; a nullish node gives `{"", ""}` |
| `Normalise.MapCategoryNodes` | lib/api.ts:115-117 | when the nodes are an array, the result has the same length and order and element i is `mapCategory(nodes[i])`; otherwise it is `[]` |
| `Normalise.MapPostSummary` | lib/api.ts:106-119 | `id`, `title`, `slug` and `excerpt` are copied when present and `""` otherwise; `date` and `featuredImage` are copied, `null` when missing; `testPost` is the normalised custom field; `categories` follows the category-node rule |
| `Normalise.MapPostDetail` | lib/api.ts:121-127 | the detail agrees with `mapPostSummary` of the same node on every summary field; `content` is copied when present and `""` otherwise |
| `Normalise.SummaryRoundTrip` | lib/api.ts:106-119 | normalising a raw node that already carries every field of a summary gives that summary back |
| `Normalise.DetailRoundTrip` | lib/api.ts:121-127 | normalising a raw node that already carries every field of a detail gives that detail back |
| `JsValues.JoinPair` | lib/api.ts:164-168 | joining one definition gives it alone; joining two puts `", "` between them |
| `Fallback.Chain` | lib/api.ts:129-148 | the chain issues at most one request per variant, in list order |
| `Fallback.ChainShape` | lib/api.ts:133-147 | a non-empty list issues at least one request; every request but the last failed; the result is the last variant's value if it succeeded, otherwise every variant was requested and the fallback is returned |
| `Fallback.ChainFirstSuccess` | lib/api.ts:133-139 | if variant k is the first to succeed, the result is its transform's value and exactly k+1 requests are issued, so no later variant is requested |
| `Fallback.ChainExhausted` | lib/api.ts:140-147 | if no variant succeeds, every variant is requested and the fallback value is returned |
| `Fallback.RequestWithFallbacks` | lib/api.ts:129-148 | the loop, which catches a failing request or transform and skips an `undefined` result, returns exactly the chain's result and issues exactly the chain's requests; its result type has no error case, so it never throws |
| `QueryVariants.Extra` | lib/api.ts:179-182 | the extra selection is empty exactly when the selection is empty; otherwise it is the selection on a new indented line |
| `QueryVariants.SummaryVariables` | lib/api.ts:194 | the variables are the caller's keys plus `first`; every caller key keeps its value, overriding `first`; otherwise `first` is the limit |
| `QueryVariants.SummaryRequests` | lib/api.ts:164-194 | four requests named `<operation>_DirectACF`, `_CustomFieldsACF`, `_PostsGroupACF`, `_Fallback` in that order; all share the signature, `posts(...)` clause and variables; the first three add, on a new line, `testPost`, `customFields { testPost }` and `posts { testPost }` respectively, and only the last has no extra selection |
| `QueryVariants.BuildSummaryVariants` | lib/api.ts:150-203 | builds the signature by pushing the optional definition and joining, then yields four variants whose requests are the summary requests in order and whose transform is the summary transform |
| `QueryVariants.SummaryTransform` | lib/api.ts:195-200 | never `undefined`: maps every node in order when `posts.nodes` is an array, and gives `[]` otherwise |
| `QueryVariants.DetailTransform` | lib/api.ts:229-232 | never `undefined`: `null` exactly when `post` is missing, otherwise `mapPostDetail(post)` |
| `QueryVariants.BuildDetailVariants` | lib/api.ts:205-235 | four variants named `SinglePost_DirectACF` … `SinglePost_Fallback` in order; the variables are `{slug}`; the first three add `testPost`, `customFields { testPost }` and `posts { testPost }` respectively, and only the last has no extra selection; each uses the detail transform |
| `Api.FirstAnswered` | lib/api.ts:133-139 | the index of the first request the endpoint answers: every earlier request threw, and the one at the index (if any) was answered |
| `Api.ChainStopsAtFirstAnswer` | lib/api.ts:133-139 | when every transform yields a value, the chain requests up to and including the first answered request and returns that answer's value, even if it holds no posts or no post; it returns the fallback only when every request threw |
| `Api.FetchAllPosts` | lib/api.ts:237-240 | returns the mapped posts of the first answered `AllPosts` request, or `[]` when all four throw; issues the requests in order up to and including that one, and none after it |
| `Api.FetchPostsByCategory` | lib/api.ts:259-275 | an empty slug gives `[]` with no request; otherwise returns the mapped posts of the first answered `PostsByCategory` request, or `[]` when all four throw, issuing requests in order up to and including that one; every issued request has variables `{first: limit, category: slug}`, signature `$first: Int!, $category: String!` and clause `posts(first: $first, where: { categoryName: $category })` |
| `Api.FetchPostBySlug` | lib/api.ts:277-284 | an empty slug gives `null` with no request; otherwise returns the post (or `null` when it is missing) of the first answered `SinglePost` request, or `null` when all four throw; issues the requests in order up to and including that one |
| `Api.FetchAllCategories` | lib/api.ts:242-257 | issues exactly one request; it rejects exactly when that request throws; otherwise it maps the category nodes, giving `[]` when they are not an array |
| `Api.FetchAllCategoriesTwice` | lib/api.ts:242-257 | a client of `FetchAllCategories`: because that contract fixes the outcome from the endpoint's reply alone, two lookups against an unchanged backend settle the same way (idempotence, no further proof) |

## Left out

- The `graphql-request` client and the HTTP transport (lib/api.ts:1-7). The
  endpoint is an abstract oracle from request to reply, and the endpoint URL
  configuration is not modelled.
- The query documents built by the `gql` tag and the two fragments
  (lib/api.ts:61-88, 184-193, 220-227, 243-252). A query is identified by the
  parts the layer chooses: its name, variable signature, `posts(...)` clause
  and extra selection.
- The warning logged for a failed variant outside production
  (lib/api.ts:141-143). It is a logging side effect only.
- Promises and `await`. Each lookup runs its requests one after another, which
  is what the source does.
- Raw replies are modelled with the source's declared raw types, not as
  arbitrary JSON. A field holding a value of the wrong type is not modelled.
  The truthiness test on `data.post` is modelled as a nullish test, because a
  post object is always truthy.
- `limit` is modelled as an integer (`int`), while the source takes any
  JavaScript `number` (lib/api.ts:158, 237, 261). A non-integer limit, which
  the endpoint would reject against `$first: Int!`, cannot be expressed; the
  chain's behaviour does not depend on the value.
- The difference between `null` and `undefined` in raw input. It is not
  observable through `??` and `?.`.
- The route handlers (`app/api/posts/route.ts`,
  `app/api/categories/route.ts`), the pages, the client-side filter, the
  layout and the fonts. They are request, response and rendering plumbing
  around this layer.
