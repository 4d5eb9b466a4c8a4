/** The four exported lookups of the data-access layer. The three post
    lookups go through the fallback chain and never fail; the category lookup
    is a single request whose failure reaches the caller. */
module Api {
  import opened JsValues
  import opened Normalise
  import opened Endpoint
  import opened Fallback
  import opened QueryVariants

  const DefaultLimit := 50

  /** How an async call settles: resolved with a value, or rejected. */
  datatype Settled<T> = Resolved(value: T) | Rejected

  /** The index of the first request in `rs` that the endpoint answers rather
      than throwing on, or `|rs|` when it throws on all of them. */
  function FirstAnswered(rs: seq<Request>, server: Server): (k: nat)
    ensures k <= |rs|
    ensures forall i :: 0 <= i < k ==> server(rs[i]).Threw?
    ensures k < |rs| ==> server(rs[k]).Data?
  {
    if rs == [] then 0
    else if server(rs[0]).Data? then 0
    else 1 + FirstAnswered(rs[1..], server)
  }

  /** The requests issued when the first answered one is at index `k`: up to
      and including it, or all of them. */
  function IssuedUpTo(rs: seq<Request>, k: nat): seq<Request>
    requires k <= |rs|
  {
    if k < |rs| then rs[..k + 1] else rs
  }

  /** A variant whose transform always yields `read` of the data succeeds
      exactly when its request is answered, with that value. */
  lemma AttemptReads<R>(v: Variant<R>, server: Server, read: RootData -> R)
    requires forall d :: v.transform(d) == Value(read(d))
    ensures Succeeds(v, server) <==> server(v.request).Data?
    ensures server(v.request).Data? ==> Attempt(v, server).value == read(server(v.request).data)
  {
  }

  /** When every transform yields a value (`read` of the data), the chain stops
      at the first request the endpoint answers, whatever that answer holds,
      and returns its value; the fallback only when every request throws. */
  lemma ChainStopsAtFirstAnswer<R>(variants: seq<Variant<R>>, fallback: R, server: Server, read: RootData -> R)
    requires forall i, d :: 0 <= i < |variants| ==> variants[i].transform(d) == Value(read(d))
    ensures var rs := Requests(variants); var k := FirstAnswered(rs, server);
      Chain(variants, fallback, server).result == (if k < |rs| then read(server(rs[k]).data) else fallback) &&
      Chain(variants, fallback, server).requests == IssuedUpTo(rs, k)
  {
    var rs := Requests(variants);
    var k := FirstAnswered(rs, server);
    forall i | 0 <= i < |variants|
      ensures Succeeds(variants[i], server) <==> server(rs[i]).Data?
      ensures server(rs[i]).Data? ==> Attempt(variants[i], server).value == read(server(rs[i]).data)
    {
      AttemptReads(variants[i], server, read);
    }
    if k < |rs| {
      ChainFirstSuccess(variants, fallback, server, k);
    } else {
      ChainExhausted(variants, fallback, server);
    }
    var run := Chain(variants, fallback, server);
    assert run.requests == IssuedUpTo(rs, k);
  }

  function PostsOf(data: RootData): seq<PostSummary> {
    SummaryTransform(data).value
  }

  function PostOf(data: RootData): Nullable<PostDetail> {
    DetailTransform(data).value
  }

  /** `fetchAllPosts`: the four `AllPosts` variants, falling back to no posts. */
  method FetchAllPosts(server: Server, limit: int := DefaultLimit)
    returns (posts: seq<PostSummary>, ghost log: seq<Request>)
    ensures var rs := SummaryRequests("AllPosts", LimitOnly(limit)); var k := FirstAnswered(rs, server);
      posts == if k < 4 then PostsOf(server(rs[k]).data) else []
    ensures var rs := SummaryRequests("AllPosts", LimitOnly(limit));
      log == IssuedUpTo(rs, FirstAnswered(rs, server))
  {
    var variants := BuildSummaryVariants("AllPosts", LimitOnly(limit));
    posts, log := RequestWithFallbacks(variants, [], server);
    ChainStopsAtFirstAnswer(variants, [], server, PostsOf);
    assert Requests(variants) == SummaryRequests("AllPosts", LimitOnly(limit));
  }

  /** The options `fetchPostsByCategory` passes for a category slug. */
  function CategoryOptions(slug: string, limit: int): SummaryOptions {
    SummaryOptions(limit, map["category" := StringVar(slug)], "$category: String!", ", where: { categoryName: $category }")
  }

  /** A category lookup passes the slug as `category` beside `first`. */
  lemma CategoryVariables(slug: string, limit: int)
    ensures SummaryVariables(limit, CategoryOptions(slug, limit).variables) ==
      map["first" := IntVar(limit), "category" := StringVar(slug)]
  {
    assert "first"[0] != "category"[0];
  }

  /** A category lookup declares `$category` after `$first`. */
  lemma CategorySignature(slug: string, limit: int)
    ensures ExpectedSignature(CategoryOptions(slug, limit).additionalVariableDefinitions) ==
      "$first: Int!, $category: String!"
  {
  }

  /** A category lookup restricts `posts` to the category name. */
  lemma CategoryClause(slug: string, limit: int)
    ensures PostsClause(CategoryOptions(slug, limit).whereClause) ==
      "posts(first: $first, where: { categoryName: $category })"
  {
    var where := CategoryOptions(slug, limit).whereClause;
    assert where == ", where: { categoryName: $category }";
    CategoryClauseText();
  }

  lemma CategoryClauseText()
    ensures "posts(first: $first" + ", where: { categoryName: $category }" + ")" ==
      "posts(first: $first, where: { categoryName: $category })"
  {
  }

  /** `fetchPostsByCategory`: no request at all for an empty slug; otherwise the
      four `PostsByCategory` variants, falling back to no posts. */
  method FetchPostsByCategory(slug: string, server: Server, limit: int := DefaultLimit)
    returns (posts: seq<PostSummary>, ghost log: seq<Request>)
    ensures slug == "" ==> posts == []
    ensures slug != "" ==>
      var rs := SummaryRequests("PostsByCategory", CategoryOptions(slug, limit)); var k := FirstAnswered(rs, server);
      posts == if k < 4 then PostsOf(server(rs[k]).data) else []
    ensures log == if slug == "" then [] else
      var rs := SummaryRequests("PostsByCategory", CategoryOptions(slug, limit));
      IssuedUpTo(rs, FirstAnswered(rs, server))
    ensures slug != "" ==> 0 < |log| <= 4 && forall i :: 0 <= i < |log| ==>
      log[i].variables == map["first" := IntVar(limit), "category" := StringVar(slug)] &&
      log[i].query.PostsQuery? &&
      log[i].query.signature == "$first: Int!, $category: String!" &&
      log[i].query.postsClause == "posts(first: $first, where: { categoryName: $category })"
  {
    if slug == "" {
      return [], [];
    }
    CategoryVariables(slug, limit);
    CategorySignature(slug, limit);
    CategoryClause(slug, limit);
    var variants := BuildSummaryVariants("PostsByCategory", CategoryOptions(slug, limit));
    posts, log := RequestWithFallbacks(variants, [], server);
    ChainStopsAtFirstAnswer(variants, [], server, PostsOf);
    assert Requests(variants) == SummaryRequests("PostsByCategory", CategoryOptions(slug, limit));
  }

  /** `fetchPostBySlug`: no request at all for an empty slug; otherwise the four
      `SinglePost` variants, falling back to null. */
  method FetchPostBySlug(slug: string, server: Server)
    returns (post: Nullable<PostDetail>, ghost log: seq<Request>)
    ensures slug == "" ==> post == Null
    ensures slug != "" ==>
      var rs := Requests(BuildDetailVariants(slug)); var k := FirstAnswered(rs, server);
      post == if k < 4 then PostOf(server(rs[k]).data) else Null
    ensures log == if slug == "" then [] else
      var rs := Requests(BuildDetailVariants(slug));
      IssuedUpTo(rs, FirstAnswered(rs, server))
  {
    if slug == "" {
      return Null, [];
    }
    var variants := BuildDetailVariants(slug);
    post, log := RequestWithFallbacks(variants, Null, server);
    ChainStopsAtFirstAnswer(variants, Null, server, PostOf);
  }

  const CategoriesRequest := Request(CategoriesQuery, map[])

  /** `data?.categories?.nodes`. */
  function CategoriesNodes(data: RootData): MaybeArray<Nullable<RawCategory>> {
    if data.categories.Val? then data.categories.value.nodes else NotArray
  }

  /** `fetchAllCategories`: exactly one request, no fallback; a failed request
      rejects, and a reply without a node array gives no categories. */
  method FetchAllCategories(server: Server)
    returns (categories: Settled<seq<Category>>, ghost log: seq<Request>)
    ensures log == [CategoriesRequest]
    ensures categories.Rejected? <==> server(CategoriesRequest).Threw?
    ensures server(CategoriesRequest).Data? ==>
      categories.value == MapCategoryNodes(CategoriesNodes(server(CategoriesRequest).data))
  {
    log := [CategoriesRequest];
    var reply := server(CategoriesRequest);
    if reply.Threw? {
      return Rejected, log;
    }
    categories := Resolved(MapCategoryNodes(CategoriesNodes(reply.data)));
  }

  /** Two category lookups against an unchanged backend give the same outcome. */
  method FetchAllCategoriesTwice(server: Server)
    returns (first: Settled<seq<Category>>, second: Settled<seq<Category>>)
    ensures first == second
  {
    ghost var log;
    first, log := FetchAllCategories(server);
    second, log := FetchAllCategories(server);
  }
}
