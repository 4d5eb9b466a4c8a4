/** The remote GraphQL endpoint, seen from the data-access layer: the requests
    it is sent and the replies it gives. The transport and the query text are
    not modelled; a query is identified by the parts the layer chooses. */
module Endpoint {
  import opened JsValues
  import opened Normalise

  /** The parts of a query document the layer varies. */
  datatype Query =
      /** `query <name>(<signature>) { <postsClause> { nodes { ...PostSummaryFields<extra> } } }` */
    | PostsQuery(name: string, signature: string, postsClause: string, extra: string)
      /** `query <name>($slug: ID!) { post(id: $slug, idType: SLUG) { ...PostDetailFields<extra> } }` */
    | PostQuery(name: string, extra: string)
      /** `query AllCategories { categories { nodes { name slug } } }` */
    | CategoriesQuery

  datatype VarValue = IntVar(i: int) | StringVar(s: string)

  datatype Request = Request(query: Query, variables: map<string, VarValue>)

  datatype PostConnection = PostConnection(nodes: MaybeArray<Nullable<RawPost>>)

  /** The `data` object of a reply; each reader looks at its own field. */
  datatype RootData = RootData(
    posts: Nullable<PostConnection>,
    post: Nullable<RawPost>,
    categories: Nullable<CategoryConnection>)

  /** What `client.request` does: reject (network failure, GraphQL validation
      error, a field the schema lacks) or resolve with data. */
  datatype Reply = Threw | Data(data: RootData)

  /** The endpoint as an oracle: the reply to each request, fixed while the
      backend does not change. */
  type Server = Request -> Reply
}
