/** The four query variants tried for every post lookup, which differ only in
    where they look for the custom field, and the transforms that turn their
    replies into normalised records. */
module QueryVariants {
  import opened JsValues
  import opened Normalise
  import opened Endpoint
  import opened Fallback

  /** A variant's name suffix and the selection it adds to the post fields. */
  datatype Selection = Selection(suffix: string, extraSelection: string)

  /** The variants in the order they are tried. */
  const Selections: seq<Selection> := [
    Selection("DirectACF", "testPost"),
    Selection("CustomFieldsACF", "customFields { testPost }"),
    Selection("PostsGroupACF", "posts { testPost }"),
    Selection("Fallback", "")
  ]

  /** Indentation of the extra selection inside the summary and detail queries. */
  const SummaryIndent := "            "
  const DetailIndent := "        "

  /** The extra selection on its own line, or nothing when there is none. */
  function Extra(indent: string, extraSelection: string): (e: string)
    ensures extraSelection == "" <==> e == ""
    ensures extraSelection != "" ==> e == "\n" + indent + extraSelection
  {
    if |extraSelection| > 0 then "\n" + indent + extraSelection else ""
  }

  // ------------------------------------------------------------ post lists

  /** The caller's options to `buildSummaryVariants`, defaults filled in. */
  datatype SummaryOptions = SummaryOptions(
    limit: int,
    variables: map<string, VarValue>,
    additionalVariableDefinitions: string,
    whereClause: string)

  /** Only a limit given: no variables, definitions or where clause. */
  function LimitOnly(limit: int): SummaryOptions {
    SummaryOptions(limit, map[], "", "")
  }

  const FirstDefinition := "$first: Int!"

  /** The variable signature of a summary query: `$first` alone, or followed
      by the caller's extra definitions after a comma. */
  function ExpectedSignature(additionalVariableDefinitions: string): string {
    if additionalVariableDefinitions == "" then FirstDefinition
    else FirstDefinition + ", " + additionalVariableDefinitions
  }

  /** `{ first: limit, ...variables }`: the caller's keys override `first`. */
  function SummaryVariables(limit: int, variables: map<string, VarValue>): (m: map<string, VarValue>)
    ensures m.Keys == variables.Keys + {"first"}
    ensures forall k :: k in variables ==> m[k] == variables[k]
    ensures "first" !in variables ==> m["first"] == IntVar(limit)
  {
    map["first" := IntVar(limit)] + variables
  }

  function PostsClause(whereClause: string): string {
    "posts(first: $first" + whereClause + ")"
  }

  function SummaryRequest(operationName: string, signature: string, options: SummaryOptions, s: Selection): Request {
    Request(
      PostsQuery(operationName + "_" + s.suffix, signature, PostsClause(options.whereClause), Extra(SummaryIndent, s.extraSelection)),
      SummaryVariables(options.limit, options.variables))
  }

  /** The four summary requests, in the order they are tried. */
  function SummaryRequests(operationName: string, options: SummaryOptions): (rs: seq<Request>)
    ensures |rs| == 4
    ensures forall i :: 0 <= i < 4 ==>
      rs[i].query.PostsQuery? &&
      rs[i].query.signature == ExpectedSignature(options.additionalVariableDefinitions) &&
      rs[i].query.postsClause == PostsClause(options.whereClause) &&
      rs[i].variables == SummaryVariables(options.limit, options.variables) &&
      (rs[i].query.extra == "" <==> i == 3)
    ensures rs[0].query.name == operationName + "_DirectACF"
    ensures rs[1].query.name == operationName + "_CustomFieldsACF"
    ensures rs[2].query.name == operationName + "_PostsGroupACF"
    ensures rs[3].query.name == operationName + "_Fallback"
    ensures rs[0].query.extra == "\n" + SummaryIndent + "testPost"
    ensures rs[1].query.extra == "\n" + SummaryIndent + "customFields { testPost }"
    ensures rs[2].query.extra == "\n" + SummaryIndent + "posts { testPost }"
  {
    var signature := ExpectedSignature(options.additionalVariableDefinitions);
    [SummaryRequest(operationName, signature, options, Selections[0]),
     SummaryRequest(operationName, signature, options, Selections[1]),
     SummaryRequest(operationName, signature, options, Selections[2]),
     SummaryRequest(operationName, signature, options, Selections[3])]
  }

  /** The summary transform: every node mapped when `posts.nodes` is an
      array, otherwise the empty list; never `undefined`, never throws. */
  function SummaryTransform(data: RootData): (r: Step<seq<PostSummary>>)
    ensures r.Value?
    ensures (data.posts.Null? || data.posts.value.nodes.NotArray?) ==> r.value == []
    ensures data.posts.Val? && data.posts.value.nodes.JsArray? ==>
      var nodes := data.posts.value.nodes.items;
      |r.value| == |nodes| && forall i :: 0 <= i < |nodes| ==> r.value[i] == MapPostSummary(nodes[i])
  {
    if data.posts.Val? && data.posts.value.nodes.JsArray? then
      Value(MapSeq(data.posts.value.nodes.items, MapPostSummary))
    else
      Value([])
  }

  /** `buildSummaryVariants`: builds the variable signature by pushing onto a
      list of definitions, then one variant per selection. */
  method BuildSummaryVariants(operationName: string, options: SummaryOptions)
    returns (variants: seq<Variant<seq<PostSummary>>>)
    ensures |variants| == 4
    ensures forall i :: 0 <= i < 4 ==> variants[i].request == SummaryRequests(operationName, options)[i]
    ensures forall i, d :: 0 <= i < 4 ==> variants[i].transform(d) == SummaryTransform(d)
  {
    var definitions := [FirstDefinition];
    if options.additionalVariableDefinitions != "" {
      definitions := definitions + [options.additionalVariableDefinitions];
    }
    var signature := Join(definitions, ", ");
    JoinPair(FirstDefinition, options.additionalVariableDefinitions, ", ");
    assert signature == ExpectedSignature(options.additionalVariableDefinitions);
    variants := seq(|Selections|, i requires 0 <= i < |Selections| =>
      Variant(SummaryRequest(operationName, signature, options, Selections[i]), SummaryTransform));
  }

  // ------------------------------------------------------------ single post

  function DetailRequest(slug: string, s: Selection): Request {
    Request(PostQuery("SinglePost_" + s.suffix, Extra(DetailIndent, s.extraSelection)), map["slug" := StringVar(slug)])
  }

  /** The detail transform: the mapped post, or null when `post` is missing;
      never `undefined`, never throws. */
  function DetailTransform(data: RootData): (r: Step<Nullable<PostDetail>>)
    ensures r.Value?
    ensures data.post.Null? <==> r.value.Null?
    ensures data.post.Val? ==> r.value.value == MapPostDetail(data.post)
  {
    if data.post.Val? then Value(Val(MapPostDetail(data.post))) else Value(Null)
  }

  /** `buildDetailVariants`: the four single-post variants, in the order they
      are tried. */
  function BuildDetailVariants(slug: string): (vs: seq<Variant<Nullable<PostDetail>>>)
    ensures |vs| == 4
    ensures forall i :: 0 <= i < 4 ==>
      vs[i].request.query.PostQuery? &&
      vs[i].request.variables == map["slug" := StringVar(slug)] &&
      (vs[i].request.query.extra == "" <==> i == 3)
    ensures forall i, d :: 0 <= i < 4 ==> vs[i].transform(d) == DetailTransform(d)
    ensures vs[0].request.query.name == "SinglePost_DirectACF"
    ensures vs[1].request.query.name == "SinglePost_CustomFieldsACF"
    ensures vs[2].request.query.name == "SinglePost_PostsGroupACF"
    ensures vs[3].request.query.name == "SinglePost_Fallback"
    ensures vs[0].request.query.extra == "\n" + DetailIndent + "testPost"
    ensures vs[1].request.query.extra == "\n" + DetailIndent + "customFields { testPost }"
    ensures vs[2].request.query.extra == "\n" + DetailIndent + "posts { testPost }"
  {
    [Variant(DetailRequest(slug, Selections[0]), DetailTransform),
     Variant(DetailRequest(slug, Selections[1]), DetailTransform),
     Variant(DetailRequest(slug, Selections[2]), DetailTransform),
     Variant(DetailRequest(slug, Selections[3]), DetailTransform)]
  }
}
