/** Raw GraphQL post and category nodes, the normalised records handed to the
    rendering layer, and the total functions that turn the former into the
    latter by giving every missing field a default. */
module Normalise {
  import opened JsValues

  // ---------------------------------------------------------------- raw input

  datatype RawCategory = RawCategory(name: Nullable<string>, slug: Nullable<string>)

  /** `{ nodes?: RawCategory[] | null }`; elements may themselves be nullish. */
  datatype CategoryConnection = CategoryConnection(nodes: MaybeArray<Nullable<RawCategory>>)

  datatype ImageNode = ImageNode(sourceUrl: Nullable<string>)

  /** Passed through to the output unchanged. */
  datatype FeaturedImage = FeaturedImage(node: Nullable<ImageNode>)

  /** A container that may hold the custom field (`customFields { testPost }`
      or `posts { testPost }`). */
  datatype AcfGroup = AcfGroup(testPost: Nullable<string>)

  /** A raw post node. Summary queries never select `content`, so there it is
      `Null`; the detail query selects it as well. */
  datatype RawPost = RawPost(
    id: Nullable<string>,
    title: Nullable<string>,
    date: Nullable<string>,
    slug: Nullable<string>,
    excerpt: Nullable<string>,
    featuredImage: Nullable<FeaturedImage>,
    categories: Nullable<CategoryConnection>,
    testPost: Nullable<string>,
    customFields: Nullable<AcfGroup>,
    posts: Nullable<AcfGroup>,
    content: Nullable<string>)

  // ---------------------------------------------------------- normalised output

  datatype Category = Category(name: string, slug: string)

  datatype PostSummary = PostSummary(
    id: string,
    title: string,
    slug: string,
    excerpt: string,
    date: Nullable<string>,
    testPost: Nullable<string>,
    featuredImage: Nullable<FeaturedImage>,
    categories: seq<Category>)

  /** A summary spread into a new record with `content` added. */
  datatype PostDetail = PostDetail(
    id: string,
    title: string,
    slug: string,
    excerpt: string,
    date: Nullable<string>,
    testPost: Nullable<string>,
    featuredImage: Nullable<FeaturedImage>,
    categories: seq<Category>,
    content: string)

  /** The summary fields of a detail record. */
  function SummaryPart(d: PostDetail): PostSummary {
    PostSummary(d.id, d.title, d.slug, d.excerpt, d.date, d.testPost, d.featuredImage, d.categories)
  }

  /** A text field normalised from `raw`: a present value unchanged, else "". */
  predicate TextDefaulted(raw: Nullable<string>, out: string) {
    (raw.Val? ==> out == raw.value) && (raw.Null? ==> out == "")
  }

  // ------------------------------------------------------------------ mapping

  /** The three places the custom field may come from, in priority order:
      the direct field, `customFields.testPost`, `posts.testPost`. */
  function AcfCandidates(node: Nullable<RawPost>): seq<Nullable<string>> {
    match node
    case Null => [Null, Null, Null]
    case Val(n) =>
      [n.testPost,
       if n.customFields.Val? then n.customFields.value.testPost else Null,
       if n.posts.Val? then n.posts.value.testPost else Null]
  }

  /** The custom field of a post: the `??` chain over its three locations. */
  function NormaliseAcfValue(node: Nullable<RawPost>): (r: Nullable<string>)
  {
    match node
    case Null => Null
    case Val(n) =>
      n.testPost
        .OrElse(if n.customFields.Val? then n.customFields.value.testPost else Null)
        .OrElse(if n.posts.Val? then n.posts.value.testPost else Null)
  }

  function MapCategory(node: Nullable<RawCategory>): (c: Category)
    ensures node.Val? ==> TextDefaulted(node.value.name, c.name) && TextDefaulted(node.value.slug, c.slug)
    ensures node.Null? ==> c == Category("", "")
  {
    match node
    case Null => Category("", "")
    case Val(n) => Category(n.name.Or(""), n.slug.Or(""))
  }

  /** `node?.categories?.nodes`, as seen by `Array.isArray`. */
  function CategoryNodes(node: Nullable<RawPost>): MaybeArray<Nullable<RawCategory>> {
    if node.Val? && node.value.categories.Val? then node.value.categories.value.nodes else NotArray
  }

  /** The category list of a post, or of the category query: each node mapped
      in order when the nodes are an array, otherwise empty. */
  function MapCategoryNodes(nodes: MaybeArray<Nullable<RawCategory>>): (cs: seq<Category>)
    ensures nodes.NotArray? ==> cs == []
    ensures nodes.JsArray? ==>
      |cs| == |nodes.items| && forall i :: 0 <= i < |cs| ==> cs[i] == MapCategory(nodes.items[i])
  {
    match nodes
    case NotArray => []
    case JsArray(items) => MapSeq(items, MapCategory)
  }

  function MapPostSummary(node: Nullable<RawPost>): (s: PostSummary)
    ensures node.Null? ==> s == PostSummary("", "", "", "", Null, Null, Null, [])
    ensures node.Val? ==>
      TextDefaulted(node.value.id, s.id) && TextDefaulted(node.value.title, s.title) &&
      TextDefaulted(node.value.slug, s.slug) && TextDefaulted(node.value.excerpt, s.excerpt) &&
      s.date == node.value.date && s.featuredImage == node.value.featuredImage
    ensures s.testPost == NormaliseAcfValue(node)
    ensures s.categories == MapCategoryNodes(CategoryNodes(node))
  {
    match node
    case Null => PostSummary("", "", "", "", Null, Null, Null, [])
    case Val(n) =>
      PostSummary(
        n.id.Or(""), n.title.Or(""), n.slug.Or(""), n.excerpt.Or(""),
        n.date.OrElse(Null),
        NormaliseAcfValue(node),
        n.featuredImage.OrElse(Null),
        MapCategoryNodes(CategoryNodes(node)))
  }

  function MapPostDetail(node: Nullable<RawPost>): (d: PostDetail)
    ensures SummaryPart(d) == MapPostSummary(node)
    ensures node.Val? ==> TextDefaulted(node.value.content, d.content)
    ensures node.Null? ==> d.content == ""
  {
    var s := MapPostSummary(node);
    var content := if node.Val? then node.value.content.Or("") else "";
    PostDetail(s.id, s.title, s.slug, s.excerpt, s.date, s.testPost, s.featuredImage, s.categories, content)
  }

  // ------------------------------------------------------------------ lemmas

  /** The custom field is the first candidate location holding a value (an
      empty string included), and null only when none does. */
  lemma AcfPriority(node: Nullable<RawPost>, k: nat)
    requires k < 3
    requires AcfCandidates(node)[k].Val?
    requires forall j :: 0 <= j < k ==> AcfCandidates(node)[j].Null?
    ensures NormaliseAcfValue(node) == AcfCandidates(node)[k]
  {
    var c := AcfCandidates(node);
    if k == 1 {
      assert c[0].Null?;
    } else if k == 2 {
      assert c[0].Null? && c[1].Null?;
    }
  }

  lemma AcfAbsent(node: Nullable<RawPost>)
    requires forall j :: 0 <= j < 3 ==> AcfCandidates(node)[j].Null?
    ensures NormaliseAcfValue(node).Null?
  {
    var c := AcfCandidates(node);
    assert c[0].Null? && c[1].Null? && c[2].Null?;
  }

  /** The custom field is always one of the candidates, never a merge. */
  lemma AcfFromOneCandidate(node: Nullable<RawPost>)
    ensures NormaliseAcfValue(node).Val? ==>
      exists k :: 0 <= k < 3 && AcfCandidates(node)[k] == NormaliseAcfValue(node)
  {
    var c := AcfCandidates(node);
    if c[0].Val? {
      AcfPriority(node, 0);
    } else if c[1].Val? {
      AcfPriority(node, 1);
    } else if c[2].Val? {
      AcfPriority(node, 2);
    } else {
      AcfAbsent(node);
    }
  }

  /** The raw node that carries every field of `s` (the custom field in its
      direct location). */
  function EmbedSummary(s: PostSummary): RawPost {
    RawPost(Val(s.id), Val(s.title), s.date, Val(s.slug), Val(s.excerpt), s.featuredImage,
      Val(CategoryConnection(JsArray(MapSeq(s.categories, EmbedCategory)))),
      s.testPost, Null, Null, Null)
  }

  function EmbedCategory(c: Category): Nullable<RawCategory> {
    Val(RawCategory(Val(c.name), Val(c.slug)))
  }

  /** Normalising a node that already has every field changes nothing. */
  lemma SummaryRoundTrip(s: PostSummary)
    ensures MapPostSummary(Val(EmbedSummary(s))) == s
  {
  }

  lemma DetailRoundTrip(d: PostDetail)
    ensures MapPostDetail(Val(EmbedSummary(SummaryPart(d)).(content := Val(d.content)))) == d
  {
  }
}
