/**
  The CMS records as they arrive in a response envelope, the domain records
  the pages render, and the one mapping between them that every loader
  applies: fields are copied one to one and a missing or empty image URL is
  replaced by a fixed placeholder path.
 */
module Cms {
  import opened Wrappers

  /** The placeholder path substituted for a missing or empty image URL. */
  const NoImage := "/images/no-image.png"

  /** The nested media relation of a CMS record; its `url` may be absent. */
  datatype RawImage = RawImage(url: Option<string>)

  /** A project as the CMS sends it. */
  datatype RawProject = RawProject(
    id: int,
    documentId: string,
    title: string,
    description: string,
    image: Option<RawImage>,
    url: string,
    date: string,
    category: string,
    featured: bool)

  /** A blog post as the CMS sends it. */
  datatype RawPost = RawPost(
    id: int,
    slug: string,
    title: string,
    excerpt: string,
    body: string,
    date: string,
    image: Option<RawImage>)

  /** A project as the pages render it: the image is always a plain URL. */
  datatype Project = Project(
    id: int,
    documentId: string,
    title: string,
    description: string,
    image: string,
    url: string,
    date: string,
    category: string,
    featured: bool)

  /** A post as the pages render it; `body` is only present in the detail form. */
  datatype Post = Post(
    id: int,
    slug: string,
    title: string,
    body: Option<string>,
    excerpt: string,
    date: string,
    image: string)

  /** The `{ ok, data }` part of an HTTP response that the loaders look at. */
  datatype Response<T> = Response(ok: bool, data: seq<T>)

  /**
    What a loader throws: a plain error for a failed fetch, or an HTTP
    response whose status, status text and body are those given to its
    constructor (the status text defaults to "").
   */
  datatype LoadError =
    | FetchFailed(message: string)
    | NotFound(status: nat, statusText: string, body: string)

  /** `image?.url` is truthy: the relation is there, has a URL, and the URL is not "". */
  predicate HasImageUrl(image: Option<RawImage>)
  {
    image.Some? && image.value.url.Some? && image.value.url.value != ""
  }

  /** The image URL every normalised record carries. */
  function ImageUrl(image: Option<RawImage>): (url: string)
    ensures url != ""
    ensures HasImageUrl(image) ==> url == image.value.url.value
    ensures !HasImageUrl(image) ==> url == NoImage
  {
    if HasImageUrl(image) then image.value.url.value else NoImage
  }

  function NormalizeProject(raw: RawProject): (p: Project)
    ensures p.id == raw.id && p.documentId == raw.documentId && p.title == raw.title
    ensures p.description == raw.description && p.url == raw.url && p.date == raw.date
    ensures p.category == raw.category && p.featured == raw.featured
    ensures p.image != "" && (HasImageUrl(raw.image) ==> p.image == raw.image.value.url.value)
    ensures !HasImageUrl(raw.image) ==> p.image == NoImage
  {
    Project(raw.id, raw.documentId, raw.title, raw.description, ImageUrl(raw.image),
            raw.url, raw.date, raw.category, raw.featured)
  }

  /** The listing form of a post: no body. */
  function NormalizePost(raw: RawPost): (p: Post)
    ensures p.id == raw.id && p.slug == raw.slug && p.title == raw.title
    ensures p.excerpt == raw.excerpt && p.date == raw.date && p.body == None
    ensures p.image != "" && (HasImageUrl(raw.image) ==> p.image == raw.image.value.url.value)
    ensures !HasImageUrl(raw.image) ==> p.image == NoImage
  {
    Post(raw.id, raw.slug, raw.title, None, raw.excerpt, raw.date, ImageUrl(raw.image))
  }

  /** The detail form of a post: as the listing form, plus the body. */
  function NormalizePostDetail(raw: RawPost): (p: Post)
    ensures p.id == raw.id && p.slug == raw.slug && p.title == raw.title
    ensures p.excerpt == raw.excerpt && p.date == raw.date && p.body == Some(raw.body)
    ensures p == NormalizePost(raw).(body := Some(raw.body))
  {
    Post(raw.id, raw.slug, raw.title, Some(raw.body), raw.excerpt, raw.date, ImageUrl(raw.image))
  }

  /** `data.map(...)` over projects: one record per raw record, in order. */
  function NormalizeProjects(raws: seq<RawProject>): (ps: seq<Project>)
    ensures |ps| == |raws|
    ensures forall i :: 0 <= i < |raws| ==> ps[i] == NormalizeProject(raws[i])
    ensures forall p :: p in ps ==> p.image != ""
  {
    seq(|raws|, i requires 0 <= i < |raws| => NormalizeProject(raws[i]))
  }

  /** `data.map(...)` over posts, listing form. */
  function NormalizePosts(raws: seq<RawPost>): (ps: seq<Post>)
    ensures |ps| == |raws|
    ensures forall i :: 0 <= i < |raws| ==> ps[i] == NormalizePost(raws[i])
    ensures forall p :: p in ps ==> p.image != "" && p.body == None
  {
    seq(|raws|, i requires 0 <= i < |raws| => NormalizePost(raws[i]))
  }
}
