/**
  The blog post detail loader: one request filtered by the slug from the
  path, a fetch error for a non-OK response, a 404 for an empty result, and
  otherwise the first record, normalised into the detail form of a post.
 */
module BlogDetailsRoute {
  import opened Wrappers
  import opened Cms

  const SlugFilter := "/posts?filters[slug][$eq]="
  const PopulateImage := "&populate=image"

  /** The slug is spliced into the query string as it is, without encoding. */
  function PostUrl(base: string, slug: string): (url: string)
    ensures |url| == |base| + |SlugFilter| + |slug| + |PopulateImage|
    ensures url[..|base|] == base
    ensures url[|base|..|base| + |SlugFilter|] == "/posts?filters[slug][$eq]="
    ensures url[|base| + |SlugFilter|..|url| - |PopulateImage|] == slug
    ensures url[|url| - |PopulateImage|..] == "&populate=image"
  {
    base + SlugFilter + slug + PopulateImage
  }

  /** Reads the slug back out of a detail request URL built on `base`. */
  function SlugOfUrl(base: string, url: string): (slug: Option<string>)
    ensures slug.Some? ==> PostUrl(base, slug.value) == url
  {
    var from, to := |base| + |SlugFilter|, |url| - |PopulateImage|;
    if from <= to && url[..|base|] == base && url[|base|..from] == SlugFilter && url[to..] == PopulateImage then
      assert url == url[..|base|] + url[|base|..from] + url[from..to] + url[to..];
      Some(url[from..to])
    else
      None
  }

  /** Building the URL and reading it back gives the slug unchanged. */
  lemma SlugRoundTrip(base: string, slug: string)
    ensures SlugOfUrl(base, PostUrl(base, slug)) == Some(slug)
  {
  }

  /** Different slugs are requested with different URLs. */
  lemma PostUrlInjective(base: string, slug1: string, slug2: string)
    requires PostUrl(base, slug1) == PostUrl(base, slug2)
    ensures slug1 == slug2
  {
    SlugRoundTrip(base, slug1);
    SlugRoundTrip(base, slug2);
  }

  const FetchPostFailed := FetchFailed("Failed to fetch post")
  /** `new Response("Not Found", { status: 404 })`: "Not Found" is the body, the status text stays "". */
  const PostNotFound := NotFound(404, "", "Not Found")

  function Loader(base: string, slug: string, fetch: string -> Response<RawPost>): (r: Result<Post, LoadError>)
    ensures !fetch(PostUrl(base, slug)).ok ==> r == Failure(FetchPostFailed)
    ensures fetch(PostUrl(base, slug)).ok && fetch(PostUrl(base, slug)).data == [] ==> r == Failure(PostNotFound)
    ensures r.Success? <==> fetch(PostUrl(base, slug)).ok && fetch(PostUrl(base, slug)).data != []
    ensures r.Success? ==>
              var first := fetch(PostUrl(base, slug)).data[0];
              && r.value.id == first.id && r.value.slug == first.slug && r.value.title == first.title
              && r.value.body == Some(first.body) && r.value.excerpt == first.excerpt
              && r.value.date == first.date && r.value.image == ImageUrl(first.image)
  {
    var res := fetch(PostUrl(base, slug));
    if !res.ok then Failure(FetchPostFailed)
    else if |res.data| == 0 then Failure(PostNotFound)
    else Success(NormalizePostDetail(res.data[0]))
  }

  /** Only the first record matters: responses that agree on it give the same post. */
  lemma FirstRecordWins(base: string, slug: string, fetch1: string -> Response<RawPost>,
                        fetch2: string -> Response<RawPost>)
    requires fetch1(PostUrl(base, slug)).ok && fetch2(PostUrl(base, slug)).ok
    requires fetch1(PostUrl(base, slug)).data != [] && fetch2(PostUrl(base, slug)).data != []
    requires fetch1(PostUrl(base, slug)).data[0] == fetch2(PostUrl(base, slug)).data[0]
    ensures Loader(base, slug, fetch1) == Loader(base, slug, fetch2)
  {
  }
}
