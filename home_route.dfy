/**
  The home page loader: the featured projects and the three latest posts are
  fetched together, and the page loads only when both responses are OK.
 */
module HomeRoute {
  import opened Wrappers
  import opened Cms
  import ProjectsRoute

  datatype HomeData = HomeData(projects: seq<Project>, posts: seq<Post>)

  function FeaturedProjectsUrl(base: string): (url: string)
    ensures |base| <= |url| && url[..|base|] == base && url[|base|..] == "/projects?filters[featured][$eq]=true&populate=*"
  {
    base + "/projects?filters[featured][$eq]=true&populate=*"
  }

  function LatestPostsUrl(base: string): (url: string)
    ensures |base| <= |url| && url[..|base|] == base && url[|base|..] == "/posts?sort[0]=date:desc&pagination[limit]=3&populate=image"
  {
    base + "/posts?sort[0]=date:desc&pagination[limit]=3&populate=image"
  }

  const FetchHomeFailed := FetchFailed("Failed to fetch projects or posts")

  /**
    Both lists or nothing: a non-OK response on either side fails the whole
    load; otherwise both are normalised record by record, in order.
   */
  function Loader(base: string, fetchProjects: string -> Response<RawProject>,
                  fetchPosts: string -> Response<RawPost>): (r: Result<HomeData, LoadError>)
    ensures r.Success? <==> fetchProjects(FeaturedProjectsUrl(base)).ok && fetchPosts(LatestPostsUrl(base)).ok
    ensures r.Failure? ==> r.error == FetchHomeFailed
    ensures r.Success? ==>
              var raws := fetchProjects(FeaturedProjectsUrl(base)).data;
              |r.value.projects| == |raws| &&
              forall i :: 0 <= i < |raws| ==> r.value.projects[i] == NormalizeProject(raws[i])
    ensures r.Success? ==>
              var raws := fetchPosts(LatestPostsUrl(base)).data;
              |r.value.posts| == |raws| &&
              forall i :: 0 <= i < |raws| ==> r.value.posts[i] == NormalizePost(raws[i])
  {
    var projectsRes := fetchProjects(FeaturedProjectsUrl(base));
    var postsRes := fetchPosts(LatestPostsUrl(base));
    if !projectsRes.ok || !postsRes.ok then
      Failure(FetchHomeFailed)
    else
      Success(HomeData(NormalizeProjects(projectsRes.data), NormalizePosts(postsRes.data)))
  }

  /**
    The home page and the projects page normalise the same CMS records into
    the same projects. The two source maps are textually identical, so the
    model uses one function for both.
   */
  lemma SameProjectsAsListing(base: string, fetchProjects: string -> Response<RawProject>,
                              fetchPosts: string -> Response<RawPost>, fetchAll: string -> Response<RawProject>)
    requires Loader(base, fetchProjects, fetchPosts).Success?
    requires fetchAll(ProjectsRoute.ProjectsUrl(base)) == fetchProjects(FeaturedProjectsUrl(base))
    ensures ProjectsRoute.Loader(base, fetchAll).Success?
    ensures ProjectsRoute.Loader(base, fetchAll).value == Loader(base, fetchProjects, fetchPosts).value.projects
  {
  }
}
