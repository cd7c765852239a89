# Portfolio frontend: data derivation around the CMS fetches

This project models, in Dafny, the client-side logic of a portfolio website
whose pages load projects and blog posts from a headless CMS:

- **Record normalisation** (module `Cms`): a raw CMS project or post is
  mapped to the record the page renders. Fields are copied one to one, and
  the image becomes `image.url` when that is present and non-empty, else the
  placeholder `/images/no-image.png`. One shared mapping serves all three
  loaders.
- **Projects page** (modules `Listing` and `ProjectsRoute`): the loader
  fetches every project. The page keeps two pieces of UI state, the
  selected category and the current page, as the fields of the class
  `ProjectsPage`. The view is derived from them on every render: the
  category buttons (`"All"`, then each category once, in first-seen order),
  the filtered list, the page count `ceil(n / 6)`, the six projects of the
  current page, and whether the pagination control is shown.
- **Home page** (module `HomeRoute`): the featured projects and the latest
  three posts are requested together. The load succeeds only when both
  responses are OK.
- **Blog post detail** (module `BlogDetailsRoute`): the request is filtered
  by the slug, spliced into the URL verbatim. A non-OK response is a fetch
  error. An empty result is a 404 Not Found. Otherwise the first record
  becomes the detail post.

HTTP is abstracted: a loader receives the base API URL and a function
`fetch: string -> Response<T>` standing for the CMS. A `Response` holds only
the `ok` flag and the `data` records of the JSON envelope. A thrown error
becomes `Failure(FetchFailed(message))`, and the thrown 404 response
becomes `Failure(NotFound(404, "", "Not Found"))`: status 404, the default
empty status text, and the body `"Not Found"`.

The page window is the source's `slice((p - 1) * 6, p * 6)` with
JavaScript's `slice` semantics, negative indices included. Nothing in the
page validates the number `onPageChange` receives, so the model accepts any
integer page.

Each loader fails with its own message, and the model keeps all three as
`FetchFailed` values. Nothing in the code stops a CMS category from being
`"All"`. If one is, it appears twice among the buttons, and selecting it
shows every project. `Listing.Categories` therefore promises that the
category list has no duplicates only when no project carries that category.

## Model

| member | source | states |
|---|---|---|
| `Cms.ImageUrl` | app/routes/home/index.tsx:51 | the image URL is never empty; it is the raw `image.url` when the relation and its URL are present and non-empty, else exactly the placeholder path |
| `Cms.NormalizeProject` | app/routes/projects/index.tsx:21-31 | `id`, `documentId`, `title`, `description`, `url`, `date`, `category` and `featured` are copied unchanged; the image follows the placeholder rule and is never empty |
| `Cms.NormalizePost` | app/routes/home/index.tsx:58-65 | `id`, `slug`, `title`, `excerpt` and `date` are copied, there is no body, and the image follows the placeholder rule |
| `Cms.NormalizePostDetail` | app/routes/blog/details.tsx:27-35 | the listing form of the same record plus its body: same fields, same image rule |
| `Cms.NormalizeProjects` | app/routes/home/index.tsx:46-56 | one project per raw record, same length and order, each the normalisation of the raw record at the same index, every image non-empty |
| `Cms.NormalizePosts` | app/routes/home/index.tsx:58-65 | one post per raw record, same length and order, no body, every image non-empty |
| `Listing.Distinct` | app/routes/projects/index.tsx:44 | `[...new Set(xs)]` holds every element of `xs`, nothing else, and no element twice |
| `Listing.DistinctKeepsFirstSeenOrder` | app/routes/projects/index.tsx:44 | the distinct elements appear in the order of their first occurrence in `xs` |
| `Listing.Categories` | app/routes/projects/index.tsx:44 | the list starts with `"All"`; the rest are exactly the project categories, each once; with no project in category `"All"`, the whole list is free of duplicates |
| `Listing.CategoriesInFirstSeenOrder` | app/routes/projects/index.tsx:44 | after `"All"`, categories are ordered by the first project carrying each |
| `Listing.FilterByCategory` | app/routes/projects/index.tsx:50 | the filtered list is never longer than the input |
| `Listing.FilterMembership` | app/routes/projects/index.tsx:50 | a project is in the filtered list exactly when it is in the input and has the selected category |
| `Listing.FilterIsSubsequence` | app/routes/projects/index.tsx:50 | the filtered list is a subsequence of the input: input order is kept |
| `Listing.FilterCounts` | app/routes/projects/index.tsx:50 | each matching project is kept as often as it occurs in the input; no other project is kept |
| `Listing.FilterAppend` | app/routes/projects/index.tsx:50 | filtering a concatenation filters each part and concatenates the results |
| `Listing.Filtered` | app/routes/projects/index.tsx:47-50 | with `"All"` selected the list is the input itself (same length, same order); otherwise it is `FilterByCategory` of the selection, so it holds exactly the projects of the selected category, in input order and with their multiplicities |
| `Listing.TotalPages` | app/routes/projects/index.tsx:53 | the page count is the ceiling of `n / 6`: six times it covers `n`, one page fewer does not, and it is 0 exactly for an empty list |
| `Listing.Page` | app/routes/projects/index.tsx:56-58 | a page holds at most six items; page `p >= 1` is `filtered[(p-1)*6 .. min(p*6, n)]`; page 0 and pages past the last are empty |
| `Listing.PagesFromIsSuffix` | app/routes/projects/index.tsx:56-58 | pages `p` through the last, concatenated, are the filtered list from index `(p-1)*6` on |
| `Listing.PagesPartition` | app/routes/projects/index.tsx:53-58 | pages 1 through `totalPages`, concatenated, reproduce the filtered list with no gap and no overlap |
| `Listing.PageSizes` | app/routes/projects/index.tsx:53-58 | every page before the last holds exactly six items; the last holds one to six |
| `Listing.ShowsPagination` | app/routes/projects/index.tsx:94 | the pagination control is shown exactly when the filtered list has more than six items (more than one page) |
| `Listing.CategoryButtonsSelectSomething` | app/routes/projects/index.tsx:44-58 | clicking any category button other than `"All"` selects at least one project, shown on page 1 |
| `ProjectsRoute.ProjectsUrl` | app/routes/projects/index.tsx:12 | the request URL is the base followed by exactly `/projects?populate=*` |
| `ProjectsRoute.Loader` | app/routes/projects/index.tsx:8-34 | a non-OK response to `{base}/projects?populate=*` fails with the fetch error; otherwise the result is the normalised records, one per raw record, in order |
| `ProjectsRoute.ProjectsPage.constructor` | app/routes/projects/index.tsx:37-39 | the page starts with category `"All"` and page 1 |
| `ProjectsRoute.ProjectsPage.SelectCategory` | app/routes/projects/index.tsx:68-72 | clicking a category selects it and sets the page to 1 whatever it was; the current projects become the first six of the new filtered list; the category buttons do not change |
| `ProjectsRoute.ProjectsPage.ChangePage` | app/routes/projects/index.tsx:98 | a page change sets the page and leaves the category, the filtered list and the page count unchanged |
| `ProjectsRoute.WebAndMobileFilter` | app/routes/projects/index.tsx:47-50 | for eight projects with "Mobile" at positions 1, 4 and 6 and "Web" elsewhere (one fixed arrangement), selecting "Mobile" gives exactly those three projects, in order |
| `HomeRoute.FeaturedProjectsUrl` | app/routes/home/index.tsx:27-31 | the request URL is the base followed by exactly `/projects?filters[featured][$eq]=true&populate=*` |
| `HomeRoute.LatestPostsUrl` | app/routes/home/index.tsx:32-36 | the request URL is the base followed by exactly `/posts?sort[0]=date:desc&pagination[limit]=3&populate=image` |
| `HomeRoute.Loader` | app/routes/home/index.tsx:23-68 | the load succeeds exactly when both the featured-projects and the latest-posts responses are OK; on failure no partial result is returned; on success each list is its raw data normalised record by record, in order |
| `HomeRoute.SameProjectsAsListing` | app/routes/home/index.tsx:46-56 | the home page and the projects page turn the same CMS records into the same projects |
| `BlogDetailsRoute.PostUrl` | app/routes/blog/details.tsx:9-13 | the request URL is the base, then exactly `/posts?filters[slug][$eq]=`, then the slug unchanged, then exactly `&populate=image`, and nothing else |
| `BlogDetailsRoute.SlugOfUrl` | app/routes/blog/details.tsx:9-13 | a slug read back from a URL rebuilds that exact URL |
| `BlogDetailsRoute.SlugRoundTrip` | app/routes/blog/details.tsx:9-13 | the URL is the base, the slug filter, the slug unchanged, then `&populate=image`: reading it back gives the slug |
| `BlogDetailsRoute.PostUrlInjective` | app/routes/blog/details.tsx:9-13 | different slugs are requested with different URLs |
| `BlogDetailsRoute.Loader` | app/routes/blog/details.tsx:6-38 | a non-OK response is the fetch error, whatever the data; an OK response with no record is the 404 response with body "Not Found" and empty status text; otherwise the post is the first record's fields, its body and the image placeholder rule |
| `BlogDetailsRoute.FirstRecordWins` | app/routes/blog/details.tsx:25 | records after the first are ignored: two responses that agree on the first record give the same post |

## Left out

- HTTP itself (`fetch`, `res.json()`, `Promise.all`) and `import.meta.env.VITE_API_URL` are not modelled. The CMS is a function parameter and the base URL a string parameter. The home loader's two concurrent requests are modelled as two independent lookups.
- React rendering, JSX, class names, animation (`AnimatePresence`, `motion`), `Link`, the highlight of the selected button and the `meta` tags are presentation only.
- `new Date(post.date).toLocaleDateString()` is not modelled: it depends on the locale and the clock.
- `ReactMarkdown` is imported but not used.
- `FeaturedProjects` has no logic to model. It renders every project it is given, and its `count` filter is commented out.
- The `Pagination`, `ProjectCard`, `LatestPosts` and `AboutPreview` components are not part of this model. In particular, the model does not assume which page numbers `Pagination` passes to `onPageChange`.
- `Listing.TotalPages` is the exact integer ceiling. `Math.ceil` on floating point agrees with it for every list length a page can hold.
- The slug is spliced into the URL as it is, as in the code. URL encoding and a missing `slug` parameter are not modelled.
- The `ProjectsRoute.ProjectsPage` view functions (`Categories`, `FilteredProjects`, `TotalPages`, `CurrentProjects`, `ShowsPagination`) delegate to the `Listing` functions. Their properties are stated and proved there.
- Record identifiers are unbounded integers, and strings are character sequences with no encoding.
