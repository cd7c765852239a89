/**
  The projects page: its loader, which fetches every project and normalises
  it, and the page component, whose two pieces of UI state (the selected
  category and the current page) are the fields of `ProjectsPage`.
 */
module ProjectsRoute {
  import opened Wrappers
  import opened Cms
  import Listing

  /** The one request the loader issues. */
  function ProjectsUrl(base: string): (url: string)
    ensures |base| <= |url| && url[..|base|] == base && url[|base|..] == "/projects?populate=*"
  {
    base + "/projects?populate=*"
  }

  const FetchProjectsFailed := FetchFailed("Failed to fetch projects")

  /** Fails on a non-OK response; otherwise every raw project becomes one `Project`, in order. */
  function Loader(base: string, fetch: string -> Response<RawProject>): (r: Result<seq<Project>, LoadError>)
    ensures r.Failure? <==> !fetch(ProjectsUrl(base)).ok
    ensures r.Failure? ==> r.error == FetchProjectsFailed
    ensures r.Success? ==> |r.value| == |fetch(ProjectsUrl(base)).data|
    ensures r.Success? ==> forall i :: 0 <= i < |r.value| ==>
              r.value[i] == NormalizeProject(fetch(ProjectsUrl(base)).data[i])
  {
    var res := fetch(ProjectsUrl(base));
    if !res.ok then Failure(FetchProjectsFailed) else Success(NormalizeProjects(res.data))
  }

  /** The mounted page: the loaded projects and the two state hooks. */
  class ProjectsPage {
    const projects: seq<Project>
    var selectedCategory: string
    var currentPage: int

    /** `useState("All")` and `useState(1)` */
    constructor (projects: seq<Project>)
      ensures this.projects == projects
      ensures selectedCategory == Listing.AllCategories && currentPage == 1
    {
      this.projects := projects;
      selectedCategory := Listing.AllCategories;
      currentPage := 1;
    }

    function Categories(): seq<string>
      reads this
    {
      Listing.Categories(projects)
    }

    function FilteredProjects(): seq<Project>
      reads this
    {
      Listing.Filtered(projects, selectedCategory)
    }

    function TotalPages(): nat
      reads this
    {
      Listing.TotalPages(|FilteredProjects()|)
    }

    function CurrentProjects(): seq<Project>
      reads this
    {
      Listing.Page(FilteredProjects(), currentPage)
    }

    predicate ShowsPagination()
      reads this
    {
      Listing.ShowsPagination(FilteredProjects())
    }

    /** The category button's click handler: select the category and go back to page 1. */
    method SelectCategory(cat: string)
      modifies this
      ensures selectedCategory == cat && currentPage == 1
      ensures FilteredProjects() == Listing.Filtered(projects, cat)
      ensures CurrentProjects() == FilteredProjects()[..Listing.Min(Listing.ProjectsPerPage, |FilteredProjects()|)]
      ensures Categories() == old(Categories())
    {
      selectedCategory := cat;
      currentPage := 1;
    }

    /** `onPageChange`: move to another page of the same filtered list. */
    method ChangePage(page: int)
      modifies this
      ensures currentPage == page && selectedCategory == old(selectedCategory)
      ensures FilteredProjects() == old(FilteredProjects()) && TotalPages() == old(TotalPages())
      ensures Categories() == old(Categories())
    {
      currentPage := page;
    }
  }

  /** Unfolding the filter over one list element at a time. */
  lemma FilterStep(ps: seq<Project>, k: nat, category: string)
    requires k < |ps|
    ensures Listing.FilterByCategory(ps[k..], category)
            == (if ps[k].category == category then [ps[k]] else []) + Listing.FilterByCategory(ps[k + 1..], category)
  {
  }

  /** Eight projects: "Mobile" at positions 1, 4 and 6, "Web" everywhere else. */
  predicate WebAndMobile(ps: seq<Project>)
  {
    |ps| == 8 &&
    forall i :: 0 <= i < 8 ==> ps[i].category == if i == 1 || i == 4 || i == 6 then "Mobile" else "Web"
  }

  lemma WebAndMobileFilter(ps: seq<Project>)
    requires WebAndMobile(ps)
    ensures Listing.Filtered(ps, "Mobile") == [ps[1], ps[4], ps[6]]
  {
    var m := "Mobile";
    assert Listing.FilterByCategory(ps[8..], m) == [];
    assert Listing.FilterByCategory(ps[7..], m) == [] by { FilterStep(ps, 7, m); }
    assert Listing.FilterByCategory(ps[6..], m) == [ps[6]] by { FilterStep(ps, 6, m); }
    assert Listing.FilterByCategory(ps[5..], m) == [ps[6]] by { FilterStep(ps, 5, m); }
    assert Listing.FilterByCategory(ps[4..], m) == [ps[4], ps[6]] by { FilterStep(ps, 4, m); }
    assert Listing.FilterByCategory(ps[3..], m) == [ps[4], ps[6]] by { FilterStep(ps, 3, m); }
    assert Listing.FilterByCategory(ps[2..], m) == [ps[4], ps[6]] by { FilterStep(ps, 2, m); }
    assert Listing.FilterByCategory(ps[1..], m) == [ps[1], ps[4], ps[6]] by { FilterStep(ps, 1, m); }
    assert Listing.FilterByCategory(ps[0..], m) == [ps[1], ps[4], ps[6]] by { FilterStep(ps, 0, m); }
    assert ps[0..] == ps;
    assert m[0] != Listing.AllCategories[0];
  }

  /**
    Five "Web" and three "Mobile" projects: "Mobile" fits on one page; going
    back to "All" resets to page 1 of two, the second holding two projects.
   */
  method WebAndMobileScenario(ps: seq<Project>)
    requires WebAndMobile(ps)
  {
    var mobile := [ps[1], ps[4], ps[6]];
    assert Listing.TotalPages(|mobile|) == 1 && Listing.Page(mobile, 1) == mobile;
    assert Listing.TotalPages(|ps|) == 2 && Listing.Page(ps, 2) == ps[6..];
    var page := new ProjectsPage(ps);
    page.ChangePage(2);
    page.SelectCategory("Mobile");
    assert page.FilteredProjects() == mobile by { WebAndMobileFilter(ps); }
    assert page.currentPage == 1 && page.TotalPages() == 1 && page.CurrentProjects() == mobile;
    assert !page.ShowsPagination();
    page.SelectCategory(Listing.AllCategories);
    assert page.FilteredProjects() == ps;
    assert page.currentPage == 1 && page.TotalPages() == 2 && page.ShowsPagination();
    page.ChangePage(2);
    assert page.CurrentProjects() == ps[6..];
  }
}
