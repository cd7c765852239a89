/**
  The derived view of the projects page: the category buttons, the filtered
  list, the page count and the projects on the current page. All of it is
  recomputed from the fetched projects and the two pieces of UI state on
  every render, so it is modelled as functions; the state itself lives in
  `ProjectsRoute.ProjectsPage`.
 */
module Listing {
  import opened Cms

  /** The synthetic category that stands for "no filter". */
  const AllCategories := "All"

  /** Fixed page size of the projects grid. */
  const ProjectsPerPage: nat := 6

  function Min(a: int, b: int): int
  {
    if a <= b then a else b
  }

  predicate NoDuplicates<T(==)>(xs: seq<T>)
  {
    forall i, j :: 0 <= i < j < |xs| ==> xs[i] != xs[j]
  }

  // ---------------------------------------------------------------------------
  // Category buttons
  // ---------------------------------------------------------------------------

  /**
    `[...new Set(xs)]`: a JavaScript Set keeps insertion order and ignores
    re-insertions, so each element appears once, where it was first seen.
   */
  function Distinct<T(==)>(xs: seq<T>): (ds: seq<T>)
    ensures forall i :: 0 <= i < |ds| ==> ds[i] in xs
    ensures forall i :: 0 <= i < |xs| ==> xs[i] in ds
    ensures NoDuplicates(ds)
    ensures |ds| <= |xs|
  {
    if xs == [] then []
    else
      var init, x := xs[..|xs| - 1], xs[|xs| - 1];
      assert xs == init + [x];
      var d := Distinct(init);
      if x in d then d else d + [x]
  }

  /** Whenever `ds[j]` occurs in `xs`, every earlier `ds[i]` has already occurred before it. */
  ghost predicate FirstSeenOrder<T>(ds: seq<T>, xs: seq<T>)
  {
    forall i, j, k :: 0 <= i < j < |ds| && 0 <= k < |xs| && xs[k] == ds[j] ==> ds[i] in xs[..k]
  }

  lemma {:induction false} DistinctKeepsFirstSeenOrder<T>(xs: seq<T>)
    ensures FirstSeenOrder(Distinct(xs), xs)
  {
    if xs != [] {
      var init, x := xs[..|xs| - 1], xs[|xs| - 1];
      DistinctKeepsFirstSeenOrder(init);
      var d := Distinct(init);
      var ds := Distinct(xs);
      assert ds == if x in d then d else d + [x];
      forall i, j, k | 0 <= i < j < |ds| && 0 <= k < |xs| && xs[k] == ds[j]
        ensures ds[i] in xs[..k]
      {
        assert xs[..k] == init[..k] || k == |init|;
        if k < |init| {
          assert init[k] == xs[k];
          if j < |d| {
            assert d[i] in init[..k];
            assert init[..k] == xs[..k];
          } else {
            assert false;
          }
        } else if x in d {
          assert x in init;
          var k' :| 0 <= k' < |init| && init[k'] == x;
          assert d[i] in init[..k'];
          assert init[..k'] == xs[..k'];
          assert xs[..k'] <= xs[..k];
        } else {
          assert ds[i] == d[i] && d[i] in init;
          assert xs[..k] == init;
        }
      }
    }
  }

  /** `projects.map((p) => p.category)` */
  function CategoriesOf(projects: seq<Project>): (cs: seq<string>)
    ensures |cs| == |projects|
    ensures forall i :: 0 <= i < |projects| ==> cs[i] == projects[i].category
  {
    seq(|projects|, i requires 0 <= i < |projects| => projects[i].category)
  }

  /** The category buttons: the sentinel, then each project category once. */
  function Categories(projects: seq<Project>): (cs: seq<string>)
    ensures |cs| >= 1 && cs[0] == AllCategories
    ensures forall c :: c in cs[1..] <==> exists p :: p in projects && p.category == c
    ensures NoDuplicates(cs[1..])
    ensures (forall p :: p in projects ==> p.category != AllCategories) ==> NoDuplicates(cs)
  {
    var cs := [AllCategories] + Distinct(CategoriesOf(projects));
    assert cs[1..] == Distinct(CategoriesOf(projects));
    forall c | c in cs[1..] ensures exists p :: p in projects && p.category == c {
      var i :| 0 <= i < |projects| && CategoriesOf(projects)[i] == c;
      assert projects[i] in projects;
    }
    forall p | p in projects ensures p.category in cs[1..] {
      var i :| 0 <= i < |projects| && projects[i] == p;
      assert CategoriesOf(projects)[i] == p.category;
    }
    cs
  }

  /** After the sentinel, the categories appear in the order of their first project. */
  lemma CategoriesInFirstSeenOrder(projects: seq<Project>)
    ensures FirstSeenOrder(Categories(projects)[1..], CategoriesOf(projects))
  {
    DistinctKeepsFirstSeenOrder(CategoriesOf(projects));
  }

  // ---------------------------------------------------------------------------
  // Filtering
  // ---------------------------------------------------------------------------

  /** `projects.filter((p) => p.category === category)` */
  function FilterByCategory(projects: seq<Project>, category: string): (r: seq<Project>)
    ensures |r| <= |projects|
  {
    if projects == [] then []
    else
      (if projects[0].category == category then [projects[0]] else [])
        + FilterByCategory(projects[1..], category)
  }

  /** Exactly the projects of the given category pass the filter. */
  lemma {:induction false} FilterMembership(projects: seq<Project>, category: string)
    ensures forall p :: p in FilterByCategory(projects, category) <==> p in projects && p.category == category
  {
    if projects != [] {
      FilterMembership(projects[1..], category);
      assert projects == [projects[0]] + projects[1..];
    }
  }

  /** `a` can be obtained from `b` by deleting elements, keeping the rest in order. */
  predicate IsSubsequence<T(==)>(a: seq<T>, b: seq<T>)
  {
    if a == [] then true
    else if b == [] then false
    else if a[0] == b[0] then IsSubsequence(a[1..], b[1..])
    else IsSubsequence(a, b[1..])
  }

  /** The filtered list keeps the matching projects in their original order. */
  lemma {:induction false} FilterIsSubsequence(projects: seq<Project>, category: string)
    ensures IsSubsequence(FilterByCategory(projects, category), projects)
  {
    if projects != [] {
      var rest := FilterByCategory(projects[1..], category);
      FilterIsSubsequence(projects[1..], category);
      if projects[0].category == category {
        var r := [projects[0]] + rest;
        assert r[1..] == rest;
      } else if rest != [] {
        FilterMembership(projects[1..], category);
        assert FilterByCategory(projects, category) == rest;
        assert rest[0] in rest;
        assert rest[0] != projects[0];
      }
    }
  }

  /** Each matching project is kept exactly as often as it occurs; nothing else is kept. */
  lemma {:induction false} FilterCounts(projects: seq<Project>, category: string)
    ensures forall p :: multiset(FilterByCategory(projects, category))[p]
                        == if p.category == category then multiset(projects)[p] else 0
  {
    if projects != [] {
      FilterCounts(projects[1..], category);
      assert projects == [projects[0]] + projects[1..];
      assert multiset(projects) == multiset([projects[0]]) + multiset(projects[1..]);
    }
  }

  /** Filtering distributes over concatenation. */
  lemma {:induction false} FilterAppend(a: seq<Project>, b: seq<Project>, category: string)
    ensures FilterByCategory(a + b, category) == FilterByCategory(a, category) + FilterByCategory(b, category)
  {
    if a == [] {
      assert a + b == b;
    } else {
      var head := if a[0].category == category then [a[0]] else [];
      var ra, rb := FilterByCategory(a[1..], category), FilterByCategory(b, category);
      calc {
        FilterByCategory(a + b, category);
        { assert (a + b)[0] == a[0] && (a + b)[1..] == a[1..] + b; }
        head + FilterByCategory(a[1..] + b, category);
        { FilterAppend(a[1..], b, category); }
        head + (ra + rb);
        { assert head + (ra + rb) == (head + ra) + rb; }
        (head + ra) + rb;
      }
    }
  }

  /** `filteredProjects`: everything for the sentinel, else the matching projects. */
  function Filtered(projects: seq<Project>, selected: string): (r: seq<Project>)
    ensures selected == AllCategories ==> r == projects
    ensures selected != AllCategories ==> r == FilterByCategory(projects, selected)
    ensures selected != AllCategories ==> forall p :: p in r <==> p in projects && p.category == selected
  {
    if selected == AllCategories then projects
    else
      FilterMembership(projects, selected);
      FilterByCategory(projects, selected)
  }

  // ---------------------------------------------------------------------------
  // Pagination
  // ---------------------------------------------------------------------------

  /** `Math.ceil(n / projectsPerPage)` */
  function TotalPages(n: nat): (t: nat)
    ensures n <= t * ProjectsPerPage
    ensures t > 0 ==> (t - 1) * ProjectsPerPage < n
    ensures t == 0 <==> n == 0
  {
    (n + ProjectsPerPage - 1) / ProjectsPerPage
  }

  /** How `Array.prototype.slice` reads an index: negative counts back from the end, then clamp. */
  function SliceIndex(i: int, len: nat): (k: nat)
    ensures k <= len
  {
    if i < 0 then (if len + i < 0 then 0 else len + i)
    else if i > len then len
    else i
  }

  /** `s.slice(start, end)` */
  function Slice<T>(s: seq<T>, start: int, end: int): seq<T>
  {
    var b, e := SliceIndex(start, |s|), SliceIndex(end, |s|);
    if b < e then s[b..e] else []
  }

  /** `currentProjects`: the slice `[(page - 1) * 6, page * 6)` of the filtered list. */
  function Page<T>(s: seq<T>, page: int): (r: seq<T>)
    ensures |r| <= ProjectsPerPage
    ensures page >= 1 ==> r == s[Min((page - 1) * ProjectsPerPage, |s|)..Min(page * ProjectsPerPage, |s|)]
    ensures page == 0 || page > TotalPages(|s|) ==> r == []
  {
    var indexOfLast := page * ProjectsPerPage;
    var indexOfFirst := indexOfLast - ProjectsPerPage;
    Slice(s, indexOfFirst, indexOfLast)
  }

  /** Pages `from` to `to` of `s`, concatenated in order. */
  function PagesFrom<T>(s: seq<T>, from: nat, to: nat): seq<T>
    decreases to - from + 1
  {
    if from > to then [] else Page(s, from) + PagesFrom(s, from + 1, to)
  }

  lemma {:induction false} PagesFromIsSuffix<T>(s: seq<T>, from: nat)
    requires 1 <= from <= TotalPages(|s|) + 1
    ensures PagesFrom(s, from, TotalPages(|s|)) == s[Min((from - 1) * ProjectsPerPage, |s|)..]
    decreases TotalPages(|s|) + 1 - from
  {
    if from <= TotalPages(|s|) {
      PagesFromIsSuffix(s, from + 1);
      var a, b := Min((from - 1) * ProjectsPerPage, |s|), Min(from * ProjectsPerPage, |s|);
      assert s[a..b] + s[b..] == s[a..];
    }
  }

  /** Pages 1 to `TotalPages` together give back the filtered list: no gap, no overlap. */
  lemma PagesPartition<T>(s: seq<T>)
    ensures PagesFrom(s, 1, TotalPages(|s|)) == s
  {
    PagesFromIsSuffix(s, 1);
  }

  /** Every page before the last is full; the last holds between one and six items. */
  lemma PageSizes<T>(s: seq<T>, page: int)
    requires 1 <= page <= TotalPages(|s|)
    ensures page < TotalPages(|s|) ==> |Page(s, page)| == ProjectsPerPage
    ensures page == TotalPages(|s|) ==> 1 <= |Page(s, page)| <= ProjectsPerPage
  {
  }

  /** `totalPages > 1`: the pagination control is shown only with more than one page of items. */
  function ShowsPagination<T>(filtered: seq<T>): (shown: bool)
    ensures shown <==> |filtered| > ProjectsPerPage
  {
    TotalPages(|filtered|) > 1
  }

  /** Every category button selects at least one project, shown on the first page. */
  lemma CategoryButtonsSelectSomething(projects: seq<Project>, c: string)
    requires c in Categories(projects)[1..]
    ensures Filtered(projects, c) != []
    ensures TotalPages(|Filtered(projects, c)|) >= 1 && Page(Filtered(projects, c), 1) != []
  {
  }
}
