/** The portfolio browsing page: a free-text box and three selectors narrow
    the catalog, the search term is mirrored in the URL's `search`
    parameter, and a button clears every restriction. */
module PortfolioPage {
  import opened Wrappers
  import opened Text
  import opened Filtering
  import opened PortfolioData

  /** The page's text test: an empty term matches everything; otherwise
      the lower-cased term must be included in the lower-cased title,
      description or one tag. Unlike `searchProjects`, the category is not
      searched. */
  predicate TextMatch(p: Project, term: string) {
    term == "" ||
    Contains(Lower(p.title), Lower(term)) ||
    Contains(Lower(p.description), Lower(term)) ||
    (exists i :: 0 <= i < |p.tags| && Contains(Lower(p.tags[i]), Lower(term)))
  }

  /** A selector set to `All` accepts every value; any other choice accepts
      exactly that (case-sensitive) value. */
  predicate SelectorAccepts(selected: string, value: string) {
    selected == All || value == selected
  }

  /** The four conjuncts of the page's filter callback. */
  predicate PageMatch(p: Project, term: string, category: string, status: string, platform: string) {
    TextMatch(p, term) &&
    SelectorAccepts(category, p.category) &&
    SelectorAccepts(status, p.status.Label()) &&
    SelectorAccepts(platform, p.platform)
  }

  function TextFilter(term: string): Project -> bool {
    p => TextMatch(p, term)
  }

  function CategoryFilter(category: string): Project -> bool {
    (p: Project) => SelectorAccepts(category, p.category)
  }

  function StatusFilter(status: string): Project -> bool {
    (p: Project) => SelectorAccepts(status, p.status.Label())
  }

  function PlatformFilter(platform: string): Project -> bool {
    (p: Project) => SelectorAccepts(platform, p.platform)
  }

  function PageFilter(term: string, category: string, status: string, platform: string): Project -> bool {
    p => PageMatch(p, term, category, status, platform)
  }

  /** `filteredProjects`: the records passing all four tests, in catalog
      order. */
  function FilteredProjects(projects: seq<Project>, term: string, category: string, status: string, platform: string): (r: seq<Project>)
    ensures IsSubsequence(r, projects) && |r| <= |projects|
    ensures forall p :: p in r <==>
      p in projects && TextMatch(p, term) && SelectorAccepts(category, p.category) &&
      SelectorAccepts(status, p.status.Label()) && SelectorAccepts(platform, p.platform)
  {
    Filter(projects, PageFilter(term, category, status, platform))
  }

  /** Applying the four tests one after another, as separate filters, gives
      the same list as the combined callback. */
  lemma FilteredIsChainOfFilters(projects: seq<Project>, term: string, category: string, status: string, platform: string)
    ensures FilteredProjects(projects, term, category, status, platform) ==
      Filter(Filter(Filter(Filter(projects, TextFilter(term)), CategoryFilter(category)), StatusFilter(status)), PlatformFilter(platform))
  {
    var t, c, s, pl := TextFilter(term), CategoryFilter(category), StatusFilter(status), PlatformFilter(platform);
    var tc := (p: Project) => t(p) && c(p);
    var tcs := (p: Project) => tc(p) && s(p);
    FilterTwice(projects, t, c, tc);
    FilterTwice(projects, tc, s, tcs);
    FilterTwice(projects, tcs, pl, PageFilter(term, category, status, platform));
  }

  /** With an empty term and every selector at `All`, the page lists the
      whole catalog. */
  lemma UnrestrictedIsCatalog(projects: seq<Project>)
    ensures FilteredProjects(projects, "", All, All, All) == projects
  {
    FilterKeepsAll(projects, PageFilter("", All, All, All));
  }

  /** With no term and only the category selector set, the page agrees with
      `getProjectsByCategory`. */
  lemma CategoryOnlyIsByCategory(projects: seq<Project>, category: string)
    ensures FilteredProjects(projects, "", category, All, All) == GetProjectsByCategory(projects, category)
  {
    if category == All {
      UnrestrictedIsCatalog(projects);
    } else {
      FilterAgreeing(projects, PageFilter("", category, All, All), CategoryIs(category));
    }
  }

  /** With no term and only the status selector set, the page agrees with
      `getProjectsByStatus`. */
  lemma StatusOnlyIsByStatus(projects: seq<Project>, status: string)
    ensures FilteredProjects(projects, "", All, status, All) == GetProjectsByStatus(projects, status)
  {
    if status == All {
      UnrestrictedIsCatalog(projects);
    } else {
      FilterAgreeing(projects, PageFilter("", All, status, All), StatusIs(status));
    }
  }

  /** Whatever the page's text test accepts, `searchProjects`' test accepts
      too. */
  lemma TextMatchImpliesSearchMatch(p: Project, term: string)
    ensures TextMatch(p, term) ==> SearchMatch(p, Lower(term))
  {
    if term == "" {
      ContainsEmpty(Lower(p.title));
    }
  }

  /** So the page's list is `searchProjects`' list narrowed further by the
      same callback. */
  lemma FilteredNarrowsSearch(projects: seq<Project>, term: string, category: string, status: string, platform: string)
    ensures FilteredProjects(projects, term, category, status, platform) ==
      Filter(SearchProjects(projects, term), PageFilter(term, category, status, platform))
  {
    var page := PageFilter(term, category, status, platform);
    forall p ensures page(p) == (MatchesTerm(Lower(term))(p) && page(p)) {
      TextMatchImpliesSearchMatch(p, term);
    }
    FilterTwice(projects, MatchesTerm(Lower(term)), page, page);
  }

  /** A record whose category alone carries the term. */
  const CategoryOnlyRecord: Project :=
    Project(0, "", "", None, "", Live, "Puzzle", [], "", Stats("", "", Score(0)), "", None)

  /** The converse fails: `searchProjects` finds a record by its category,
      which the page's text box does not search. */
  lemma SearchMatchNotImpliesTextMatch()
    ensures SearchMatch(CategoryOnlyRecord, Lower("Puzzle"))
    ensures !TextMatch(CategoryOnlyRecord, "Puzzle")
  {
    var p := CategoryOnlyRecord;
    assert Contains(Lower(p.category), Lower("Puzzle"));
    if Contains(Lower(p.title), Lower("Puzzle")) {
      ContainsShorter(Lower(p.title), Lower("Puzzle"));
    }
    if Contains(Lower(p.description), Lower("Puzzle")) {
      ContainsShorter(Lower(p.description), Lower("Puzzle"));
    }
  }

  /** The heading's plural ending: `s` unless exactly one record is
      listed. */
  function PluralSuffix(count: nat): (r: string)
    ensures r == "" <==> count == 1
    ensures r != "" ==> r == "s"
  {
    if count != 1 then "s" else ""
  }

  /** The words of the results heading after the count. */
  function ResultsHeading(count: nat): (r: string)
    ensures r == "Proyecto Encontrado" <==> count == 1
    ensures count != 1 ==> r == "Proyectos Encontrados"
  {
    "Proyecto" + PluralSuffix(count) + " Encontrado" + PluralSuffix(count)
  }

  /** The initial search term: the URL's `search` parameter, or the empty
      string when it is absent. */
  function InitialTerm(params: map<string, string>): (r: string)
    ensures "search" in params ==> r == params["search"]
    ensures "search" !in params ==> r == ""
  {
    if "search" in params then params["search"] else ""
  }

  /** The URL parameters `handleSearch(value)` installs: `search=value` for
      a non-empty value, none otherwise. */
  function ParamsForSearch(value: string): (r: map<string, string>)
    ensures value != "" ==> r.Keys == {"search"} && r["search"] == value
    ensures value == "" ==> r == map[]
  {
    if value != "" then map["search" := value] else map[]
  }

  /** The URL effect: a present, non-empty `search` parameter replaces the
      term; otherwise the term is kept. */
  function TermAfterSync(params: map<string, string>, term: string): (r: string)
    ensures r == term || ("search" in params && params["search"] != "" && r == params["search"])
    ensures "search" in params && params["search"] != "" ==> r == params["search"]
  {
    if "search" in params && params["search"] != "" then params["search"] else term
  }

  /** The effect that runs after `handleSearch(value)` changed the URL
      leaves the term `value` in place, including when `value` is empty and
      the parameters were cleared. */
  lemma SyncAfterSearchKeepsTerm(value: string)
    ensures TermAfterSync(ParamsForSearch(value), value) == value
  {
  }

  /** The effect's first run does not change the initial term. */
  lemma InitialTermIsSynced(params: map<string, string>)
    ensures TermAfterSync(params, InitialTerm(params)) == InitialTerm(params)
  {
  }

  /** Running the effect twice on the same parameters is running it once. */
  lemma SyncIdempotent(params: map<string, string>, term: string)
    ensures TermAfterSync(params, TermAfterSync(params, term)) == TermAfterSync(params, term)
  {
  }

  /** A search from the site header or the hero box opens the page with
      `search` set to the trimmed, non-empty query; the effect then makes
      that query the term, whatever the term was before. */
  lemma NavigatedSearchBecomesTerm(query: string, term: string)
    requires query != ""
    ensures TermAfterSync(map["search" := query], term) == query
  {
  }

  /** A URL without a `search` parameter, or with an empty one, does not
      clear the term: the effect keeps whatever the box held. */
  lemma NavigationWithoutSearchKeepsTerm(params: map<string, string>, term: string)
    requires "search" !in params || params["search"] == ""
    ensures TermAfterSync(params, term) == term
  {
  }

  /** The page's state: the search term, the three selectors and the URL's
      query parameters. The catalog it filters is fixed for its lifetime. */
  class Page {
    const projects: seq<Project>
    var searchTerm: string
    var selectedCategory: string
    var selectedStatus: string
    var selectedPlatform: string
    var searchParams: map<string, string>

    /** The list the page renders for its current state. */
    function Filtered(): (r: seq<Project>)
      reads this
      ensures IsSubsequence(r, projects)
      ensures forall p :: p in r <==>
        p in projects && PageMatch(p, searchTerm, selectedCategory, selectedStatus, selectedPlatform)
    {
      FilteredProjects(projects, searchTerm, selectedCategory, selectedStatus, selectedPlatform)
    }

    /** Mounting the page with the given URL parameters: the term comes from
        the URL and every selector starts at `All`. */
    constructor (projects: seq<Project>, params: map<string, string>)
      ensures this.projects == projects && searchParams == params
      ensures searchTerm == InitialTerm(params)
      ensures selectedCategory == All && selectedStatus == All && selectedPlatform == All
    {
      this.projects := projects;
      searchParams := params;
      searchTerm := InitialTerm(params);
      selectedCategory := All;
      selectedStatus := All;
      selectedPlatform := All;
    }

    /** `handleSearch(value)`: typing in the search box. */
    method HandleSearch(value: string)
      modifies this
      ensures searchTerm == value && searchParams == ParamsForSearch(value)
      ensures value != "" ==> "search" in searchParams && searchParams["search"] == value
      ensures value == "" ==> searchParams == map[]
      ensures selectedCategory == old(selectedCategory) && selectedStatus == old(selectedStatus)
      ensures selectedPlatform == old(selectedPlatform)
    {
      searchTerm := value;
      searchParams := ParamsForSearch(value);
    }

    /** The effect that runs whenever the URL parameters change. */
    method SyncFromUrl()
      modifies this
      ensures searchTerm == TermAfterSync(searchParams, old(searchTerm))
      ensures "search" !in searchParams || searchParams["search"] == "" ==> searchTerm == old(searchTerm)
      ensures searchParams == old(searchParams)
      ensures selectedCategory == old(selectedCategory) && selectedStatus == old(selectedStatus)
      ensures selectedPlatform == old(selectedPlatform)
    {
      if "search" in searchParams && searchParams["search"] != "" {
        searchTerm := searchParams["search"];
      }
    }

    /** The URL changes from outside the page, as when the header or hero
        search navigates to `/portfolio?search=…`; the effect then runs on
        the new parameters. */
    method Navigate(params: map<string, string>)
      modifies this
      ensures searchParams == params
      ensures searchTerm == TermAfterSync(params, old(searchTerm))
      ensures "search" in params && params["search"] != "" ==> searchTerm == params["search"]
      ensures selectedCategory == old(selectedCategory) && selectedStatus == old(selectedStatus)
      ensures selectedPlatform == old(selectedPlatform)
    {
      searchParams := params;
      SyncFromUrl();
    }

    /** Choosing a category. */
    method SelectCategory(category: string)
      modifies this
      ensures selectedCategory == category
      ensures searchTerm == old(searchTerm) && searchParams == old(searchParams)
      ensures selectedStatus == old(selectedStatus) && selectedPlatform == old(selectedPlatform)
    {
      selectedCategory := category;
    }

    /** Choosing a status. */
    method SelectStatus(status: string)
      modifies this
      ensures selectedStatus == status
      ensures searchTerm == old(searchTerm) && searchParams == old(searchParams)
      ensures selectedCategory == old(selectedCategory) && selectedPlatform == old(selectedPlatform)
    {
      selectedStatus := status;
    }

    /** Choosing a platform. */
    method SelectPlatform(platform: string)
      modifies this
      ensures selectedPlatform == platform
      ensures searchTerm == old(searchTerm) && searchParams == old(searchParams)
      ensures selectedCategory == old(selectedCategory) && selectedStatus == old(selectedStatus)
    {
      selectedPlatform := platform;
    }

    /** The "clear filters" button: every restriction and the URL
        parameters are dropped, so the whole catalog is listed again. */
    method ClearFilters()
      modifies this
      ensures searchTerm == "" && searchParams == map[]
      ensures selectedCategory == All && selectedStatus == All && selectedPlatform == All
      ensures Filtered() == projects
    {
      searchTerm := "";
      selectedCategory := All;
      selectedStatus := All;
      selectedPlatform := All;
      searchParams := map[];
      UnrestrictedIsCatalog(projects);
    }
  }
}
