/** The portfolio catalog: a fixed, read-only list of nine project records,
    the lookup lists offered as filter choices, and the four query helpers
    built on `filter`. */
module PortfolioData {
  import opened Wrappers
  import opened Text
  import opened Filtering

  /** The closed set of release states a project may be in. */
  datatype Status = Live | Growing | Development {
    /** The string the record stores and the filters compare against. */
    function Label(): string {
      match this
      case Live => "Live"
      case Growing => "Growing"
      case Development => "Development"
    }
  }

  /** `rating: string | number`; numeric ratings have one decimal place and
      are kept in tenths (4.8 is `Score(48)`). */
  datatype Rating = Score(tenths: nat) | Phrase(text: string)

  /** Display-formatted marketing figures. */
  datatype Stats = Stats(players: string, revenue: string, rating: Rating)

  /** One portfolio entry. Optional properties are `Option`s. */
  datatype Project = Project(
    id: nat,
    title: string,
    description: string,
    shortDescription: Option<string>,
    platform: string,
    status: Status,
    category: string,
    tags: seq<string>,
    image: string,
    stats: Stats,
    launchDate: string,
    featured: Option<bool>)

  /** The sentinel selector value that imposes no restriction. */
  const All: string := "All"

  /** `portfolioProjects`, in display order. */
  const Catalog: seq<Project> := [
    Project(
      id := 1,
      title := "Galactic Miners",
      description := "Un juego de estrategia y construcción en el espacio donde los jugadores exploran galaxias, extraen recursos y construyen imperios interestelares. Featuring multiplayer masivo y economía player-driven.",
      shortDescription := Some("Estrategia espacial con construcción de imperios y economía player-driven"),
      platform := "PC/Steam",
      status := Live,
      category := "Strategy",
      tags := ["Space", "Mining", "Strategy", "Multiplayer", "Economy"],
      image := "/steve_thinking.png",
      stats := Stats(players := "15K+", revenue := "$2.3M", rating := Score(48)),
      launchDate := "2023-08",
      featured := Some(true)),
    Project(
      id := 2,
      title := "Pixel Legends",
      description := "RPG retro con mecánicas modernas, featuring un sistema de crafting profundo y combate estratégico por turnos. Incluye más de 200 items únicos y 50+ dungeons procedurales.",
      shortDescription := Some("RPG retro con crafting profundo y combate táctico por turnos"),
      platform := "Mobile",
      status := Growing,
      category := "RPG",
      tags := ["Pixel Art", "RPG", "Mobile", "Crafting", "Turn-based"],
      image := "/steve_with_a_alert_icon.png",
      stats := Stats(players := "8.2K", revenue := "$850K", rating := Score(46)),
      launchDate := "2023-11",
      featured := Some(true)),
    Project(
      id := 3,
      title := "Neon Racers",
      description := "Juego de carreras futurista con elementos de personalización extrema y física realista en circuitos cyberpunk. Features 20+ vehículos únicos y sistema de tuning avanzado.",
      shortDescription := Some("Carreras cyberpunk con personalización extrema y física realista"),
      platform := "Console",
      status := Development,
      category := "Racing",
      tags := ["Cyberpunk", "Racing", "Neon", "Physics", "Customization"],
      image := "/steve_showing_with_is_hands.png",
      stats := Stats(players := "Soon", revenue := "TBA", rating := Phrase("N/A")),
      launchDate := "2024-Q2",
      featured := Some(true)),
    Project(
      id := 4,
      title := "Mystic Realms",
      description := "MMORPG de fantasía con mundo abierto, sistema de magia único y mecánicas de guild warfare épicas. Incluye 8 clases jugables y más de 1000 hechizos únicos.",
      shortDescription := Some("MMORPG de fantasía con sistema de magia único y guild warfare"),
      platform := "PC/Mobile",
      status := Live,
      category := "MMORPG",
      tags := ["Fantasy", "Open World", "Magic", "Guild Wars", "Classes"],
      image := "/steve_thinking.png",
      stats := Stats(players := "25K+", revenue := "$4.1M", rating := Score(49)),
      launchDate := "2023-03",
      featured := Some(false)),
    Project(
      id := 5,
      title := "Code Breakers",
      description := "Puzzle game educativo que enseña programación a través de desafíos interactivos y mecánicas de hacking. Covering Python, JavaScript, y conceptos de ciberseguridad.",
      shortDescription := Some("Puzzle educativo que enseña programación y hacking ético"),
      platform := "Web/Educational",
      status := Growing,
      category := "Educational",
      tags := ["Programming", "Puzzle", "Education", "Hacking", "Python"],
      image := "/steve_with_a_alert_icon.png",
      stats := Stats(players := "12K", revenue := "$650K", rating := Score(47)),
      launchDate := "2023-09",
      featured := Some(false)),
    Project(
      id := 6,
      title := "Arena Champions",
      description := "Battle royale táctico con elementos MOBA, featuring 100 jugadores en combates estratégicos intensos. Includes unique champion abilities y ranked competitive play.",
      shortDescription := Some("Battle royale táctico con elementos MOBA y habilidades únicas"),
      platform := "PC/Console",
      status := Development,
      category := "Battle Royale",
      tags := ["Battle Royale", "MOBA", "Tactical", "100 Players", "Competitive"],
      image := "/steve_showing_with_is_hands.png",
      stats := Stats(players := "Beta Soon", revenue := "TBA", rating := Phrase("N/A")),
      launchDate := "2024-Q3",
      featured := Some(false)),
    Project(
      id := 7,
      title := "Crystal Defenders",
      description := "Tower defense con mecánicas RPG donde players controlan heroes únicos mientras defienden cristales mágicos. Features co-op multiplayer y progression system profundo.",
      shortDescription := Some("Tower defense con heroes RPG y elementos cooperativos"),
      platform := "Mobile/PC",
      status := Live,
      category := "Tower Defense",
      tags := ["Tower Defense", "RPG", "Co-op", "Heroes", "Magic"],
      image := "/steve_thinking.png",
      stats := Stats(players := "18K", revenue := "$1.2M", rating := Score(45)),
      launchDate := "2023-06",
      featured := Some(false)),
    Project(
      id := 8,
      title := "Void Explorers",
      description := "Roguelike espacial con narrativa procedural donde cada run cuenta una historia única. Features ship customization y discovery of ancient alien artifacts.",
      shortDescription := Some("Roguelike espacial con narrativa procedural y artefactos alienígenas"),
      platform := "PC/Steam",
      status := Growing,
      category := "Roguelike",
      tags := ["Roguelike", "Space", "Procedural", "Narrative", "Exploration"],
      image := "/steve_with_a_alert_icon.png",
      stats := Stats(players := "6.8K", revenue := "$420K", rating := Score(44)),
      launchDate := "2023-12",
      featured := Some(false)),
    Project(
      id := 9,
      title := "Farming Legends",
      description := "Simulador de granja con elementos de gestión de recursos y construcción de comunidad. Players pueden crear granjas únicas y comerciar con otros jugadores globalmente.",
      shortDescription := Some("Simulador de granja con gestión de recursos y trading global"),
      platform := "Mobile/Switch",
      status := Development,
      category := "Simulation",
      tags := ["Farming", "Simulation", "Trading", "Community", "Resource Management"],
      image := "/steve_showing_with_is_hands.png",
      stats := Stats(players := "Coming Soon", revenue := "TBA", rating := Phrase("N/A")),
      launchDate := "2024-Q1",
      featured := Some(false))
  ]

  /** The choices offered by the category, status and platform selectors. */
  const Categories: seq<string> := ["All", "Strategy", "RPG", "Racing", "MMORPG", "Educational", "Battle Royale", "Tower Defense", "Roguelike", "Simulation"]
  const Statuses: seq<string> := ["All", "Live", "Growing", "Development"]
  const Platforms: seq<string> := ["All", "PC/Steam", "Mobile", "Console", "PC/Mobile", "Web/Educational", "PC/Console", "Mobile/PC", "Mobile/Switch"]

  /** `project.featured` is truthy; an absent flag counts as false. */
  predicate IsFeatured(p: Project) {
    p.featured == Some(true)
  }

  /** `project.category === category`. */
  predicate HasCategory(p: Project, category: string) {
    p.category == category
  }

  /** `project.status === status`: the record's status compared as a string. */
  predicate HasStatus(p: Project, status: string) {
    p.status.Label() == status
  }

  /** The free-text match of `searchProjects`, given the already lower-cased
      term: the term is included in the lower-cased title, description, any
      single tag, or category. */
  predicate SearchMatch(p: Project, term: string) {
    Contains(Lower(p.title), term) ||
    Contains(Lower(p.description), term) ||
    (exists i :: 0 <= i < |p.tags| && Contains(Lower(p.tags[i]), term)) ||
    Contains(Lower(p.category), term)
  }

  /** The callbacks handed to `filter` by the query helpers. */
  function CategoryIs(category: string): Project -> bool {
    p => HasCategory(p, category)
  }

  function StatusIs(status: string): Project -> bool {
    p => HasStatus(p, status)
  }

  function MatchesTerm(term: string): Project -> bool {
    p => SearchMatch(p, term)
  }

  /** `getFeaturedProjects()`: the featured records, in catalog order. */
  function GetFeaturedProjects(projects: seq<Project>): (r: seq<Project>)
    ensures IsSubsequence(r, projects) && |r| <= |projects|
    ensures forall p :: p in r <==> p in projects && IsFeatured(p)
  {
    Filter(projects, IsFeatured)
  }

  /** `getProjectsByCategory(category)`: the whole catalog for `All`,
      otherwise the records whose category is exactly `category`. */
  function GetProjectsByCategory(projects: seq<Project>, category: string): (r: seq<Project>)
    ensures IsSubsequence(r, projects) && |r| <= |projects|
    ensures category == All ==> r == projects
    ensures category != All ==> forall p :: p in r <==> p in projects && HasCategory(p, category)
  {
    if category == All then SubsequenceOfSelf(projects); projects else Filter(projects, CategoryIs(category))
  }

  /** `getProjectsByStatus(status)`: the whole catalog for `All`, otherwise
      the records whose status is exactly `status`. */
  function GetProjectsByStatus(projects: seq<Project>, status: string): (r: seq<Project>)
    ensures IsSubsequence(r, projects) && |r| <= |projects|
    ensures status == All ==> r == projects
    ensures status != All ==> forall p :: p in r <==> p in projects && HasStatus(p, status)
  {
    if status == All then SubsequenceOfSelf(projects); projects else Filter(projects, StatusIs(status))
  }

  /** `searchProjects(searchTerm)`: the records the lower-cased term
      matches. */
  function SearchProjects(projects: seq<Project>, searchTerm: string): (r: seq<Project>)
    ensures IsSubsequence(r, projects) && |r| <= |projects|
    ensures forall p :: p in r <==> p in projects && SearchMatch(p, Lower(searchTerm))
  {
    Filter(projects, MatchesTerm(Lower(searchTerm)))
  }

  /** The ids of a list of records, in order. */
  function Ids(s: seq<Project>): (r: seq<nat>)
    ensures |r| == |s| && forall i :: 0 <= i < |s| ==> r[i] == s[i].id
  {
    if s == [] then [] else [s[0].id] + Ids(s[1..])
  }

  /** A category that no record carries selects nothing: an empty result,
      not an error. */
  lemma UnknownCategoryIsEmpty(projects: seq<Project>, category: string)
    requires category != All
    requires forall i :: 0 <= i < |projects| ==> projects[i].category != category
    ensures GetProjectsByCategory(projects, category) == []
  {
    FilterKeepsNone(projects, CategoryIs(category));
  }

  /** A status that no record carries selects nothing. */
  lemma UnknownStatusIsEmpty(projects: seq<Project>, status: string)
    requires status != All
    requires forall i :: 0 <= i < |projects| ==> projects[i].status.Label() != status
    ensures GetProjectsByStatus(projects, status) == []
  {
    FilterKeepsNone(projects, StatusIs(status));
  }

  /** An empty search term matches every record, since every string
      includes the empty string. */
  lemma SearchEmptyIsCatalog(projects: seq<Project>)
    ensures SearchProjects(projects, "") == projects
  {
    forall i | 0 <= i < |projects| ensures MatchesTerm(Lower(""))(projects[i]) {
      ContainsEmpty(Lower(projects[i].title));
    }
    FilterKeepsAll(projects, MatchesTerm(Lower("")));
  }

  /** Searching is case-insensitive: a term and its upper-case spelling
      give the same list. */
  lemma SearchIgnoresCase(projects: seq<Project>, term: string)
    ensures SearchProjects(projects, Upper(term)) == SearchProjects(projects, term)
  {
    LowerOfUpper(term);
  }

  /** A term included in a single tag of a record (ignoring case) finds that
      record, whatever its title, description and category say. */
  lemma SearchFindsByTag(projects: seq<Project>, term: string, p: Project, i: int)
    requires p in projects && 0 <= i < |p.tags|
    requires Contains(Lower(p.tags[i]), Lower(term))
    ensures p in SearchProjects(projects, term)
  {
  }

  /** The fixture holds nine records numbered 1 to 9 in display order. */
  lemma CatalogIds()
    ensures |Catalog| == 9
    ensures forall i :: 0 <= i < |Catalog| ==> Catalog[i].id == i + 1
  {
  }

  /** No record occurs twice in the catalog. */
  lemma CatalogDistinct()
    ensures Distinct(Catalog)
  {
    CatalogIds();
  }

  /** The category list is the sentinel followed by the records' own
      categories, one per record and in display order. */
  lemma CatalogCategoriesListed()
    ensures |Categories| == |Catalog| + 1 && Categories[0] == All
    ensures forall i :: 0 <= i < |Catalog| ==> Catalog[i].category == Categories[i + 1]
  {
  }

  /** The status list is the sentinel followed by the label of every
      status, so every record's status is one of the selector's choices. */
  lemma StatusesListed(status: Status)
    ensures |Statuses| == 4 && Statuses[0] == All
    ensures status.Label() in Statuses[1..]
  {
  }

  /** Every platform in the fixture is one of the platform selector's
      choices after `All` (the eighth record repeats the first one's). */
  lemma CatalogPlatformsListed()
    ensures |Platforms| == 9 && Platforms[0] == All
    ensures forall i :: 0 <= i < |Catalog| ==>
      Catalog[i].platform == Platforms[if i == 7 then 1 else if i == 8 then 8 else i + 1]
  {
  }

  /** Only the first three records are flagged as featured. */
  lemma CatalogFeaturedFlags()
    ensures forall i :: 0 <= i < |Catalog| ==> (IsFeatured(Catalog[i]) <==> i in [0, 1, 2])
  {
  }

  /** In any nine-record list numbered 1 to 9 whose first three records
      alone are featured, featuring selects those three. */
  lemma FeaturedOfFlags(projects: seq<Project>)
    requires |projects| == 9 && forall i :: 0 <= i < |projects| ==> projects[i].id == i + 1
    requires forall i :: 0 <= i < |projects| ==> (IsFeatured(projects[i]) <==> i in [0, 1, 2])
    ensures GetFeaturedProjects(projects) == Pick(projects, [0, 1, 2])
    ensures Ids(GetFeaturedProjects(projects)) == [1, 2, 3]
  {
    FilterAtIndices(projects, IsFeatured, [0, 1, 2]);
  }

  /** Featuring selects the first three records, ids 1, 2 and 3. */
  lemma FeaturedAreFirstThree()
    ensures GetFeaturedProjects(Catalog) == Pick(Catalog, [0, 1, 2])
    ensures Ids(GetFeaturedProjects(Catalog)) == [1, 2, 3]
  {
    CatalogIds();
    CatalogFeaturedFlags();
    FeaturedOfFlags(Catalog);
  }

  /** Records 3, 6 and 9 are the ones in development. */
  lemma CatalogDevelopmentFlags()
    ensures forall i :: 0 <= i < |Catalog| ==> (StatusIs("Development")(Catalog[i]) <==> i in [2, 5, 8])
  {
  }

  /** In any nine-record list numbered 1 to 9 whose every third record
      alone is in development, that status selects those three. */
  lemma DevelopmentOfFlags(projects: seq<Project>)
    requires |projects| == 9 && forall i :: 0 <= i < |projects| ==> projects[i].id == i + 1
    requires forall i :: 0 <= i < |projects| ==> (StatusIs("Development")(projects[i]) <==> i in [2, 5, 8])
    ensures GetProjectsByStatus(projects, "Development") == Pick(projects, [2, 5, 8])
    ensures Ids(GetProjectsByStatus(projects, "Development")) == [3, 6, 9]
  {
    FilterAtIndices(projects, StatusIs("Development"), [2, 5, 8]);
  }

  /** Selecting the status `Development` gives the third, sixth and ninth
      records, ids 3, 6 and 9. */
  lemma DevelopmentAreEveryThird()
    ensures GetProjectsByStatus(Catalog, "Development") == Pick(Catalog, [2, 5, 8])
    ensures Ids(GetProjectsByStatus(Catalog, "Development")) == [3, 6, 9]
  {
    CatalogIds();
    CatalogDevelopmentFlags();
    DevelopmentOfFlags(Catalog);
  }

  /** Any string outside the category list, such as "NonexistentCategory",
      selects nothing. */
  lemma UnlistedCategoryIsEmpty(category: string)
    requires category !in Categories
    ensures GetProjectsByCategory(Catalog, category) == []
  {
    CatalogCategoriesListed();
    UnknownCategoryIsEmpty(Catalog, category);
  }
}
