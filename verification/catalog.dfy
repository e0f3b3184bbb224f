/**
 * The project catalog: the `Project` record, the search-and-tab filter, the
 * regrouping by category, and what a card and the detail modal show for a
 * project.
 */
module ProjectsCatalog {
  import opened JsValues
  import opened Text
  import opened Seqs

  /** The five category tags a project may carry. */
  datatype Category = Research | Quantitative | Simulations | Quantum | System

  /** The string stored in `project.category` and used as the tab value. */
  function Tag(c: Category): string {
    match c
    case Research => "research"
    case Quantitative => "quantitative"
    case Simulations => "simulations"
    case Quantum => "quantum"
    case System => "system"
  }

  /** The tab value that shows every category. */
  const AllTab: string := "all"

  /** The keys of `categoryLabels`, in declaration order; every grouped view follows it. */
  const CategoryOrder: seq<Category> := [Research, Quantitative, Simulations, Quantum, System]

  /** `categoryLabels[c]`: the heading of a category group and the card badge. */
  function CategoryLabel(c: Category): string {
    match c
    case Research => "Research and Publication"
    case Quantitative => "Quantitative Software"
    case Simulations => "Simulations"
    case Quantum => "Quantum Tools"
    case System => "System"
  }

  /** Distinct categories have distinct tags, and no tag is the "all" tab. */
  lemma TagInjective(c: Category, d: Category)
    ensures Tag(c) == Tag(d) <==> c == d
    ensures Tag(c) != AllTab
  {
  }

  datatype SourceKind = UserProvided | FromWebSearch

  function SourceText(k: SourceKind): string {
    match k
    case UserProvided => "User-provided"
    case FromWebSearch => "From web search results"
  }

  datatype PerformanceStats = PerformanceStats(
    sharpeRatio: Option<string>,
    winRate: Option<string>,
    annualReturn: Option<string>,
    maxDrawdown: Option<string>,
    sortinoRatio: Option<string>,
    alphaGeneration: Option<string>,
    beta: Option<string>,
    riskAdjustedScore: Option<string>)

  /** One catalog entry; the icon is derived from the category and is not modelled. */
  datatype Project = Project(
    id: string,
    name: string,
    description: string,
    category: Category,
    source: SourceKind,
    sourceUrl: Option<string>,
    sourceDomain: Option<string>,
    paperTitle: Option<string>,
    image: string,
    detailImage: Option<string>,
    longDescription: Option<string>,
    technologies: Option<seq<string>>,
    restricted: bool,
    performanceStats: Option<PerformanceStats>)

  // ---------------------------------------------------------------------------
  // Search and category filter
  // ---------------------------------------------------------------------------

  /** Case-insensitive search over the name and the description. */
  predicate MatchesSearch(p: Project, searchTerm: string) {
    Contains(Lower(p.name), Lower(searchTerm)) || Contains(Lower(p.description), Lower(searchTerm))
  }

  predicate MatchesCategory(p: Project, activeCategory: string) {
    activeCategory == AllTab || Tag(p.category) == activeCategory
  }

  predicate Shown(p: Project, searchTerm: string, activeCategory: string) {
    MatchesSearch(p, searchTerm) && MatchesCategory(p, activeCategory)
  }

  /**
   * `filteredProjects`: the catalog entries that match both the search term
   * and the active tab, as an order-preserving subsequence of the catalog.
   */
  function FilteredProjects(projects: seq<Project>, searchTerm: string, activeCategory: string): (r: seq<Project>)
    ensures SubseqOf(r, projects)
    ensures forall p :: p in r <==> p in projects && Shown(p, searchTerm, activeCategory)
    ensures forall i :: 0 <= i < |r| ==> MatchesCategory(r[i], activeCategory)
    ensures forall p :: multiset(r)[p] == if Shown(p, searchTerm, activeCategory) then multiset(projects)[p] else 0
  {
    Filter(projects, (p: Project) => Shown(p, searchTerm, activeCategory))
  }

  /** With an empty search on the "all" tab the whole catalog is shown, in order. */
  lemma EmptySearchShowsAll(projects: seq<Project>)
    ensures FilteredProjects(projects, "", AllTab) == projects
  {
    forall i | 0 <= i < |projects|
      ensures Shown(projects[i], "", AllTab)
    {
      ContainsEmpty(Lower(projects[i].name));
    }
  }

  /** A project passes the search exactly when its lowered name or description includes the lowered term somewhere. */
  lemma MatchesSearchIffOccurs(p: Project, searchTerm: string)
    ensures MatchesSearch(p, searchTerm) <==>
      (exists i :: OccursAt(Lower(p.name), Lower(searchTerm), i))
      || (exists i :: OccursAt(Lower(p.description), Lower(searchTerm), i))
  {
    ContainsIffOccurs(Lower(p.name), Lower(searchTerm));
    ContainsIffOccurs(Lower(p.description), Lower(searchTerm));
  }

  // ---------------------------------------------------------------------------
  // Grouping by category
  // ---------------------------------------------------------------------------

  /**
   * `getProjectsByCategory(category)`: the filtered list itself for "all",
   * otherwise the filtered entries whose tag is `category`.
   */
  function ProjectsByCategory(filtered: seq<Project>, category: string): (r: seq<Project>)
    ensures category == AllTab ==> r == filtered
    ensures category != AllTab ==> forall i :: 0 <= i < |r| ==> Tag(r[i].category) == category
    ensures forall p :: p in r <==> p in filtered && (category == AllTab || Tag(p.category) == category)
    ensures forall p :: multiset(r)[p] == if category == AllTab || Tag(p.category) == category then multiset(filtered)[p] else 0
    ensures SubseqOf(r, filtered)
  {
    Filter(filtered, (p: Project) => category == AllTab || Tag(p.category) == category)
  }

  /** The entries of one concrete category. */
  function OfCategory(filtered: seq<Project>, c: Category): seq<Project> {
    ProjectsByCategory(filtered, Tag(c))
  }

  /** Every filtered entry lands in the list of its own category and in no other. */
  lemma CategoryListsExclusive(filtered: seq<Project>)
    ensures forall p, c: Category :: p in filtered ==> (p in OfCategory(filtered, c) <==> c == p.category)
  {
    forall p, c: Category | p in filtered
      ensures p in OfCategory(filtered, c) <==> c == p.category
    {
      TagInjective(p.category, c);
    }
  }

  /**
   * The five category lists are together exactly as long as the filtered
   * list; with `CategoryListsExclusive` they partition it.
   */
  lemma {:induction false} CategoryListsAddUp(filtered: seq<Project>)
    ensures |filtered| ==
      |OfCategory(filtered, Research)| + |OfCategory(filtered, Quantitative)|
      + |OfCategory(filtered, Simulations)| + |OfCategory(filtered, Quantum)|
      + |OfCategory(filtered, System)|
  {
    if filtered != [] {
      CategoryListsAddUp(filtered[1..]);
      OfCategoryLength(filtered, Research);
      OfCategoryLength(filtered, Quantitative);
      OfCategoryLength(filtered, Simulations);
      OfCategoryLength(filtered, Quantum);
      OfCategoryLength(filtered, System);
    }
  }

  /** The first filtered entry adds one to its own category's list and nothing to the others. */
  lemma OfCategoryLength(filtered: seq<Project>, c: Category)
    requires filtered != []
    ensures |OfCategory(filtered, c)| == (if filtered[0].category == c then 1 else 0) + |OfCategory(filtered[1..], c)|
  {
    assert filtered == [filtered[0]] + filtered[1..];
    OfCategoryCons(filtered[0], filtered[1..], c);
  }

  /** Splitting off the first filtered entry: it goes to its own category's list and nowhere else. */
  lemma OfCategoryCons(x: Project, rest: seq<Project>, c: Category)
    ensures OfCategory([x] + rest, c) == (if x.category == c then [x] else []) + OfCategory(rest, c)
  {
    TagInjective(x.category, c);
    assert ([x] + rest)[1..] == rest;
  }

  /** A category heading of the "All" tab, with the entries listed under it. */
  datatype Group = Group(category: Category, projects: seq<Project>)

  /** The count printed next to a group heading. */
  function GroupCount(g: Group): nat {
    |g.projects|
  }

  function GroupsOf(filtered: seq<Project>, cats: seq<Category>): (gs: seq<Group>)
    ensures forall g :: g in gs ==> g.category in cats
    ensures forall g :: g in gs ==> g.projects == OfCategory(filtered, g.category) && g.projects != []
    ensures forall c :: c in cats && OfCategory(filtered, c) != [] ==> exists g :: g in gs && g.category == c
  {
    if cats == [] then []
    else
      var ps := OfCategory(filtered, cats[0]);
      var rest := GroupsOf(filtered, cats[1..]);
      if ps == [] then rest else [Group(cats[0], ps)] + rest
  }

  /**
   * The "All" tab: one group per category in `categoryLabels` order, skipping
   * the categories whose list is empty.
   */
  function AllTabGroups(filtered: seq<Project>): (gs: seq<Group>)
    ensures forall g :: g in gs ==> g.projects == OfCategory(filtered, g.category) && GroupCount(g) > 0
    ensures forall c: Category :: (exists g :: g in gs && g.category == c) <==> OfCategory(filtered, c) != []
  {
    EveryCategoryListed();
    GroupsOf(filtered, CategoryOrder)
  }

  /** `categoryLabels` has a key for every category. */
  lemma EveryCategoryListed()
    ensures forall c: Category :: c in CategoryOrder
  {
    forall c: Category
      ensures c in CategoryOrder
    {
      match c
      case Research => assert CategoryOrder[0] == c;
      case Quantitative => assert CategoryOrder[1] == c;
      case Simulations => assert CategoryOrder[2] == c;
      case Quantum => assert CategoryOrder[3] == c;
      case System => assert CategoryOrder[4] == c;
    }
  }

  /**
   * A category tab lists the same entries, in the same order, as that
   * category's group on the "All" tab for the same search term.
   */
  lemma TabAgreesWithAllGroup(projects: seq<Project>, searchTerm: string, c: Category)
    ensures ProjectsByCategory(FilteredProjects(projects, searchTerm, Tag(c)), Tag(c))
      == OfCategory(FilteredProjects(projects, searchTerm, AllTab), c)
  {
    assert Tag(c) != AllTab by {
      match c
      case Research =>
      case Quantitative =>
      case Simulations =>
      case Quantum =>
      case System =>
    }
    FilterFilter(projects,
      (p: Project) => Shown(p, searchTerm, AllTab),
      (p: Project) => Tag(c) == AllTab || Tag(p.category) == Tag(c),
      (p: Project) => Shown(p, searchTerm, Tag(c)));
  }

  /** Total of the counts printed on a sequence of group headings. */
  function TotalCount(gs: seq<Group>): nat {
    if gs == [] then 0 else GroupCount(gs[0]) + TotalCount(gs[1..])
  }

  /** The headings of the "All" tab add up to the number of filtered entries. */
  lemma AllTabCountsAddUp(filtered: seq<Project>)
    ensures TotalCount(AllTabGroups(filtered)) == |filtered|
  {
    TotalCountOfGroups(filtered, CategoryOrder);
    SizesInCategoryOrder(filtered);
    CategoryListsAddUp(filtered);
  }

  lemma SizesInCategoryOrder(filtered: seq<Project>)
    ensures CategorySizes(filtered, CategoryOrder) ==
      |OfCategory(filtered, Research)| + |OfCategory(filtered, Quantitative)|
      + |OfCategory(filtered, Simulations)| + |OfCategory(filtered, Quantum)|
      + |OfCategory(filtered, System)|
  {
    var order := CategoryOrder;
    assert order[1..][1..][1..][1..][1..] == [];
    assert CategorySizes(filtered, order[1..][1..][1..][1..]) == |OfCategory(filtered, System)|;
    assert CategorySizes(filtered, order[1..][1..][1..]) ==
      |OfCategory(filtered, Quantum)| + |OfCategory(filtered, System)|;
    assert CategorySizes(filtered, order[1..][1..]) ==
      |OfCategory(filtered, Simulations)| + |OfCategory(filtered, Quantum)| + |OfCategory(filtered, System)|;
  }

  /** The total count of `GroupsOf` is the sum of the category list lengths. */
  function CategorySizes(filtered: seq<Project>, cats: seq<Category>): nat {
    if cats == [] then 0 else |OfCategory(filtered, cats[0])| + CategorySizes(filtered, cats[1..])
  }

  lemma {:induction false} TotalCountOfGroups(filtered: seq<Project>, cats: seq<Category>)
    ensures TotalCount(GroupsOf(filtered, cats)) == CategorySizes(filtered, cats)
  {
    if cats != [] {
      TotalCountOfGroups(filtered, cats[1..]);
      var ps := OfCategory(filtered, cats[0]);
      var rest := GroupsOf(filtered, cats[1..]);
      if ps != [] {
        assert ([Group(cats[0], ps)] + rest)[1..] == rest;
      }
    }
  }

  // ---------------------------------------------------------------------------
  // What a card and the modal show
  // ---------------------------------------------------------------------------

  /** The single label in a card's footer. */
  datatype FooterLabel =
    | PaperFooter                  // "Research Paper"
    | RestrictedFooter             // "Restricted Access"
    | GitHubFooter(url: string)    // "View on GitHub" linking to `url`
    | SourceFooter(text: string)   // "Source: <source>"

  predicate HasGitHubSource(p: Project) {
    Truthy(p.sourceUrl) && p.sourceDomain == Some("GitHub")
  }

  /**
   * The card footer, chosen in priority order: a paper title wins over the
   * restricted flag, which wins over a GitHub source, which wins over the
   * plain source text.
   */
  function CardFooter(p: Project): (f: FooterLabel)
    ensures f.PaperFooter? <==> Truthy(p.paperTitle)
    ensures f.RestrictedFooter? <==> !Truthy(p.paperTitle) && p.restricted
    ensures f.GitHubFooter? <==> !Truthy(p.paperTitle) && !p.restricted && HasGitHubSource(p)
    ensures f.GitHubFooter? ==> Some(f.url) == p.sourceUrl
    ensures f.SourceFooter? ==> f.text == SourceText(p.source)
  {
    if Truthy(p.paperTitle) then PaperFooter
    else if p.restricted then RestrictedFooter
    else if HasGitHubSource(p) then GitHubFooter(p.sourceUrl.value)
    else SourceFooter(SourceText(p.source))
  }

  /** The badges over a card's image; both sit in the same corner. */
  datatype CardBadges = CardBadges(paper: bool, connectToView: bool)

  function Badges(p: Project): CardBadges {
    CardBadges(Truthy(p.paperTitle), p.restricted)
  }

  /** The card body shows the four headline statistics when present, else the description. */
  datatype CardBody = StatsBody(stats: PerformanceStats) | DescriptionBody(text: string)

  function CardBodyOf(p: Project): (b: CardBody)
    ensures b.StatsBody? <==> p.performanceStats.Some?
    ensures b.StatsBody? ==> p.performanceStats == Some(b.stats)
    ensures b.DescriptionBody? ==> b.text == p.description
  {
    match p.performanceStats
    case Some(s) => StatsBody(s)
    case None => DescriptionBody(p.description)
  }

  /** The "Research Paper" block: title, link (`sourceUrl || "#"`), and the domain named in "View on". */
  datatype PaperBlock = PaperBlock(title: string, href: string, domain: Option<string>)

  /** A link to a non-GitHub source, labelled with the domain (or, failing that, the URL's host). */
  datatype OtherLink = OtherLink(url: string, domain: Option<string>)

  /** The "Source" block: the source text, then at most one link. */
  datatype SourceBlock = SourceBlock(text: string, gitHubLink: Option<string>, otherLink: Option<OtherLink>)

  /** Everything the detail modal renders for a selected project. */
  datatype ModalView = ModalView(
    image: string,
    title: string,
    categoryLabel: string,
    restrictedBadge: bool,
    description: string,
    stats: Option<PerformanceStats>,
    technologies: seq<string>,
    paper: Option<PaperBlock>,
    source: Option<SourceBlock>,
    access: bool)

  function SourceBlockOf(p: Project): SourceBlock {
    SourceBlock(
      SourceText(p.source),
      if HasGitHubSource(p) then Some(p.sourceUrl.value) else None,
      if Truthy(p.sourceUrl) && p.sourceDomain != Some("GitHub") && !Truthy(p.paperTitle)
      then Some(OtherLink(p.sourceUrl.value, p.sourceDomain))
      else None)
  }

  /** The technologies block lists `technologies` only when that array is present and non-empty. */
  function TechnologiesShown(p: Project): seq<string> {
    match p.technologies
    case Some(ts) => ts
    case None => []
  }

  /**
   * The modal content for a selected project: the detail image falling back
   * to the card image, the long description falling back to the description,
   * a paper block exactly when there is a paper title, a source block exactly
   * when there is neither a paper title nor a restriction, and an access
   * block exactly when the project is restricted.
   */
  function ModalContent(p: Project): (v: ModalView)
    ensures v.image == (if Truthy(p.detailImage) then p.detailImage.value else p.image)
    ensures v.description == (if Truthy(p.longDescription) then p.longDescription.value else p.description)
    ensures v.paper.Some? <==> Truthy(p.paperTitle)
    ensures v.source.Some? <==> !Truthy(p.paperTitle) && !p.restricted
    ensures v.access <==> p.restricted
    ensures v.source.Some? ==> v.source.value.gitHubLink.None? || v.source.value.otherLink.None?
  {
    ModalView(
      OrElse(p.detailImage, p.image),
      p.name,
      CategoryLabel(p.category),
      p.restricted,
      OrElse(p.longDescription, p.description),
      p.performanceStats,
      TechnologiesShown(p),
      if Truthy(p.paperTitle) then Some(PaperBlock(p.paperTitle.value, OrElse(p.sourceUrl, "#"), p.sourceDomain)) else None,
      if !Truthy(p.paperTitle) && !p.restricted then Some(SourceBlockOf(p)) else None,
      p.restricted)
  }

  /**
   * The card footer and the modal agree: a "Research Paper" footer goes with
   * a paper block and no source block, a "Restricted Access" footer with an
   * access block and no source block, a GitHub footer with a source block
   * whose only link is that GitHub URL, and a plain "Source:" footer with a
   * source block that has no GitHub link.
   */
  lemma FooterAgreesWithModal(p: Project)
    ensures var f, v := CardFooter(p), ModalContent(p);
      && (f.PaperFooter? ==> v.paper.Some? && v.source.None?)
      && (f.RestrictedFooter? ==> v.access && v.source.None?)
      && (f.GitHubFooter? ==> v.source == Some(SourceBlock(SourceText(p.source), Some(f.url), None)))
      && (f.SourceFooter? ==> v.source.Some? && v.source.value.gitHubLink.None? && v.source.value.text == f.text)
      && (v.source.Some? <==> f.GitHubFooter? || f.SourceFooter?)
  {
  }
}
