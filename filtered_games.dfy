/**
  * The list page's filter, search and pagination hook: the games sorted by
  * upper-cased title, narrowed by status and by a search term, and cut into
  * pages of ten, with the current page as state.
  */
module FilteredGames {
  import opened Text
  import opened Seqs
  import opened Listing

  /** `GAMES_PER_PAGE`. */
  const GamesPerPage: nat := 10

  /** The comparator of the sort: the upper-cased titles in code-unit order. */
  function ByUpperTitle(): (Card, Card) -> bool {
    (a: Card, b: Card) => LexLe(Upper(a.title), Upper(b.title))
  }

  lemma ByUpperTitlePreorder()
    ensures TotalPreorder(ByUpperTitle())
  {
    forall a: Card, b: Card ensures ByUpperTitle()(a, b) || ByUpperTitle()(b, a) {
      LexLeTotal(Upper(a.title), Upper(b.title));
    }
    forall a: Card, b: Card, c: Card | ByUpperTitle()(a, b) && ByUpperTitle()(b, c)
      ensures ByUpperTitle()(a, c)
    {
      LexLeTransitive(Upper(a.title), Upper(b.title), Upper(c.title));
    }
  }

  /** The status filter: "all", or the lower-cased status equal to the filter. */
  function HasStatus(statusFilter: string): Card -> bool {
    (g: Card) => statusFilter == "all" || Lower(g.status) == statusFilter
  }

  /** The search: the lower-cased term occurs in the lower-cased title, title id or region. */
  function Matches(searchTerm: string): Card -> bool {
    (g: Card) => Contains(Lower(g.title), Lower(searchTerm)) || Contains(Lower(g.titleId), Lower(searchTerm))
                 || Contains(Lower(g.region), Lower(searchTerm))
  }

  /** `filteredGames`: sort a copy, filter by status unless "all", then search unless the term is blank. */
  function Filtered(games: seq<Card>, statusFilter: string, searchTerm: string): (r: seq<Card>)
    ensures forall g :: g in r ==> g in games && HasStatus(statusFilter)(g)
    ensures Trim(searchTerm) != "" ==> forall g :: g in r ==> Matches(searchTerm)(g)
  {
    var sorted := SortBy(games, ByUpperTitle());
    var statusFiltered := if statusFilter == "all" then sorted else Filter(sorted, HasStatus(statusFilter));
    assert forall g :: g in sorted ==> g in games by {
      forall g | g in sorted ensures g in games {
        assert g in multiset(sorted);
      }
    }
    if Trim(searchTerm) == "" then statusFiltered else Filter(statusFiltered, Matches(searchTerm))
  }

  /** The filtered list is ordered by upper-cased title. */
  lemma FilteredSorted(games: seq<Card>, statusFilter: string, searchTerm: string)
    ensures SortedBy(Filtered(games, statusFilter, searchTerm), ByUpperTitle())
  {
    ByUpperTitlePreorder();
    var sorted := SortBy(games, ByUpperTitle());
    SortBySorted(games, ByUpperTitle());
    var statusFiltered := if statusFilter == "all" then sorted else Filter(sorted, HasStatus(statusFilter));
    if statusFilter != "all" {
      FilterSorted(sorted, ByUpperTitle(), HasStatus(statusFilter));
    }
    if Trim(searchTerm) != "" {
      FilterSorted(statusFiltered, ByUpperTitle(), Matches(searchTerm));
    }
  }

  /** The filtered list holds no game, and no copy of a game, that the input does not. */
  lemma FilteredSubMultiset(games: seq<Card>, statusFilter: string, searchTerm: string)
    ensures multiset(Filtered(games, statusFilter, searchTerm)) <= multiset(games)
  {
    var sorted := SortBy(games, ByUpperTitle());
    var statusFiltered := if statusFilter == "all" then sorted else Filter(sorted, HasStatus(statusFilter));
    if statusFilter != "all" {
      FilterSubMultiset(sorted, HasStatus(statusFilter));
    }
    if Trim(searchTerm) != "" {
      FilterSubMultiset(statusFiltered, Matches(searchTerm));
    }
  }

  /** Every game that passes the status filter and the search is shown. */
  lemma FilteredComplete(games: seq<Card>, statusFilter: string, searchTerm: string, g: Card)
    requires g in games && HasStatus(statusFilter)(g)
    requires Trim(searchTerm) == "" || Matches(searchTerm)(g)
    ensures g in Filtered(games, statusFilter, searchTerm)
  {
    var sorted := SortBy(games, ByUpperTitle());
    assert g in multiset(games);
    assert g in sorted;
  }

  /** With the "all" filter and a blank search the whole list is shown, only reordered. */
  lemma UnfilteredIsPermutation(games: seq<Card>, searchTerm: string)
    requires Trim(searchTerm) == ""
    ensures multiset(Filtered(games, "all", searchTerm)) == multiset(games)
  {
  }

  /** A blank search leaves the status-filtered list as it is. */
  lemma BlankSearchIgnored(games: seq<Card>, statusFilter: string, searchTerm: string)
    requires Trim(searchTerm) == ""
    ensures Filtered(games, statusFilter, searchTerm) == Filtered(games, statusFilter, "")
  {
    assert Trim("") == "";
  }

  /** `useFilteredGames`, with its three state cells. */
  class GameFilter {
    var games: seq<Card>
    var searchTerm: string
    var statusFilter: string
    var currentPage: int

    constructor (games: seq<Card>)
      ensures this.games == games && searchTerm == "" && statusFilter == "all" && currentPage == 1
      ensures Valid()
    {
      this.games := games;
      searchTerm := "";
      statusFilter := "all";
      currentPage := 1;
    }

    function Shown(): seq<Card>
      reads this`games, this`statusFilter, this`searchTerm
    {
      Filtered(games, statusFilter, searchTerm)
    }

    /** `totalPages`: `Math.ceil(filteredGames.length / GAMES_PER_PAGE)`. */
    function TotalPages(): (r: nat)
      reads this`games, this`statusFilter, this`searchTerm
      ensures r * GamesPerPage >= |Shown()|
      ensures r > 0 ==> (r - 1) * GamesPerPage < |Shown()|
    {
      CeilDiv(|Shown()|, GamesPerPage)
    }

    /** `paginatedGames`: the slice of the current page. */
    function Paginated(): (r: seq<Card>)
      reads this
      ensures |r| <= GamesPerPage
      ensures forall g :: g in r ==> g in Shown()
    {
      PageOf(Shown(), currentPage, GamesPerPage)
    }

    /** The page is a real page, or the first page of an empty list. */
    predicate Valid()
      reads this
    {
      0 <= currentPage && (currentPage <= TotalPages() || currentPage == 1)
    }

    /** `setSearchTerm`; a changed term changes `filteredGames`, whose effect returns to page 1. */
    method SetSearchTerm(term: string)
      modifies this
      ensures searchTerm == term && games == old(games) && statusFilter == old(statusFilter)
      ensures currentPage == (if term == old(searchTerm) then old(currentPage) else 1)
      ensures old(Valid()) ==> Valid()
    {
      if term != searchTerm {
        searchTerm := term;
        currentPage := 1;
      }
    }

    /** `setFilterTo`, with the same page reset. */
    method SetFilterTo(filter: string)
      modifies this
      ensures statusFilter == filter && games == old(games) && searchTerm == old(searchTerm)
      ensures currentPage == (if filter == old(statusFilter) then old(currentPage) else 1)
      ensures old(Valid()) ==> Valid()
    {
      if filter != statusFilter {
        statusFilter := filter;
        currentPage := 1;
      }
    }

    /** A new `games` array from the data hook: a new list, so the page returns to 1. */
    method SetGames(games: seq<Card>)
      modifies this
      ensures this.games == games && searchTerm == old(searchTerm) && statusFilter == old(statusFilter)
      ensures currentPage == 1 && Valid()
    {
      this.games := games;
      currentPage := 1;
    }

    /** `paginate(n)`: moves only to a page that exists. */
    method Paginate(n: int)
      modifies this`currentPage
      ensures 1 <= n <= TotalPages() ==> currentPage == n
      ensures !(1 <= n <= TotalPages()) ==> currentPage == old(currentPage)
      ensures old(Valid()) ==> Valid()
    {
      if n >= 1 && n <= TotalPages() {
        currentPage := n;
      }
    }

    /** `nextPage`: `Math.min(prev + 1, totalPages)`. */
    method NextPage()
      modifies this`currentPage
      ensures currentPage == if old(currentPage) + 1 <= TotalPages() then old(currentPage) + 1 else TotalPages()
      ensures currentPage <= TotalPages()
      ensures old(Valid()) ==> Valid()
    {
      currentPage := if currentPage + 1 <= TotalPages() then currentPage + 1 else TotalPages();
    }

    /** `prevPage`: `Math.max(prev - 1, 1)`. */
    method PrevPage()
      modifies this`currentPage
      ensures currentPage == if old(currentPage) - 1 >= 1 then old(currentPage) - 1 else 1
      ensures currentPage >= 1
      ensures old(Valid()) ==> Valid()
    {
      currentPage := if currentPage - 1 >= 1 then currentPage - 1 else 1;
    }
  }

  /** Paging loses nothing: the `i`-th filtered game is on page `i / 10 + 1`, a page `paginate`
      accepts. */
  lemma EveryGameOnAPage(shown: seq<Card>, i: nat)
    requires i < |shown|
    ensures 1 <= i / GamesPerPage + 1 <= CeilDiv(|shown|, GamesPerPage)
    ensures PageOf(shown, i / GamesPerPage + 1, GamesPerPage)[i % GamesPerPage] == shown[i]
  {
    PageLocates(shown, GamesPerPage, i);
  }
}
