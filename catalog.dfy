/**
 * The catalog component's page pipeline: which list is shown, how many
 * pages it has, which slice a page holds, how the slice is sorted, and
 * which page numbers the pagination bar renders as buttons or ellipses.
 */
module Catalog {
  import opened Wrappers
  import opened Schema
  import Seqs
  import Sorting

  const ItemsPerPage := 6

  function Min(a: int, b: int): int { if a < b then a else b }

  /**
   * `displayedTools`: the search results while the search query is
   * non-empty (a truthy string), the category list otherwise.
   */
  function DisplayedTools(searchQuery: string, searchResults: Option<seq<Tool>>,
                          allTools: Option<seq<Tool>>): (r: Option<seq<Tool>>)
    ensures searchQuery != "" ==> r == searchResults
    ensures searchQuery == "" ==> r == allTools
  {
    if searchQuery != "" then searchResults else allTools
  }

  /** The page count of `n` tools: the least `r` with `6 * r >= n`. */
  function PageCount(n: nat): (r: nat)
    ensures r * ItemsPerPage >= n
    ensures r == 0 || (r - 1) * ItemsPerPage < n
    ensures r == 0 <==> n == 0
  {
    (n + ItemsPerPage - 1) / ItemsPerPage
  }

  /** `totalPages`: 0 while the list is not loaded. */
  function TotalPages(displayed: Option<seq<Tool>>): (r: nat)
    ensures displayed.None? ==> r == 0
    ensures displayed.Some? ==> r == PageCount(|displayed.value|)
  {
    if displayed.None? then 0 else PageCount(|displayed.value|)
  }

  /**
   * The slice `list.slice((page - 1) * 6, page * 6)`: for page 1 on it is
   * the tools at positions `(page - 1) * 6` up to, not including,
   * `page * 6`, cut at the end of the list.
   */
  function Page(list: seq<Tool>, page: int): (r: seq<Tool>)
    ensures |r| <= ItemsPerPage
    ensures page >= 1 ==> r == list[Min((page - 1) * ItemsPerPage, |list|)..Min(page * ItemsPerPage, |list|)]
    ensures page > PageCount(|list|) ==> r == []
  {
    var r := Seqs.Slice(list, (page - 1) * ItemsPerPage, page * ItemsPerPage);
    assert page >= 1 ==> r == list[Min((page - 1) * ItemsPerPage, |list|)..Min(page * ItemsPerPage, |list|)];
    r
  }

  /** `paginatedTools`: the current page of the shown list, undefined while it is. */
  function PaginatedTools(displayed: Option<seq<Tool>>, currentPage: int): (r: Option<seq<Tool>>)
    ensures r.None? <==> displayed.None?
    ensures r.Some? ==> r.value == Page(displayed.value, currentPage)
  {
    match displayed
    case None => None
    case Some(list) => Some(Page(list, currentPage))
  }

  /** Pages `1 .. k`, one after the other. */
  function Pages(list: seq<Tool>, k: nat): seq<Tool>
  {
    if k == 0 then [] else Pages(list, k - 1) + Page(list, k)
  }

  /** The first `k` pages are the first `6 * k` tools. */
  lemma {:induction false} PagesPrefix(list: seq<Tool>, k: nat)
    ensures Pages(list, k) == list[..Min(k * ItemsPerPage, |list|)]
  {
    if k > 0 {
      PagesPrefix(list, k - 1);
      var a := Min((k - 1) * ItemsPerPage, |list|);
      var b := Min(k * ItemsPerPage, |list|);
      assert list[..a] + list[a..b] == list[..b];
    }
  }

  /** Pages `1 .. totalPages` together give back the whole list, in order. */
  lemma PagesCoverList(list: seq<Tool>)
    ensures Pages(list, PageCount(|list|)) == list
  {
    PagesPrefix(list, PageCount(|list|));
  }

  /** The "popularity" score: the rating plus 100 for a popular tool. */
  function PopularityScore(t: Tool): int
  {
    t.rating + (if t.isPopular then 100 else 0)
  }

  /**
   * The key each `sortBy` value sorts by, largest first. "newest" compares
   * the parsed `updatedAt` time, given as `timeOf`; "a-z" compares names
   * by their locale order, given as `nameRank`; every other value,
   * "popularity" included, uses the popularity score.
   */
  function SortKey(sortBy: string, timeOf: string -> int, nameRank: string -> int): Tool -> int
  {
    if sortBy == "rating" then (t: Tool) => t.rating
    else if sortBy == "newest" then (t: Tool) => timeOf(t.updatedAt)
    else if sortBy == "a-z" then (t: Tool) => -nameRank(t.name)
    else (t: Tool) => PopularityScore(t)
  }

  /**
   * `sortTools(tools)`: `[]` for an undefined list, otherwise a stable
   * sort of a copy (the argument is a value and stays as it was).
   */
  method SortTools(tools: Option<seq<Tool>>, sortBy: string,
                   timeOf: string -> int, nameRank: string -> int) returns (r: seq<Tool>)
    ensures tools.None? ==> r == []
    ensures tools.Some? ==> r == Sorting.StableSort(tools.value, SortKey(sortBy, timeOf, nameRank))
  {
    if tools.None? {
      return [];
    }
    r := Sorting.SortCopy(tools.value, SortKey(sortBy, timeOf, nameRank));
  }

  /**
   * What each `sortBy` value promises about the sorted list: a permutation
   * of the input, ordered by rating for "rating", by time for "newest",
   * by name for "a-z", and by popularity score for everything else; tools
   * with equal keys keep their order.
   */
  lemma SortToolsOrder(tools: seq<Tool>, sortBy: string, timeOf: string -> int, nameRank: string -> int)
    ensures var r := Sorting.StableSort(tools, SortKey(sortBy, timeOf, nameRank));
      && multiset(r) == multiset(tools)
      && (sortBy == "rating" ==> forall i, j :: 0 <= i < j < |r| ==> r[i].rating >= r[j].rating)
      && (sortBy == "newest" ==> forall i, j :: 0 <= i < j < |r| ==> timeOf(r[i].updatedAt) >= timeOf(r[j].updatedAt))
      && (sortBy == "a-z" ==> forall i, j :: 0 <= i < j < |r| ==> nameRank(r[i].name) <= nameRank(r[j].name))
      && (sortBy != "rating" && sortBy != "newest" && sortBy != "a-z" ==>
            forall i, j :: 0 <= i < j < |r| ==> PopularityScore(r[i]) >= PopularityScore(r[j]))
  {
    var key := SortKey(sortBy, timeOf, nameRank);
    Sorting.StableSortSorted(tools, key);
    Sorting.StableSortPermutes(tools, key);
  }

  /**
   * The list the component renders, as written: the current page is cut
   * first and only that page is sorted.
   */
  function RenderedTools(displayed: Option<seq<Tool>>, currentPage: int, sortBy: string,
                         timeOf: string -> int, nameRank: string -> int): (r: seq<Tool>)
    ensures displayed.None? ==> r == []
    ensures |r| <= ItemsPerPage
  {
    match PaginatedTools(displayed, currentPage)
    case None => []
    case Some(page) => Sorting.StableSort(page, SortKey(sortBy, timeOf, nameRank))
  }

  /**
   * Because the page is cut before sorting, the tools on a page do not
   * depend on `sortBy`: the rendered list is a reordering of the slice.
   */
  lemma RenderedIsPageReordered(list: seq<Tool>, currentPage: int, sortBy: string,
                                timeOf: string -> int, nameRank: string -> int)
    ensures multiset(RenderedTools(Some(list), currentPage, sortBy, timeOf, nameRank))
         == multiset(Page(list, currentPage))
  {
    Sorting.StableSortPermutes(Page(list, currentPage), SortKey(sortBy, timeOf, nameRank));
  }

  /** A listing tool with the given name, rating and popularity; other fields fixed. */
  function Sample(id: int, name: string, rating: int, isPopular: bool): Tool
  {
    Tool(id, name, "", "text", "", rating, [], [], [], false, isPopular, None, None, "brain", "blue", "")
  }

  /**
   * Sorting by rating after cutting the page: with six 1.0-rated tools
   * followed by one 5.0-rated tool, page 1 under "rating" does not show
   * the best-rated tool at all.
   */
  lemma SortAfterPaginationHidesBest(timeOf: string -> int, nameRank: string -> int)
    ensures var list := [Sample(1, "A", 100, false), Sample(2, "B", 100, false), Sample(3, "C", 100, false),
                         Sample(4, "D", 100, false), Sample(5, "E", 100, false), Sample(6, "F", 100, false),
                         Sample(7, "G", 500, false)];
      && (exists t :: t in list && t.rating == 500)
      && forall t :: t in RenderedTools(Some(list), 1, "rating", timeOf, nameRank) ==> t.rating != 500
  {
    var list := [Sample(1, "A", 100, false), Sample(2, "B", 100, false), Sample(3, "C", 100, false),
                 Sample(4, "D", 100, false), Sample(5, "E", 100, false), Sample(6, "F", 100, false),
                 Sample(7, "G", 500, false)];
    assert list[6].rating == 500;
    var page := Page(list, 1);
    assert page == list[..6];
    assert forall i | 0 <= i < |page| :: page[i].rating == 100;
    var r := RenderedTools(Some(list), 1, "rating", timeOf, nameRank);
    RenderedIsPageReordered(list, 1, "rating", timeOf, nameRank);
    assert multiset(r) == multiset(page);
    forall t | t in r
      ensures t.rating != 500
    {
      assert t in multiset(page);
      var i :| 0 <= i < |page| && page[i] == t;
    }
  }

  /** The intended pipeline: sort the whole shown list, then cut the page. */
  function RenderedToolsIntended(displayed: Option<seq<Tool>>, currentPage: int, sortBy: string,
                                 timeOf: string -> int, nameRank: string -> int): (r: seq<Tool>)
    ensures displayed.None? ==> r == []
    ensures displayed.Some? ==>
      r == Page(Sorting.StableSort(displayed.value, SortKey(sortBy, timeOf, nameRank)), currentPage)
  {
    match displayed
    case None => []
    case Some(list) => Page(Sorting.StableSort(list, SortKey(sortBy, timeOf, nameRank)), currentPage)
  }

  /** In a list sorted by `key`, every element of an earlier window outranks every element of a later one. */
  lemma SortedWindowsOrdered(sorted: seq<Tool>, key: Tool -> int, a: int, b: int, c: int, d: int)
    requires Sorting.SortedDesc(sorted, key)
    requires 0 <= a <= b <= c <= d <= |sorted|
    ensures forall x, y :: x in sorted[a..b] && y in sorted[c..d] ==> key(x) >= key(y)
  {
    forall x, y | x in sorted[a..b] && y in sorted[c..d]
      ensures key(x) >= key(y)
    {
      var i :| a <= i < b && sorted[i] == x;
      var j :| c <= j < d && sorted[j] == y;
    }
  }

  /**
   * With the intended pipeline the order holds across pages: every tool on
   * an earlier page has a key at least that of every tool on a later page.
   */
  lemma IntendedOrderAcrossPages(list: seq<Tool>, p: int, q: int, sortBy: string,
                                 timeOf: string -> int, nameRank: string -> int)
    requires 1 <= p < q
    ensures var key := SortKey(sortBy, timeOf, nameRank);
      forall x, y ::
        (x in RenderedToolsIntended(Some(list), p, sortBy, timeOf, nameRank) &&
         y in RenderedToolsIntended(Some(list), q, sortBy, timeOf, nameRank)) ==> key(x) >= key(y)
  {
    var key := SortKey(sortBy, timeOf, nameRank);
    var sorted := Sorting.StableSort(list, key);
    Sorting.StableSortSorted(list, key);
    SortedWindowsOrdered(sorted, key, Min((p - 1) * ItemsPerPage, |sorted|), Min(p * ItemsPerPage, |sorted|),
                         Min((q - 1) * ItemsPerPage, |sorted|), Min(q * ItemsPerPage, |sorted|));
  }

  /** With the intended pipeline the pages together are the sorted list, a permutation of the shown one. */
  lemma IntendedPagesPermute(list: seq<Tool>, sortBy: string, timeOf: string -> int, nameRank: string -> int)
    ensures var sorted := Sorting.StableSort(list, SortKey(sortBy, timeOf, nameRank));
      multiset(Pages(sorted, PageCount(|list|))) == multiset(list)
  {
    var sorted := Sorting.StableSort(list, SortKey(sortBy, timeOf, nameRank));
    Sorting.StableSortPermutes(list, SortKey(sortBy, timeOf, nameRank));
    PagesCoverList(sorted);
  }

  /** The example ordering: equal ratings, the popular tool first under "popularity". */
  lemma PopularityExample(timeOf: string -> int, nameRank: string -> int)
    ensures Sorting.StableSort([Sample(1, "Alpha", 400, false), Sample(2, "Beta", 400, true)],
                               SortKey("popularity", timeOf, nameRank))
         == [Sample(2, "Beta", 400, true), Sample(1, "Alpha", 400, false)]
  {
    var key := SortKey("popularity", timeOf, nameRank);
    var alpha, beta := Sample(1, "Alpha", 400, false), Sample(2, "Beta", 400, true);
    var s := [alpha, beta];
    assert key(alpha) == 400 && key(beta) == 500;
    assert s[..1] == [alpha] && [alpha][..0] == [];
    assert Sorting.StableSort([alpha], key) == [alpha];
    assert Sorting.Insert([alpha], beta, key) == Sorting.Insert([], beta, key) + [alpha];
  }

  /** What the bar shows at one page number. */
  datatype PageItem = PageButton(page: int, current: bool) | Ellipsis | Nothing

  /**
   * A page that, in a bar of more than seven pages, is neither the first
   * two, the last two, nor next to the current page.
   */
  predicate Collapsible(page: int, currentPage: int, totalPages: int)
  {
    && totalPages > 7
    && page != 1 && page != totalPages
    && (page < currentPage - 1 || page > currentPage + 1)
    && page != 2 && page != totalPages - 1
  }

  /** The item the bar renders for `page`, following the component's branches in order. */
  function PageItemFor(page: int, currentPage: int, totalPages: int): (r: PageItem)
    ensures !Collapsible(page, currentPage, totalPages) ==> r == PageButton(page, page == currentPage)
    ensures r.Ellipsis? <==>
      (Collapsible(page, currentPage, totalPages) &&
       ((page == 3 && currentPage > 4) || (page == totalPages - 2 && currentPage < totalPages - 3)))
    ensures 1 <= page <= totalPages && r.PageButton? ==> !Collapsible(page, currentPage, totalPages)
  {
    if Collapsible(page, currentPage, totalPages) then
      if page == 3 && currentPage > 4 then Ellipsis
      else if page == totalPages - 2 && currentPage < totalPages - 3 then Ellipsis
      else if (page > 2 && page < totalPages - 1) && (page < currentPage - 1 || page > currentPage + 1) then Nothing
      else PageButton(page, page == currentPage)
    else PageButton(page, page == currentPage)
  }

  /** The bar's items for pages `1 .. totalPages`. */
  function PageBar(currentPage: int, totalPages: nat): (r: seq<PageItem>)
    ensures |r| == totalPages
    ensures forall i :: 0 <= i < totalPages ==> r[i] == PageItemFor(i + 1, currentPage, totalPages)
  {
    seq(totalPages, i requires 0 <= i < totalPages => PageItemFor(i + 1, currentPage, totalPages))
  }

  /**
   * Up to seven pages every page is a button; beyond that the first two,
   * the last two and the current page's neighbourhood always are.
   */
  lemma ButtonsShown(currentPage: int, totalPages: nat, page: int)
    requires 1 <= page <= totalPages
    requires totalPages <= 7 || page <= 2 || page >= totalPages - 1 ||
             currentPage - 1 <= page <= currentPage + 1
    ensures PageBar(currentPage, totalPages)[page - 1] == PageButton(page, page == currentPage)
  {
  }

  /** The pages rendered as an ellipsis. */
  function EllipsisPages(currentPage: int, totalPages: nat): (r: set<int>)
  {
    set p | 1 <= p <= totalPages && PageItemFor(p, currentPage, totalPages).Ellipsis?
  }

  /** At most two ellipses: only pages 3 and `totalPages - 2` can ever be one. */
  lemma AtMostTwoEllipses(currentPage: int, totalPages: nat)
    ensures EllipsisPages(currentPage, totalPages) <= {3, totalPages - 2}
    ensures |EllipsisPages(currentPage, totalPages)| <= 2
  {
    var e := EllipsisPages(currentPage, totalPages);
    var b := {3, totalPages - 2};
    assert e <= b;
    assert b == e + (b - e);
    assert |b| <= 2;
  }

  /** The "previous" button's target, `max(1, currentPage - 1)`. */
  function PrevTarget(currentPage: int): (r: int)
    ensures r >= 1
    ensures currentPage > 1 ==> r == currentPage - 1
    ensures 1 <= currentPage ==> r <= currentPage
  {
    if currentPage - 1 < 1 then 1 else currentPage - 1
  }

  /** The "next" button's target, `min(totalPages, currentPage + 1)`. */
  function NextTarget(currentPage: int, totalPages: int): (r: int)
    ensures r <= totalPages
    ensures currentPage < totalPages ==> r == currentPage + 1
    ensures currentPage >= totalPages ==> r == totalPages
    ensures currentPage <= totalPages ==> r >= currentPage
  {
    if totalPages < currentPage + 1 then totalPages else currentPage + 1
  }

  /** The bar appears only for more than one page. */
  predicate BarShown(totalPages: int)
  {
    totalPages > 1
  }

  /** From a page inside the bar, both targets stay inside it and move by at most one. */
  lemma TargetsInRange(currentPage: int, totalPages: int)
    requires BarShown(totalPages)
    requires 1 <= currentPage <= totalPages
    ensures 1 <= PrevTarget(currentPage) <= totalPages
    ensures 1 <= NextTarget(currentPage, totalPages) <= totalPages
    ensures currentPage - PrevTarget(currentPage) <= 1 && NextTarget(currentPage, totalPages) - currentPage <= 1
  {
  }

  /**
   * The current page is never brought back into range when the shown list
   * gets shorter. On such a stale page the grid is empty, "next" is enabled
   * and jumps to the last page, and "previous" steps back one page, which
   * is still past the end unless the stale page was just one beyond it.
   */
  lemma StalePage(list: seq<Tool>, currentPage: int)
    requires BarShown(PageCount(|list|))
    requires currentPage > PageCount(|list|)
    ensures Page(list, currentPage) == []
    ensures currentPage != PageCount(|list|)
    ensures NextTarget(currentPage, PageCount(|list|)) == PageCount(|list|)
    ensures PrevTarget(currentPage) == currentPage - 1
    ensures currentPage > PageCount(|list|) + 1 ==> PrevTarget(currentPage) > PageCount(|list|)
  {
  }

  /** The component's own state: the current page and the sort choice. */
  class CatalogView {
    var currentPage: int
    var sortBy: string

    constructor ()
      ensures currentPage == 1 && sortBy == "popularity"
    {
      currentPage := 1;
      sortBy := "popularity";
    }

    /** `handlePageChange(page)`: the page changes, nothing else does. */
    method HandlePageChange(page: int)
      modifies this
      ensures currentPage == page && sortBy == old(sortBy)
    {
      currentPage := page;
    }

    /** The sort select's `onValueChange`; the current page is kept. */
    method SetSortBy(value: string)
      modifies this
      ensures sortBy == value && currentPage == old(currentPage)
    {
      sortBy := value;
    }

    /** Clicking "previous": a no-op while disabled on page 1; the button exists only while the bar is shown. */
    method ClickPrev(totalPages: int)
      requires BarShown(totalPages)
      modifies this
      ensures old(currentPage) == 1 ==> currentPage == 1
      ensures old(currentPage) != 1 ==> currentPage == PrevTarget(old(currentPage))
      ensures sortBy == old(sortBy)
    {
      if currentPage != 1 {
        HandlePageChange(PrevTarget(currentPage));
      }
    }

    /** Clicking "next": a no-op while disabled on the last page; the button exists only while the bar is shown. */
    method ClickNext(totalPages: int)
      requires BarShown(totalPages)
      modifies this
      ensures old(currentPage) == totalPages ==> currentPage == totalPages
      ensures old(currentPage) != totalPages ==> currentPage == NextTarget(old(currentPage), totalPages)
      ensures sortBy == old(sortBy)
    {
      if currentPage != totalPages {
        HandlePageChange(NextTarget(currentPage, totalPages));
      }
    }

    /** The rendered card list: `sortTools(paginatedTools)`. */
    method Render(displayed: Option<seq<Tool>>, timeOf: string -> int, nameRank: string -> int)
      returns (r: seq<Tool>)
      ensures r == RenderedTools(displayed, currentPage, sortBy, timeOf, nameRank)
    {
      r := SortTools(PaginatedTools(displayed, currentPage), sortBy, timeOf, nameRank);
    }
  }
}
