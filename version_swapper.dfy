/**
  * The APK version picker: two paged lists of releases (stable and nightly,
  * four per page), a pager with a sliding window of page buttons, the effects
  * that pull a page number back into range, and the label of each release card.
  */
module VersionSwapper {
  import opened Wrappers
  import opened Text
  import opened Seqs
  import opened DownloadData

  /** `ITEMS_PER_PAGE`. */
  const ItemsPerPage: nat := 4

  function Max(a: int, b: int): int {
    if a >= b then a else b
  }

  function Min(a: int, b: int): int {
    if a <= b then a else b
  }

  // ---------------------------------------------------------------------------
  // The pager
  // ---------------------------------------------------------------------------

  /** `maxButtons`: 5 until the resize handler has run, then 3 on a window at least 768 pixels wide
      and 2 on a narrower one. */
  function MaxButtons(innerWidth: Option<int>): (r: int)
    ensures innerWidth.None? ==> r == 5
    ensures innerWidth.Some? ==> (r == 3 <==> innerWidth.value >= 768) && (r == 2 <==> innerWidth.value < 768)
  {
    if innerWidth.None? then 5 else if innerWidth.value >= 768 then 3 else 2
  }

  /** The first page button: centred on the current page, then moved left when the window would
      otherwise hold fewer than `maxButtons` buttons. */
  function WindowStart(currentPage: int, totalPages: int, maxButtons: int): int {
    var start := Max(1, currentPage - maxButtons / 2);
    var end := Min(totalPages, start + maxButtons - 1);
    if end - start + 1 < maxButtons then Max(1, end - maxButtons + 1) else start
  }

  /** The last page button. */
  function WindowEnd(currentPage: int, totalPages: int, maxButtons: int): int {
    Min(totalPages, Max(1, currentPage - maxButtons / 2) + maxButtons - 1)
  }

  /** The integers `lo..hi`, ascending. */
  function Range(lo: int, hi: int): (r: seq<int>)
    ensures |r| == if lo <= hi then hi - lo + 1 else 0
    ensures forall k :: 0 <= k < |r| ==> r[k] == lo + k
  {
    if lo > hi then [] else seq(hi - lo + 1, k => lo + k)
  }

  /** What `Pagination` renders: nothing, or its page buttons, the ellipsis, and the enabled state
      of Previous and Next. */
  datatype Pager =
    | NoPager
    | Buttons(pages: seq<int>, ellipsis: bool, previousDisabled: bool, nextDisabled: bool)

  /** `Pagination`: no pager for a single page, otherwise the window of page numbers filled by
      its `for` loop. */
  method Pagination(currentPage: int, totalPages: int, maxButtons: int) returns (p: Pager)
    ensures totalPages <= 1 ==> p == NoPager
    ensures totalPages > 1 ==> p.Buttons?
    ensures totalPages > 1 ==>
              && p.pages == Range(WindowStart(currentPage, totalPages, maxButtons),
                                  WindowEnd(currentPage, totalPages, maxButtons))
              && (p.ellipsis <==> WindowEnd(currentPage, totalPages, maxButtons) < totalPages)
              && (p.previousDisabled <==> currentPage == 1)
              && (p.nextDisabled <==> currentPage == totalPages)
  {
    if totalPages <= 1 {
      return NoPager;
    }
    var startPage := Max(1, currentPage - maxButtons / 2);
    var endPage := Min(totalPages, startPage + maxButtons - 1);
    if endPage - startPage + 1 < maxButtons {
      startPage := Max(1, endPage - maxButtons + 1);
    }
    var pageNumbers: seq<int> := [];
    var i := startPage;
    while i <= endPage
      invariant startPage <= i <= Max(startPage, endPage + 1)
      invariant pageNumbers == Range(startPage, i - 1)
      decreases endPage - i
    {
      pageNumbers := pageNumbers + [i];
      i := i + 1;
    }
    p := Buttons(pageNumbers, endPage < totalPages, currentPage == 1, currentPage == totalPages);
  }

  /** For a page in range, the window is a run of consecutive pages inside `1..totalPages` that
      holds the current page and has `min(maxButtons, totalPages)` buttons. */
  lemma WindowShape(currentPage: int, totalPages: int, maxButtons: int)
    requires 1 <= currentPage <= totalPages && maxButtons >= 1
    ensures var pages := Range(WindowStart(currentPage, totalPages, maxButtons),
                               WindowEnd(currentPage, totalPages, maxButtons));
      && |pages| == Min(maxButtons, totalPages)
      && 1 <= pages[0] && pages[|pages| - 1] <= totalPages
      && (forall k :: 0 < k < |pages| ==> pages[k] == pages[k - 1] + 1)
      && currentPage in pages
  {
    var s := WindowStart(currentPage, totalPages, maxButtons);
    var e := WindowEnd(currentPage, totalPages, maxButtons);
    assert 1 <= s <= currentPage <= e <= totalPages;
    assert e - s + 1 == Min(maxButtons, totalPages);
    var pages := Range(s, e);
    assert pages[currentPage - s] == currentPage;
  }

  /** Page `page` of a release list. */
  function ReleasePage(all: seq<Release>, page: int): (r: seq<Release>)
    ensures |r| <= ItemsPerPage
  {
    PageOf(all, page, ItemsPerPage)
  }

  /** `Math.ceil(length / ITEMS_PER_PAGE)`. */
  function PageCount(all: seq<Release>): nat {
    CeilDiv(|all|, ItemsPerPage)
  }

  /** Every release is shown on one page the pager can reach. */
  lemma EveryReleaseOnAPage(all: seq<Release>, i: nat)
    requires i < |all|
    ensures 1 <= i / ItemsPerPage + 1 <= PageCount(all)
    ensures ReleasePage(all, i / ItemsPerPage + 1)[i % ItemsPerPage] == all[i]
  {
    PageLocates(all, ItemsPerPage, i);
  }

  /** The clamping effect: a page past a non-empty list moves to its last page, page 0 of a
      non-empty list moves to page 1, anything else stays. */
  function ClampPage(page: int, totalPages: int): (r: int)
    ensures totalPages > 0 && page >= 0 ==> 1 <= r <= totalPages
    ensures totalPages <= 0 ==> r == page
    ensures 1 <= page <= totalPages ==> r == page
  {
    if page > totalPages && totalPages > 0 then totalPages
    else if page == 0 && totalPages > 0 then 1
    else page
  }

  /** The effect settles after one step: re-running it on its own result changes nothing. */
  lemma ClampPageSettles(page: int, totalPages: int)
    ensures ClampPage(ClampPage(page, totalPages), totalPages) == ClampPage(page, totalPages)
  {
  }

  /** After the effect, a non-empty list never shows an empty page, whatever non-negative page
      it started from. */
  lemma ClampedPageNonEmpty(all: seq<Release>, page: int)
    requires |all| > 0 && page >= 0
    ensures |ReleasePage(all, ClampPage(page, PageCount(all)))| > 0
  {
    var p := ClampPage(page, PageCount(all));
    var start := (p - 1) * ItemsPerPage;
    assert (PageCount(all) - 1) * ItemsPerPage < |all|;
    assert start <= (PageCount(all) - 1) * ItemsPerPage by {
      MulMono(p - 1, PageCount(all) - 1, ItemsPerPage);
    }
  }

  /** Which list a card belongs to. */
  datatype Label = NoLabel | Latest | Nightly | LatestNightly

  /** What `ReleaseCard` renders: nothing for a release without a URL, otherwise its label. */
  datatype Card = NoCard | ReleaseCard(release: Release, badge: Label)

  function CardFor(release: Release, isLatest: bool, isNightly: bool): (c: Card)
    ensures !Truthy(release.url) <==> c == NoCard
    ensures c.ReleaseCard? ==> (c.badge == LatestNightly <==> isLatest && isNightly)
    ensures c.ReleaseCard? ==> (c.badge == Latest <==> isLatest && !isNightly)
    ensures c.ReleaseCard? ==> (c.badge == Nightly <==> !isLatest && isNightly)
  {
    if !Truthy(release.url) then NoCard
    else if isLatest && isNightly then ReleaseCard(release, LatestNightly)
    else if isLatest then ReleaseCard(release, Latest)
    else if isNightly then ReleaseCard(release, Nightly)
    else ReleaseCard(release, NoLabel)
  }

  /** The cards of one page. A release's `indexOf` in the full list is its position there, as every
      release is a distinct object; it is "latest" when that position is 0 and the page is 1. */
  function PageCards(all: seq<Release>, page: int, nightly: bool): (r: seq<Card>)
    ensures |r| == |ReleasePage(all, page)|
    ensures forall k :: 0 <= k < |r| ==> r[k] == CardFor(ReleasePage(all, page)[k], page == 1 && k == 0, nightly)
  {
    var shown := ReleasePage(all, page);
    seq(|shown|, k requires 0 <= k < |shown| =>
      CardFor(shown[k], (page - 1) * ItemsPerPage + k == 0 && page == 1, nightly))
  }

  /** Only the first card of page 1 can carry the "Latest" or "Latest-Nightly" label. */
  lemma OnlyFirstCardIsLatest(all: seq<Release>, page: int, nightly: bool, k: nat)
    requires k < |PageCards(all, page, nightly)|
    requires PageCards(all, page, nightly)[k].ReleaseCard?
    ensures var badge := PageCards(all, page, nightly)[k].badge;
      (badge == Latest || badge == LatestNightly) <==> page == 1 && k == 0
  {
  }

  /** The list shown on a narrow screen. */
  datatype View = StableView | NightlyView

  /** The picker's state: the list shown on a narrow screen and the two page numbers. */
  class Picker {
    var activeView: View
    var stablePage: int
    var nightlyPage: int

    constructor ()
      ensures activeView == StableView && stablePage == 1 && nightlyPage == 1
    {
      activeView := StableView;
      stablePage := 1;
      nightlyPage := 1;
    }

    /** The "Stable Releases" and "Nightly Builds" tabs. */
    method SetView(view: View)
      modifies this
      ensures activeView == view && stablePage == old(stablePage) && nightlyPage == old(nightlyPage)
    {
      activeView := view;
    }

    /** A pager button: `setStablePage` or `setNightlyPage`. */
    method ChangePage(nightly: bool, page: int)
      modifies this
      ensures activeView == old(activeView)
      ensures nightly ==> nightlyPage == page && stablePage == old(stablePage)
      ensures !nightly ==> stablePage == page && nightlyPage == old(nightlyPage)
    {
      if nightly {
        nightlyPage := page;
      } else {
        stablePage := page;
      }
    }

    /** The two clamping effects, run after a render with the current list sizes. */
    method ClampEffects(stable: seq<Release>, nightly: seq<Release>)
      modifies this
      ensures activeView == old(activeView)
      ensures stablePage == ClampPage(old(stablePage), PageCount(stable))
      ensures nightlyPage == ClampPage(old(nightlyPage), PageCount(nightly))
    {
      var totalStablePages := PageCount(stable);
      if stablePage > totalStablePages && totalStablePages > 0 {
        stablePage := totalStablePages;
      } else if stablePage == 0 && totalStablePages > 0 {
        stablePage := 1;
      }
      var totalNightlyPages := PageCount(nightly);
      if nightlyPage > totalNightlyPages && totalNightlyPages > 0 {
        nightlyPage := totalNightlyPages;
      } else if nightlyPage == 0 && totalNightlyPages > 0 {
        nightlyPage := 1;
      }
    }
  }
}
