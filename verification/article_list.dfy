/**
 * The article list page: the fetched articles, ten per page, the pager's
 * buttons around the current page, the category filters, the three "popular"
 * articles and the ItemList schema of the first ten.
 *
 * The page's module state (allArticles, currentPage, which filter button is
 * active) and what the page shows (cards, empty state, pager) are the fields
 * of `ArticlesPage`; the markup around them is left out.
 */
module ArticleList {
  import opened Wrappers
  import opened Text
  import opened ArticleStore

  const PerPage: nat := 10

  function TotalPages(n: nat): (t: nat)
    ensures t * PerPage >= n
    ensures t == 0 || (t - 1) * PerPage < n
    ensures t == 0 <==> n == 0
  {
    CeilDiv(n, PerPage)
  }

  /** articles.slice((page - 1) * 10, (page - 1) * 10 + 10) */
  function PageSlice(articles: seq<Article>, page: int): (r: seq<Article>)
    ensures |r| <= PerPage
  {
    Slice(articles, (page - 1) * PerPage, (page - 1) * PerPage + PerPage)
  }

  /** Page p (from 1) holds positions (p - 1) * 10 up to p * 10, cut at the end of the list. */
  lemma PageSliceIsRange(articles: seq<Article>, page: int)
    requires page >= 1
    ensures PageSlice(articles, page)
            == articles[Min((page - 1) * PerPage, |articles|)..Min(page * PerPage, |articles|)]
  {
  }

  /** Every page up to the last has at least one article. */
  lemma PagesUpToTotalAreFilled(articles: seq<Article>, page: int)
    requires 1 <= page <= TotalPages(|articles|)
    ensures PageSlice(articles, page) != []
  {
    PageSliceIsRange(articles, page);
  }

  /** The article at position k is shown on page k / 10 + 1, at place k % 10. */
  lemma ArticleOnItsPage(articles: seq<Article>, k: nat)
    requires k < |articles|
    ensures 1 <= k / PerPage + 1 <= TotalPages(|articles|)
    ensures var p := PageSlice(articles, k / PerPage + 1);
            k % PerPage < |p| && p[k % PerPage] == articles[k]
  {
    PageSliceIsRange(articles, k / PerPage + 1);
  }

  // ---------------------------------------------------------------- the pager

  /**
   * A pager entry. Each button carries the filter its click passes to goToPage,
   * read from the active filter button when the pager is built; `Dots` records
   * which page number it stands for.
   */
  datatype PagerItem =
    | PrevButton(disabled: bool, target: int, filter: string)
    | PageButton(page: int, active: bool, filter: string)
    | Dots(slot: int)
    | NextButton(disabled: bool, target: int, filter: string)

  /** A button the user can click: a page button, or an enabled previous/next button. */
  predicate Clickable(item: PagerItem)
  {
    item.PageButton? || ((item.PrevButton? || item.NextButton?) && !item.disabled)
  }

  /** The page a click on a button goes to. */
  function ClickTarget(item: PagerItem): int
    requires !item.Dots?
  {
    if item.PageButton? then item.page else item.target
  }

  predicate HasButton(i: int, current: int, total: int)
  {
    i == 1 || i == total || (current - 1 <= i <= current + 1)
  }

  /** What the loop emits for page number i. */
  function Slot(i: int, current: int, total: int, filter: string): (r: seq<PagerItem>)
    ensures |r| <= 1
  {
    if HasButton(i, current, total) then [PageButton(i, i == current, filter)]
    else if i == current - 2 || i == current + 2 then [Dots(i)]
    else []
  }

  /** The entries for page numbers 1 to `upto`, in order. */
  function Window(current: int, total: int, upto: int, filter: string): seq<PagerItem>
    decreases upto
  {
    if upto < 1 then [] else Window(current, total, upto - 1, filter) + Slot(upto, current, total, filter)
  }

  /** renderPagination: the previous button, the window, the next button, every button carrying `filter`. */
  method RenderPagination(current: int, total: int, filter: string) returns (items: seq<PagerItem>)
    ensures items == [PrevButton(current == 1, current - 1, filter)] + Window(current, total, total, filter)
                     + [NextButton(current == total, current + 1, filter)]
  {
    items := [PrevButton(current == 1, current - 1, filter)];
    var i := 1;
    while i <= total
      invariant total >= 0 ==> 1 <= i <= total + 1
      invariant i <= total ==> items == [PrevButton(current == 1, current - 1, filter)] + Window(current, total, i - 1, filter)
      invariant i > total ==> items == [PrevButton(current == 1, current - 1, filter)] + Window(current, total, total, filter)
      decreases total - i
    {
      if i == 1 || i == total || (i >= current - 1 && i <= current + 1) {
        items := items + [PageButton(i, i == current, filter)];
      } else if i == current - 2 || i == current + 2 {
        items := items + [Dots(i)];
      }
      i := i + 1;
    }
    items := items + [NextButton(current == total, current + 1, filter)];
  }

  /** A page has a button exactly when it is the first, the last, or next to the current one; only the current one is active. */
  lemma {:induction false} WindowButtons(current: int, total: int, upto: int, filter: string, p: int, active: bool, f: string)
    ensures PageButton(p, active, f) in Window(current, total, upto, filter)
            <==> 1 <= p <= upto && HasButton(p, current, total) && active == (p == current) && f == filter
    decreases upto
  {
    if upto >= 1 {
      WindowButtons(current, total, upto - 1, filter, p, active, f);
    }
  }

  /** A page without a button shows dots exactly when it is two away from the current one. */
  lemma {:induction false} WindowDots(current: int, total: int, upto: int, filter: string, p: int)
    ensures Dots(p) in Window(current, total, upto, filter)
            <==> 1 <= p <= upto && !HasButton(p, current, total) && (p == current - 2 || p == current + 2)
    decreases upto
  {
    if upto >= 1 {
      WindowDots(current, total, upto - 1, filter, p);
    }
  }

  /** The window never has more entries than there are pages. */
  lemma {:induction false} WindowSize(current: int, total: int, upto: int, filter: string)
    ensures |Window(current, total, upto, filter)| <= Max(upto, 0)
    decreases upto
  {
    if upto >= 1 {
      WindowSize(current, total, upto - 1, filter);
    }
  }

  /** The window holds only page buttons, all carrying the filter, and dots. */
  lemma {:induction false} WindowCarries(current: int, total: int, upto: int, filter: string)
    ensures forall item | item in Window(current, total, upto, filter) ::
              item.Dots? || (item.PageButton? && item.filter == filter)
    decreases upto
  {
    if upto >= 1 {
      WindowCarries(current, total, upto - 1, filter);
    }
  }

  // ---------------------------------------------------------------- filters

  /** The filter test: the category slug, or the lower-cased category name, equals the filter. */
  predicate InCategory(a: Article, filter: string)
  {
    a.categorieSlug == filter || LowerString(a.categorie) == filter
  }

  function CategoryFilter(articles: seq<Article>, filter: string): (r: seq<Article>)
    ensures |r| <= |articles|
  {
    if articles == [] then []
    else (if InCategory(articles[0], filter) then [articles[0]] else []) + CategoryFilter(articles[1..], filter)
  }

  /** The filter keeps exactly the articles of the category. */
  lemma {:induction false} CategoryFilterMembers(articles: seq<Article>, filter: string)
    ensures forall a :: a in CategoryFilter(articles, filter) <==> a in articles && InCategory(a, filter)
  {
    if articles != [] {
      CategoryFilterMembers(articles[1..], filter);
      assert articles == [articles[0]] + articles[1..];
    }
  }

  /** Filtering distributes over concatenation: the kept articles stay in list order. */
  lemma {:induction false} CategoryFilterAppend(a: seq<Article>, b: seq<Article>, filter: string)
    ensures CategoryFilter(a + b, filter) == CategoryFilter(a, filter) + CategoryFilter(b, filter)
  {
    if a != [] {
      CategoryFilterAppend(a[1..], b, filter);
      var head := if InCategory(a[0], filter) then [a[0]] else [];
      calc {
        CategoryFilter(a + b, filter);
        { assert (a + b)[0] == a[0] && (a + b)[1..] == a[1..] + b; }
        head + CategoryFilter(a[1..] + b, filter);
        head + (CategoryFilter(a[1..], filter) + CategoryFilter(b, filter));
        (head + CategoryFilter(a[1..], filter)) + CategoryFilter(b, filter);
      }
    } else {
      assert a + b == b;
    }
  }

  /** The list for a filter button: everything for 'all', otherwise the category's articles. */
  function ForFilter(articles: seq<Article>, filter: string): (r: seq<Article>)
    ensures filter == "all" ==> r == articles
    ensures filter != "all" ==> r == CategoryFilter(articles, filter)
  {
    if filter == "all" then articles else CategoryFilter(articles, filter)
  }

  // ---------------------------------------------------------------- text and selections

  /** truncateText: texts up to the limit are kept; longer ones are cut, trimmed and given "...". */
  function Truncate(text: string, maxLength: nat): (r: string)
    ensures |text| <= maxLength ==> r == text
    ensures |text| > maxLength ==>
      3 <= |r| <= maxLength + 3 && r[|r| - 3..] == "..." && r[..|r| - 3] == Trim(text[..maxLength])
  {
    if |text| <= maxLength then text
    else
      var kept := Trim(text[..maxLength]);
      assert (kept + "...")[..|kept|] == kept;
      kept + "..."
  }

  /** The "popular" column: the first three articles. */
  function Popular(articles: seq<Article>): (r: seq<Article>)
    ensures |r| == Min(3, |articles|) && r == articles[..|r|]
  {
    Take(articles, 3)
  }

  const SiteUrl: string := "https://lunicar.fr"

  function ArticleUrl(slug: string): string
  {
    SiteUrl + "/article/" + slug
  }

  datatype ListItem = ListItem(position: nat, url: string, name: string)
  datatype ItemList = ItemList(numberOfItems: nat, elements: seq<ListItem>)

  /** The ItemList schema: the count of all articles and the first ten, numbered from 1 in list order. */
  function ItemListOf(articles: seq<Article>): (r: ItemList)
    ensures r.numberOfItems == |articles|
    ensures |r.elements| == Min(10, |articles|)
    ensures forall i | 0 <= i < |r.elements| ::
      r.elements[i].position == i + 1 && r.elements[i].url == ArticleUrl(articles[i].slug)
      && r.elements[i].name == articles[i].titre
  {
    var first := Take(articles, 10);
    ItemList(|articles|, seq(|first|, i requires 0 <= i < |first| =>
      ListItem(i + 1, ArticleUrl(first[i].slug), first[i].titre)))
  }

  /** The pager renderArticles shows: none for a single page, otherwise what renderPagination builds. */
  function Pager(page: int, total: int, filter: string): seq<PagerItem>
  {
    if total > 1 then
      [PrevButton(page == 1, page - 1, filter)] + Window(page, total, total, filter)
      + [NextButton(page == total, page + 1, filter)]
    else []
  }

  /** Every button of the pager passes `filter` to goToPage. */
  lemma PagerCarries(page: int, total: int, filter: string)
    ensures forall item | item in Pager(page, total, filter) :: item.Dots? || item.filter == filter
  {
    WindowCarries(page, total, total, filter);
  }

  // ---------------------------------------------------------------- the page

  class ArticlesPage {
    /** The data-filter values of the filter buttons. */
    const filterButtons: set<string>

    var allArticles: seq<Article>
    var currentPage: int
    /** The data-filter of the active button, or "all" when none is active. */
    var activeFilter: string
    var cards: seq<Article>
    var emptyShown: bool
    /** The pager's entries; empty when it is cleared. */
    var pager: seq<PagerItem>
    var popular: seq<Article>
    var itemList: Option<ItemList>

    constructor(buttons: set<string>)
      requires "all" in buttons
      ensures filterButtons == buttons && allArticles == [] && currentPage == 1 && activeFilter == "all"
      ensures cards == [] && !emptyShown && pager == [] && popular == [] && itemList == None
      ensures PagerFollowsFilter()
    {
      filterButtons := buttons;
      allArticles := [];
      currentPage := 1;
      activeFilter := "all";
      cards := [];
      emptyShown := false;
      pager := [];
      popular := [];
      itemList := None;
    }

    /** What renderArticles leaves on screen for a list and a page: the empty notice, or the page's cards and the pager. */
    predicate Shows(articles: seq<Article>, page: int)
      reads this
    {
      (articles == [] ==> cards == [] && emptyShown && pager == [])
      && (articles != [] ==> cards == PageSlice(articles, page) && !emptyShown
                               && pager == Pager(page, TotalPages(|articles|), activeFilter))
    }

    /** Every button on screen passes the active filter to goToPage, as getCurrentFilter read it. */
    predicate PagerFollowsFilter()
      reads this
    {
      forall item | item in pager :: item.Dots? || item.filter == activeFilter
    }

    /** renderArticles: the page's cards, and the pager only when there is more than one page. */
    method RenderArticles(articles: seq<Article>, page: int)
      modifies this
      ensures Shows(articles, page) && PagerFollowsFilter()
      ensures allArticles == old(allArticles) && currentPage == old(currentPage) && activeFilter == old(activeFilter)
      ensures popular == old(popular) && itemList == old(itemList)
    {
      if |articles| == 0 {
        cards := [];
        emptyShown := true;
        pager := [];
        return;
      }
      emptyShown := false;
      var totalPages := CeilDiv(|articles|, PerPage);
      cards := Slice(articles, (page - 1) * PerPage, (page - 1) * PerPage + PerPage);
      if totalPages > 1 {
        pager := RenderPagination(page, totalPages, activeFilter);
      } else {
        pager := [];
      }
      PagerCarries(page, totalPages, activeFilter);
    }

    /** loadAllArticles, given what /api/articles answered. */
    method Load(articles: seq<Article>)
      modifies this
      ensures allArticles == articles && currentPage == old(currentPage) && activeFilter == old(activeFilter)
      ensures articles == [] ==> emptyShown && cards == old(cards) && pager == old(pager)
                                 && popular == old(popular) && itemList == old(itemList)
      ensures articles != [] ==> Shows(articles, 1) && popular == Popular(articles) && itemList == Some(ItemListOf(articles))
      ensures articles != [] ==> PagerFollowsFilter()
    {
      allArticles := articles;
      if |allArticles| == 0 {
        emptyShown := true;
        return;
      }
      RenderArticles(allArticles, 1);
      popular := Take(allArticles, 3);
      itemList := Some(ItemListOf(allArticles));
    }

    /** A click on a filter button: it becomes the active one and the first page of its list is shown. */
    method ClickFilter(filter: string)
      requires filter in filterButtons
      modifies this
      ensures activeFilter == filter && currentPage == 1 && allArticles == old(allArticles)
      ensures Shows(ForFilter(allArticles, filter), 1) && PagerFollowsFilter()
      ensures popular == old(popular) && itemList == old(itemList)
    {
      activeFilter := filter;
      currentPage := 1;
      if filter == "all" {
        RenderArticles(allArticles, 1);
      } else {
        RenderArticles(CategoryFilter(allArticles, filter), 1);
      }
    }

    /** A click on a sidebar category link: its button (if any) becomes active; the list is filtered with no 'all' case. */
    method ClickCategoryLink(filter: string)
      modifies this
      ensures activeFilter == (if filter in filterButtons then filter else "all")
      ensures currentPage == 1 && allArticles == old(allArticles)
      ensures Shows(CategoryFilter(allArticles, filter), 1) && PagerFollowsFilter()
      ensures popular == old(popular) && itemList == old(itemList)
      ensures filter !in filterButtons ==> forall item | item in pager :: item.Dots? || item.filter == "all"
    {
      activeFilter := if filter in filterButtons then filter else "all";
      currentPage := 1;
      RenderArticles(CategoryFilter(allArticles, filter), 1);
    }

    /** goToPage(page, filter): the page of the filter's list. */
    method GoToPage(page: int, filter: string)
      modifies this
      ensures currentPage == page && activeFilter == old(activeFilter) && allArticles == old(allArticles)
      ensures Shows(ForFilter(allArticles, filter), page) && PagerFollowsFilter()
      ensures popular == old(popular) && itemList == old(itemList)
    {
      currentPage := page;
      RenderArticles(ForFilter(allArticles, filter), page);
    }

    /**
     * A click on a pager button: goToPage with the button's page and the filter
     * it was built with, which is the filter active when the pager was drawn.
     */
    method ClickPager(item: PagerItem)
      requires item in pager && Clickable(item) && PagerFollowsFilter()
      modifies this
      ensures item.filter == old(activeFilter)
      ensures currentPage == ClickTarget(item) && activeFilter == old(activeFilter) && allArticles == old(allArticles)
      ensures Shows(ForFilter(allArticles, old(activeFilter)), ClickTarget(item)) && PagerFollowsFilter()
      ensures popular == old(popular) && itemList == old(itemList)
    {
      GoToPage(ClickTarget(item), item.filter);
    }
  }
}
