/**
 * The admin list of main pages: save (replace in place when editing, else
 * append), delete, duplicate, the search/category filter, category lookup,
 * and the header counters, including the display-only 15-slot counter.
 */
module EnhancedManagePages {
  import opened Basics
  import opened Seqs
  import opened PageTypes
  import opened Storage

  // ------------------------------------------------------------- the list

  /** An edit save: the page with the same id is replaced where it stands. */
  function ReplacePage(pages: seq<MainPage>, page: MainPage): (r: seq<MainPage>)
    ensures |r| == |pages|
    ensures forall i :: 0 <= i < |pages| ==> r[i] == (if pages[i].id == page.id then page else pages[i])
  {
    MapIf(pages, (p: MainPage) => p.id == page.id, (p: MainPage) => page)
  }

  /** Replacing a page by its id and deleting that id give the same list as deleting it first. */
  lemma {:induction false} ReplaceThenDelete(pages: seq<MainPage>, page: MainPage)
    ensures RemovePage(ReplacePage(pages, page), page.id) == RemovePage(pages, page.id)
  {
    if pages != [] {
      ReplaceThenDelete(pages[1..], page);
      assert ReplacePage(pages, page)[1..] == ReplacePage(pages[1..], page);
    }
  }

  function RemovePage(pages: seq<MainPage>, pageId: string): (r: seq<MainPage>)
    ensures forall i :: 0 <= i < |r| ==> r[i].id != pageId && r[i] in pages
    ensures forall i :: 0 <= i < |pages| && pages[i].id != pageId ==> pages[i] in r
  {
    Filter(pages, (p: MainPage) => p.id != pageId)
  }

  /** Deleting removes exactly the pages with that id: the count drops by how many carried it. */
  lemma {:induction false} RemovePageCount(pages: seq<MainPage>, pageId: string)
    ensures |RemovePage(pages, pageId)| == |pages| - |Filter(pages, (p: MainPage) => p.id == pageId)|
  {
    if pages != [] {
      RemovePageCount(pages[1..], pageId);
    }
  }

  /**
   * The copy made by `handleDuplicate`: a new id, the name suffixed with
   * " (Copy)", fresh timestamps, and each subpage re-identified with
   * fresh timestamps; everything else is copied.
   */
  function DuplicatePage(page: MainPage, newId: string, now: string, subIdAt: nat -> string): (r: MainPage)
    ensures r.id == newId && r.name == page.name + " (Copy)"
    ensures r.createdAt == now && r.updatedAt == now
    ensures r.description == page.description && r.classification == page.classification
    ensures r.elements == page.elements && r.customHtml == page.customHtml
    ensures r.powerbiBadgeUrl == page.powerbiBadgeUrl && r.spreadsheetBadgeUrl == page.spreadsheetBadgeUrl
    ensures |r.subPages| == |page.subPages|
    ensures forall i :: 0 <= i < |page.subPages| ==>
      var (c, o) := (r.subPages[i], page.subPages[i]);
      c.id == subIdAt(i) && c.createdAt == now && c.updatedAt == now &&
      c.name == o.name && c.kind == o.kind && c.embedUrl == o.embedUrl && c.elements == o.elements &&
      c.classification == o.classification && c.customHtml == o.customHtml
  {
    page.(id := newId, name := page.name + " (Copy)", createdAt := now, updatedAt := now,
          subPages := seq(|page.subPages|, i requires 0 <= i < |page.subPages| =>
                          page.subPages[i].(id := subIdAt(i), createdAt := now, updatedAt := now)))
  }

  /** The copy renders the same: every subpage canvas and the page canvas are shared with the original. */
  lemma DuplicateSharesContent(page: MainPage, newId: string, now: string, subIdAt: nat -> string)
    ensures var r := DuplicatePage(page, newId, now, subIdAt);
      r.(id := page.id, name := page.name, createdAt := page.createdAt, updatedAt := page.updatedAt,
         subPages := page.subPages) == page
  {
  }

  // ---------------------------------------------------- filter and lookup

  /** A page is listed when its name or description contains the search term (ignoring case) and its category matches. */
  predicate MatchesFilter(p: MainPage, search: string, category: string) {
    (IncludesIgnoreCase(p.name, search) || IncludesIgnoreCase(p.description, search)) &&
    (category == "" || p.classification == category)
  }

  function FilterPages(pages: seq<MainPage>, search: string, category: string): (r: seq<MainPage>)
    ensures forall i :: 0 <= i < |r| ==> r[i] in pages && MatchesFilter(r[i], search, category)
    ensures forall i :: 0 <= i < |pages| && MatchesFilter(pages[i], search, category) ==> pages[i] in r
  {
    Filter(pages, (p: MainPage) => MatchesFilter(p, search, category))
  }

  /** With no search term and no category every page is listed, in stored order. */
  lemma {:induction false} EmptyFilterListsAll(pages: seq<MainPage>)
    ensures FilterPages(pages, "", "") == pages
  {
    forall i | 0 <= i < |pages| ensures MatchesFilter(pages[i], "", "") {
      IncludesEmpty(pages[i].name);
    }
    FilterKeepsAll(pages, (p: MainPage) => MatchesFilter(p, "", ""));
  }

  /** The five fixed categories, in display order. */
  const Categories: seq<PageCategory> := [
    PageCategory("analytics", "Analytics", "#3B82F6", ""),
    PageCategory("reports", "Reports", "#10B981", ""),
    PageCategory("dashboards", "Dashboards", "#8B5CF6", ""),
    PageCategory("operations", "Operations", "#F59E0B", ""),
    PageCategory("finance", "Finance", "#EF4444", "")
  ]

  datatype CategoryInfo = CategoryInfo(name: string, color: string)

  /** `getCategoryInfo`: the category's name and colour, or "Uncategorized" in grey. */
  function GetCategoryInfo(categoryId: string): (r: CategoryInfo)
    ensures (forall i :: 0 <= i < |Categories| ==> Categories[i].id != categoryId) ==>
      r == CategoryInfo("Uncategorized", "#6B7280")
    ensures forall i :: 0 <= i < |Categories| && Categories[i].id == categoryId ==>
      r == CategoryInfo(Categories[i].name, Categories[i].color)
  {
    match Find(Categories, (c: PageCategory) => c.id == categoryId)
    case Some(c) => CategoryInfo(c.name, c.color)
    case None => CategoryInfo("Uncategorized", "#6B7280")
  }

  // --------------------------------------------------------------- counters

  /** The advertised capacity; nothing enforces it. */
  const SlotCap := 15

  function RemainingSlots(count: nat): (r: nat)
    ensures r == 0 <==> count >= SlotCap
    ensures count < SlotCap ==> r + count == SlotCap
  {
    if count >= SlotCap then 0 else SlotCap - count
  }

  /** The header shows two subpages per page, whatever the pages hold. */
  function SubPageTotalShown(pages: seq<MainPage>): (n: nat)
    ensures n == 2 * |pages|
    ensures n % 2 == 0
  {
    |pages| * 2
  }

  /** The number of pages carrying a category. */
  function CategorizedCount(pages: seq<MainPage>): (n: nat)
    ensures n <= |pages|
    ensures n == 0 <==> forall i :: 0 <= i < |pages| ==> pages[i].classification == ""
    ensures n == |pages| <==> forall i :: 0 <= i < |pages| ==> pages[i].classification != ""
  {
    FilterKeepsNoneIff(pages, (p: MainPage) => p.classification != "");
    FilterKeepsAllIff(pages, (p: MainPage) => p.classification != "");
    |Filter(pages, (p: MainPage) => p.classification != "")|
  }

  /** Adding a page raises the count by one exactly when the page has a category. */
  lemma CategorizedCountAppend(pages: seq<MainPage>, p: MainPage)
    ensures CategorizedCount(pages + [p]) == CategorizedCount(pages) + (if p.classification != "" then 1 else 0)
  {
    FilterCountAppend(pages, p, (q: MainPage) => q.classification != "");
  }

  // ------------------------------------------------------------- component

  class Manager {
    const store: LocalStore
    var pages: seq<MainPage>
    var showForm: bool
    var editingPage: Option<MainPage>

    constructor (store: LocalStore)
      ensures this.store == store && pages == store.enhancedPages && !showForm && editingPage.None?
    {
      this.store := store;
      pages := store.enhancedPages;
      showForm, editingPage := false, None;
    }

    /** The "Create New Page" buttons: open the creator for a new page as it stands. */
    method OpenForm()
      modifies this
      ensures showForm && pages == old(pages) && editingPage == old(editingPage)
    {
      showForm := true;
    }

    /** The creator's cancel: close it and forget the page being edited; nothing is stored. */
    method Cancel()
      modifies this
      ensures !showForm && editingPage.None? && pages == old(pages)
      ensures store.State() == old(store.State())
    {
      showForm := false;
      editingPage := None;
    }

    /** `handleSavePage`: replace in place when editing, else append; the form closes. */
    method SavePage(page: MainPage)
      modifies this, store
      ensures pages == (if old(editingPage).Some? then ReplacePage(old(pages), page) else old(pages) + [page])
      ensures store.State() == old(store.State()).(enhancedPages := pages)
      ensures !showForm && editingPage.None?
    {
      var updated: seq<MainPage>;
      if editingPage.Some? {
        updated := ReplacePage(pages, page);
      } else {
        updated := pages + [page];
      }
      store.enhancedPages := updated;
      pages := updated;
      showForm := false;
      editingPage := None;
    }

    method Edit(page: MainPage)
      modifies this
      ensures editingPage == Some(page) && showForm && pages == old(pages)
    {
      editingPage := Some(page);
      showForm := true;
    }

    /** `handleDelete`: when confirmed, drop every page with that id. */
    method Delete(pageId: string, confirmed: bool)
      modifies this, store
      ensures pages == (if confirmed then RemovePage(old(pages), pageId) else old(pages))
      ensures store.State() == if confirmed then old(store.State()).(enhancedPages := pages) else old(store.State())
      ensures showForm == old(showForm) && editingPage == old(editingPage)
    {
      if confirmed {
        var updated := RemovePage(pages, pageId);
        store.enhancedPages := updated;
        pages := updated;
      }
    }

    /** `handleDuplicate`: append the copy; nothing checks the 15-slot cap. */
    method Duplicate(page: MainPage, newId: string, now: string, subIdAt: nat -> string)
      modifies this, store
      ensures pages == old(pages) + [DuplicatePage(page, newId, now, subIdAt)]
      ensures store.State() == old(store.State()).(enhancedPages := pages)
      ensures showForm == old(showForm) && editingPage == old(editingPage)
    {
      var updated := pages + [DuplicatePage(page, newId, now, subIdAt)];
      store.enhancedPages := updated;
      pages := updated;
    }
  }
}
