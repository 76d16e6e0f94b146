/**
 * The sidebar's page list: title search and type filter, the
 * Modified/Default layout badge, the current-page highlight, deleting a
 * custom page together with its saved layout, and the statistics box.
 */
module PageList {
  import opened Basics
  import opened Seqs
  import opened Records
  import opened Storage
  import opened ManagePages
  import opened Sidebar

  // ------------------------------------------------------------ filtering

  /** Listed when the title contains the search term (ignoring case) and the type filter (None for "all") admits it. */
  predicate Listed(p: SidebarPage, search: string, typeFilter: Option<SidebarKind>) {
    IncludesIgnoreCase(p.title, search) && (typeFilter.None? || p.kind == typeFilter.value)
  }

  function FilterList(pages: seq<SidebarPage>, search: string, typeFilter: Option<SidebarKind>): (r: seq<SidebarPage>)
    ensures forall i :: 0 <= i < |r| ==> r[i] in pages && Listed(r[i], search, typeFilter)
    ensures forall i :: 0 <= i < |pages| && Listed(pages[i], search, typeFilter) ==> pages[i] in r
  {
    Filter(pages, (p: SidebarPage) => Listed(p, search, typeFilter))
  }

  // ------------------------------------------------------- badge and links

  datatype LayoutStatus = Modified | Default

  /** `getPageStatus`: a page is Modified exactly when a layout is saved under its id. */
  function PageStatus(layouts: map<string, Layout>, pageId: string): (st: LayoutStatus)
    ensures st == Modified <==> pageId in layouts
  {
    if pageId in layouts then Modified else Default
  }

  /** `isCurrentPage`: the path the page's link leads to, without the developer flag. */
  predicate IsCurrentPage(p: SidebarPage, currentPath: string) {
    if p.kind == SystemPage then currentPath == "/" + p.id else currentPath == "/dashboard/" + p.id
  }

  /** For admins the highlighted page is the one a click opens; for developers the link adds "?dev=true". */
  lemma CurrentPageMatchesLink(p: SidebarPage)
    ensures IsCurrentPage(p, PageUrl(p, SidebarAdmin))
    ensures p.kind != SystemPage ==> PageUrl(p, SidebarDeveloper) == PageUrl(p, SidebarAdmin) + "?dev=true"
  {
  }

  /** The edit and layout buttons appear for editable pages, for developers only. */
  predicate EditControlShown(p: SidebarPage, role: SidebarRole) {
    p.isEditable && role == SidebarDeveloper
  }

  /** The delete button appears on custom pages, for developers only. */
  predicate DeleteControlShown(p: SidebarPage, role: SidebarRole) {
    p.kind == CustomPage && role == SidebarDeveloper
  }

  // ---------------------------------------------------------------- delete

  /**
   * A confirmed delete: the page leaves the stored pages, its layout key
   * is dropped, and the deletion is logged.
   */
  function PageDeleted(s: StoreState, p: SidebarPage, now: string, role: string): (t: StoreState)
    ensures p.id !in t.pageLayouts
    ensures forall k :: k in s.pageLayouts && k != p.id ==> k in t.pageLayouts && t.pageLayouts[k] == s.pageLayouts[k]
    ensures forall i :: 0 <= i < |t.adminPages| ==> t.adminPages[i].id != p.id
    ensures |t.autoSaveLog| == |s.autoSaveLog| + 1 && t.autoSaveLog[|s.autoSaveLog|].action == "page_deleted"
    ensures t.(adminPages := s.adminPages, pageLayouts := s.pageLayouts, autoSaveLog := s.autoSaveLog, lastAutoSave := s.lastAutoSave) == s
  {
    Logged(s.(adminPages := DeletePages(s.adminPages, p.id), pageLayouts := s.pageLayouts - {p.id}),
           now, "page_deleted", map["pageId" := p.id, "title" := p.title], role)
  }

  /** A page added from the sidebar and then deleted leaves the stored pages as they were. */
  lemma {:induction false} AddThenDeleteRestores(s: StoreState, id: string, title: string, description: string, now: string, role: string)
    requires forall i :: 0 <= i < |s.adminPages| ==> s.adminPages[i].id != id
    ensures var added := s.adminPages + [AddedPage(id, title, description, now)];
      PageDeleted(s.(adminPages := added), CustomOf(AddedPage(id, title, description, now)), now, role).adminPages == s.adminPages
  {
    assert AddedPage(id, title, description, now) == NewPage(id, PageForm(title, description, ""), now);
    AddThenDeletePage(s.adminPages, id, PageForm(title, description, ""), now);
  }

  // ------------------------------------------------------------ statistics

  /** Entries of one kind: none counted iff no entry has it, all iff every entry does. */
  function CountKind(pages: seq<SidebarPage>, kind: SidebarKind): (n: nat)
    ensures n <= |pages|
    ensures n == 0 <==> forall i :: 0 <= i < |pages| ==> pages[i].kind != kind
    ensures n == |pages| <==> forall i :: 0 <= i < |pages| ==> pages[i].kind == kind
  {
    FilterKeepsNoneIff(pages, (p: SidebarPage) => p.kind == kind);
    FilterKeepsAllIff(pages, (p: SidebarPage) => p.kind == kind);
    |Filter(pages, (p: SidebarPage) => p.kind == kind)|
  }

  /** A new entry raises its own kind's counter by one and leaves the others alone. */
  lemma CountKindAppend(pages: seq<SidebarPage>, p: SidebarPage, kind: SidebarKind)
    ensures CountKind(pages + [p], kind) == CountKind(pages, kind) + (if p.kind == kind then 1 else 0)
  {
    FilterCountAppend(pages, p, (q: SidebarPage) => q.kind == kind);
  }

  /** The statistics box's "Modified" figure: listed pages with a saved layout. */
  function ModifiedCount(pages: seq<SidebarPage>, layouts: map<string, Layout>): (n: nat)
    ensures n <= |pages|
    ensures n == 0 <==> forall i :: 0 <= i < |pages| ==> pages[i].id !in layouts
    ensures n == |pages| <==> forall i :: 0 <= i < |pages| ==> pages[i].id in layouts
  {
    FilterKeepsNoneIff(pages, (p: SidebarPage) => PageStatus(layouts, p.id) == Modified);
    FilterKeepsAllIff(pages, (p: SidebarPage) => PageStatus(layouts, p.id) == Modified);
    |Filter(pages, (p: SidebarPage) => PageStatus(layouts, p.id) == Modified)|
  }

  /**
   * More saved layouts never lower the figure, and a newly saved layout for
   * a listed page raises it.
   */
  lemma {:induction false} ModifiedCountMonotone(pages: seq<SidebarPage>, a: map<string, Layout>, b: map<string, Layout>)
    requires a.Keys <= b.Keys
    ensures ModifiedCount(pages, a) <= ModifiedCount(pages, b)
    ensures (exists i :: 0 <= i < |pages| && pages[i].id in b && pages[i].id !in a) ==>
      ModifiedCount(pages, a) < ModifiedCount(pages, b)
  {
    if pages != [] {
      ModifiedCountMonotone(pages[1..], a, b);
      if exists i :: 0 <= i < |pages| && pages[i].id in b && pages[i].id !in a {
        var i :| 0 <= i < |pages| && pages[i].id in b && pages[i].id !in a;
        if i > 0 {
          assert pages[1..][i - 1] == pages[i];
        }
      }
    }
  }

  /** Saving a layout for a listed page that had none adds it to the "Modified" figure. */
  lemma ModifiedCountAfterSave(pages: seq<SidebarPage>, layouts: map<string, Layout>, i: nat, l: Layout)
    requires i < |pages| && pages[i].id !in layouts
    ensures ModifiedCount(pages, layouts[pages[i].id := l]) > ModifiedCount(pages, layouts)
  {
    ModifiedCountMonotone(pages, layouts, layouts[pages[i].id := l]);
  }

  /** Dropping a listed page's saved layout takes it out of the "Modified" figure. */
  lemma ModifiedCountAfterReset(pages: seq<SidebarPage>, layouts: map<string, Layout>, i: nat)
    requires i < |pages| && pages[i].id in layouts
    ensures ModifiedCount(pages, layouts - {pages[i].id}) < ModifiedCount(pages, layouts)
  {
    ModifiedCountMonotone(pages, layouts - {pages[i].id}, layouts);
  }

  /** Custom, system and Power BI pages together make up the total. */
  lemma {:induction false} KindCountsPartition(pages: seq<SidebarPage>)
    ensures CountKind(pages, CustomPage) + CountKind(pages, SystemPage) + CountKind(pages, PowerBiPage) == |pages|
  {
    if pages != [] {
      KindCountsPartition(pages[1..]);
    }
  }

  /** An admin's list counts no system pages. */
  lemma {:induction false} AdminListHasNoSystemPages(stored: seq<SimplePage>, now: string)
    ensures CountKind(LoadPages(SidebarAdmin, stored, now), SystemPage) == 0
  {
    var r := LoadPages(SidebarAdmin, stored, now);
    var builtin := BuiltinPages(now);
    var custom := CustomPages(stored);
    var isSystem := (p: SidebarPage) => p.kind == SystemPage;
    assert r == builtin + custom;
    FilterAppend(builtin, custom, isSystem);
    FilterKeepsNone(builtin, isSystem);
    FilterKeepsNone(custom, isSystem);
  }

  /** An admin's list counts exactly as many custom pages as are stored. */
  lemma {:induction false} AdminListCountsStoredPages(stored: seq<SimplePage>, now: string)
    ensures CountKind(LoadPages(SidebarAdmin, stored, now), CustomPage) == |stored|
  {
    var r := LoadPages(SidebarAdmin, stored, now);
    var builtin := BuiltinPages(now);
    var custom := CustomPages(stored);
    var isCustom := (p: SidebarPage) => p.kind == CustomPage;
    assert r == builtin + custom;
    FilterAppend(builtin, custom, isCustom);
    FilterKeepsNone(builtin, isCustom);
    FilterKeepsAll(custom, isCustom);
  }

  // ------------------------------------------------------------- component

  datatype ListView = ListView(searchTerm: string, selectedType: Option<SidebarKind>, alert: Option<string>, reloaded: bool)

  class PageListPanel {
    const store: LocalStore
    const role: SidebarRole
    const pages: seq<SidebarPage>
    const currentPath: string
    var searchTerm: string
    var selectedType: Option<SidebarKind>
    var alert: Option<string>
    /** Set when the handler asks the browser to reload the window. */
    var reloaded: bool

    function View(): ListView
      reads this
    {
      ListView(searchTerm, selectedType, alert, reloaded)
    }

    constructor (store: LocalStore, role: SidebarRole, pages: seq<SidebarPage>, currentPath: string)
      ensures this.store == store && this.role == role && this.pages == pages && this.currentPath == currentPath
      ensures View() == ListView("", None, None, false)
    {
      this.store, this.role, this.pages, this.currentPath := store, role, pages, currentPath;
      searchTerm, selectedType, alert, reloaded := "", None, None, false;
    }

    function Shown(): seq<SidebarPage>
      reads this
    {
      FilterList(pages, searchTerm, selectedType)
    }

    method SetSearch(term: string)
      modifies this
      ensures View() == old(View()).(searchTerm := term)
    {
      searchTerm := term;
    }

    method SetTypeFilter(filter: Option<SidebarKind>)
      modifies this
      ensures View() == old(View()).(selectedType := filter)
    {
      selectedType := filter;
    }

    /**
     * `handleDeletePage`: system and built-in pages are refused with an
     * alert; a custom page is deleted, with its layout, once confirmed,
     * through the sidebar's audit hook, and the window reloads.
     */
    method DeletePage(p: SidebarPage, confirmed: bool, now: string)
      modifies this, store
      ensures p.kind != CustomPage ==>
        View() == old(View()).(alert := Some("Cannot delete system or built-in pages")) && store.State() == old(store.State())
      ensures p.kind == CustomPage && !confirmed ==> View() == old(View()) && store.State() == old(store.State())
      ensures p.kind == CustomPage && confirmed ==>
        View() == old(View()).(reloaded := true) &&
        store.State() == PageDeleted(old(store.State()), p, now, SidebarRoleName(role))
    {
      if p.kind == SystemPage || p.kind == PowerBiPage {
        alert := Some("Cannot delete system or built-in pages");
        return;
      }
      if confirmed {
        var existing := store.adminPages;
        store.adminPages := DeletePages(existing, p.id);
        var layouts := store.pageLayouts;
        store.pageLayouts := layouts - {p.id};
        store.SaveToDatabase(now, "page_deleted", map["pageId" := p.id, "title" := p.title], SidebarRoleName(role));
        reloaded := true;
      }
    }
  }
}
