/**
 * The enhanced page renderer: which canvas and title a page view shows,
 * how each element kind renders (embed or placeholder, html fallback),
 * where a button click leads, the subpage cards, and the editor overlay.
 */
module PageRenderer {
  import opened Basics
  import opened Seqs
  import opened PageTypes
  import opened Storage
  import opened EnhancedEditor

  // ------------------------------------------------------- element bodies

  /** The absolutely positioned box every element is drawn in. */
  datatype Box = Box(left: int, top: int, width: int, height: int, zIndex: int)

  /** What is drawn inside the box. */
  datatype Body =
    | Frame(src: string)
    | EmbedPlaceholder(title: string, caption: string)
    | Picture(src: string, alt: string)
    | ImagePlaceholder
    | ButtonLabel(text: string)
    | TextLine(text: string)
    | RawHtml(html: string)

  datatype Rendered = Rendered(key: string, box: Box, body: Body)

  /** `element.properties?.<key>` */
  function EmbedUrlOf(e: PageElement): Option<string> {
    if e.properties.Some? then e.properties.value.embedUrl else None
  }

  function RenderBody(e: PageElement): (b: Body)
    ensures (e.kind == PowerBi || e.kind == Spreadsheet) ==>
      (b.EmbedPlaceholder? <==> !Truthy(EmbedUrlOf(e)))
    ensures (e.kind == PowerBi || e.kind == Spreadsheet) && Truthy(EmbedUrlOf(e)) ==> b == Frame(EmbedUrlOf(e).value)
    ensures e.kind == Html ==> b == RawHtml(OrElse(PropsOf(e).html, e.content))
    ensures b.EmbedPlaceholder? ==> e.kind == PowerBi || e.kind == Spreadsheet
  {
    var props := PropsOf(e);
    match e.kind
    case PowerBi =>
      if Truthy(props.embedUrl) then Frame(props.embedUrl.value) else EmbedPlaceholder(e.content, "Power BI Report")
    case Spreadsheet =>
      if Truthy(props.embedUrl) then Frame(props.embedUrl.value) else EmbedPlaceholder(e.content, "Spreadsheet Data")
    case Image =>
      if Truthy(props.imageUrl) then Picture(props.imageUrl.value, OrElse(props.alt, "Image")) else ImagePlaceholder
    case Button => ButtonLabel(e.content)
    case Text => TextLine(e.content)
    case Html => RawHtml(OrElse(props.html, e.content))
  }

  /** One element as drawn: at its own position and size, always at zIndex 1. */
  function RenderElement(e: PageElement): (r: Rendered)
    ensures r.key == e.id
    ensures r.box == Box(e.x, e.y, e.width, e.height, 1)
  {
    Rendered(e.id, Box(e.x, e.y, e.width, e.height, 1), RenderBody(e))
  }

  /** `currentElements.map(renderElement)`: array order is drawing order. */
  function RenderAll(els: seq<PageElement>): (r: seq<Rendered>)
    ensures |r| == |els|
    ensures forall i :: 0 <= i < |els| ==> r[i] == RenderElement(els[i])
    ensures forall i :: 0 <= i < |els| ==> r[i].key == els[i].id && r[i].box.zIndex == 1
  {
    if els == [] then [] else [RenderElement(els[0])] + RenderAll(els[1..])
  }

  /** Drawing order follows the list: drawing a concatenation draws each part in turn. */
  lemma {:induction false} RenderAllAppend(a: seq<PageElement>, b: seq<PageElement>)
    ensures RenderAll(a + b) == RenderAll(a) + RenderAll(b)
  {
    if a != [] {
      assert (a + b)[0] == a[0] && (a + b)[1..] == a[1..] + b;
      RenderAllAppend(a[1..], b);
    } else {
      assert a + b == b;
    }
  }

  /**
   * A freshly added Power BI or spreadsheet element shows its placeholder,
   * and once the panel sets a non-empty embed URL it shows the embed.
   */
  lemma EmbedLifecycle(t: ElementType, id: string, url: string)
    requires t == PowerBi || t == Spreadsheet
    requires url != ""
    ensures RenderBody(NewElement(t, id)).EmbedPlaceholder?
    ensures var e := NewElement(t, id);
      RenderBody(Merge(e, PanelPatch(e, SetEmbedUrl(url)))) == Frame(url)
  {
  }

  // ------------------------------------------------------------ navigation

  datatype Navigation = Stay | Push(path: string) | OpenWindow(url: string)

  /**
   * A button click: an in-app path (leading '/') is pushed onto the router,
   * any other non-empty link opens a new window, no link does nothing.
   */
  function ButtonClick(e: PageElement): (n: Navigation)
    ensures !Truthy(PropsOf(e).link) <==> n == Stay
    ensures n.Push? <==> Truthy(PropsOf(e).link) && StartsWith(PropsOf(e).link.value, "/")
    ensures n.Push? ==> n.path == PropsOf(e).link.value
    ensures n.OpenWindow? ==> n.url == PropsOf(e).link.value
  {
    var link := PropsOf(e).link;
    if Truthy(link) then
      if StartsWith(link.value, "/") then Push(link.value) else OpenWindow(link.value)
    else Stay
  }

  /** The default '#' link of a new button is not in-app: a click opens it in a new window. */
  lemma NewButtonOpensWindow(id: string)
    ensures ButtonClick(NewElement(Button, id)) == OpenWindow("#")
  {
    assert "#"[..1][0] != "/"[0];
  }

  // ------------------------------------------------------------ page view

  /** `subPage ? subPage.elements : page.elements` */
  function CurrentElements(page: MainPage, sub: Option<SubPage>): seq<PageElement> {
    if sub.Some? then sub.value.elements else page.elements
  }

  /** `subPage ? subPage.name : page.name` */
  function CurrentTitle(page: MainPage, sub: Option<SubPage>): string {
    if sub.Some? then sub.value.name else page.name
  }

  /** What the renderer puts on screen for its state. */
  datatype Screen = Spinner | NotFound | PageView(title: string, elements: seq<Rendered>, html: Option<string>)

  /** The custom html shown: the subpage's when one is shown, else the page's; only when non-empty. */
  function CustomHtmlShown(page: MainPage, sub: Option<SubPage>): Option<string> {
    var h := if sub.Some? then sub.value.customHtml else page.customHtml;
    if Truthy(h) then h else None
  }

  function ScreenOf(loading: bool, page: Option<MainPage>, sub: Option<SubPage>): (s: Screen)
    ensures loading <==> s.Spinner?
    ensures !loading && page.None? <==> s.NotFound?
    ensures s.PageView? ==>
      s.title == CurrentTitle(page.value, sub) && s.elements == RenderAll(CurrentElements(page.value, sub))
  {
    if loading then Spinner
    else if page.None? then NotFound
    else PageView(CurrentTitle(page.value, sub), RenderAll(CurrentElements(page.value, sub)), CustomHtmlShown(page.value, sub))
  }

  /**
   * The page and subpage `loadPageData` settles on, from the previous ones:
   * an unknown page leaves both as they were; with a subpage id the subpage
   * is the match or null; without one the subpage is left as it was.
   */
  function Resolve(pages: seq<MainPage>, pageId: string, subPageId: Option<string>,
                   prevPage: Option<MainPage>, prevSub: Option<SubPage>): (r: (Option<MainPage>, Option<SubPage>))
    ensures FindPage(pages, pageId).None? ==> r == (prevPage, prevSub)
    ensures FindPage(pages, pageId).Some? ==> r.0 == FindPage(pages, pageId)
    ensures FindPage(pages, pageId).Some? && Truthy(subPageId) ==>
      r.1 == FindSubPage(FindPage(pages, pageId).value.subPages, subPageId.value)
    ensures r.1.Some? && r.1 != prevSub ==> Truthy(subPageId) && r.1.value.id == subPageId.value
  {
    match FindPage(pages, pageId)
    case None => (prevPage, prevSub)
    case Some(p) =>
      if Truthy(subPageId) then (Some(p), FindSubPage(p.subPages, subPageId.value)) else (Some(p), prevSub)
  }

  /** A subpage id that matches no subpage of the page shows the main page's own canvas and name. */
  lemma UnmatchedSubPageShowsMain(pages: seq<MainPage>, pageId: string, subPageId: Option<string>, prevSub: Option<SubPage>)
    requires FindPage(pages, pageId).Some? && Truthy(subPageId)
    requires FindSubPage(FindPage(pages, pageId).value.subPages, subPageId.value).None?
    ensures var (page, sub) := Resolve(pages, pageId, subPageId, None, prevSub);
      page.Some? && CurrentElements(page.value, sub) == FindPage(pages, pageId).value.elements &&
      CurrentTitle(page.value, sub) == FindPage(pages, pageId).value.name
  {
  }

  // --------------------------------------------------- cards and overlay

  /** Where a subpage card leads. */
  function SubPageCardLink(pageId: string, sp: SubPage, isDeveloperMode: bool): (url: string)
    ensures StartsWith(url, "/page/" + pageId + "/" + sp.id)
    ensures |url| == |"/page/" + pageId + "/" + sp.id| + (if isDeveloperMode then |"?dev=true"| else 0)
    ensures url[|"/page/" + pageId + "/" + sp.id|..] == (if isDeveloperMode then "?dev=true" else "")
  {
    "/page/" + pageId + "/" + sp.id + (if isDeveloperMode then "?dev=true" else "")
  }

  function SubPageStatus(sp: SubPage): (s: string)
    ensures s == "Configured and ready" <==> sp.embedUrl != ""
    ensures s == "Configuration pending" <==> sp.embedUrl == ""
  {
    if sp.embedUrl != "" then "Configured and ready" else "Configuration pending"
  }

  /** The editor overlay's props: its scope and its subpage id. */
  datatype Overlay = Overlay(scope: Scope, subPageId: Option<string>)

  /** The overlay exists only in developer mode, in sub scope exactly when a subpage was resolved. */
  function OverlayOf(isDeveloperMode: bool, sub: Option<SubPage>): (o: Option<Overlay>)
    ensures o.Some? <==> isDeveloperMode
    ensures o.Some? ==> (o.value.scope == SubScope <==> sub.Some?)
    ensures o.Some? && sub.Some? ==> o.value.subPageId == Some(sub.value.id)
  {
    if !isDeveloperMode then None
    else if sub.Some? then Some(Overlay(SubScope, Some(sub.value.id)))
    else Some(Overlay(MainScope, None))
  }

  /**
   * The overlay edits the canvas the renderer shows: after the overlay saves
   * `els`, a fresh load of the same route shows exactly `els`.
   */
  lemma {:induction false} OverlaySaveIsShown(pages: seq<MainPage>, pageId: string, subPageId: Option<string>,
                                              els: seq<PageElement>, now: string)
    requires FindPage(pages, pageId).Some?
    ensures var (page, sub) := Resolve(pages, pageId, subPageId, None, None);
      var o := OverlayOf(true, sub).value;
      var saved := AutoSavePages(pages, o.scope, pageId, o.subPageId, els, now);
      var (page2, sub2) := Resolve(saved, pageId, subPageId, None, None);
      page2.Some? && CurrentElements(page2.value, sub2) == els
  {
    var (page, sub) := Resolve(pages, pageId, subPageId, None, None);
    var o := OverlayOf(true, sub).value;
    var saved := AutoSavePages(pages, o.scope, pageId, o.subPageId, els, now);
    if sub.Some? {
      assert sub.value.id == subPageId.value;
      AutoSaveThenLoad(pages, SubScope, pageId, o.subPageId, els, now);
    } else {
      AutoSaveThenLoad(pages, MainScope, pageId, None, els, now);
      var isPage := (p: MainPage) => p.id == pageId;
      var k := FindIndex(pages, isPage).value;
      FindIndexMapIf(pages, isPage, (p: MainPage) => p.(elements := els, updatedAt := now), isPage);
      assert FindPage(saved, pageId) == Some(saved[k]);
      assert saved[k].subPages == pages[k].subPages;
    }
  }

  // ----------------------------------------------------------- the renderer

  class Renderer {
    const store: LocalStore
    const pageId: string
    const subPageId: Option<string>
    const isDeveloperMode: bool

    var page: Option<MainPage>
    var subPage: Option<SubPage>
    var isEditMode: bool
    var loading: bool

    constructor (store: LocalStore, pageId: string, subPageId: Option<string>, isDeveloperMode: bool)
      ensures this.store == store && this.pageId == pageId && this.subPageId == subPageId
      ensures this.isDeveloperMode == isDeveloperMode
      ensures page.None? && subPage.None? && !isEditMode && loading
    {
      this.store, this.pageId, this.subPageId, this.isDeveloperMode := store, pageId, subPageId, isDeveloperMode;
      page, subPage, isEditMode, loading := None, None, false, true;
    }

    /** `loadPageData`: resolve page and subpage from the store; loading ends in every case. */
    method LoadPageData()
      modifies this
      ensures (page, subPage) == Resolve(store.enhancedPages, pageId, subPageId, old(page), old(subPage))
      ensures !loading && isEditMode == old(isEditMode)
    {
      var pages := store.enhancedPages;
      var found := FindPage(pages, pageId);
      if found.Some? {
        page := found;
        if Truthy(subPageId) {
          subPage := FindSubPage(found.value.subPages, subPageId.value);
        }
      }
      loading := false;
    }

    /** The developer-mode switch between viewing and editing. */
    method ToggleEditMode()
      modifies this
      ensures isEditMode == !old(isEditMode)
      ensures page == old(page) && subPage == old(subPage) && loading == old(loading)
    {
      isEditMode := !isEditMode;
    }

    function Screen(): Screen
      reads this
    {
      ScreenOf(loading, page, subPage)
    }
  }
}
