/**
 * The enhanced visual editor: type-specific defaults, add / shallow-merge
 * update / delete on one canvas, the select-and-drag state machine, the
 * property panel's edit payloads, and the scoped read-modify-write of the
 * `enhancedPages` collection (the page's own canvas, or one subpage's).
 */
module EnhancedEditor {
  import opened Basics
  import opened Seqs
  import opened PageTypes
  import opened Storage

  // ---------------------------------------------------------------- defaults

  function DefaultContent(t: ElementType): (s: string)
    ensures s != ""
  {
    match t
    case PowerBi => "Power BI Report"
    case Spreadsheet => "Spreadsheet View"
    case Button => "Click Me"
    case Text => "Sample Text"
    case Image => "Image"
    case Html => "<div>Custom HTML</div>"
  }

  function DefaultWidth(t: ElementType): (w: int)
    ensures w > 0
  {
    match t
    case PowerBi => 800
    case Spreadsheet => 800
    case Button => 120
    case Text => 200
    case Image => 200
    case Html => 300
  }

  function DefaultHeight(t: ElementType): (h: int)
    ensures h > 0
  {
    match t
    case PowerBi => 600
    case Spreadsheet => 600
    case Button => 40
    case Text => 30
    case Image => 150
    case Html => 200
  }

  /** The default property bag: only the keys the kind uses are present, each with its starting value. */
  function DefaultProperties(t: ElementType): (p: Properties)
    ensures (t == PowerBi || t == Spreadsheet) <==> p.embedUrl.Some?
    ensures t == Image <==> p.imageUrl.Some?
    ensures t == Button <==> p.link.Some?
    ensures t == Html <==> p.html.Some?
    ensures t == Image <==> p.alt.Some?
    ensures p.embedUrl.Some? ==> p.embedUrl.value == ""
    ensures t == Image ==> p.imageUrl == Some("") && p.alt == Some("Image")
    ensures t == Button ==> p.link == Some("#")
    ensures t == Html ==> p.html == Some("<div>Custom HTML Content</div>")
    ensures t == Text ==> p == NoProperties
  {
    match t
    case PowerBi => NoProperties.(embedUrl := Some(""))
    case Spreadsheet => NoProperties.(embedUrl := Some(""))
    case Image => NoProperties.(imageUrl := Some(""), alt := Some("Image"))
    case Button => NoProperties.(link := Some("#"))
    case Html => NoProperties.(html := Some("<div>Custom HTML Content</div>"))
    case Text => NoProperties
  }

  /** The default size table, kind by kind. */
  lemma DefaultSizes()
    ensures DefaultWidth(PowerBi) == 800 && DefaultHeight(PowerBi) == 600
    ensures DefaultWidth(Spreadsheet) == 800 && DefaultHeight(Spreadsheet) == 600
    ensures DefaultWidth(Button) == 120 && DefaultHeight(Button) == 40
    ensures DefaultWidth(Text) == 200 && DefaultHeight(Text) == 30
    ensures DefaultWidth(Image) == 200 && DefaultHeight(Image) == 150
    ensures DefaultWidth(Html) == 300 && DefaultHeight(Html) == 200
  {
  }

  /** A freshly added element of kind `t` with id `id`. */
  function NewElement(t: ElementType, id: string): (e: PageElement)
    ensures e.id == id && e.kind == t
    ensures e.x == 100 && e.y == 100
    ensures e.width == DefaultWidth(t) && e.height == DefaultHeight(t)
    ensures e.content == DefaultContent(t)
    ensures e.styles.backgroundColor == Some(if t == Button then "#3B82F6" else "transparent")
    ensures e.styles.textColor == Some("#FFFFFF") && e.styles.fontSize == Some(14) && e.styles.borderRadius == Some(8)
    ensures e.properties == Some(DefaultProperties(t))
  {
    PageElement(id, t, DefaultContent(t), 100, 100, DefaultWidth(t), DefaultHeight(t),
      Styles(Some(if t == Button then "#3B82F6" else "transparent"), Some("#FFFFFF"), Some(14), Some(8),
             None, Some("12px"), Some("0px")),
      Some(DefaultProperties(t)))
  }

  // ------------------------------------------------------ update and delete

  /** `Partial<PageElement>` as the editor's callers build it: any subset of the editable fields. */
  datatype ElementPatch = ElementPatch(
    content: Option<string>,
    x: Option<int>,
    y: Option<int>,
    width: Option<int>,
    height: Option<int>,
    styles: Option<Styles>,
    properties: Option<Properties>)

  const EmptyPatch := ElementPatch(None, None, None, None, None, None, None)

  /** `{...el, ...updates}`: the patch's keys win, every other key is kept. */
  function Merge(el: PageElement, p: ElementPatch): (r: PageElement)
    ensures r.id == el.id && r.kind == el.kind
    ensures r.content == p.content.GetOr(el.content)
    ensures r.x == p.x.GetOr(el.x) && r.y == p.y.GetOr(el.y)
    ensures r.width == p.width.GetOr(el.width) && r.height == p.height.GetOr(el.height)
    ensures r.styles == p.styles.GetOr(el.styles)
    ensures p.properties.Some? ==> r.properties == p.properties
    ensures p.properties.None? ==> r.properties == el.properties
  {
    el.(content := p.content.GetOr(el.content),
        x := p.x.GetOr(el.x), y := p.y.GetOr(el.y),
        width := p.width.GetOr(el.width), height := p.height.GetOr(el.height),
        styles := p.styles.GetOr(el.styles),
        properties := if p.properties.Some? then p.properties else el.properties)
  }

  /** Merging the same patch twice is merging it once. */
  lemma MergeIdempotent(el: PageElement, p: ElementPatch)
    ensures Merge(Merge(el, p), p) == Merge(el, p)
  {
  }

  /** An empty patch changes nothing. */
  lemma MergeEmpty(el: PageElement)
    ensures Merge(el, EmptyPatch) == el
  {
  }

  function UpdateElements(els: seq<PageElement>, id: string, p: ElementPatch): seq<PageElement>
  {
    MapIf(els, (e: PageElement) => e.id == id, (e: PageElement) => Merge(e, p))
  }

  function DeleteElements(els: seq<PageElement>, id: string): seq<PageElement>
  {
    Filter(els, (e: PageElement) => e.id != id)
  }

  /**
   * Update keeps length, order and every id; it merges into exactly the
   * elements carrying `id` and leaves the others equal.
   */
  lemma UpdateElementsSpec(els: seq<PageElement>, id: string, p: ElementPatch)
    ensures var r := UpdateElements(els, id, p);
      |r| == |els| &&
      (forall i :: 0 <= i < |els| ==> r[i].id == els[i].id && r[i].kind == els[i].kind) &&
      (forall i :: 0 <= i < |els| && els[i].id == id ==> r[i] == Merge(els[i], p)) &&
      (forall i :: 0 <= i < |els| && els[i].id != id ==> r[i] == els[i])
  {
  }

  /** Updating an id no element carries is a no-op. */
  lemma {:induction false} UpdateUnknownId(els: seq<PageElement>, id: string, p: ElementPatch)
    requires forall i :: 0 <= i < |els| ==> els[i].id != id
    ensures UpdateElements(els, id, p) == els
  {
    var r := UpdateElements(els, id, p);
    assert |r| == |els|;
    assert forall i :: 0 <= i < |els| ==> r[i] == els[i];
  }

  /** Delete leaves no element with `id`, and keeps every other element. */
  lemma DeleteElementsSpec(els: seq<PageElement>, id: string)
    ensures var r := DeleteElements(els, id);
      |r| <= |els| &&
      (forall i :: 0 <= i < |r| ==> r[i].id != id && r[i] in els) &&
      (forall i :: 0 <= i < |els| && els[i].id != id ==> els[i] in r)
  {
  }

  /** Adding an element with a fresh id and deleting it again restores the canvas, in order. */
  lemma {:induction false} AddThenDelete(els: seq<PageElement>, t: ElementType, id: string)
    requires forall i :: 0 <= i < |els| ==> els[i].id != id
    ensures DeleteElements(els + [NewElement(t, id)], id) == els
  {
    var keep := (e: PageElement) => e.id != id;
    FilterAppend(els, [NewElement(t, id)], keep);
    FilterKeepsAll(els, keep);
    assert Filter([NewElement(t, id)], keep) == [];
  }

  // ------------------------------------------------------------ dragging

  datatype Point = Point(x: int, y: int)

  /**
   * Where a dragged element lands: cursor minus container origin minus the
   * grab offset, each coordinate clamped at zero.
   */
  function DragTarget(cursor: Point, container: Point, offset: Point): (r: Point)
    ensures r.x >= 0 && r.y >= 0
    ensures r.x == 0 || r.x == cursor.x - container.x - offset.x
    ensures r.y == 0 || r.y == cursor.y - container.y - offset.y
  {
    Point(Max(0, cursor.x - container.x - offset.x), Max(0, cursor.y - container.y - offset.y))
  }

  /** Inside the container's visible quadrant the drag follows the cursor exactly. */
  lemma DragTargetUnclamped(cursor: Point, container: Point, offset: Point)
    requires cursor.x - container.x - offset.x >= 0 && cursor.y - container.y - offset.y >= 0
    ensures DragTarget(cursor, container, offset) ==
      Point(cursor.x - container.x - offset.x, cursor.y - container.y - offset.y)
  {
  }

  /** The payload of a drag step: only the position changes. */
  function MovePatch(target: Point): ElementPatch
  {
    EmptyPatch.(x := Some(target.x), y := Some(target.y))
  }

  predicate NonNegative(els: seq<PageElement>) {
    forall i :: 0 <= i < |els| ==> els[i].x >= 0 && els[i].y >= 0
  }

  /** A drag step never moves any element to a negative coordinate. */
  lemma {:induction false} DragKeepsNonNegative(els: seq<PageElement>, id: string, cursor: Point, container: Point, offset: Point)
    requires NonNegative(els)
    ensures NonNegative(UpdateElements(els, id, MovePatch(DragTarget(cursor, container, offset))))
  {
    var p := MovePatch(DragTarget(cursor, container, offset));
    var r := UpdateElements(els, id, p);
    forall i | 0 <= i < |r| ensures r[i].x >= 0 && r[i].y >= 0 {
      if els[i].id == id {
        assert r[i] == Merge(els[i], p);
      } else {
        assert r[i] == els[i];
      }
    }
  }

  // ---------------------------------------------------- the property panel

  /** `parseInt(v) || fallback`: NaN (None) and 0 both give the fallback. */
  function ParseIntOr(parsed: Option<int>, fallback: int): (r: int)
    ensures parsed.Some? && parsed.value != 0 ==> r == parsed.value
    ensures parsed.None? || parsed.value == 0 ==> r == fallback
  {
    if parsed.Some? && parsed.value != 0 then parsed.value else fallback
  }

  /** One edit made in the property panel; numeric inputs arrive as their `parseInt` result. */
  datatype PanelEdit =
    | SetContent(text: string)
    | SetX(parsed: Option<int>)
    | SetY(parsed: Option<int>)
    | SetWidth(parsed: Option<int>)
    | SetHeight(parsed: Option<int>)
    | SetBackgroundColor(color: string)
    | SetTextColor(color: string)
    | SetFontSize(parsed: Option<int>)
    | SetEmbedUrl(url: string)
    | SetLink(url: string)
    | SetHtml(html: string)

  /** The spread of an absent property bag is the empty bag. */
  function PropsOf(el: PageElement): Properties {
    el.properties.GetOr(NoProperties)
  }

  /** The payload the panel sends for one edit of `el`. */
  function PanelPatch(el: PageElement, edit: PanelEdit): ElementPatch
  {
    match edit
    case SetContent(s) => EmptyPatch.(content := Some(s))
    case SetX(v) => EmptyPatch.(x := Some(ParseIntOr(v, 0)))
    case SetY(v) => EmptyPatch.(y := Some(ParseIntOr(v, 0)))
    case SetWidth(v) => EmptyPatch.(width := Some(ParseIntOr(v, 100)))
    case SetHeight(v) => EmptyPatch.(height := Some(ParseIntOr(v, 50)))
    case SetBackgroundColor(c) => EmptyPatch.(styles := Some(el.styles.(backgroundColor := Some(c))))
    case SetTextColor(c) => EmptyPatch.(styles := Some(el.styles.(textColor := Some(c))))
    case SetFontSize(v) => EmptyPatch.(styles := Some(el.styles.(fontSize := Some(ParseIntOr(v, 14)))))
    case SetEmbedUrl(u) => EmptyPatch.(properties := Some(PropsOf(el).(embedUrl := Some(u))))
    case SetLink(u) => EmptyPatch.(properties := Some(PropsOf(el).(link := Some(u))))
    case SetHtml(h) => EmptyPatch.(properties := Some(PropsOf(el).(html := Some(h))))
  }

  /**
   * A panel edit changes one key of the element and keeps every other one:
   * style edits keep the other style keys, property edits the other
   * property keys, and no edit changes the id or the kind.
   */
  lemma PanelEditChangesOneKey(el: PageElement, edit: PanelEdit)
    ensures var r := Merge(el, PanelPatch(el, edit));
      r.id == el.id && r.kind == el.kind &&
      (edit.SetBackgroundColor? ==> r.styles == el.styles.(backgroundColor := Some(edit.color)) &&
                                    r.properties == el.properties && r.x == el.x && r.content == el.content) &&
      (edit.SetTextColor? ==> r.styles == el.styles.(textColor := Some(edit.color))) &&
      (edit.SetEmbedUrl? ==> r.properties == Some(PropsOf(el).(embedUrl := Some(edit.url))) && r.styles == el.styles) &&
      (edit.SetLink? ==> r.properties == Some(PropsOf(el).(link := Some(edit.url)))) &&
      (edit.SetHtml? ==> r.properties == Some(PropsOf(el).(html := Some(edit.html)))) &&
      (edit.SetContent? ==> r == el.(content := edit.text))
  {
  }

  /** Input that is not a number, or is zero, falls back to 0, 0, 100, 50 and 14. */
  lemma PanelNumericFallbacks(el: PageElement, bad: Option<int>)
    requires bad.None? || bad == Some(0)
    ensures Merge(el, PanelPatch(el, SetX(bad))).x == 0
    ensures Merge(el, PanelPatch(el, SetY(bad))).y == 0
    ensures Merge(el, PanelPatch(el, SetWidth(bad))).width == 100
    ensures Merge(el, PanelPatch(el, SetHeight(bad))).height == 50
    ensures Merge(el, PanelPatch(el, SetFontSize(bad))).styles.fontSize == Some(14)
  {
  }

  // -------------------------------------------- scoped writes to the store

  /** Which canvas the editor edits: the main page's own, or one subpage's. */
  datatype Scope = MainScope | SubScope

  function SaveSubPages(subs: seq<SubPage>, subId: string, els: seq<PageElement>, now: string): seq<SubPage>
  {
    MapIf(subs, (sp: SubPage) => sp.id == subId, (sp: SubPage) => sp.(elements := els, updatedAt := now))
  }

  /**
   * The `enhancedPages` collection after an auto-save of `els`. Main scope
   * replaces the target page's elements and updatedAt; sub scope replaces the
   * target subpage's elements and updatedAt and the page's updatedAt; sub
   * scope without a subpage id writes nothing.
   */
  function AutoSavePages(pages: seq<MainPage>, scope: Scope, pageId: string, subPageId: Option<string>,
                         els: seq<PageElement>, now: string): (r: seq<MainPage>)
    ensures |r| == |pages|
    ensures forall i :: 0 <= i < |pages| ==> r[i].id == pages[i].id
    ensures forall i :: 0 <= i < |pages| && pages[i].id != pageId ==> r[i] == pages[i]
    ensures scope == MainScope ==>
      forall i :: 0 <= i < |pages| && pages[i].id == pageId ==> r[i] == pages[i].(elements := els, updatedAt := now)
    ensures scope == SubScope && Truthy(subPageId) ==>
      forall i :: 0 <= i < |pages| && pages[i].id == pageId ==>
        r[i] == pages[i].(subPages := SaveSubPages(pages[i].subPages, subPageId.value, els, now), updatedAt := now)
    ensures scope == SubScope && !Truthy(subPageId) ==> r == pages
  {
    match scope
    case MainScope =>
      MapIf(pages, (p: MainPage) => p.id == pageId, (p: MainPage) => p.(elements := els, updatedAt := now))
    case SubScope =>
      if Truthy(subPageId) then
        MapIf(pages, (p: MainPage) => p.id == pageId,
              (p: MainPage) => p.(subPages := SaveSubPages(p.subPages, subPageId.value, els, now), updatedAt := now))
      else pages
  }

  /** Inside the target page, a subpage save keeps every subpage's id and changes only the target subpage. */
  lemma SaveSubPagesSpec(subs: seq<SubPage>, subId: string, els: seq<PageElement>, now: string)
    ensures var r := SaveSubPages(subs, subId, els, now);
      |r| == |subs| &&
      (forall i :: 0 <= i < |subs| ==> r[i].id == subs[i].id && r[i].kind == subs[i].kind) &&
      (forall i :: 0 <= i < |subs| && subs[i].id != subId ==> r[i] == subs[i]) &&
      (forall i :: 0 <= i < |subs| && subs[i].id == subId ==> r[i] == subs[i].(elements := els, updatedAt := now))
  {
  }

  function FindElement(els: seq<PageElement>, id: string): Option<PageElement> {
    Find(els, (e: PageElement) => e.id == id)
  }

  function FindPage(pages: seq<MainPage>, pageId: string): Option<MainPage> {
    Find(pages, (p: MainPage) => p.id == pageId)
  }

  function FindSubPage(subs: seq<SubPage>, subId: string): Option<SubPage> {
    Find(subs, (sp: SubPage) => sp.id == subId)
  }

  /**
   * The canvas `loadPageData` shows for a scope, or None when it leaves the
   * editor's elements as they were (unknown page, sub scope without an id,
   * unknown subpage).
   */
  function LoadScope(pages: seq<MainPage>, scope: Scope, pageId: string, subPageId: Option<string>): (r: Option<seq<PageElement>>)
    ensures FindPage(pages, pageId).None? ==> r.None?
    ensures scope == MainScope && FindPage(pages, pageId).Some? ==> r == Some(FindPage(pages, pageId).value.elements)
    ensures scope == SubScope && !Truthy(subPageId) ==> r.None?
  {
    match FindPage(pages, pageId)
    case None => None
    case Some(page) =>
      match scope
      case MainScope => Some(page.elements)
      case SubScope =>
        if Truthy(subPageId) then
          match FindSubPage(page.subPages, subPageId.value)
          case None => None
          case Some(sp) => Some(sp.elements)
        else None
  }

  /**
   * What is saved is what is loaded: after an auto-save of `els` to an
   * existing canvas, loading the same scope yields exactly `els`.
   */
  lemma {:induction false} AutoSaveThenLoad(pages: seq<MainPage>, scope: Scope, pageId: string, subPageId: Option<string>,
                                            els: seq<PageElement>, now: string)
    requires FindPage(pages, pageId).Some?
    requires scope == SubScope ==>
      Truthy(subPageId) && FindSubPage(FindPage(pages, pageId).value.subPages, subPageId.value).Some?
    ensures LoadScope(AutoSavePages(pages, scope, pageId, subPageId, els, now), scope, pageId, subPageId) == Some(els)
  {
    var isPage := (p: MainPage) => p.id == pageId;
    var r := AutoSavePages(pages, scope, pageId, subPageId, els, now);
    var k := FindIndex(pages, isPage).value;
    assert FindIndex(r, isPage) == FindIndex(pages, isPage) by {
      match scope
      case MainScope =>
        FindIndexMapIf(pages, isPage, (p: MainPage) => p.(elements := els, updatedAt := now), isPage);
      case SubScope =>
        FindIndexMapIf(pages, isPage,
          (p: MainPage) => p.(subPages := SaveSubPages(p.subPages, subPageId.value, els, now), updatedAt := now), isPage);
    }
    assert FindPage(r, pageId) == Some(r[k]);
    if scope == SubScope {
      var subs := pages[k].subPages;
      var isSub := (sp: SubPage) => sp.id == subPageId.value;
      var f := (sp: SubPage) => sp.(elements := els, updatedAt := now);
      FindIndexMapIf(subs, isSub, f, isSub);
      assert r[k].subPages == MapIf(subs, isSub, f);
      var j := FindIndex(subs, isSub).value;
      assert FindSubPage(r[k].subPages, subPageId.value) == Some(r[k].subPages[j]);
    }
  }

  // ------------------------------------------------------------ the editor

  /** The editor's component state. */
  datatype EditorView = EditorView(
    elements: seq<PageElement>,
    selected: Option<string>,
    dragged: Option<string>,
    dragOffset: Point,
    currentPage: Option<MainPage>,
    currentSubPage: Option<SubPage>)

  class Editor {
    const store: LocalStore
    const pageId: string
    const scope: Scope
    const subPageId: Option<string>

    var elements: seq<PageElement>
    var selected: Option<string>
    var dragged: Option<string>
    var dragOffset: Point
    var currentPage: Option<MainPage>
    var currentSubPage: Option<SubPage>

    function View(): EditorView
      reads this
    {
      EditorView(elements, selected, dragged, dragOffset, currentPage, currentSubPage)
    }

    constructor (store: LocalStore, pageId: string, scope: Scope, subPageId: Option<string>)
      ensures this.store == store && this.pageId == pageId && this.scope == scope && this.subPageId == subPageId
      ensures View() == EditorView([], None, None, Point(0, 0), None, None)
    {
      this.store, this.pageId, this.scope, this.subPageId := store, pageId, scope, subPageId;
      elements, selected, dragged, dragOffset := [], None, None, Point(0, 0);
      currentPage, currentSubPage := None, None;
    }

    /** `loadPageData`: show the scope's stored canvas, if there is one. */
    method LoadPageData()
      modifies this
      ensures elements == LoadScope(store.enhancedPages, scope, pageId, subPageId).GetOr(old(elements))
      ensures currentPage == (if FindPage(store.enhancedPages, pageId).Some? then FindPage(store.enhancedPages, pageId) else old(currentPage))
      ensures var page := FindPage(store.enhancedPages, pageId);
        currentSubPage ==
          if page.Some? && scope != MainScope && Truthy(subPageId) && FindSubPage(page.value.subPages, subPageId.value).Some?
          then FindSubPage(page.value.subPages, subPageId.value) else old(currentSubPage)
      ensures selected == old(selected) && dragged == old(dragged) && dragOffset == old(dragOffset)
    {
      var page := FindPage(store.enhancedPages, pageId);
      if page.Some? {
        currentPage := page;
        if scope == MainScope {
          elements := page.value.elements;
        } else if Truthy(subPageId) {
          var sub := FindSubPage(page.value.subPages, subPageId.value);
          if sub.Some? {
            currentSubPage := sub;
            elements := sub.value.elements;
          }
        }
      }
    }

    /** `autoSave`: write `els` into this editor's canvas in the stored collection. */
    method AutoSave(els: seq<PageElement>, now: string)
      modifies store
      ensures store.State() == old(store.State()).(enhancedPages := AutoSavePages(old(store.enhancedPages), scope, pageId, subPageId, els, now))
    {
      var pages := store.enhancedPages;
      if scope == MainScope {
        store.enhancedPages := AutoSavePages(pages, MainScope, pageId, subPageId, els, now);
      } else if Truthy(subPageId) {
        store.enhancedPages := AutoSavePages(pages, SubScope, pageId, subPageId, els, now);
      }
    }

    /** `addElement`: append one default element of kind `t`; the selection is not changed. */
    method AddElement(t: ElementType, id: string, now: string)
      modifies this, store
      ensures View() == old(View()).(elements := old(elements) + [NewElement(t, id)])
      ensures store.State() == old(store.State()).(enhancedPages := AutoSavePages(old(store.enhancedPages), scope, pageId, subPageId, elements, now))
    {
      var updated := elements + [NewElement(t, id)];
      elements := updated;
      AutoSave(updated, now);
    }

    /** `updateElement`: shallow-merge `patch` into the elements carrying `id`. */
    method UpdateElement(id: string, patch: ElementPatch, now: string)
      modifies this, store
      ensures View() == old(View()).(elements := UpdateElements(old(elements), id, patch))
      ensures store.State() == old(store.State()).(enhancedPages := AutoSavePages(old(store.enhancedPages), scope, pageId, subPageId, elements, now))
    {
      var updated := UpdateElements(elements, id, patch);
      elements := updated;
      AutoSave(updated, now);
    }

    /** `deleteElement`: drop the elements carrying `id` and clear the selection. */
    method DeleteElement(id: string, now: string)
      modifies this, store
      ensures View() == old(View()).(elements := DeleteElements(old(elements), id), selected := None)
      ensures store.State() == old(store.State()).(enhancedPages := AutoSavePages(old(store.enhancedPages), scope, pageId, subPageId, elements, now))
    {
      var updated := DeleteElements(elements, id);
      elements := updated;
      selected := None;
      AutoSave(updated, now);
    }

    /**
     * `handleMouseDown`: outside edit mode nothing happens; otherwise the
     * element becomes both dragged and selected, and when it exists the grab
     * offset is the cursor's position inside the element's box.
     */
    method MouseDown(isEditMode: bool, elementId: string, cursor: Point, elementBox: Point)
      modifies this
      ensures !isEditMode ==> View() == old(View())
      ensures isEditMode ==> dragged == Some(elementId) && selected == Some(elementId)
      ensures isEditMode ==>
        dragOffset == (if FindElement(old(elements), elementId).Some?
                       then Point(cursor.x - elementBox.x, cursor.y - elementBox.y) else old(dragOffset))
      ensures elements == old(elements) && currentPage == old(currentPage) && currentSubPage == old(currentSubPage)
    {
      if !isEditMode {
        return;
      }
      dragged := Some(elementId);
      selected := Some(elementId);
      var element := FindElement(elements, elementId);
      if element.None? {
        return;
      }
      dragOffset := Point(cursor.x - elementBox.x, cursor.y - elementBox.y);
    }

    /**
     * `handleMouseMove`: with something dragged and a mounted container, move
     * the dragged element to the clamped target; otherwise nothing happens.
     */
    method MouseMove(cursor: Point, container: Option<Point>, now: string)
      modifies this, store
      ensures !Truthy(old(dragged)) || container.None? ==> View() == old(View()) && store.State() == old(store.State())
      ensures Truthy(old(dragged)) && container.Some? ==>
        View() == old(View()).(elements := UpdateElements(old(elements), old(dragged).value,
                                            MovePatch(DragTarget(cursor, container.value, old(dragOffset))))) &&
        store.State() == old(store.State()).(enhancedPages := AutoSavePages(old(store.enhancedPages), scope, pageId, subPageId, elements, now))
    {
      if !Truthy(dragged) || container.None? {
        return;
      }
      var target := DragTarget(cursor, container.value, dragOffset);
      UpdateElement(dragged.value, MovePatch(target), now);
    }

    /** `handleMouseUp`: only the dragged id is cleared. */
    method MouseUp()
      modifies this
      ensures View() == old(View()).(dragged := None)
    {
      dragged := None;
    }

    /**
     * An edit in the property panel, which is shown for the selected element:
     * the edit's payload is merged into that element.
     */
    method PanelUpdate(edit: PanelEdit, now: string)
      modifies this, store
      ensures var el := if Truthy(old(selected)) then FindElement(old(elements), old(selected).value) else None;
        if el.Some? then
          View() == old(View()).(elements := UpdateElements(old(elements), old(selected).value, PanelPatch(el.value, edit))) &&
          store.State() == old(store.State()).(enhancedPages := AutoSavePages(old(store.enhancedPages), scope, pageId, subPageId, elements, now))
        else
          View() == old(View()) && store.State() == old(store.State())
    {
      if !Truthy(selected) {
        return;
      }
      var el := FindElement(elements, selected.value);
      if el.None? {
        return;
      }
      UpdateElement(selected.value, PanelPatch(el.value, edit), now);
    }
  }
}
