/**
 * The legacy layout editor: one canvas per page id, kept as an entry of the
 * `pageLayouts` map. Every change rewrites that entry, stamps
 * `lastLayoutUpdate`, and appends "layout_updated" followed by the change's
 * own action to the audit log.
 */
module LayoutEditor {
  import opened Basics
  import opened Seqs
  import opened Records
  import opened Storage

  // ---------------------------------------------------------------- defaults

  function LegacyContent(k: LegacyKind): string {
    match k
    case LegacyButton => "New Button"
    case LegacyCard => "New Card"
    case LegacyText => "New Text"
    case LegacyShape => ""
  }

  function LegacyWidth(k: LegacyKind): (w: int)
    ensures w > 0
  {
    match k
    case LegacyButton => 120
    case LegacyCard => 200
    case LegacyShape => 100
    case LegacyText => 150
  }

  function LegacyHeight(k: LegacyKind): (h: int)
    ensures h > 0
  {
    match k
    case LegacyButton => 40
    case LegacyCard => 120
    case LegacyShape => 100
    case LegacyText => 30
  }

  function LegacyBackground(k: LegacyKind): string {
    match k
    case LegacyButton => "#0f2027"
    case LegacyCard => "#1a1a2e"
    case _ => "#2c5364"
  }

  /** The default size and content table, kind by kind. */
  lemma LegacyDefaults()
    ensures LegacyWidth(LegacyButton) == 120 && LegacyHeight(LegacyButton) == 40 && LegacyContent(LegacyButton) == "New Button"
    ensures LegacyWidth(LegacyCard) == 200 && LegacyHeight(LegacyCard) == 120 && LegacyContent(LegacyCard) == "New Card"
    ensures LegacyWidth(LegacyShape) == 100 && LegacyHeight(LegacyShape) == 100 && LegacyContent(LegacyShape) == ""
    ensures LegacyWidth(LegacyText) == 150 && LegacyHeight(LegacyText) == 30 && LegacyContent(LegacyText) == "New Text"
  {
  }

  /** A new element: at (100,100); only a button has a link, only a shape is round. */
  function NewLegacyElement(k: LegacyKind, id: string): (e: LegacyElement)
    ensures e.id == id && e.kind == k && e.x == 100 && e.y == 100
    ensures e.width == LegacyWidth(k) && e.height == LegacyHeight(k) && e.content == LegacyContent(k)
    ensures e.link.Some? <==> k == LegacyButton
    ensures e.link.Some? ==> e.link.value == "#"
    ensures e.borderRadius == (if k == LegacyShape then 50 else 8)
    ensures e.textColor == "#ffffff" && e.fontSize == 14 && e.backgroundColor == LegacyBackground(k)
  {
    LegacyElement(id, k, LegacyContent(k), 100, 100, LegacyWidth(k), LegacyHeight(k),
      LegacyBackground(k), "#ffffff", if k == LegacyButton then Some("#") else None,
      if k == LegacyShape then 50 else 8, 14)
  }

  // -------------------------------------------------------- list operations

  /** The partial updates the editor makes: content, position, background colour. */
  datatype LegacyPatch = LegacyPatch(content: Option<string>, x: Option<int>, y: Option<int>, backgroundColor: Option<string>)

  function MergeLegacy(e: LegacyElement, p: LegacyPatch): (r: LegacyElement)
    ensures r.id == e.id && r.kind == e.kind && r.width == e.width && r.height == e.height
    ensures r.link == e.link && r.textColor == e.textColor && r.borderRadius == e.borderRadius && r.fontSize == e.fontSize
    ensures r.content == (if p.content.Some? then p.content.value else e.content)
    ensures r.x == (if p.x.Some? then p.x.value else e.x) && r.y == (if p.y.Some? then p.y.value else e.y)
    ensures r.backgroundColor == (if p.backgroundColor.Some? then p.backgroundColor.value else e.backgroundColor)
  {
    e.(content := p.content.GetOr(e.content), x := p.x.GetOr(e.x), y := p.y.GetOr(e.y),
       backgroundColor := p.backgroundColor.GetOr(e.backgroundColor))
  }

  function UpdateLegacy(els: seq<LegacyElement>, id: string, p: LegacyPatch): seq<LegacyElement> {
    MapIf(els, (e: LegacyElement) => e.id == id, (e: LegacyElement) => MergeLegacy(e, p))
  }

  function DeleteLegacy(els: seq<LegacyElement>, id: string): seq<LegacyElement> {
    Filter(els, (e: LegacyElement) => e.id != id)
  }

  function FindLegacy(els: seq<LegacyElement>, id: string): Option<LegacyElement> {
    Find(els, (e: LegacyElement) => e.id == id)
  }

  /** The list after `duplicateElement`, or None when no element has `id` (nothing happens). */
  function DuplicateLegacy(els: seq<LegacyElement>, id: string, newId: string): (r: Option<seq<LegacyElement>>)
    ensures r.None? <==> forall i :: 0 <= i < |els| ==> els[i].id != id
    ensures r.Some? ==> |r.value| == |els| + 1 && r.value[..|els|] == els
    ensures r.Some? ==> var c := r.value[|els|]; var o := FindLegacy(els, id).value;
      c == o.(id := newId, x := o.x + 20, y := o.y + 20)
  {
    match FindLegacy(els, id)
    case None => None
    case Some(o) => Some(els + [o.(id := newId, x := o.x + 20, y := o.y + 20)])
  }

  /** The copy differs from its original only in id and in being offset by (20, 20). */
  lemma DuplicateOffset(els: seq<LegacyElement>, id: string, newId: string)
    requires exists i :: 0 <= i < |els| && els[i].id == id
    ensures var r := DuplicateLegacy(els, id, newId).value;
      var o := FindLegacy(els, id).value;
      o in els && o.id == id &&
      r[|els|].id == newId && r[|els|].x == o.x + 20 && r[|els|].y == o.y + 20 &&
      r[|els|].(id := o.id, x := o.x, y := o.y) == o
  {
  }

  // ------------------------------------------------------- the layouts map

  /** `loadPageLayout`: the stored canvas of `pageId`, if the entry and its elements exist. */
  function LoadLayout(layouts: map<string, Layout>, pageId: string): (r: Option<seq<LegacyElement>>)
    ensures r.Some? <==> pageId in layouts && layouts[pageId].elements.Some?
  {
    if pageId in layouts then layouts[pageId].elements else None
  }

  /**
   * The store after `savePageLayout(els)` at `now`: only `layouts[pageId]`
   * is overwritten, `lastLayoutUpdate` is stamped, "layout_updated" logged.
   */
  function SaveLayout(s: StoreState, pageId: string, els: seq<LegacyElement>, now: string, role: string): StoreState {
    Logged(s.(pageLayouts := s.pageLayouts[pageId := Layout(Some(els), now)], lastLayoutUpdate := Some(now)),
           now, "layout_updated", map["pageId" := pageId, "timestamp" := now], role)
  }

  /** A change: save the canvas, then log the change's own action. */
  function Changed(s: StoreState, pageId: string, els: seq<LegacyElement>, now: string, role: string,
                   action: string, data: map<string, string>): StoreState {
    Logged(SaveLayout(s, pageId, els, now, role), now, action, data, role)
  }

  /**
   * Saving then loading returns the saved canvas; every other page's entry
   * is untouched; the log gains "layout_updated" then the action; no other
   * list key changes.
   */
  lemma {:induction false} ChangedSpec(s: StoreState, pageId: string, els: seq<LegacyElement>, now: string, role: string,
                                       action: string, data: map<string, string>)
    ensures var t := Changed(s, pageId, els, now, role, action, data);
      LoadLayout(t.pageLayouts, pageId) == Some(els) &&
      (forall q :: q != pageId ==> (q in t.pageLayouts <==> q in s.pageLayouts)) &&
      (forall q :: q != pageId && q in s.pageLayouts ==> t.pageLayouts[q] == s.pageLayouts[q]) &&
      |t.autoSaveLog| == |s.autoSaveLog| + 2 && t.autoSaveLog[..|s.autoSaveLog|] == s.autoSaveLog &&
      t.autoSaveLog[|s.autoSaveLog|].action == "layout_updated" && t.autoSaveLog[|s.autoSaveLog| + 1].action == action &&
      t.lastLayoutUpdate == Some(now) && t.lastAutoSave == Some(now) &&
      t.enhancedPages == s.enhancedPages && t.adminPages == s.adminPages && t.adminUsers == s.adminUsers &&
      t.pendingRegistrations == s.pendingRegistrations
  {
    var m := SaveLayout(s, pageId, els, now, role);
    LogAppendOnly(s.(pageLayouts := s.pageLayouts[pageId := Layout(Some(els), now)], lastLayoutUpdate := Some(now)),
                  now, "layout_updated", map["pageId" := pageId, "timestamp" := now], role, now, action, data, role);
  }

  // ------------------------------------------------------------- the editor

  datatype Point = Point(x: int, y: int)

  datatype Menu = Menu(x: int, y: int, elementId: string)

  datatype LayoutView = LayoutView(
    elements: seq<LegacyElement>,
    selected: Option<string>,
    dragged: Option<string>,
    dragOffset: Point,
    contextMenu: Option<Menu>)

  class Editor {
    const store: LocalStore
    const pageId: string
    /** The role state of the shell whose audit hook this editor calls. */
    const role: string

    var elements: seq<LegacyElement>
    var selected: Option<string>
    var dragged: Option<string>
    var dragOffset: Point
    var contextMenu: Option<Menu>

    function View(): LayoutView
      reads this
    {
      LayoutView(elements, selected, dragged, dragOffset, contextMenu)
    }

    constructor (store: LocalStore, pageId: string, role: string)
      ensures this.store == store && this.pageId == pageId && this.role == role
      ensures View() == LayoutView([], None, None, Point(0, 0), None)
    {
      this.store, this.pageId, this.role := store, pageId, role;
      elements, selected, dragged, dragOffset, contextMenu := [], None, None, Point(0, 0), None;
    }

    /** `loadPageLayout`: a page without a stored canvas keeps the current elements. */
    method Load()
      modifies this
      ensures View() == old(View()).(elements := LoadLayout(store.pageLayouts, pageId).GetOr(old(elements)))
    {
      var layouts := store.pageLayouts;
      if pageId in layouts && layouts[pageId].elements.Some? {
        elements := layouts[pageId].elements.value;
      }
    }

    /** `savePageLayout` */
    method SavePageLayout(els: seq<LegacyElement>, now: string)
      modifies store
      ensures store.State() == SaveLayout(old(store.State()), pageId, els, now, role)
    {
      var layouts := store.pageLayouts;
      layouts := layouts[pageId := Layout(Some(els), now)];
      store.pageLayouts := layouts;
      store.lastLayoutUpdate := Some(now);
      store.SaveToDatabase(now, "layout_updated", map["pageId" := pageId, "timestamp" := now], role);
    }

    /** `addElement`: append one default element, save and log "element_added". */
    method Add(k: LegacyKind, id: string, now: string)
      modifies this, store
      ensures View() == old(View()).(elements := old(elements) + [NewLegacyElement(k, id)])
      ensures store.State() == Changed(old(store.State()), pageId, elements, now, role, "element_added", map["pageId" := pageId])
    {
      var updated := elements + [NewLegacyElement(k, id)];
      elements := updated;
      SavePageLayout(updated, now);
      store.SaveToDatabase(now, "element_added", map["pageId" := pageId], role);
    }

    /** `updateElement`: merge into the element with `id`, save and log "element_updated". */
    method Update(id: string, patch: LegacyPatch, now: string)
      modifies this, store
      ensures View() == old(View()).(elements := UpdateLegacy(old(elements), id, patch))
      ensures store.State() == Changed(old(store.State()), pageId, elements, now, role, "element_updated",
                                       map["pageId" := pageId, "elementId" := id])
    {
      var updated := UpdateLegacy(elements, id, patch);
      elements := updated;
      SavePageLayout(updated, now);
      store.SaveToDatabase(now, "element_updated", map["pageId" := pageId, "elementId" := id], role);
    }

    /** `deleteElement`: drop the element, save and log "element_deleted"; the selection is kept. */
    method Delete(id: string, now: string)
      modifies this, store
      ensures View() == old(View()).(elements := DeleteLegacy(old(elements), id))
      ensures store.State() == Changed(old(store.State()), pageId, elements, now, role, "element_deleted",
                                       map["pageId" := pageId, "elementId" := id])
    {
      var updated := DeleteLegacy(elements, id);
      elements := updated;
      SavePageLayout(updated, now);
      store.SaveToDatabase(now, "element_deleted", map["pageId" := pageId, "elementId" := id], role);
    }

    /** `duplicateElement`: unknown id → nothing; else append the offset copy, save and log. */
    method Duplicate(id: string, newId: string, now: string)
      modifies this, store
      ensures DuplicateLegacy(old(elements), id, newId).None? ==> View() == old(View()) && store.State() == old(store.State())
      ensures DuplicateLegacy(old(elements), id, newId).Some? ==>
        View() == old(View()).(elements := DuplicateLegacy(old(elements), id, newId).value) &&
        store.State() == Changed(old(store.State()), pageId, elements, now, role, "element_duplicated",
                                 map["pageId" := pageId, "originalId" := id])
    {
      var element := FindLegacy(elements, id);
      if element.None? {
        return;
      }
      var o := element.value;
      var updated := elements + [o.(id := newId, x := o.x + 20, y := o.y + 20)];
      elements := updated;
      SavePageLayout(updated, now);
      store.SaveToDatabase(now, "element_duplicated", map["pageId" := pageId, "originalId" := id], role);
    }

    /** `handleMouseDown`: ignored outside edit mode; else select and start dragging. */
    method MouseDown(isEditMode: bool, elementId: string, cursor: Point, elementBox: Point)
      modifies this
      ensures !isEditMode ==> View() == old(View())
      ensures isEditMode ==> dragged == Some(elementId) && selected == Some(elementId)
      ensures isEditMode ==>
        dragOffset == (if FindLegacy(old(elements), elementId).Some?
                       then Point(cursor.x - elementBox.x, cursor.y - elementBox.y) else old(dragOffset))
      ensures elements == old(elements) && contextMenu == old(contextMenu)
    {
      if !isEditMode {
        return;
      }
      dragged := Some(elementId);
      selected := Some(elementId);
      if FindLegacy(elements, elementId).None? {
        return;
      }
      dragOffset := Point(cursor.x - elementBox.x, cursor.y - elementBox.y);
    }

    /** `handleMouseMove`: move the dragged element to the cursor, clamped at zero. */
    method MouseMove(cursor: Point, container: Option<Point>, now: string)
      modifies this, store
      ensures !Truthy(old(dragged)) || container.None? ==> View() == old(View()) && store.State() == old(store.State())
      ensures Truthy(old(dragged)) && container.Some? ==>
        var nx := Max(0, cursor.x - container.value.x - old(dragOffset).x);
        var ny := Max(0, cursor.y - container.value.y - old(dragOffset).y);
        nx >= 0 && ny >= 0 &&
        View() == old(View()).(elements := UpdateLegacy(old(elements), old(dragged).value, LegacyPatch(None, Some(nx), Some(ny), None))) &&
        store.State() == Changed(old(store.State()), pageId, elements, now, role, "element_updated",
                                 map["pageId" := pageId, "elementId" := old(dragged).value])
    {
      if !Truthy(dragged) || container.None? {
        return;
      }
      var newX := cursor.x - container.value.x - dragOffset.x;
      var newY := cursor.y - container.value.y - dragOffset.y;
      Update(dragged.value, LegacyPatch(None, Some(Max(0, newX)), Some(Max(0, newY)), None), now);
    }

    method MouseUp()
      modifies this
      ensures View() == old(View()).(dragged := None)
    {
      dragged := None;
    }

    /** `handleRightClick`: outside edit mode nothing happens; else the menu opens at the cursor. */
    method RightClick(isEditMode: bool, elementId: string, cursor: Point)
      modifies this
      ensures View() == if isEditMode then old(View()).(contextMenu := Some(Menu(cursor.x, cursor.y, elementId))) else old(View())
    {
      if !isEditMode {
        return;
      }
      contextMenu := Some(Menu(cursor.x, cursor.y, elementId));
    }

    /**
     * `handleEditContent`: an unknown element changes nothing (the menu stays
     * open); a cancelled prompt (None) changes no element; the menu closes.
     */
    method EditContent(elementId: string, answer: Option<string>, now: string)
      modifies this, store
      ensures FindLegacy(old(elements), elementId).None? ==> View() == old(View()) && store.State() == old(store.State())
      ensures FindLegacy(old(elements), elementId).Some? && answer.None? ==>
        View() == old(View()).(contextMenu := None) && store.State() == old(store.State())
      ensures FindLegacy(old(elements), elementId).Some? && answer.Some? ==>
        View() == old(View()).(elements := UpdateLegacy(old(elements), elementId, LegacyPatch(answer, None, None, None)), contextMenu := None) &&
        store.State() == Changed(old(store.State()), pageId, elements, now, role, "element_updated",
                                 map["pageId" := pageId, "elementId" := elementId])
    {
      if FindLegacy(elements, elementId).None? {
        return;
      }
      if answer.Some? {
        Update(elementId, LegacyPatch(answer, None, None, None), now);
      }
      contextMenu := None;
    }

    /** `handleChangeColor`: only a non-empty answer recolours the element; the menu closes. */
    method ChangeColor(elementId: string, answer: Option<string>, now: string)
      modifies this, store
      ensures FindLegacy(old(elements), elementId).None? ==> View() == old(View()) && store.State() == old(store.State())
      ensures FindLegacy(old(elements), elementId).Some? && !Truthy(answer) ==>
        View() == old(View()).(contextMenu := None) && store.State() == old(store.State())
      ensures FindLegacy(old(elements), elementId).Some? && Truthy(answer) ==>
        View() == old(View()).(elements := UpdateLegacy(old(elements), elementId, LegacyPatch(None, None, None, answer)), contextMenu := None) &&
        store.State() == Changed(old(store.State()), pageId, elements, now, role, "element_updated",
                                 map["pageId" := pageId, "elementId" := elementId])
    {
      if FindLegacy(elements, elementId).None? {
        return;
      }
      if Truthy(answer) {
        Update(elementId, LegacyPatch(None, None, None, answer), now);
      }
      contextMenu := None;
    }

    /** The context menu's Delete entry: delete the menu's element, then close the menu. */
    method MenuDelete(now: string)
      modifies this, store
      ensures old(contextMenu).None? ==> View() == old(View()) && store.State() == old(store.State())
      ensures old(contextMenu).Some? ==>
        View() == old(View()).(elements := DeleteLegacy(old(elements), old(contextMenu).value.elementId), contextMenu := None) &&
        store.State() == Changed(old(store.State()), pageId, elements, now, role, "element_deleted",
                                 map["pageId" := pageId, "elementId" := old(contextMenu).value.elementId])
    {
      if contextMenu.None? {
        return;
      }
      Delete(contextMenu.value.elementId, now);
      contextMenu := None;
    }

    /** The context menu's Duplicate entry: duplicate the menu's element, then close the menu. */
    method MenuDuplicate(newId: string, now: string)
      modifies this, store
      ensures old(contextMenu).None? ==> View() == old(View()) && store.State() == old(store.State())
      ensures old(contextMenu).Some? && DuplicateLegacy(old(elements), old(contextMenu).value.elementId, newId).None? ==>
        View() == old(View()).(contextMenu := None) && store.State() == old(store.State())
      ensures old(contextMenu).Some? && DuplicateLegacy(old(elements), old(contextMenu).value.elementId, newId).Some? ==>
        View() == old(View()).(elements := DuplicateLegacy(old(elements), old(contextMenu).value.elementId, newId).value, contextMenu := None) &&
        store.State() == Changed(old(store.State()), pageId, elements, now, role, "element_duplicated",
                                 map["pageId" := pageId, "originalId" := old(contextMenu).value.elementId])
    {
      if contextMenu.None? {
        return;
      }
      Duplicate(contextMenu.value.elementId, newId, now);
      contextMenu := None;
    }
  }
}
