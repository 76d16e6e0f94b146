/**
 * The developer console's statistics cards: pages available for editing,
 * the elements placed across all saved layouts, the number of modified
 * pages and the time of the last layout change.
 */
module DeveloperStats {
  import opened Basics
  import opened Records
  import opened Storage
  import opened LayoutEditor

  /** A layout's element count; a layout without an `elements` list adds nothing. */
  function ElementsOf(l: Layout): nat {
    if l.elements.Some? then |l.elements.value| else 0
  }

  /** The element counts of every saved layout, summed (in no particular key order). */
  ghost function ElementTotal(layouts: map<string, Layout>): nat
    decreases |layouts|
  {
    if layouts == map[] then 0
    else
      var k :| k in layouts;
      ElementsOf(layouts[k]) + ElementTotal(layouts - {k})
  }

  /** The sum does not depend on the order the keys are visited in: any key can be taken out first. */
  lemma {:induction false} ElementTotalRemove(layouts: map<string, Layout>, k: string)
    requires k in layouts
    ensures ElementTotal(layouts) == ElementsOf(layouts[k]) + ElementTotal(layouts - {k})
    decreases |layouts|
  {
    var j :| j in layouts && ElementTotal(layouts) == ElementsOf(layouts[j]) + ElementTotal(layouts - {j});
    if j != k {
      var both := layouts - {j} - {k};
      assert layouts - {k} - {j} == both;
      assert |layouts - {j}| == |layouts| - 1;
      ElementTotalRemove(layouts - {j}, k);
      assert |layouts - {k}| == |layouts| - 1;
      ElementTotalRemove(layouts - {k}, j);
    }
  }

  /** Saving a canvas under a page replaces that page's contribution with the new element count. */
  lemma ElementTotalAfterSave(layouts: map<string, Layout>, pageId: string, els: seq<LegacyElement>, now: string)
    ensures ElementTotal(layouts[pageId := Layout(Some(els), now)]) == |els| + ElementTotal(layouts - {pageId})
  {
    var m := layouts[pageId := Layout(Some(els), now)];
    ElementTotalRemove(m, pageId);
    assert m - {pageId} == layouts - {pageId};
  }

  /** Resetting a page's layout removes exactly that page's elements from the total. */
  lemma ElementTotalAfterReset(layouts: map<string, Layout>, pageId: string)
    requires pageId in layouts
    ensures ElementTotal(layouts - {pageId}) + ElementsOf(layouts[pageId]) == ElementTotal(layouts)
  {
    ElementTotalRemove(layouts, pageId);
  }

  /** The stored layouts' element total after `savePageLayout` grows by the canvas when the page had none. */
  lemma SaveLayoutCountsCanvas(s: StoreState, pageId: string, els: seq<LegacyElement>, now: string, role: string)
    requires pageId !in s.pageLayouts
    ensures ElementTotal(SaveLayout(s, pageId, els, now, role).pageLayouts) == ElementTotal(s.pageLayouts) + |els|
    ensures |SaveLayout(s, pageId, els, now, role).pageLayouts.Keys| == |s.pageLayouts.Keys| + 1
  {
    ElementTotalAfterSave(s.pageLayouts, pageId, els, now);
    assert s.pageLayouts - {pageId} == s.pageLayouts;
  }

  /** The `forEach` over the layouts: each layout with an element list adds its length. */
  method EditableElements(layouts: map<string, Layout>) returns (total: nat)
    ensures total == ElementTotal(layouts)
  {
    total := 0;
    var rest := layouts;
    while rest != map[]
      invariant total + ElementTotal(rest) == ElementTotal(layouts)
      decreases |rest|
    {
      var k :| k in rest;
      ElementTotalRemove(rest, k);
      var layout := rest[k];
      if layout.elements.Some? {
        total := total + |layout.elements.value|;
      }
      rest := rest - {k};
    }
  }

  datatype Stats = Stats(totalPages: nat, editableElements: nat, customComponents: nat, lastModified: string)

  /**
   * The effect on mount: the stored pages plus the two built-in dashboards,
   * the element total, the number of pages with a saved layout, and the
   * last layout update or "Never".
   */
  method LoadStats(store: LocalStore) returns (r: Stats)
    ensures r.totalPages == |store.adminPages| + 2
    ensures r.editableElements == ElementTotal(store.pageLayouts)
    ensures r.customComponents == |store.pageLayouts.Keys|
    ensures store.lastLayoutUpdate.Some? && store.lastLayoutUpdate.value != "" ==> r.lastModified == store.lastLayoutUpdate.value
    ensures store.lastLayoutUpdate.None? || store.lastLayoutUpdate == Some("") ==> r.lastModified == "Never"
  {
    var pages := store.adminPages;
    var layouts := store.pageLayouts;
    var totalElements := EditableElements(layouts);
    r := Stats(|pages| + 2, totalElements, |layouts.Keys|, OrElse(store.lastLayoutUpdate, "Never"));
  }
}
