/**
 * The developer console's page list: the two built-in dashboards followed
 * by the stored pages, each with its layout badge, and resetting a page's
 * saved layout.
 */
module DeveloperPageList {
  import opened Basics
  import opened Records
  import opened Storage
  import opened PageList
  import opened LayoutEditor

  datatype ListedPage = ListedPage(id: string, title: string, description: string, tag: string, createdAt: string)

  /** The two built-in dashboards, stamped with the render time. */
  function BuiltinEntries(now: string): (r: seq<ListedPage>)
    ensures |r| == 2 && r[0].id == "performance" && r[1].id == "shipment"
    ensures forall i :: 0 <= i < 2 ==> r[i].tag == "Built-in" && r[i].createdAt == now
  {
    [ ListedPage("performance", "Performance Analytics", "Main dashboard with Power BI analytics", "Built-in", now),
      ListedPage("shipment", "Shipment Analysis", "Shipment tracking and analytics", "Built-in", now) ]
  }

  function CustomEntry(p: SimplePage): ListedPage {
    ListedPage(p.id, p.title, p.description, "Custom", p.createdAt)
  }

  /** `allPages`: the built-ins first, then every stored page tagged "Custom", in stored order. */
  function AllPages(stored: seq<SimplePage>, now: string): (r: seq<ListedPage>)
    ensures |r| == 2 + |stored|
    ensures r[..2] == BuiltinEntries(now)
    ensures forall i :: 0 <= i < |stored| ==>
      r[2 + i].id == stored[i].id && r[2 + i].title == stored[i].title && r[2 + i].tag == "Custom" &&
      r[2 + i].createdAt == stored[i].createdAt
  {
    var custom := seq(|stored|, i requires 0 <= i < |stored| => CustomEntry(stored[i]));
    assert (BuiltinEntries(now) + custom)[..2] == BuiltinEntries(now);
    BuiltinEntries(now) + custom
  }

  /** The Reset button is offered only for pages whose layout is saved. */
  predicate ResetOffered(layouts: map<string, Layout>, pageId: string) {
    PageStatus(layouts, pageId) == Modified
  }

  /** `resetPageLayout`'s store: the page's layout key goes and the layout timestamp is set. */
  function LayoutReset(s: StoreState, pageId: string, now: string): (t: StoreState)
    ensures PageStatus(t.pageLayouts, pageId) == Default
    ensures forall k :: k != pageId ==> PageStatus(t.pageLayouts, k) == PageStatus(s.pageLayouts, k)
    ensures forall k :: k in t.pageLayouts ==> k in s.pageLayouts && t.pageLayouts[k] == s.pageLayouts[k]
    ensures t.lastLayoutUpdate == Some(now)
    ensures t.(pageLayouts := s.pageLayouts, lastLayoutUpdate := s.lastLayoutUpdate) == s
  {
    s.(pageLayouts := s.pageLayouts - {pageId}, lastLayoutUpdate := Some(now))
  }

  /** After a reset the layout editor finds no saved elements and starts empty for that page. */
  lemma ResetThenLoad(s: StoreState, pageId: string, now: string)
    ensures LoadLayout(LayoutReset(s, pageId, now).pageLayouts, pageId).None?
  {
  }

  /** Saving a layout and then resetting it leaves the layouts exactly as before the save when the page had none. */
  lemma {:induction false} SaveThenReset(s: StoreState, pageId: string, els: seq<LegacyElement>, now: string, role: string, later: string)
    requires pageId !in s.pageLayouts
    ensures LayoutReset(SaveLayout(s, pageId, els, now, role), pageId, later).pageLayouts == s.pageLayouts
  {
    var saved := SaveLayout(s, pageId, els, now, role);
    assert saved.pageLayouts == s.pageLayouts[pageId := Layout(Some(els), now)];
    assert saved.pageLayouts - {pageId} == s.pageLayouts;
  }

  // ------------------------------------------------------------- component

  class DeveloperList {
    const store: LocalStore
    var pages: seq<SimplePage>
    var alert: Option<string>

    constructor (store: LocalStore)
      ensures this.store == store && pages == store.adminPages && alert.None?
    {
      this.store := store;
      pages := store.adminPages;
      alert := None;
    }

    /** `resetPageLayout`: once confirmed, drop the layout, stamp the time and say so. */
    method ResetPageLayout(pageId: string, confirmed: bool, now: string)
      modifies this, store
      ensures pages == old(pages)
      ensures !confirmed ==> store.State() == old(store.State()) && alert == old(alert)
      ensures confirmed ==> store.State() == LayoutReset(old(store.State()), pageId, now) &&
                            alert == Some("Page layout reset to default!")
    {
      if confirmed {
        var layouts := store.pageLayouts;
        store.pageLayouts := layouts - {pageId};
        store.lastLayoutUpdate := Some(now);
        alert := Some("Page layout reset to default!");
      }
    }
  }
}
