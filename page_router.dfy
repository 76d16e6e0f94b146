/**
 * The router for simple pages (`/page/<id>`): loading the page by id with
 * a redirect when it is missing, replacing its embed URL, and deleting it
 * with a redirect to a page that still exists.
 */
module PageRouter {
  import opened Basics
  import opened Seqs
  import opened Records
  import opened Storage
  import opened ManagePages

  function FindPageById(pages: seq<SimplePage>, pageId: string): Option<SimplePage> {
    Find(pages, (p: SimplePage) => p.id == pageId)
  }

  /** Where the router sends the browser when it has no page to show. */
  function Fallback(pages: seq<SimplePage>, query: string): (url: string)
    ensures pages == [] ==> url == "/dashboard/performance"
    ensures pages != [] ==> url == "/page/" + pages[0].id + query
  {
    if |pages| > 0 then "/page/" + pages[0].id + query else "/dashboard/performance"
  }

  /** `loadPage`: the page with the id, or no page and a redirect (the dev flag kept when set). */
  function LoadOutcome(pages: seq<SimplePage>, pageId: string, isDevMode: bool): (r: (Option<SimplePage>, Option<string>))
    ensures r.0.Some? <==> r.1.None?
    ensures r.0.Some? ==> r.0.value in pages && r.0.value.id == pageId
    ensures r.0.None? ==> (forall i :: 0 <= i < |pages| ==> pages[i].id != pageId) &&
                          r.1 == Some(Fallback(pages, if isDevMode then "?dev=true" else ""))
  {
    match FindPageById(pages, pageId)
    case Some(p) => (Some(p), None)
    case None => (None, Some(Fallback(pages, if isDevMode then "?dev=true" else "")))
  }

  /** `updateEmbedUrl`'s list: every page with the shown page's id becomes the shown page with the new URL. */
  function SetEmbedUrl(pages: seq<SimplePage>, shown: SimplePage, url: string): (r: seq<SimplePage>)
    ensures |r| == |pages|
    ensures forall i :: 0 <= i < |pages| ==>
      r[i] == (if pages[i].id == shown.id then shown.(embedUrl := url) else pages[i])
  {
    MapIf(pages, (p: SimplePage) => p.id == shown.id, (p: SimplePage) => shown.(embedUrl := url))
  }

  /** After an embed URL update, loading the same id shows the new URL. */
  lemma {:induction false} UpdateThenLoad(pages: seq<SimplePage>, shown: SimplePage, url: string)
    requires exists i :: 0 <= i < |pages| && pages[i].id == shown.id
    ensures FindPageById(SetEmbedUrl(pages, shown, url), shown.id) == Some(shown.(embedUrl := url))
  {
    var hit := (p: SimplePage) => p.id == shown.id;
    var f := (p: SimplePage) => shown.(embedUrl := url);
    FindIndexMapIf(pages, hit, f, hit);
    var k := FindIndex(pages, hit).value;
    assert MapIf(pages, hit, f)[k] == f(pages[k]);
  }

  /**
   * After a delete the router never sends the browser back to the deleted
   * page: the target is the first remaining page, or the performance
   * dashboard when none is left.
   */
  lemma DeleteRedirectAvoidsDeleted(pages: seq<SimplePage>, pageId: string)
    ensures var rest := DeletePages(pages, pageId);
      Fallback(rest, "?dev=true") == "/dashboard/performance" ||
      (rest != [] && rest[0].id != pageId && rest[0] in pages &&
       Fallback(rest, "?dev=true") == "/page/" + rest[0].id + "?dev=true")
  {
  }

  // ------------------------------------------------------------- component

  datatype RouterView = RouterView(page: Option<SimplePage>, loading: bool, navigation: Option<string>)

  class Router {
    const store: LocalStore
    const pageId: string
    const isDevMode: bool
    var page: Option<SimplePage>
    var loading: bool
    var navigation: Option<string>

    function View(): RouterView
      reads this
    {
      RouterView(page, loading, navigation)
    }

    /** Mounting runs `loadPage`; loading always ends. */
    constructor (store: LocalStore, pageId: string, isDevMode: bool)
      ensures this.store == store && this.pageId == pageId && this.isDevMode == isDevMode
      ensures var r := LoadOutcome(store.adminPages, pageId, isDevMode);
        View() == RouterView(r.0, false, r.1)
    {
      this.store, this.pageId, this.isDevMode := store, pageId, isDevMode;
      var r := LoadOutcome(store.adminPages, pageId, isDevMode);
      page, navigation := r.0, r.1;
      loading := false;
    }

    /** `updateEmbedUrl`: nothing without a page or with a cancelled or empty answer. */
    method UpdateEmbedUrl(answer: Option<string>)
      modifies this, store
      ensures !Truthy(answer) || old(page).None? ==> View() == old(View()) && store.State() == old(store.State())
      ensures Truthy(answer) && old(page).Some? ==>
        View() == old(View()).(page := Some(old(page).value.(embedUrl := answer.value))) &&
        store.State() == old(store.State()).(adminPages := SetEmbedUrl(old(store.adminPages), old(page).value, answer.value))
    {
      if !Truthy(answer) || page.None? {
        return;
      }
      var updated := page.value.(embedUrl := answer.value);
      var pages := store.adminPages;
      store.adminPages := SetEmbedUrl(pages, page.value, answer.value);
      page := Some(updated);
    }

    /** `deletePage`: once confirmed, remove the page and go to the first remaining one. */
    method DeletePage(confirmed: bool)
      modifies this, store
      ensures old(page).None? || !confirmed ==> View() == old(View()) && store.State() == old(store.State())
      ensures old(page).Some? && confirmed ==>
        store.State() == old(store.State()).(adminPages := DeletePages(old(store.adminPages), old(page).value.id)) &&
        View() == old(View()).(navigation := Some(Fallback(store.adminPages, "?dev=true")))
    {
      if page.None? || !confirmed {
        return;
      }
      var pages := store.adminPages;
      var remaining := DeletePages(pages, page.value.id);
      store.adminPages := remaining;
      navigation := Some(Fallback(remaining, "?dev=true"));
    }
  }
}
