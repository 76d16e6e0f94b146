/**
 * The admin/developer sidebar: the page catalogue it assembles (system
 * pages for developers, the two built-in dashboards, the stored custom
 * pages), the pending-request badge, where a click on a page leads,
 * adding a custom page, its audit hook, and which tab shows which panel.
 */
module Sidebar {
  import opened Basics
  import opened Seqs
  import opened Records
  import opened Storage
  import opened ManageUsers

  datatype SidebarRole = SidebarAdmin | SidebarDeveloper

  /** The role string the sidebar's audit hook records. */
  function SidebarRoleName(r: SidebarRole): (s: string)
    ensures s == "admin" || s == "developer"
  {
    if r == SidebarDeveloper then "developer" else "admin"
  }

  datatype SidebarKind = SystemPage | CustomPage | PowerBiPage

  datatype SidebarPage = SidebarPage(
    id: string,
    title: string,
    description: string,
    embedUrl: Option<string>,
    kind: SidebarKind,
    createdAt: string,
    isEditable: bool)

  // ---------------------------------------------------------- the catalogue

  /** The five application screens, editable only for a developer. */
  function SystemPages(role: SidebarRole, now: string): (r: seq<SidebarPage>)
    ensures |r| == 5
    ensures forall i :: 0 <= i < 5 ==> r[i].kind == SystemPage && (r[i].isEditable <==> role == SidebarDeveloper)
  {
    var dev := role == SidebarDeveloper;
    [ SidebarPage("login", "Login Page", "User authentication page", None, SystemPage, now, dev),
      SidebarPage("register", "Register Page", "User registration page", None, SystemPage, now, dev),
      SidebarPage("forgot-password", "Forgot Password", "Password recovery page", None, SystemPage, now, dev),
      SidebarPage("admin", "Admin Dashboard", "Administrative control panel", None, SystemPage, now, dev),
      SidebarPage("developer", "Developer Console", "Development tools and controls", None, SystemPage, now, dev) ]
  }

  const PerformanceEmbedUrl := "https://app.powerbi.com/reportEmbed?reportId=21a0a736-2f97-48bd-af4d-9f6897139ff7&autoAuth=true&ctid=827ea450-686d-49d6-8fd8-801e6e5da931"

  /** The two built-in dashboards; only the performance one carries an embed URL. */
  function BuiltinPages(now: string): (r: seq<SidebarPage>)
    ensures |r| == 2 && r[0].id == "performance" && r[1].id == "shipment"
    ensures forall i :: 0 <= i < 2 ==> r[i].kind == PowerBiPage && r[i].isEditable
  {
    [ SidebarPage("performance", "Performance Analytics", "Main dashboard with Power BI analytics", Some(PerformanceEmbedUrl), PowerBiPage, now, true),
      SidebarPage("shipment", "Shipment Analysis", "Shipment tracking and analytics", None, PowerBiPage, now, true) ]
  }

  /** A stored page as the sidebar lists it: typed custom and editable, its own fields kept. */
  function CustomOf(p: SimplePage): (r: SidebarPage)
    ensures r.id == p.id && r.title == p.title && r.description == p.description && r.createdAt == p.createdAt
    ensures r.kind == CustomPage && r.isEditable && r.embedUrl == Some(p.embedUrl)
  {
    SidebarPage(p.id, p.title, p.description, Some(p.embedUrl), CustomPage, p.createdAt, true)
  }

  function CustomPages(stored: seq<SimplePage>): (r: seq<SidebarPage>)
    ensures |r| == |stored|
    ensures forall i :: 0 <= i < |stored| ==> r[i] == CustomOf(stored[i])
  {
    seq(|stored|, i requires 0 <= i < |stored| => CustomOf(stored[i]))
  }

  /** The fixed part of the catalogue: system pages (developers only), then the two dashboards. */
  function FixedPages(role: SidebarRole, now: string): (r: seq<SidebarPage>)
    ensures |r| == (if role == SidebarDeveloper then 7 else 2)
    ensures role == SidebarDeveloper ==> r == SystemPages(role, now) + BuiltinPages(now)
    ensures role == SidebarAdmin ==> r == BuiltinPages(now)
  {
    if role == SidebarDeveloper then SystemPages(role, now) + BuiltinPages(now) else BuiltinPages(now)
  }

  /** `loadPages`: developers get system, built-in and custom pages; admins the last two. */
  function LoadPages(role: SidebarRole, stored: seq<SimplePage>, now: string): seq<SidebarPage> {
    FixedPages(role, now) + CustomPages(stored)
  }

  /** Every role sees every stored page, after the fixed ones, as an editable custom page. */
  lemma {:induction false} CatalogueContents(role: SidebarRole, stored: seq<SimplePage>, now: string)
    ensures var r := LoadPages(role, stored, now);
      |r| == (if role == SidebarDeveloper then 7 else 2) + |stored| &&
      r[|r| - |stored|..] == CustomPages(stored)
  {
    var fixed := FixedPages(role, now);
    assert (fixed + CustomPages(stored))[|fixed|..] == CustomPages(stored);
  }

  /** Only a developer's catalogue holds system pages. */
  lemma {:induction false} SystemPagesForDevelopersOnly(role: SidebarRole, stored: seq<SimplePage>, now: string)
    ensures var r := LoadPages(role, stored, now);
      (exists i :: 0 <= i < |r| && r[i].kind == SystemPage) <==> role == SidebarDeveloper
  {
    var r := LoadPages(role, stored, now);
    if role == SidebarDeveloper {
      assert r[0] == SystemPages(role, now)[0];
    } else {
      forall i | 0 <= i < |r| ensures r[i].kind != SystemPage {
        if i < 2 {
          assert r[i] == BuiltinPages(now)[i];
        } else {
          assert r[i] == CustomPages(stored)[i - 2];
        }
      }
    }
  }

  /** The badge count: the number of requests still pending. */
  function PendingCount(regs: seq<Registration>): (n: nat)
    ensures n == |PendingOnly(regs)|
    ensures n <= |regs|
    ensures n == 0 <==> forall i :: 0 <= i < |regs| ==> regs[i].status != Pending
    ensures n == |regs| <==> forall i :: 0 <= i < |regs| ==> regs[i].status == Pending
  {
    FilterKeepsNoneIff(regs, (g: Registration) => g.status == Pending);
    FilterKeepsAllIff(regs, (g: Registration) => g.status == Pending);
    |PendingOnly(regs)|
  }

  /** A new request raises the badge by one exactly when it is pending. */
  lemma PendingCountAppend(regs: seq<Registration>, g: Registration)
    ensures PendingCount(regs + [g]) == PendingCount(regs) + (if g.status == Pending then 1 else 0)
  {
    FilterCountAppend(regs, g, (r: Registration) => r.status == Pending);
  }

  // ------------------------------------------------------------ navigation

  /** `handlePageClick`: system pages at the root, the rest under /dashboard, flagged for developers. */
  function PageUrl(page: SidebarPage, role: SidebarRole): (url: string)
    ensures page.kind == SystemPage ==> url == "/" + page.id
    ensures page.kind != SystemPage ==>
      url == "/dashboard/" + page.id + (if role == SidebarDeveloper then "?dev=true" else "")
    ensures url != ""
  {
    if page.kind == SystemPage then "/" + page.id
    else "/dashboard/" + page.id + (if role == SidebarDeveloper then "?dev=true" else "")
  }

  /** The page `handleAddPage` stores: no embed URL yet. */
  function AddedPage(id: string, title: string, description: string, now: string): (p: SimplePage)
    ensures p.id == id && p.title == title && p.description == description && p.embedUrl == "" && p.createdAt == now
  {
    SimplePage(id, title, description, "", now)
  }

  /** After adding, the new page is the last one listed and the sidebar opens it where a click would. */
  lemma {:induction false} AddedPageListedLast(role: SidebarRole, stored: seq<SimplePage>, id: string, title: string, description: string, now: string)
    ensures var r := LoadPages(role, stored + [AddedPage(id, title, description, now)], now);
      r[|r| - 1] == CustomOf(AddedPage(id, title, description, now)) &&
      PageUrl(r[|r| - 1], role) == "/dashboard/" + id + (if role == SidebarDeveloper then "?dev=true" else "")
  {
    var added := stored + [AddedPage(id, title, description, now)];
    CatalogueContents(role, added, now);
    var r := LoadPages(role, added, now);
    assert r[|r| - 1] == r[|r| - |added|..][|stored|];
  }

  // ----------------------------------------------------------------- tabs

  datatype Tab = PagesTab | UsersTab | RequestsTab

  /** The panel shown under the tab bar: user and request panels exist for admins only. */
  datatype Panel = PageListPanel | UserPanel | RequestPanel | NoPanel

  function ShownPanel(tab: Tab, role: SidebarRole): (p: Panel)
    ensures role == SidebarDeveloper ==> p != UserPanel && p != RequestPanel
    ensures tab == PagesTab <==> p == PageListPanel
  {
    match tab
    case PagesTab => PageListPanel
    case UsersTab => if role == SidebarAdmin then UserPanel else NoPanel
    case RequestsTab => if role == SidebarAdmin then RequestPanel else NoPanel
  }

  // ------------------------------------------------------------- component

  datatype SidebarView = SidebarView(activeTab: Tab, pages: seq<SidebarPage>, pendingRequests: nat, navigation: Option<string>)

  class AdminSidebar {
    const store: LocalStore
    const role: SidebarRole
    var activeTab: Tab
    var pages: seq<SidebarPage>
    var pendingRequests: nat
    /** The last URL the router was sent to. */
    var navigation: Option<string>

    function View(): SidebarView
      reads this
    {
      SidebarView(activeTab, pages, pendingRequests, navigation)
    }

    /** Mounting loads the catalogue and the badge count. */
    constructor (store: LocalStore, role: SidebarRole, now: string)
      ensures this.store == store && this.role == role
      ensures View() == SidebarView(PagesTab, LoadPages(role, store.adminPages, now), PendingCount(store.pendingRegistrations), None)
    {
      this.store, this.role := store, role;
      activeTab := PagesTab;
      pages := LoadPages(role, store.adminPages, now);
      pendingRequests := PendingCount(store.pendingRegistrations);
      navigation := None;
    }

    method Reload(now: string)
      modifies this
      ensures View() == old(View()).(pages := LoadPages(role, store.adminPages, now))
    {
      pages := LoadPages(role, store.adminPages, now);
    }

    method ReloadPendingRequests()
      modifies this
      ensures View() == old(View()).(pendingRequests := PendingCount(store.pendingRegistrations))
    {
      pendingRequests := PendingCount(store.pendingRegistrations);
    }

    method SelectTab(tab: Tab)
      modifies this
      ensures View() == old(View()).(activeTab := tab)
    {
      activeTab := tab;
    }

    method PageClick(page: SidebarPage)
      modifies this
      ensures View() == old(View()).(navigation := Some(PageUrl(page, role)))
    {
      navigation := Some(PageUrl(page, role));
    }

    /** The sidebar's `saveToDatabase`: one log entry stamped with the sidebar's role. */
    method SaveToDatabase(now: string, action: string, data: map<string, string>)
      modifies store
      ensures store.State() == Logged(old(store.State()), now, action, data, SidebarRoleName(role))
    {
      store.SaveToDatabase(now, action, data, SidebarRoleName(role));
    }

    /**
     * `handleAddPage`: a cancelled or empty title or description adds
     * nothing; otherwise the page is appended to the stored pages, logged,
     * the catalogue reloaded and the new page opened.
     */
    method AddPage(title: Option<string>, description: Option<string>, id: string, now: string)
      modifies this, store
      ensures !Truthy(title) || !Truthy(description) ==> View() == old(View()) && store.State() == old(store.State())
      ensures Truthy(title) && Truthy(description) ==>
        store.State() == Logged(old(store.State()).(adminPages := old(store.adminPages) + [AddedPage(id, title.value, description.value, now)]),
                                now, "page_created", map["pageId" := id], SidebarRoleName(role)) &&
        View() == old(View()).(pages := LoadPages(role, store.adminPages, now),
                               navigation := Some("/dashboard/" + id + (if role == SidebarDeveloper then "?dev=true" else "")))
    {
      if !Truthy(title) || !Truthy(description) {
        return;
      }
      var existing := store.adminPages;
      store.adminPages := existing + [AddedPage(id, title.value, description.value, now)];
      SaveToDatabase(now, "page_created", map["pageId" := id]);
      Reload(now);
      navigation := Some("/dashboard/" + id + (if role == SidebarDeveloper then "?dev=true" else ""));
    }
  }
}
