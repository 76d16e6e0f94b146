/**
 * The frame around every dashboard page: the session it reads on mount
 * (role, developer mode, a viewer's assigned pages), its audit hook,
 * logout, the layout-save stamp, the inert undo/redo, and the page id it
 * hands to the layout editor.
 */
module DashboardLayout {
  import opened Basics
  import opened Seqs
  import opened Records
  import opened Storage

  // ---------------------------------------------------------- mount effect

  /** Developer mode needs the developer role and the `dev=true` query flag. */
  predicate DeveloperMode(role: string, devFlag: Option<string>) {
    role == "developer" && devFlag == Some("true")
  }

  function FindUserById(users: seq<User>, userId: string): Option<User> {
    Find(users, (u: User) => u.id == userId)
  }

  /**
   * The pages a viewer may open: the stored pages, in stored order, whose id
   * is among the assigned ids of the first user with the session's id.
   * Other roles, an empty id, an unknown user or a user without a page list
   * get none.
   */
  function ViewerPages(role: string, userId: string, users: seq<User>, pages: seq<SimplePage>): (r: seq<SimplePage>)
    ensures |r| <= |pages|
    ensures role != "viewer" || userId == "" ==> r == []
    ensures forall i :: 0 <= i < |r| ==> r[i] in pages
    ensures var u := FindUserById(users, userId);
      role == "viewer" && userId != "" && u.Some? && u.value.assignedPages.Some? ==>
        (forall i :: 0 <= i < |r| ==> r[i].id in u.value.assignedPages.value) &&
        (forall i :: 0 <= i < |pages| && pages[i].id in u.value.assignedPages.value ==> pages[i] in r)
  {
    if role == "viewer" && userId != "" then
      match FindUserById(users, userId)
      case Some(u) =>
        if u.assignedPages.Some? then Filter(pages, (p: SimplePage) => p.id in u.assignedPages.value) else []
      case None => []
    else []
  }

  /**
   * Stored order is kept: the pages shown for a concatenation are those shown
   * for each part, the first part's first.
   */
  lemma ViewerPagesAppend(role: string, userId: string, users: seq<User>, a: seq<SimplePage>, b: seq<SimplePage>)
    ensures ViewerPages(role, userId, users, a + b) == ViewerPages(role, userId, users, a) + ViewerPages(role, userId, users, b)
  {
    if role == "viewer" && userId != "" {
      var u := FindUserById(users, userId);
      if u.Some? && u.value.assignedPages.Some? {
        FilterAppend(a, b, (p: SimplePage) => p.id in u.value.assignedPages.value);
      }
    }
  }

  /** A single stored page is shown exactly when the session is a viewer to whom it is assigned. */
  lemma ViewerPagesSingle(role: string, userId: string, users: seq<User>, p: SimplePage)
    ensures var u := FindUserById(users, userId);
      ViewerPages(role, userId, users, [p]) ==
        if role == "viewer" && userId != "" && u.Some? && u.value.assignedPages.Some? && p.id in u.value.assignedPages.value
        then [p] else []
  {
    assert [p][1..] == [];
  }

  /** An assignment filter keeps the stored order: pages assigned in full come back unchanged. */
  lemma {:induction false} AllAssignedKeepsOrder(pages: seq<SimplePage>, ids: seq<string>)
    requires forall i :: 0 <= i < |pages| ==> pages[i].id in ids
    ensures Filter(pages, (p: SimplePage) => p.id in ids) == pages
  {
    FilterKeepsAll(pages, (p: SimplePage) => p.id in ids);
  }

  /** The navigation bar: a viewer's own pages when there are any, else the two built-in dashboards. */
  function NavTargets(role: string, userPages: seq<SimplePage>): (r: seq<string>)
    ensures role == "viewer" && userPages != [] ==>
      |r| == |userPages| && forall i :: 0 <= i < |r| ==> r[i] == "/dashboard/" + userPages[i].id
    ensures !(role == "viewer" && userPages != []) ==> r == ["/dashboard/performance", "/dashboard/shipment"]
  {
    if role == "viewer" && userPages != [] then
      seq(|userPages|, i requires 0 <= i < |userPages| => "/dashboard/" + userPages[i].id)
    else ["/dashboard/performance", "/dashboard/shipment"]
  }

  // ------------------------------------------------------- editor page id

  /** `path.split("/").pop() || ""`: the text after the last slash (all of it when there is none). */
  function LastSegment(path: string): (r: string)
    ensures '/' !in r
    ensures |r| <= |path| && r == path[|path| - |r|..]
    ensures |r| < |path| ==> path[|path| - |r| - 1] == '/'
    decreases |path|
  {
    if path == [] then []
    else if path[|path| - 1] == '/' then []
    else
      var init := path[..|path| - 1];
      var rest := LastSegment(init);
      assert path[|path| - |rest| - 1..] == init[|init| - |rest|..] + [path[|path| - 1]];
      rest + [path[|path| - 1]]
  }

  /** A segment after a slash is recovered whole. */
  lemma {:induction false} LastSegmentAfterSlash(prefix: string, id: string)
    requires prefix != [] && prefix[|prefix| - 1] == '/' && '/' !in id
    ensures LastSegment(prefix + id) == id
    decreases |id|
  {
    if id == [] {
      assert prefix + id == prefix;
    } else {
      var init := id[..|id| - 1];
      assert (prefix + id)[..|prefix + id| - 1] == prefix + init;
      assert id[|id| - 1] in id;
      LastSegmentAfterSlash(prefix, init);
      assert init + [id[|id| - 1]] == id;
    }
  }

  /** On `/dashboard/<id>` the layout editor edits the layout saved under `<id>`. */
  lemma EditorEditsShownPage(id: string)
    requires '/' !in id
    ensures LastSegment("/dashboard/" + id) == id
  {
    LastSegmentAfterSlash("/dashboard/", id);
  }

  // ------------------------------------------------------------- component

  datatype FrameView = FrameView(
    userRole: string,
    isDeveloperMode: bool,
    userPages: seq<SimplePage>,
    isEditMode: bool,
    sidebarVisible: bool,
    navigation: Option<string>,
    alert: Option<string>)

  class Frame {
    const store: LocalStore
    const pathname: string
    var userRole: string
    var isDeveloperMode: bool
    var userPages: seq<SimplePage>
    var isEditMode: bool
    var sidebarVisible: bool
    var navigation: Option<string>
    var alert: Option<string>

    function View(): FrameView
      reads this
    {
      FrameView(userRole, isDeveloperMode, userPages, isEditMode, sidebarVisible, navigation, alert)
    }

    /** The undo and redo buttons are always disabled. */
    const canUndo := false
    const canRedo := false

    /** Mounting reads the session keys and the `dev` query flag. */
    constructor (store: LocalStore, pathname: string, devFlag: Option<string>)
      ensures this.store == store && this.pathname == pathname
      ensures var role := OrElse(store.userRole, "");
        View() == FrameView(role, DeveloperMode(role, devFlag),
                            ViewerPages(role, OrElse(store.userId, ""), store.adminUsers, store.adminPages),
                            false, false, None, None)
    {
      this.store, this.pathname := store, pathname;
      var role := OrElse(store.userRole, "");
      var userId := OrElse(store.userId, "");
      userRole := role;
      isDeveloperMode := DeveloperMode(role, devFlag);
      userPages := ViewerPages(role, userId, store.adminUsers, store.adminPages);
      isEditMode, sidebarVisible, navigation, alert := false, false, None, None;
    }

    /** The page id handed to the layout editor (shown only for developers in developer mode). */
    function EditorPageId(): string
      reads this
    {
      LastSegment(pathname)
    }

    /** The frame's `saveToDatabase`: one log entry stamped with the role read on mount. */
    method SaveToDatabase(now: string, action: string, data: map<string, string>)
      modifies store
      ensures store.State() == Logged(old(store.State()), now, action, data, userRole)
    {
      store.SaveToDatabase(now, action, data, userRole);
    }

    /** `handleLogout`: the three session keys go, everything else stays. */
    method Logout()
      modifies this, store
      ensures store.State() == old(store.State()).(userRole := None, username := None, userId := None)
      ensures View() == old(View()).(navigation := Some("/login"))
    {
      store.userRole := None;
      store.username := None;
      store.userId := None;
      navigation := Some("/login");
    }

    method ToggleEditMode()
      modifies this
      ensures View() == old(View()).(isEditMode := !old(isEditMode))
    {
      isEditMode := !isEditMode;
    }

    method ToggleSidebar()
      modifies this
      ensures View() == old(View()).(sidebarVisible := !old(sidebarVisible))
    {
      sidebarVisible := !sidebarVisible;
    }

    /** `handleSaveLayout`: only the layout timestamp is written. */
    method SaveLayout(now: string)
      modifies this, store
      ensures store.State() == old(store.State()).(lastLayoutUpdate := Some(now))
      ensures View() == old(View()).(alert := Some("Layout saved successfully!"))
    {
      store.lastLayoutUpdate := Some(now);
      alert := Some("Layout saved successfully!");
    }

    /** `handleUndo` and `handleRedo` change nothing. */
    method Undo()
      ensures View() == old(View())
    {
    }

    method Redo()
      ensures View() == old(View())
    {
    }
  }
}
