/**
 * The sidebar's account panel: search and role filter, per-user page
 * access toggles, role changes and deletion, each written straight back to
 * `adminUsers` and logged through the sidebar's audit hook.
 */
module UserManagement {
  import opened Basics
  import opened Seqs
  import opened Records
  import opened Storage
  import opened ManageUsers

  // ------------------------------------------------------------ filtering

  /** A user is listed when the name contains the search term (ignoring case) and the role filter (None for "all") admits it. */
  predicate Listed(u: User, search: string, roleFilter: Option<Role>) {
    IncludesIgnoreCase(u.name, search) && (roleFilter.None? || u.role == roleFilter.value)
  }

  function FilterUsers(users: seq<User>, search: string, roleFilter: Option<Role>): (r: seq<User>)
    ensures forall i :: 0 <= i < |r| ==> r[i] in users && Listed(r[i], search, roleFilter)
    ensures forall i :: 0 <= i < |users| && Listed(users[i], search, roleFilter) ==> users[i] in r
  {
    Filter(users, (u: User) => Listed(u, search, roleFilter))
  }

  /** With an empty search and "all" roles every user is listed, in stored order. */
  lemma {:induction false} UnfilteredListsAll(users: seq<User>)
    ensures FilterUsers(users, "", None) == users
  {
    forall i | 0 <= i < |users| ensures Listed(users[i], "", None) {
      IncludesEmpty(users[i].name);
    }
    FilterKeepsAll(users, (u: User) => Listed(u, "", None));
  }

  // ---------------------------------------------------------- page access

  function FindUser(users: seq<User>, userId: string): Option<User> {
    Find(users, (u: User) => u.id == userId)
  }

  /** `handleTogglePageAccess`'s new list: each user with the id has the page toggled in its (possibly missing) page list. */
  function ToggleAccess(users: seq<User>, userId: string, pageId: string): (r: seq<User>)
    ensures |r| == |users|
    ensures forall i :: 0 <= i < |users| && users[i].id != userId ==> r[i] == users[i]
    ensures forall i :: 0 <= i < |users| && users[i].id == userId ==>
      r[i] == users[i].(assignedPages := Some(Toggle(users[i].assignedPages.GetOr([]), pageId)))
  {
    MapIf(users, (u: User) => u.id == userId,
          (u: User) => u.(assignedPages := Some(Toggle(u.assignedPages.GetOr([]), pageId))))
  }

  /**
   * The `action` field of the log entry, computed from the list as it was
   * before the toggle: "removed" when the first user with the id already
   * had the page, "added" otherwise (also when there is no such user).
   */
  function AccessAction(users: seq<User>, userId: string, pageId: string): string {
    match FindUser(users, userId)
    case Some(u) => if u.assignedPages.Some? && pageId in u.assignedPages.value then "removed" else "added"
    case None => "added"
  }

  /**
   * The logged action describes the toggle: it says "removed" exactly when
   * the first user with the id no longer has the page afterwards.
   */
  lemma {:induction false} AccessActionDescribesToggle(users: seq<User>, k: nat, pageId: string)
    requires k < |users| && forall j :: 0 <= j < k ==> users[j].id != users[k].id
    ensures var r := ToggleAccess(users, users[k].id, pageId);
      r[k].assignedPages.Some? &&
      (AccessAction(users, users[k].id, pageId) == "removed" <==> pageId !in r[k].assignedPages.value)
  {
    assert FindUser(users, users[k].id) == Some(users[k]);
  }

  /** Toggling the same page twice for a user who did not have it restores the users exactly. */
  lemma {:induction false} ToggleAccessTwice(users: seq<User>, userId: string, pageId: string)
    requires forall i :: 0 <= i < |users| && users[i].id == userId ==>
      users[i].assignedPages.Some? && pageId !in users[i].assignedPages.value
    ensures ToggleAccess(ToggleAccess(users, userId, pageId), userId, pageId) == users
  {
    var once := ToggleAccess(users, userId, pageId);
    var twice := ToggleAccess(once, userId, pageId);
    forall i | 0 <= i < |users| ensures twice[i] == users[i] {
      if users[i].id == userId {
        ToggleTwice(users[i].assignedPages.value, pageId);
      }
    }
  }

  // ------------------------------------------------------- role and delete

  function ChangeRole(users: seq<User>, userId: string, newRole: Role): (r: seq<User>)
    ensures |r| == |users|
    ensures forall i :: 0 <= i < |users| ==>
      r[i] == (if users[i].id == userId then users[i].(role := newRole) else users[i])
  {
    MapIf(users, (u: User) => u.id == userId, (u: User) => u.(role := newRole))
  }

  /** The account with the default admin's id shows no role selector and no delete button. */
  predicate HasControls(u: User) {
    u.id != DefaultAdminId
  }

  // ----------------------------------------------------------- statistics

  /** Accounts holding `role`: none counted iff no account holds it, all iff every account does. */
  function CountRole(users: seq<User>, role: Role): (n: nat)
    ensures n <= |users|
    ensures n == 0 <==> forall i :: 0 <= i < |users| ==> users[i].role != role
    ensures n == |users| <==> forall i :: 0 <= i < |users| ==> users[i].role == role
  {
    FilterKeepsNoneIff(users, (u: User) => u.role == role);
    FilterKeepsAllIff(users, (u: User) => u.role == role);
    |Filter(users, (u: User) => u.role == role)|
  }

  /** A new account raises its own role's counter by one and leaves the others alone. */
  lemma CountRoleAppend(users: seq<User>, u: User, role: Role)
    ensures CountRole(users + [u], role) == CountRole(users, role) + (if u.role == role then 1 else 0)
  {
    FilterCountAppend(users, u, (v: User) => v.role == role);
  }

  /** The three role counters of the statistics box add up to the total. */
  lemma {:induction false} RoleCountsPartition(users: seq<User>)
    ensures CountRole(users, Admin) + CountRole(users, Developer) + CountRole(users, Viewer) == |users|
  {
    if users != [] {
      RoleCountsPartition(users[1..]);
    }
  }

  // ------------------------------------------------------------- component

  datatype PanelView = PanelView(users: seq<User>, pages: seq<SimplePage>, searchTerm: string, selectedRole: Option<Role>)

  class Panel {
    const store: LocalStore
    /** The sidebar's role, recorded in every log entry the panel causes. */
    const role: string
    var users: seq<User>
    var pages: seq<SimplePage>
    var searchTerm: string
    var selectedRole: Option<Role>

    function View(): PanelView
      reads this
    {
      PanelView(users, pages, searchTerm, selectedRole)
    }

    /** Mounting loads users and pages from the store; the filter starts at "" and "all". */
    constructor (store: LocalStore, role: string)
      ensures this.store == store && this.role == role
      ensures View() == PanelView(store.adminUsers, store.adminPages, "", None)
    {
      this.store, this.role := store, role;
      users, pages := store.adminUsers, store.adminPages;
      searchTerm, selectedRole := "", None;
    }

    function Shown(): seq<User>
      reads this
    {
      FilterUsers(users, searchTerm, selectedRole)
    }

    method TogglePageAccess(userId: string, pageId: string, now: string)
      modifies this, store
      ensures View() == old(View()).(users := ToggleAccess(old(users), userId, pageId))
      ensures store.State() ==
        Logged(old(store.State()).(adminUsers := users), now, "user_page_access_updated",
               map["userId" := userId, "pageId" := pageId, "action" := AccessAction(old(users), userId, pageId)], role)
    {
      var updated := ToggleAccess(users, userId, pageId);
      var action := AccessAction(users, userId, pageId);
      users := updated;
      store.adminUsers := updated;
      store.SaveToDatabase(now, "user_page_access_updated", map["userId" := userId, "pageId" := pageId, "action" := action], role);
    }

    method RoleChange(userId: string, newRole: Role, now: string)
      modifies this, store
      ensures View() == old(View()).(users := ChangeRole(old(users), userId, newRole))
      ensures store.State() ==
        Logged(old(store.State()).(adminUsers := users), now, "user_role_updated",
               map["userId" := userId, "newRole" := RoleName(newRole)], role)
    {
      var updated := ChangeRole(users, userId, newRole);
      users := updated;
      store.adminUsers := updated;
      store.SaveToDatabase(now, "user_role_updated", map["userId" := userId, "newRole" := RoleName(newRole)], role);
    }

    /** `handleDeleteUser`: nothing for an unknown id or a refused confirmation. */
    method DeleteUser(userId: string, confirmed: bool, now: string)
      modifies this, store
      ensures FindUser(old(users), userId).None? || !confirmed ==>
        View() == old(View()) && store.State() == old(store.State())
      ensures FindUser(old(users), userId).Some? && confirmed ==>
        View() == old(View()).(users := DeleteUsers(old(users), userId)) &&
        store.State() == Logged(old(store.State()).(adminUsers := users), now, "user_deleted",
                                map["userId" := userId, "userName" := FindUser(old(users), userId).value.name], role)
    {
      var user := FindUser(users, userId);
      if user.None? {
        return;
      }
      if confirmed {
        var updated := DeleteUsers(users, userId);
        users := updated;
        store.adminUsers := updated;
        store.SaveToDatabase(now, "user_deleted", map["userId" := userId, "userName" := user.value.name], role);
      }
    }

    method SetSearch(term: string)
      modifies this
      ensures View() == old(View()).(searchTerm := term)
    {
      searchTerm := term;
    }

    method SetRoleFilter(filter: Option<Role>)
      modifies this
      ensures View() == old(View()).(selectedRole := filter)
    {
      selectedRole := filter;
    }
  }
}
