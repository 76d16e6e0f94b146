/**
 * The admin account manager: seeding and migrating `adminUsers`, the
 * pending-registration list, add/edit/delete of users, page-assignment
 * toggles, and approving or rejecting registrations (which only changes a
 * registration's status and never removes it).
 */
module ManageUsers {
  import opened Basics
  import opened Seqs
  import opened Records
  import opened Storage

  // ------------------------------------------------------ membership toggle

  /** Selecting a page id: removed when present, appended otherwise. */
  function Toggle(ids: seq<string>, id: string): (r: seq<string>)
    ensures id in r <==> id !in ids
    ensures forall x :: x != id ==> (x in r <==> x in ids)
  {
    if id in ids then Filter(ids, (x: string) => x != id) else ids + [id]
  }

  /** Toggling an absent id twice restores the list exactly, order included. */
  lemma {:induction false} ToggleTwice(ids: seq<string>, id: string)
    requires id !in ids
    ensures Toggle(Toggle(ids, id), id) == ids
  {
    var keep := (x: string) => x != id;
    FilterAppend(ids, [id], keep);
    FilterKeepsAll(ids, keep);
    assert Filter([id], keep) == [];
  }

  // ------------------------------------------------------------ the users

  const DefaultAdminId := "1"

  function DefaultAdmin(now: string): User {
    User(DefaultAdminId, "Administrator", "admin@jne.com", "admin", Some("1234567890"), Admin, Some([]), now)
  }

  /** The stored users after loading: an empty store is seeded with the default admin. */
  function Seeded(stored: seq<User>, now: string): (r: seq<User>)
    ensures stored == [] ==> r == [DefaultAdmin(now)]
    ensures stored != [] ==> r == stored
    ensures |r| >= 1
  {
    if stored == [] then [DefaultAdmin(now)] else stored
  }

  /** Fills a missing page list with [] and a missing phone number with "". */
  function MigrateUser(u: User): (r: User)
    ensures r.assignedPages.Some? && r.phoneNumber.Some?
    ensures r.(assignedPages := u.assignedPages, phoneNumber := u.phoneNumber) == u
    ensures u.assignedPages.Some? ==> r.assignedPages == u.assignedPages
    ensures Truthy(u.phoneNumber) ==> r.phoneNumber == u.phoneNumber
  {
    u.(assignedPages := Some(u.assignedPages.GetOr([])), phoneNumber := Some(OrElse(u.phoneNumber, "")))
  }

  function Migrate(users: seq<User>): (r: seq<User>)
    ensures |r| == |users|
    ensures forall i :: 0 <= i < |users| ==> r[i] == MigrateUser(users[i])
  {
    seq(|users|, i requires 0 <= i < |users| => MigrateUser(users[i]))
  }

  /** Migration is idempotent: migrated records are left as they are. */
  lemma MigrateIdempotent(users: seq<User>)
    ensures Migrate(Migrate(users)) == Migrate(users)
  {
    assert forall i :: 0 <= i < |users| ==> MigrateUser(MigrateUser(users[i])) == MigrateUser(users[i]);
  }

  datatype UserForm = UserForm(name: string, email: string, password: string, phoneNumber: string,
                               role: Role, assignedPages: seq<string>)

  const EmptyUserForm := UserForm("", "", "", "", Viewer, [])

  /** `{...user, ...formData}`: the six form fields replace the user's; id and createdAt stay. */
  function MergeUserForm(u: User, f: UserForm): (r: User)
    ensures r.id == u.id && r.createdAt == u.createdAt
    ensures UserFormOf(r) == f
  {
    u.(name := f.name, email := f.email, password := f.password, phoneNumber := Some(f.phoneNumber),
       role := f.role, assignedPages := Some(f.assignedPages))
  }

  /** `handleEdit`'s copy of a user into the form, with "" and [] for missing fields. */
  function UserFormOf(u: User): UserForm {
    UserForm(u.name, u.email, u.password, OrElse(u.phoneNumber, ""), u.role, u.assignedPages.GetOr([]))
  }

  function EditUsers(users: seq<User>, editingId: string, f: UserForm): (r: seq<User>)
    ensures |r| == |users|
    ensures forall i :: 0 <= i < |users| ==> r[i].id == users[i].id
    ensures forall i :: 0 <= i < |users| && users[i].id != editingId ==> r[i] == users[i]
    ensures forall i :: 0 <= i < |users| && users[i].id == editingId ==> r[i] == MergeUserForm(users[i], f)
  {
    MapIf(users, (u: User) => u.id == editingId, (u: User) => MergeUserForm(u, f))
  }

  function NewUser(id: string, f: UserForm, now: string): (u: User)
    ensures u.id == id && u.createdAt == now && UserFormOf(u) == f
  {
    User(id, f.name, f.email, f.password, Some(f.phoneNumber), f.role, Some(f.assignedPages), now)
  }

  function DeleteUsers(users: seq<User>, userId: string): (r: seq<User>)
    ensures forall i :: 0 <= i < |r| ==> r[i].id != userId && r[i] in users
    ensures forall i :: 0 <= i < |users| && users[i].id != userId ==> users[i] in r
  {
    Filter(users, (u: User) => u.id != userId)
  }

  // ---------------------------------------------------- registrations

  /** Only registrations still awaiting a decision are listed. */
  function PendingOnly(regs: seq<Registration>): (r: seq<Registration>)
    ensures forall i :: 0 <= i < |r| ==> r[i].status == Pending && r[i] in regs
    ensures forall i :: 0 <= i < |regs| && regs[i].status == Pending ==> regs[i] in r
  {
    Filter(regs, (g: Registration) => g.status == Pending)
  }

  /** A decision: only the matching registrations' status changes; none is removed. */
  function SetStatus(regs: seq<Registration>, id: string, s: RegStatus): (r: seq<Registration>)
    ensures |r| == |regs|
    ensures forall i :: 0 <= i < |regs| ==> r[i] == (if regs[i].id == id then regs[i].(status := s) else regs[i])
  {
    MapIf(regs, (g: Registration) => g.id == id, (g: Registration) => g.(status := s))
  }

  /**
   * After a decision the record is still stored with every other field
   * intact, and it is no longer listed as pending.
   */
  lemma {:induction false} DecisionKeepsRecord(regs: seq<Registration>, k: nat, s: RegStatus)
    requires k < |regs| && s != Pending
    ensures var r := SetStatus(regs, regs[k].id, s);
      r[k] == regs[k].(status := s) &&
      (forall i :: 0 <= i < |regs| ==> r[i].(status := regs[i].status) == regs[i]) &&
      (forall i :: 0 <= i < |PendingOnly(r)| ==> PendingOnly(r)[i].id != regs[k].id)
  {
    var r := SetStatus(regs, regs[k].id, s);
    forall i | 0 <= i < |PendingOnly(r)| ensures PendingOnly(r)[i].id != regs[k].id {
      var g := PendingOnly(r)[i];
      assert g in r;
      var j :| 0 <= j < |r| && r[j] == g;
      assert r[j].status == Pending;
    }
  }

  /** What the approval dialog starts from: viewer, no pages, `<username lowercased>@jne.com`. */
  datatype Approval = Approval(role: Role, assignedPages: seq<string>, email: string)

  function ApprovalDefaults(reg: Registration): (a: Approval)
    ensures a.role == Viewer && a.assignedPages == []
    ensures a.email == Lower(reg.username) + "@jne.com"
  {
    Approval(Viewer, [], Lower(reg.username) + "@jne.com")
  }

  /** The account an approval creates: name, password and phone from the request, the rest from the dialog. */
  function UserFromRegistration(reg: Registration, a: Approval, id: string, now: string): (u: User)
    ensures u.id == id && u.name == reg.username && u.password == reg.password
    ensures u.phoneNumber == Some(reg.phoneNumber)
    ensures u.role == a.role && u.assignedPages == Some(a.assignedPages) && u.email == a.email
    ensures u.createdAt == now
  {
    User(id, reg.username, a.email, reg.password, Some(reg.phoneNumber), a.role, Some(a.assignedPages), now)
  }

  /** The title shown for an assigned page id. */
  function PageTitle(pages: seq<SimplePage>, pageId: string): (t: string)
    ensures (forall i :: 0 <= i < |pages| ==> pages[i].id != pageId) ==> t == "Unknown Page"
    ensures forall i :: 0 <= i < |pages| && pages[i].id == pageId && (forall j :: 0 <= j < i ==> pages[j].id != pageId) ==>
      t == pages[i].title
  {
    match Find(pages, (p: SimplePage) => p.id == pageId)
    case Some(p) => p.title
    case None => "Unknown Page"
  }

  // ------------------------------------------------------------- component

  datatype UsersView = UsersView(
    users: seq<User>,
    pending: seq<Registration>,
    pages: seq<SimplePage>,
    form: UserForm,
    showForm: bool,
    editingUser: Option<User>,
    selectedPending: Option<Registration>,
    approval: Approval,
    showApprovalModal: bool)

  class Manager {
    const store: LocalStore
    var users: seq<User>
    var pending: seq<Registration>
    var pages: seq<SimplePage>
    var form: UserForm
    var showForm: bool
    var editingUser: Option<User>
    var selectedPending: Option<Registration>
    var approval: Approval
    var showApprovalModal: bool

    function View(): UsersView
      reads this
    {
      UsersView(users, pending, pages, form, showForm, editingUser, selectedPending, approval, showApprovalModal)
    }

    /** Mounting runs `loadUsers`, `loadPendingRegistrations` and `loadPages`. */
    constructor (store: LocalStore, now: string)
      modifies store
      ensures this.store == store
      ensures store.State() == old(store.State()).(adminUsers := Seeded(old(store.adminUsers), now))
      ensures users == Migrate(store.adminUsers)
      ensures pending == PendingOnly(store.pendingRegistrations) && pages == store.adminPages
      ensures form == EmptyUserForm && !showForm && editingUser.None? && selectedPending.None? && !showApprovalModal
    {
      this.store := store;
      form, showForm, editingUser := EmptyUserForm, false, None;
      selectedPending, approval, showApprovalModal := None, Approval(Viewer, [], ""), false;
      var saved := store.adminUsers;
      if |saved| == 0 {
        saved := saved + [DefaultAdmin(now)];
        store.adminUsers := saved;
      }
      users := Migrate(saved);
      pending := PendingOnly(store.pendingRegistrations);
      pages := store.adminPages;
    }

    /** `handleSubmit`: merge the form into the edited user, or append a new user; then reset. */
    method Submit(newId: string, now: string)
      modifies this, store
      ensures users == if old(editingUser).Some? then EditUsers(old(users), old(editingUser).value.id, old(form))
                       else old(users) + [NewUser(newId, old(form), now)]
      ensures store.State() == old(store.State()).(adminUsers := users)
      ensures View() == old(View()).(users := users, form := EmptyUserForm, showForm := false, editingUser := None)
    {
      var updated: seq<User>;
      if editingUser.Some? {
        updated := EditUsers(users, editingUser.value.id, form);
      } else {
        updated := users + [NewUser(newId, form, now)];
      }
      store.adminUsers := updated;
      users := updated;
      ResetForm();
    }

    /** The "Add New User" button: open the form as it stands. */
    method OpenForm()
      modifies this
      ensures View() == old(View()).(showForm := true)
    {
      showForm := true;
    }

    /** A keystroke or selection in the user form: the form is replaced, nothing is stored. */
    method SetForm(f: UserForm)
      modifies this
      ensures View() == old(View()).(form := f)
      ensures store.State() == old(store.State())
    {
      form := f;
    }

    /** The approval dialog's email input: only the email changes. */
    method SetApprovalEmail(email: string)
      modifies this
      ensures View() == old(View()).(approval := old(approval).(email := email))
    {
      approval := approval.(email := email);
    }

    /** The approval dialog's role selector: only the role changes. */
    method SetApprovalRole(role: Role)
      modifies this
      ensures View() == old(View()).(approval := old(approval).(role := role))
    {
      approval := approval.(role := role);
    }

    /** The approval dialog's cancel button hides it; the selection and its data stay. */
    method CloseApproval()
      modifies this
      ensures View() == old(View()).(showApprovalModal := false)
    {
      showApprovalModal := false;
    }

    method ResetForm()
      modifies this
      ensures View() == old(View()).(form := EmptyUserForm, showForm := false, editingUser := None)
    {
      form, showForm, editingUser := EmptyUserForm, false, None;
    }

    method Edit(u: User)
      modifies this
      ensures View() == old(View()).(editingUser := Some(u), form := UserFormOf(u), showForm := true)
    {
      editingUser := Some(u);
      form := UserFormOf(u);
      showForm := true;
    }

    /** `handleDelete`: when confirmed, remove the user with that id. */
    method Delete(userId: string, confirmed: bool)
      modifies this, store
      ensures View() == if confirmed then old(View()).(users := DeleteUsers(old(users), userId)) else old(View())
      ensures store.State() == if confirmed then old(store.State()).(adminUsers := users) else old(store.State())
    {
      if confirmed {
        var updated := DeleteUsers(users, userId);
        store.adminUsers := updated;
        users := updated;
      }
    }

    /** `handlePageSelection`: toggle a page id in the approval dialog or in the user form. */
    method PageSelection(pageId: string, isApproval: bool)
      modifies this
      ensures isApproval ==> View() == old(View()).(approval := old(approval).(assignedPages := Toggle(old(approval).assignedPages, pageId)))
      ensures !isApproval ==> View() == old(View()).(form := old(form).(assignedPages := Toggle(old(form).assignedPages, pageId)))
    {
      if isApproval {
        approval := approval.(assignedPages := Toggle(approval.assignedPages, pageId));
      } else {
        form := form.(assignedPages := Toggle(form.assignedPages, pageId));
      }
    }

    /** `handleApproveUser`: open the dialog for `reg` with the default approval data. */
    method ApproveUser(reg: Registration)
      modifies this
      ensures View() == old(View()).(selectedPending := Some(reg), approval := ApprovalDefaults(reg), showApprovalModal := true)
    {
      selectedPending := Some(reg);
      approval := ApprovalDefaults(reg);
      showApprovalModal := true;
    }

    /** `handleRejectUser`: when confirmed, mark the stored registration rejected and relist. */
    method RejectUser(reg: Registration, confirmed: bool)
      modifies this, store
      ensures !confirmed ==> View() == old(View()) && store.State() == old(store.State())
      ensures confirmed ==>
        store.State() == old(store.State()).(pendingRegistrations := SetStatus(old(store.pendingRegistrations), reg.id, Rejected)) &&
        View() == old(View()).(pending := PendingOnly(store.pendingRegistrations))
    {
      if !confirmed {
        return;
      }
      var allPending := store.pendingRegistrations;
      var updated := SetStatus(allPending, reg.id, Rejected);
      store.pendingRegistrations := updated;
      pending := PendingOnly(updated);
    }

    /**
     * `confirmApproval`: nothing without a selected registration; otherwise
     * append the new user, mark the stored registration approved, relist
     * and close the dialog.
     */
    method ConfirmApproval(newId: string, now: string)
      modifies this, store
      ensures old(selectedPending).None? ==> View() == old(View()) && store.State() == old(store.State())
      ensures old(selectedPending).Some? ==>
        var reg := old(selectedPending).value;
        users == old(users) + [UserFromRegistration(reg, old(approval), newId, now)] &&
        store.State() == old(store.State()).(adminUsers := users,
                                             pendingRegistrations := SetStatus(old(store.pendingRegistrations), reg.id, Approved)) &&
        View() == old(View()).(users := users, pending := PendingOnly(store.pendingRegistrations),
                               showApprovalModal := false, selectedPending := None)
    {
      if selectedPending.None? {
        return;
      }
      var reg := selectedPending.value;
      var updatedUsers := users + [UserFromRegistration(reg, approval, newId, now)];
      store.adminUsers := updatedUsers;
      users := updatedUsers;
      var allPending := store.pendingRegistrations;
      var updated := SetStatus(allPending, reg.id, Approved);
      store.pendingRegistrations := updated;
      pending := PendingOnly(updated);
      showApprovalModal := false;
      selectedPending := None;
    }
  }
}
