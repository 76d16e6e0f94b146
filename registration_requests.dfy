/**
 * The sidebar's registration queue: lists pending requests, approves one
 * into a new account appended to the stored users, or rejects it; both
 * decisions only change the request's status and are logged.
 */
module RegistrationRequests {
  import opened Basics
  import opened Records
  import opened Storage
  import opened ManageUsers

  datatype RequestsView = RequestsView(requests: seq<Registration>, selected: Option<Registration>, approval: Approval)

  /**
   * The whole approval as one store transition: the account is appended to
   * the stored users, the request is marked approved, the decision logged.
   */
  function ApprovalApplied(s: StoreState, reg: Registration, a: Approval, newId: string, now: string, role: string): StoreState {
    Logged(s.(adminUsers := s.adminUsers + [UserFromRegistration(reg, a, newId, now)],
              pendingRegistrations := SetStatus(s.pendingRegistrations, reg.id, RegStatus.Approved)),
           now, "registration_approved", map["requestId" := reg.id, "username" := reg.username], role)
  }

  /**
   * An approval adds exactly one account (with the request's name,
   * password and phone), keeps every request record, and the approved one
   * leaves the pending list.
   */
  lemma {:induction false} ApprovalSpec(s: StoreState, k: nat, a: Approval, newId: string, now: string, role: string)
    requires k < |s.pendingRegistrations|
    ensures var reg := s.pendingRegistrations[k];
      var t := ApprovalApplied(s, reg, a, newId, now, role);
      |t.adminUsers| == |s.adminUsers| + 1 && t.adminUsers[..|s.adminUsers|] == s.adminUsers &&
      t.adminUsers[|s.adminUsers|].name == reg.username && t.adminUsers[|s.adminUsers|].password == reg.password &&
      |t.pendingRegistrations| == |s.pendingRegistrations| &&
      t.pendingRegistrations[k] == reg.(status := RegStatus.Approved) &&
      (forall i :: 0 <= i < |PendingOnly(t.pendingRegistrations)| ==> PendingOnly(t.pendingRegistrations)[i].id != reg.id) &&
      t.autoSaveLog[|s.autoSaveLog|].action == "registration_approved"
  {
    var reg := s.pendingRegistrations[k];
    DecisionKeepsRecord(s.pendingRegistrations, k, RegStatus.Approved);
    var t := ApprovalApplied(s, reg, a, newId, now, role);
    assert t.adminUsers == s.adminUsers + [UserFromRegistration(reg, a, newId, now)];
  }

  class Requests {
    const store: LocalStore
    /** The role of the sidebar whose audit hook this panel calls. */
    const role: string
    var requests: seq<Registration>
    var selected: Option<Registration>
    var approval: Approval

    function View(): RequestsView
      reads this
    {
      RequestsView(requests, selected, approval)
    }

    constructor (store: LocalStore, role: string)
      ensures this.store == store && this.role == role
      ensures View() == RequestsView(PendingOnly(store.pendingRegistrations), None, Approval(Viewer, [], ""))
    {
      this.store, this.role := store, role;
      requests := PendingOnly(store.pendingRegistrations);
      selected, approval := None, Approval(Viewer, [], "");
    }

    /** `loadRequests`: only pending requests are listed. */
    method LoadRequests()
      modifies this
      ensures View() == old(View()).(requests := PendingOnly(store.pendingRegistrations))
    {
      requests := PendingOnly(store.pendingRegistrations);
    }

    /** `handleApprove`: select the request with the default approval data. */
    method Approve(reg: Registration)
      modifies this
      ensures View() == old(View()).(selected := Some(reg), approval := ApprovalDefaults(reg))
    {
      selected := Some(reg);
      approval := ApprovalDefaults(reg);
    }

    /** `handleReject`: when confirmed, mark the request rejected, log it and relist. */
    method Reject(reg: Registration, confirmed: bool, now: string)
      modifies this, store
      ensures !confirmed ==> View() == old(View()) && store.State() == old(store.State())
      ensures confirmed ==>
        store.State() == Logged(old(store.State()).(pendingRegistrations := SetStatus(old(store.pendingRegistrations), reg.id, Rejected)),
                                now, "registration_rejected", map["requestId" := reg.id, "username" := reg.username], role) &&
        View() == old(View()).(requests := PendingOnly(store.pendingRegistrations))
    {
      if !confirmed {
        return;
      }
      var allRequests := store.pendingRegistrations;
      store.pendingRegistrations := SetStatus(allRequests, reg.id, Rejected);
      store.SaveToDatabase(now, "registration_rejected", map["requestId" := reg.id, "username" := reg.username], role);
      LoadRequests();
    }

    /**
     * `confirmApproval`: nothing without a selected request; otherwise the
     * approval transition on the store, then the selection is cleared and
     * the list reloaded.
     */
    method ConfirmApproval(newId: string, now: string)
      modifies this, store
      ensures old(selected).None? ==> View() == old(View()) && store.State() == old(store.State())
      ensures old(selected).Some? ==>
        store.State() == ApprovalApplied(old(store.State()), old(selected).value, old(approval), newId, now, role) &&
        View() == old(View()).(selected := None, requests := PendingOnly(store.pendingRegistrations))
    {
      if selected.None? {
        return;
      }
      var reg := selected.value;
      var existingUsers := store.adminUsers;
      store.adminUsers := existingUsers + [UserFromRegistration(reg, approval, newId, now)];
      var allRequests := store.pendingRegistrations;
      store.pendingRegistrations := SetStatus(allRequests, reg.id, RegStatus.Approved);
      store.SaveToDatabase(now, "registration_approved", map["requestId" := reg.id, "username" := reg.username], role);
      selected := None;
      LoadRequests();
    }

    /** The approval dialog's email input: only the email changes. */
    method SetApprovalEmail(email: string)
      modifies this
      ensures View() == old(View()).(approval := old(approval).(email := email))
    {
      approval := approval.(email := email);
    }

    /** The approval dialog's role selector: only the role changes. */
    method SetApprovalRole(role: Role)
      modifies this
      ensures View() == old(View()).(approval := old(approval).(role := role))
    {
      approval := approval.(role := role);
    }

    /** The dialog's close and cancel buttons: the selection is dropped, nothing is stored. */
    method Cancel()
      modifies this
      ensures View() == old(View()).(selected := None)
      ensures store.State() == old(store.State())
    {
      selected := None;
    }

    /** `handlePageSelection`: toggle a page id in the approval data. */
    method PageSelection(pageId: string)
      modifies this
      ensures View() == old(View()).(approval := old(approval).(assignedPages := Toggle(old(approval).assignedPages, pageId)))
    {
      approval := approval.(assignedPages := Toggle(approval.assignedPages, pageId));
    }
  }
}
