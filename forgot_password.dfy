/**
 * The credential recovery page: an account is found by name or e-mail
 * (ignoring case) together with its exact phone number; failing that, a
 * sign-up request with that name and phone explains why there is no
 * account yet.
 */
module ForgotPassword {
  import opened Basics
  import opened Seqs
  import opened Records
  import opened Storage
  import opened ManageUsers
  import opened RegistrationRequests

  /** A missing phone number never equals the typed one. */
  predicate AccountMatches(u: User, userId: string, phone: string) {
    (EqualsIgnoreCase(u.name, userId) || EqualsIgnoreCase(u.email, userId)) && u.phoneNumber == Some(phone)
  }

  predicate RequestMatches(g: Registration, userId: string, phone: string) {
    EqualsIgnoreCase(g.username, userId) && g.phoneNumber == phone
  }

  const PendingMessage := "Your registration is still pending approval. Please contact the administrator."
  const RejectedMessage := "Your registration was rejected. Please contact the administrator."
  const NotFoundMessage := "User not found or phone number doesn't match our records."

  /**
   * `handleSubmit`'s result: the recovered account, an error message, or
   * nothing at all (a matching request that was already approved).
   */
  datatype Recovery = Recovered(user: User) | Refused(message: string) | Silent

  function Recover(users: seq<User>, regs: seq<Registration>, userId: string, phone: string): (r: Recovery)
    ensures r.Recovered? ==> r.user in users && AccountMatches(r.user, userId, phone)
    ensures r.Recovered? <==> exists i :: 0 <= i < |users| && AccountMatches(users[i], userId, phone)
    ensures r.Refused? && r.message != NotFoundMessage ==>
      exists i :: 0 <= i < |regs| && RequestMatches(regs[i], userId, phone) && regs[i].status != Approved
    ensures r == Refused(NotFoundMessage) <==>
      (forall i :: 0 <= i < |users| ==> !AccountMatches(users[i], userId, phone)) &&
      (forall i :: 0 <= i < |regs| ==> !RequestMatches(regs[i], userId, phone))
  {
    match Find(users, (u: User) => AccountMatches(u, userId, phone))
    case Some(u) => Recovered(u)
    case None =>
      match Find(regs, (g: Registration) => RequestMatches(g, userId, phone))
      case Some(g) =>
        if g.status == Pending then Refused(PendingMessage)
        else if g.status == Rejected then Refused(RejectedMessage)
        else Silent
      case None => Refused(NotFoundMessage)
  }

  /**
   * With no matching account, the first matching request decides: pending
   * and rejected requests get their message, an approved one gets nothing.
   */
  lemma {:induction false} RequestDecides(users: seq<User>, regs: seq<Registration>, userId: string, phone: string, k: nat)
    requires forall i :: 0 <= i < |users| ==> !AccountMatches(users[i], userId, phone)
    requires k < |regs| && RequestMatches(regs[k], userId, phone)
    requires forall j :: 0 <= j < k ==> !RequestMatches(regs[j], userId, phone)
    ensures regs[k].status == Pending ==> Recover(users, regs, userId, phone) == Refused(PendingMessage)
    ensures regs[k].status == Rejected ==> Recover(users, regs, userId, phone) == Refused(RejectedMessage)
    ensures regs[k].status == Approved ==> Recover(users, regs, userId, phone) == Silent
  {
    assert Find(regs, (g: Registration) => RequestMatches(g, userId, phone)) == Some(regs[k]);
  }

  /**
   * Once a request is approved, its name and phone recover an account:
   * the approval put one with that name and phone into the store.
   */
  lemma {:induction false} ApprovedCanRecover(s: StoreState, k: nat, a: Approval, newId: string, now: string, role: string)
    requires k < |s.pendingRegistrations|
    ensures var reg := s.pendingRegistrations[k];
      var t := ApprovalApplied(s, reg, a, newId, now, role);
      Recover(t.adminUsers, t.pendingRegistrations, reg.username, reg.phoneNumber).Recovered?
  {
    var reg := s.pendingRegistrations[k];
    var t := ApprovalApplied(s, reg, a, newId, now, role);
    ApprovalSpec(s, k, a, newId, now, role);
    var n := |s.adminUsers|;
    assert t.adminUsers[n] == UserFromRegistration(reg, a, newId, now);
    assert AccountMatches(t.adminUsers[n], reg.username, reg.phoneNumber);
  }

  // ------------------------------------------------------------- component

  datatype RecoveryView = RecoveryView(userId: string, phoneNumber: string, error: string, recovered: Option<User>, toast: Option<string>)

  class ForgotPasswordPage {
    const store: LocalStore
    var userId: string
    var phoneNumber: string
    var error: string
    var recovered: Option<User>
    var toast: Option<string>

    function View(): RecoveryView
      reads this
    {
      RecoveryView(userId, phoneNumber, error, recovered, toast)
    }

    constructor (store: LocalStore)
      ensures this.store == store && View() == RecoveryView("", "", "", None, None)
    {
      this.store := store;
      userId, phoneNumber, error, recovered, toast := "", "", "", None, None;
    }

    method SetForm(id: string, phone: string)
      modifies this
      ensures View() == old(View()).(userId := id, phoneNumber := phone)
    {
      userId, phoneNumber := id, phone;
    }

    /** `handleSubmit`: reads the store, never writes it. */
    method Submit()
      modifies this
      ensures var r := Recover(store.adminUsers, store.pendingRegistrations, userId, phoneNumber);
        userId == old(userId) && phoneNumber == old(phoneNumber) &&
        (r.Recovered? ==> error == "" && recovered == Some(r.user) && toast == Some("Credentials recovered successfully!")) &&
        (r.Refused? ==> error == r.message && recovered.None? && toast == old(toast)) &&
        (r.Silent? ==> error == "" && recovered.None? && toast == old(toast))
    {
      error := "";
      recovered := None;
      var r := Recover(store.adminUsers, store.pendingRegistrations, userId, phoneNumber);
      match r {
        case Recovered(u) =>
          recovered := Some(u);
          toast := Some("Credentials recovered successfully!");
        case Refused(m) =>
          error := m;
        case Silent =>
      }
    }

    /** `handleReset`: clears the form, the result and the error. */
    method Reset()
      modifies this
      ensures View() == old(View()).(userId := "", phoneNumber := "", recovered := None, error := "")
    {
      userId, phoneNumber, recovered, error := "", "", None, "";
    }
  }
}
