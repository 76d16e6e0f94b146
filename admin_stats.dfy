/**
 * The admin console's statistics cards: stored pages, all accounts, and
 * the administrator and viewer accounts among them.
 */
module AdminStats {
  import opened Seqs
  import opened Records
  import opened ManageUsers
  import opened UserManagement

  datatype Stats = Stats(totalPages: nat, totalUsers: nat, adminUsers: nat, viewerUsers: nat)

  /** The four counters computed on mount. */
  function LoadStats(pages: seq<SimplePage>, users: seq<User>): (r: Stats)
    ensures r.totalPages == |pages| && r.totalUsers == |users|
    ensures r.adminUsers == CountRole(users, Admin) && r.viewerUsers == CountRole(users, Viewer)
    ensures r.adminUsers <= r.totalUsers && r.viewerUsers <= r.totalUsers
  {
    Stats(|pages|, |users|, CountRole(users, Admin), CountRole(users, Viewer))
  }

  /**
   * Developer accounts count toward the total but toward neither subtotal:
   * the two subtotals fall short of the total by exactly the developers.
   */
  lemma SubtotalsMissDevelopers(pages: seq<SimplePage>, users: seq<User>)
    ensures var r := LoadStats(pages, users);
      r.adminUsers + r.viewerUsers + CountRole(users, Developer) == r.totalUsers
    ensures var r := LoadStats(pages, users);
      r.adminUsers + r.viewerUsers == r.totalUsers <==> CountRole(users, Developer) == 0
  {
    RoleCountsPartition(users);
  }

  /** A user list with a developer shows subtotals that do not add up to the total. */
  lemma DeveloperWidensGap(pages: seq<SimplePage>, users: seq<User>, i: nat)
    requires i < |users| && users[i].role == Developer
    ensures var r := LoadStats(pages, users);
      r.adminUsers + r.viewerUsers < r.totalUsers
  {
    RoleCountsPartition(users);
    assert users[i] in Filter(users, (u: User) => u.role == Developer);
  }

  /** The seeded store shows one user, an administrator. */
  lemma SeededStoreStats(pages: seq<SimplePage>, now: string)
    ensures LoadStats(pages, Seeded([], now)) == Stats(|pages|, 1, 1, 0)
  {
    var users := [DefaultAdmin(now)];
    assert Filter(users[1..], (u: User) => u.role == Admin) == [];
    assert Filter(users[1..], (u: User) => u.role == Viewer) == [];
  }
}
