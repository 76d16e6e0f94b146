/**
 * The login page: the hard-wired developer account, stored accounts by
 * e-mail or by case-insensitive name, the hard-wired admin fallback, and
 * the landing page chosen for each role.
 */
module Login {
  import opened Basics
  import opened Seqs
  import opened Records
  import opened Storage
  import opened ManageUsers

  /** `getRedirectPath`: admins and developers to their consoles, viewers to their first assigned page. */
  function RedirectPath(u: User): (path: string)
    ensures u.role == Admin ==> path == "/admin"
    ensures u.role == Developer ==> path == "/developer"
    ensures u.role == Viewer && u.assignedPages.Some? && |u.assignedPages.value| > 0 ==>
      path == "/dashboard/" + u.assignedPages.value[0]
    ensures u.role == Viewer && (u.assignedPages.None? || u.assignedPages.value == []) ==>
      path == "/dashboard/performance"
  {
    if u.role == Admin then "/admin"
    else if u.role == Developer then "/developer"
    else if u.assignedPages.Some? && |u.assignedPages.value| > 0 then "/dashboard/" + u.assignedPages.value[0]
    else "/dashboard/performance"
  }

  predicate ByEmail(u: User, username: string, password: string) {
    u.email == username && u.password == password
  }

  predicate ByName(u: User, username: string, password: string) {
    EqualsIgnoreCase(u.name, username) && u.password == password
  }

  /** The first account matching by e-mail, else the first matching by name. */
  function Authenticate(users: seq<User>, username: string, password: string): (r: Option<User>)
    ensures r.Some? ==>
      r.value in users && r.value.password == password &&
      (r.value.email == username || EqualsIgnoreCase(r.value.name, username))
    ensures r.None? <==> forall i :: 0 <= i < |users| ==> !ByEmail(users[i], username, password) && !ByName(users[i], username, password)
  {
    match Find(users, (u: User) => ByEmail(u, username, password))
    case Some(u) => Some(u)
    case None => Find(users, (u: User) => ByName(u, username, password))
  }

  /** What a login attempt leaves behind: the three session keys and the page to open, or the error shown. */
  datatype Outcome = Session(role: string, username: string, userId: string, path: string) | Failure(message: string)

  const DeveloperSession := Session("developer", "developer", "developer", "/developer")
  const FallbackAdminSession := Session("admin", "admin", "default-admin", "/admin")

  function SessionOf(u: User): Outcome {
    Session(RoleName(u.role), u.name, u.id, RedirectPath(u))
  }

  function Attempt(users: seq<User>, username: string, password: string): (r: Outcome)
    ensures r.Failure? <==>
      !(username == "developer" && password == "jnecbn18") &&
      Authenticate(users, username, password).None? &&
      !(username == "admin" && password == "admin")
    ensures r.Failure? ==> r.message == "Invalid username or password"
    ensures r.Session? && r != DeveloperSession && r != FallbackAdminSession ==>
      exists i :: 0 <= i < |users| && r == SessionOf(users[i]) && users[i].password == password
  {
    if username == "developer" && password == "jnecbn18" then DeveloperSession
    else match Authenticate(users, username, password)
      case Some(u) => SessionOf(u)
      case None =>
        if username == "admin" && password == "admin" then FallbackAdminSession
        else Failure("Invalid username or password")
  }

  /** The developer credentials win over any stored account of the same name. */
  lemma DeveloperFirst(users: seq<User>)
    ensures Attempt(users, "developer", "jnecbn18") == DeveloperSession
  {
  }

  /** A stored account matching by e-mail wins over an earlier account matching by name. */
  lemma {:induction false} EmailBeforeName(users: seq<User>, k: nat, username: string, password: string)
    requires k < |users| && ByEmail(users[k], username, password)
    requires forall j :: 0 <= j < k ==> !ByEmail(users[j], username, password)
    requires !(username == "developer" && password == "jnecbn18")
    ensures Attempt(users, username, password) == SessionOf(users[k])
  {
    assert Find(users, (u: User) => ByEmail(u, username, password)) == Some(users[k]);
  }

  /** "admin"/"admin" opens the fallback session whenever no stored account accepts it. */
  lemma FallbackWhenNoAccount(users: seq<User>)
    requires Authenticate(users, "admin", "admin").None?
    ensures Attempt(users, "admin", "admin") == FallbackAdminSession
  {
    assert "admin" != "developer" by { assert |"admin"| != |"developer"|; }
  }

  /**
   * On a freshly seeded store, "admin"/"admin" matches neither the default
   * account's e-mail nor its name, so the session is the fallback with id
   * "default-admin".
   */
  lemma {:induction false} SeededAdminFallback(now: string)
    ensures Attempt([DefaultAdmin(now)], "admin", "admin") == FallbackAdminSession
  {
    SeededAdminNoAccount(now);
    FallbackWhenNoAccount([DefaultAdmin(now)]);
  }

  /** The default account's name is longer than "admin" and its e-mail differs, so neither rule matches it. */
  lemma SeededAdminNoAccount(now: string)
    ensures Authenticate([DefaultAdmin(now)], "admin", "admin").None?
  {
    var u := DefaultAdmin(now);
    assert |u.name| != |"admin"| && |u.email| != |"admin"|;
    NameLengthMismatch(u, "admin", "admin");
    assert [u][0] == u;
  }

  /** Case folding keeps lengths, so a name of another length never matches. */
  lemma NameLengthMismatch(u: User, username: string, password: string)
    requires |u.name| != |username|
    ensures !ByName(u, username, password)
  {
    assert |Lower(u.name)| != |Lower(username)|;
  }

  /** The seeded default account is reached by its e-mail and lands on the admin console. */
  lemma {:induction false} SeededAdminByEmail(now: string)
    ensures Attempt([DefaultAdmin(now)], "admin@jne.com", "admin") == Session("admin", "Administrator", DefaultAdminId, "/admin")
  {
    var u := DefaultAdmin(now);
    assert ByEmail(u, "admin@jne.com", "admin");
    assert Authenticate([u], "admin@jne.com", "admin") == Some(u);
  }

  // ------------------------------------------------------------- component

  datatype LoginView = LoginView(username: string, password: string, error: string, redirect: Option<string>)

  class LoginPage {
    const store: LocalStore
    var username: string
    var password: string
    var error: string
    var redirect: Option<string>

    function View(): LoginView
      reads this
    {
      LoginView(username, password, error, redirect)
    }

    constructor (store: LocalStore)
      ensures this.store == store && View() == LoginView("", "", "", None)
    {
      this.store := store;
      username, password, error, redirect := "", "", "", None;
    }

    method SetCredentials(name: string, pass: string)
      modifies this
      ensures View() == old(View()).(username := name, password := pass)
    {
      username, password := name, pass;
    }

    /**
     * `handleSubmit`: a session writes `userRole`, `username` and `userId`
     * and navigates; a failure only shows the message.
     */
    method Submit()
      modifies this, store
      ensures var r := Attempt(old(store.adminUsers), username, password);
        username == old(username) && password == old(password) &&
        (r.Session? ==>
           store.State() == old(store.State()).(userRole := Some(r.role), username := Some(r.username), userId := Some(r.userId)) &&
           error == "" && redirect == Some(r.path)) &&
        (r.Failure? ==> store.State() == old(store.State()) && error == r.message && redirect == old(redirect))
    {
      error := "";
      var r := Attempt(store.adminUsers, username, password);
      if r.Session? {
        store.userRole := Some(r.role);
        store.username := Some(r.username);
        store.userId := Some(r.userId);
        redirect := Some(r.path);
      } else {
        error := r.message;
      }
    }
  }
}
