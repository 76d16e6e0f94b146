/**
 * The self-service sign-up page: field validation in a fixed order, a
 * case-insensitive uniqueness check against accounts and every request
 * ever made, and the new pending request appended to the store.
 */
module Register {
  import opened Basics
  import opened Records
  import opened Storage

  datatype RegForm = RegForm(username: string, phoneNumber: string, password: string, confirmPassword: string)

  const EmptyRegForm := RegForm("", "", "", "")

  /**
   * `validateForm`: the first failing rule's message, or None when the form
   * passes. Both length rules count UTF-16 code units of the untrimmed
   * input, as `.length` does; the phone rule does not look at whether the
   * characters are digits.
   */
  function Validate(f: RegForm): (r: Option<string>)
    ensures r.None? <==>
      !IsBlank(f.username) && !IsBlank(f.phoneNumber) && Utf16Length(f.phoneNumber) >= 10 &&
      Utf16Length(f.password) >= 6 && f.password == f.confirmPassword
    ensures IsBlank(f.username) ==> r == Some("Username is required")
    ensures !IsBlank(f.username) && IsBlank(f.phoneNumber) ==> r == Some("Phone number is required")
    ensures !IsBlank(f.username) && !IsBlank(f.phoneNumber) && Utf16Length(f.phoneNumber) < 10 ==>
      r == Some("Phone number must be at least 10 digits")
    ensures !IsBlank(f.username) && !IsBlank(f.phoneNumber) && Utf16Length(f.phoneNumber) >= 10 && f.password == "" ==>
      r == Some("Password is required")
    ensures !IsBlank(f.username) && !IsBlank(f.phoneNumber) && Utf16Length(f.phoneNumber) >= 10 && f.password != "" && Utf16Length(f.password) < 6 ==>
      r == Some("Password must be at least 6 characters")
    ensures !IsBlank(f.username) && !IsBlank(f.phoneNumber) && Utf16Length(f.phoneNumber) >= 10 && Utf16Length(f.password) >= 6 && f.password != f.confirmPassword ==>
      r == Some("Passwords do not match")
    ensures r.Some? ==> r.value in ["Username is required", "Phone number is required",
                                    "Phone number must be at least 10 digits", "Password is required",
                                    "Password must be at least 6 characters", "Passwords do not match"]
  {
    if IsBlank(f.username) then Some("Username is required")
    else if IsBlank(f.phoneNumber) then Some("Phone number is required")
    else if Utf16Length(f.phoneNumber) < 10 then Some("Phone number must be at least 10 digits")
    else if f.password == "" then Some("Password is required")
    else if Utf16Length(f.password) < 6 then Some("Password must be at least 6 characters")
    else if f.password != f.confirmPassword then Some("Passwords do not match")
    else None
  }

  /** Three characters above U+FFFF make a password six code units long, which the length rule accepts. */
  lemma AstralPasswordAccepted()
    ensures Validate(RegForm("user", "0812345678", "\U{1F600}\U{1F600}\U{1F600}", "\U{1F600}\U{1F600}\U{1F600}")) == None
  {
    var pw := "\U{1F600}\U{1F600}\U{1F600}";
    assert IsAstral(pw[0]) && IsAstral(pw[1]) && IsAstral(pw[2]);
    assert Utf16Length(pw) == 6;
    assert !IsWhitespace("user"[0]) && !IsWhitespace("0812345678"[0]);
    assert Utf16Length("0812345678") >= 10;
  }

  /** The name is taken when an account or any request (whatever its status) carries it, ignoring case. */
  predicate Taken(s: StoreState, username: string) {
    (exists i :: 0 <= i < |s.adminUsers| && EqualsIgnoreCase(s.adminUsers[i].name, username)) ||
    (exists i :: 0 <= i < |s.pendingRegistrations| && EqualsIgnoreCase(s.pendingRegistrations[i].username, username))
  }

  function NewRequest(f: RegForm, id: string, now: string): (g: Registration)
    ensures g.status == Pending && g.username == f.username && g.phoneNumber == f.phoneNumber && g.password == f.password
  {
    Registration(id, f.username, f.phoneNumber, f.password, Pending, now)
  }

  /** Once a request is stored, the same name in any letter case is taken. */
  lemma {:induction false} RequestMakesNameTaken(s: StoreState, f: RegForm, id: string, now: string, other: string)
    requires EqualsIgnoreCase(other, f.username)
    ensures Taken(s.(pendingRegistrations := s.pendingRegistrations + [NewRequest(f, id, now)]), other)
  {
    var regs := s.pendingRegistrations + [NewRequest(f, id, now)];
    assert regs[|regs| - 1].username == f.username;
    assert EqualsIgnoreCase(regs[|regs| - 1].username, other);
  }

  // ------------------------------------------------------------- component

  datatype RegisterView = RegisterView(form: RegForm, error: string, toast: Option<string>, redirectToLogin: bool)

  const SuccessMessage := "Registration request submitted successfully! Please wait for admin approval."

  class RegisterPage {
    const store: LocalStore
    var form: RegForm
    var error: string
    var toast: Option<string>
    var redirectToLogin: bool

    function View(): RegisterView
      reads this
    {
      RegisterView(form, error, toast, redirectToLogin)
    }

    constructor (store: LocalStore)
      ensures this.store == store && View() == RegisterView(EmptyRegForm, "", None, false)
    {
      this.store := store;
      form, error, toast, redirectToLogin := EmptyRegForm, "", None, false;
    }

    method SetForm(f: RegForm)
      modifies this
      ensures View() == old(View()).(form := f)
    {
      form := f;
    }

    /**
     * `handleSubmit`: an invalid form shows the validation message, a taken
     * name shows "Username already exists"; otherwise one pending request is
     * appended, the success toast is shown, the form is cleared and the page
     * heads back to login. Only the request list changes in the store.
     */
    method Submit(id: string, now: string)
      modifies this, store
      ensures Validate(old(form)).Some? ==>
        View() == old(View()).(error := Validate(old(form)).value) && store.State() == old(store.State())
      ensures Validate(old(form)).None? && Taken(old(store.State()), old(form).username) ==>
        View() == old(View()).(error := "Username already exists") && store.State() == old(store.State())
      ensures Validate(old(form)).None? && !Taken(old(store.State()), old(form).username) ==>
        View() == RegisterView(EmptyRegForm, "", Some(SuccessMessage), true) &&
        store.State() == old(store.State()).(pendingRegistrations := old(store.pendingRegistrations) + [NewRequest(old(form), id, now)])
    {
      error := "";
      var invalid := Validate(form);
      if invalid.Some? {
        error := invalid.value;
        return;
      }
      if Taken(store.State(), form.username) {
        error := "Username already exists";
        return;
      }
      var pending := store.pendingRegistrations;
      store.pendingRegistrations := pending + [NewRequest(form, id, now)];
      toast := Some(SuccessMessage);
      form := EmptyRegForm;
      redirectToLogin := true;
    }
  }

  /** Submitting the same name twice in a row stores only one request: the second is refused. */
  method SubmitTwice(store: LocalStore, f: RegForm, id1: string, id2: string, now: string)
    requires Validate(f).None? && !Taken(store.State(), f.username)
    modifies store
    ensures store.pendingRegistrations == old(store.pendingRegistrations) + [NewRequest(f, id1, now)]
  {
    var page := new RegisterPage(store);
    page.SetForm(f);
    page.Submit(id1, now);
    RequestMakesNameTaken(old(store.State()), f, id1, now, f.username);
    page.SetForm(f);
    page.Submit(id2, now);
  }
}
