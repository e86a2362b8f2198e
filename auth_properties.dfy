/** What a submission of the login / registration screen promises, stated over
    `Submission` (the decision `Page.HandleSubmit` is proved to take) and over the
    three handlers of `Page`. */
module AuthProperties {
  import opened Text
  import opened AuthPage

  // ---------------------------------------------------------------------------
  // Login mode
  // ---------------------------------------------------------------------------

  /** In login mode `onLogin` is called exactly when some staff or customer e-mail
      equals the typed one ignoring case, and it receives the e-mail as typed. */
  lemma LoginCalledIff(form: Form, users: seq<User>, customers: seq<Customer>)
    ensures var s := Submission(true, form, users, customers);
      s.outcome.LoginCalled? <==>
        (exists i :: 0 <= i < |users| && Lower(users[i].email) == Lower(form.email)) ||
        (exists j :: 0 <= j < |customers| && Lower(customers[j].email) == Lower(form.email))
    ensures var s := Submission(true, form, users, customers);
      s.outcome.LoginCalled? ==> s.outcome == LoginCalled(form.email) && s.isLogin && s.isLoading
  {
  }

  /** The password fields play no part in a login. */
  lemma LoginIgnoresPasswords(form: Form, password: string, confirmPassword: string,
                              users: seq<User>, customers: seq<Customer>)
    ensures Submission(true, form, users, customers)
         == Submission(true, form.(password := password, confirmPassword := confirmPassword), users, customers)
  {
  }

  /** An e-mail that no directory holds ends the login with the "not found" toast,
      still in login mode and no longer busy. */
  lemma LoginUnknownEmail(form: Form, users: seq<User>, customers: seq<Customer>)
    requires forall i :: 0 <= i < |users| ==> Lower(users[i].email) != Lower(form.email)
    requires forall j :: 0 <= j < |customers| ==> Lower(customers[j].email) != Lower(form.email)
    ensures Submission(true, form, users, customers) == Step(Toast(EmailNotFound, Error), true, false)
  {
  }

  // ---------------------------------------------------------------------------
  // Register mode
  // ---------------------------------------------------------------------------

  /** Different passwords are rejected before any directory is looked at: the
      result is the same whatever the directories hold. */
  lemma RegisterPasswordMismatch(form: Form, users: seq<User>, customers: seq<Customer>,
                                 users': seq<User>, customers': seq<Customer>)
    requires form.password != form.confirmPassword
    ensures Submission(false, form, users, customers) == Step(Toast(PasswordMismatch, Error), false, false)
    ensures Submission(false, form, users, customers) == Submission(false, form, users', customers')
  {
  }

  /** An e-mail that is already taken is refused and the page switches to login mode. */
  lemma RegisterEmailTaken(form: Form, users: seq<User>, customers: seq<Customer>)
    requires form.password == form.confirmPassword
    requires (exists i :: 0 <= i < |users| && Lower(users[i].email) == Lower(form.email)) ||
             (exists j :: 0 <= j < |customers| && Lower(customers[j].email) == Lower(form.email))
    ensures Submission(false, form, users, customers) == Step(Toast(EmailAlreadyRegistered, Error), true, false)
  {
  }

  /** A new e-mail with matching passwords calls `onRegister` with exactly the
      name, e-mail and phone that were typed, and the page stays in register mode. */
  lemma RegisterAccepted(form: Form, users: seq<User>, customers: seq<Customer>)
    requires form.password == form.confirmPassword
    requires forall i :: 0 <= i < |users| ==> Lower(users[i].email) != Lower(form.email)
    requires forall j :: 0 <= j < |customers| ==> Lower(customers[j].email) != Lower(form.email)
    ensures Submission(false, form, users, customers)
         == Step(RegisterCalled(NewCustomer(form.name, form.email, form.phone)), false, false)
  {
  }

  // ---------------------------------------------------------------------------
  // Across submissions
  // ---------------------------------------------------------------------------

  /** Once the host has added the customer that `onRegister` described, a login
      with that e-mail, typed in any case, succeeds, and registering it again is refused. */
  lemma {:induction false} RegisterThenLogin(form: Form, users: seq<User>, customers: seq<Customer>,
                                             id: string, avatarUrl: string, login: Form)
    requires Submission(false, form, users, customers).outcome.RegisterCalled?
    requires SameEmail(login.email, form.email)
    ensures var d := Submission(false, form, users, customers).outcome.data;
      var customers' := customers + [Customer(id, d.name, d.email, d.phone, avatarUrl)];
      Submission(true, login, users, customers').outcome == LoginCalled(login.email) &&
      Submission(false, form, users, customers').outcome == Toast(EmailAlreadyRegistered, Error)
  {
    var d := Submission(false, form, users, customers).outcome.data;
    var customers' := customers + [Customer(id, d.name, d.email, d.phone, avatarUrl)];
    assert customers'[|customers|].email == form.email;
    assert CustomerExists(customers', login.email);
    assert CustomerExists(customers', form.email);
  }

  /** A registration refused because the e-mail is taken leaves the page in login
      mode with the form untouched, so submitting again logs that e-mail in. */
  lemma {:induction false} TakenEmailThenLogin(form: Form, users: seq<User>, customers: seq<Customer>)
    requires Submission(false, form, users, customers).outcome == Toast(EmailAlreadyRegistered, Error)
    ensures Submission(false, form, users, customers).isLogin
    ensures Submission(true, form, users, customers).outcome == LoginCalled(form.email)
  {
    assert form.password == form.confirmPassword;
  }

  // ---------------------------------------------------------------------------
  // The handlers of the component
  // ---------------------------------------------------------------------------

  /** Flipping the mode twice returns to the first mode; the passwords stay cleared
      and name, e-mail and phone are as they were. */
  method ToggleTwice(page: Page)
    modifies page
    ensures page.isLogin == old(page.isLogin)
    ensures page.formData == ClearPasswords(old(page.formData))
    ensures page.isLoading == old(page.isLoading)
  {
    page.ToggleMode();
    page.ToggleMode();
  }

  /** After a successful login the submit button stays disabled: pressing it again does nothing. */
  method LoginLocksSubmit(page: Page, users: seq<User>, customers: seq<Customer>)
    returns (first: Option<Outcome>, second: Option<Outcome>)
    requires page.CanSubmit() && page.isLogin
    requires Known(users, customers, page.formData.email)
    modifies page
    ensures first == Some(LoginCalled(old(page.formData.email)))
    ensures second == None
    ensures page.isLogin && page.isLoading && page.formData == old(page.formData)
  {
    first := page.PressSubmit(users, customers);
    second := page.PressSubmit(users, customers);
  }

  /** "ANA@X.COM" matches the customer e-mail "ana@x.com". */
  lemma CapitalsMatch()
    ensures SameEmail("ana@x.com", "ANA@X.COM")
  {
    assert Lower("ANA@X.COM") == Lower("ana@x.com");
  }

  /** A customer who is not staff logs in, and the button then stays locked. */
  method ScenarioCustomerLoginLocks() {
    var page := new Page();
    page.HandleChange(Email, "ana@x.com");
    var ana := Customer("1", "Ana", "ana@x.com", "", "");
    assert CustomerExists([ana], "ana@x.com");
    var first, second := LoginLocksSubmit(page, [], [ana]);
    assert first == Some(LoginCalled("ana@x.com")) && second == None;
  }

  /** A customer's e-mail typed in capitals logs in, and `onLogin` gets the capitals. */
  method ScenarioLoginIgnoresCase() {
    var page := new Page();
    page.HandleChange(Email, "ANA@X.COM");
    var ana := Customer("1", "Ana", "ana@x.com", "", "");
    CapitalsMatch();
    assert CustomerExists([ana], "ANA@X.COM");
    var o := page.HandleSubmit([], [ana]);
    assert o == LoginCalled("ANA@X.COM");
  }

  /** Different passwords are refused even with empty directories. */
  method ScenarioPasswordMismatch() {
    var page := new Page();
    page.ToggleMode();
    page.HandleChange(Email, "new@x.com");
    page.HandleChange(Password, "a");
    page.HandleChange(ConfirmPassword, "b");
    var o := page.HandleSubmit([], []);
    assert o == Toast(PasswordMismatch, Error) && !page.isLogin && !page.isLoading;
  }

  /** A staff e-mail cannot be registered; the page switches to login. */
  method ScenarioStaffEmailTaken() {
    var page := new Page();
    page.ToggleMode();
    page.HandleChange(Email, "staff@x.com");
    page.HandleChange(Password, "a");
    page.HandleChange(ConfirmPassword, "a");
    var o := page.HandleSubmit([User("staff@x.com")], []);
    assert o == Toast(EmailAlreadyRegistered, Error) && page.isLogin && !page.isLoading;
  }

  /** A new e-mail is registered with exactly the typed name, e-mail and phone. */
  method ScenarioRegister() {
    var page := new Page();
    page.ToggleMode();
    page.HandleChange(Name, "Ana");
    page.HandleChange(Email, "ana@new.com");
    page.HandleChange(Phone, "123");
    page.HandleChange(Password, "a");
    page.HandleChange(ConfirmPassword, "a");
    var o := page.HandleSubmit([], []);
    assert o == RegisterCalled(NewCustomer("Ana", "ana@new.com", "123"));
  }
}
