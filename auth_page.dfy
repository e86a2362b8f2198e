/** The combined login / registration screen of the shop (pages/AuthPage.tsx).
    The component keeps three pieces of local state — the mode `isLogin`, the busy
    flag `isLoading` and the form record — and has three handlers: typing into a
    field, flipping the mode, and submitting. A submission ends in exactly one
    call to a host callback (`onLogin`, `onRegister` or `showToast`); those calls
    are returned here as an `Outcome` value. */
module AuthPage {
  import opened Text

  // ---------------------------------------------------------------------------
  // The directories the page reads (props `customers` and `users`)
  // ---------------------------------------------------------------------------

  /** A shop customer. Only `email` is read by the page. */
  datatype Customer = Customer(id: string, name: string, email: string, phone: string, avatarUrl: string)

  /** A staff account. Only `email` is read by the page. */
  datatype User = User(email: string)

  /** What `onRegister` receives: a customer without `id` and `avatarUrl`. */
  datatype NewCustomer = NewCustomer(name: string, email: string, phone: string)

  /** `xs.some(p)` */
  function Any<T>(xs: seq<T>, p: T -> bool): (r: bool)
    ensures r <==> exists i :: 0 <= i < |xs| && p(xs[i])
  {
    if xs == [] then false else p(xs[0]) || Any(xs[1..], p)
  }

  /** `users.some(u => u.email.toLowerCase() === email.toLowerCase())` */
  function UserExists(users: seq<User>, email: string): (r: bool)
    ensures r <==> exists i :: 0 <= i < |users| && SameEmail(users[i].email, email)
  {
    Any(users, (u: User) => SameEmail(u.email, email))
  }

  /** `customers.some(c => c.email.toLowerCase() === email.toLowerCase())` */
  function CustomerExists(customers: seq<Customer>, email: string): (r: bool)
    ensures r <==> exists j :: 0 <= j < |customers| && SameEmail(customers[j].email, email)
  {
    Any(customers, (c: Customer) => SameEmail(c.email, email))
  }

  /** The e-mail is already taken by a staff account or by a customer, ignoring case. */
  function Known(users: seq<User>, customers: seq<Customer>, email: string): (r: bool)
    ensures r <==> (exists i :: 0 <= i < |users| && SameEmail(users[i].email, email)) ||
                   (exists j :: 0 <= j < |customers| && SameEmail(customers[j].email, email))
  {
    UserExists(users, email) || CustomerExists(customers, email)
  }

  // ---------------------------------------------------------------------------
  // The form record
  // ---------------------------------------------------------------------------

  /** The `name` attribute of each input wired to `handleChange`. */
  datatype Field = Name | Email | Phone | Password | ConfirmPassword

  datatype Form = Form(name: string, email: string, phone: string, password: string, confirmPassword: string)

  /** The form as the component is mounted: every field empty. */
  const EmptyForm := Form("", "", "", "", "")

  /** `formData[field]` */
  function Get(f: Form, field: Field): string {
    match field
    case Name => f.name
    case Email => f.email
    case Phone => f.phone
    case Password => f.password
    case ConfirmPassword => f.confirmPassword
  }

  /** `{ ...f, [field]: value }`: the named field takes the value, the other four keep theirs. */
  function Set(f: Form, field: Field, value: string): (r: Form)
    ensures Get(r, field) == value
    ensures forall other: Field :: other != field ==> Get(r, other) == Get(f, other)
  {
    match field
    case Name => f.(name := value)
    case Email => f.(email := value)
    case Phone => f.(phone := value)
    case Password => f.(password := value)
    case ConfirmPassword => f.(confirmPassword := value)
  }

  /** `{ ...f, password: '', confirmPassword: '' }`: a typed password does not survive a mode switch. */
  function ClearPasswords(f: Form): (r: Form)
    ensures Get(r, Password) == "" && Get(r, ConfirmPassword) == ""
    ensures forall field :: field !in {Password, ConfirmPassword} ==> Get(r, field) == Get(f, field)
  {
    f.(password := "", confirmPassword := "")
  }

  // ---------------------------------------------------------------------------
  // Outcomes of a submission
  // ---------------------------------------------------------------------------

  /** The `type` argument of `showToast`. */
  datatype ToastKind = Success | Error

  /** The one host call a submission makes. */
  datatype Outcome =
    | LoginCalled(email: string)          // onLogin(email)
    | RegisterCalled(data: NewCustomer)   // onRegister({ name, email, phone })
    | Toast(message: string, kind: ToastKind)  // showToast(message, kind)

  const EmailNotFound := "E-mail não encontrado. Verifique ou crie uma conta."
  const PasswordMismatch := "As senhas não coincidem."
  const EmailAlreadyRegistered := "Este e-mail já está cadastrado. Faça login."

  datatype Option<T> = None | Some(value: T)

  /** The host call of a submission together with the mode and busy flag it leaves behind. */
  datatype Step = Step(outcome: Outcome, isLogin: bool, isLoading: bool)

  /** What `handleSubmit` decides for the mode and form it sees when it starts.
      The form itself is never changed by a submission. Every rejection is an error
      toast; the page stays busy only after a successful login, which passes the
      e-mail as typed; a registration passes exactly the typed name, e-mail and phone
      and never leaves the page busy. */
  function Submission(isLogin: bool, form: Form, users: seq<User>, customers: seq<Customer>): (r: Step)
    ensures r.isLoading <==> r.outcome.LoginCalled?
    ensures r.outcome.Toast? ==> r.outcome.kind == Error
    ensures r.outcome.LoginCalled? ==> isLogin && r.isLogin && r.outcome.email == form.email
    ensures r.outcome.RegisterCalled? ==>
      !isLogin && !r.isLogin && r.outcome.data == NewCustomer(form.name, form.email, form.phone)
  {
    if isLogin then
      if Known(users, customers, form.email) then
        Step(LoginCalled(form.email), true, true)
      else
        Step(Toast(EmailNotFound, Error), true, false)
    else if form.password != form.confirmPassword then
      Step(Toast(PasswordMismatch, Error), false, false)
    else if Known(users, customers, form.email) then
      Step(Toast(EmailAlreadyRegistered, Error), true, false)
    else
      Step(RegisterCalled(NewCustomer(form.name, form.email, form.phone)), false, false)
  }

  // ---------------------------------------------------------------------------
  // The component
  // ---------------------------------------------------------------------------

  class Page {
    var isLogin: bool
    var isLoading: bool
    var formData: Form

    /** The initial state from the three `useState` calls. */
    constructor ()
      ensures isLogin && !isLoading && formData == EmptyForm
    {
      isLogin := true;
      isLoading := false;
      formData := EmptyForm;
    }

    /** The submit button is enabled exactly when no submission is in progress. */
    predicate CanSubmit()
      reads this
    {
      !isLoading
    }

    /** `handleChange`: store what was typed into one input. */
    method HandleChange(field: Field, value: string)
      modifies this`formData
      ensures formData == Set(old(formData), field, value)
    {
      formData := Set(formData, field, value);
    }

    /** The "Cadastre-se" / "Faça Login" button: flip the mode and clear both password fields. */
    method ToggleMode()
      modifies this`isLogin, this`formData
      ensures isLogin == !old(isLogin)
      ensures formData == ClearPasswords(old(formData))
    {
      isLogin := !isLogin;
      formData := ClearPasswords(formData);
    }

    /** `handleSubmit`, run as one step on the state it starts from. */
    method HandleSubmit(users: seq<User>, customers: seq<Customer>) returns (o: Outcome)
      modifies this`isLogin, this`isLoading
      ensures var s := Submission(old(isLogin), formData, users, customers);
        o == s.outcome && isLogin == s.isLogin && isLoading == s.isLoading
    {
      isLoading := true;
      var form := formData;
      if isLogin {
        var userExists := UserExists(users, form.email);
        var customerExists := CustomerExists(customers, form.email);
        if userExists || customerExists {
          o := LoginCalled(form.email);
        } else {
          o := Toast(EmailNotFound, Error);
          isLoading := false;
        }
      } else {
        if form.password != form.confirmPassword {
          o := Toast(PasswordMismatch, Error);
          isLoading := false;
          return;
        }
        var emailExists := CustomerExists(customers, form.email);
        var userEmailExists := UserExists(users, form.email);
        if emailExists || userEmailExists {
          o := Toast(EmailAlreadyRegistered, Error);
          isLogin := true;
          isLoading := false;
          return;
        }
        o := RegisterCalled(NewCustomer(form.name, form.email, form.phone));
        isLoading := false;
      }
    }

    /** Pressing the submit button: nothing happens while it is disabled. */
    method PressSubmit(users: seq<User>, customers: seq<Customer>) returns (o: Option<Outcome>)
      modifies this`isLogin, this`isLoading
      ensures o.Some? <==> old(CanSubmit())
      ensures o.None? ==> unchanged(this)
      ensures o.Some? ==> var s := Submission(old(isLogin), formData, users, customers);
        o.value == s.outcome && isLogin == s.isLogin && isLoading == s.isLoading
    {
      if CanSubmit() {
        var outcome := HandleSubmit(users, customers);
        o := Some(outcome);
      } else {
        o := None;
      }
    }
  }
}
