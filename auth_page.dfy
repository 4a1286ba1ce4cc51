/** Sign-in and sign-up: the user record handed to `onLogin` for test credentials,
    for any other filled-in form, and for the quick-test buttons. */
module AuthPage {
  import opened Seqs

  datatype UserType = Brand | Influencer
  datatype Subscription = Free | Premium | Enterprise

  datatype User = User(
    id: string, userType: UserType, name: string, email: string,
    profileComplete: bool, subscription: Subscription)

  datatype AuthForm = AuthForm(name: string, email: string, password: string, confirmPassword: string)

  const EmptyForm: AuthForm := AuthForm("", "", "", "")

  datatype FormField = Name | Email | Password | ConfirmPassword

  /** `{...formData, [e.target.name]: e.target.value}` */
  function WithField(f: AuthForm, field: FormField, v: string): (r: AuthForm)
    ensures field == Name ==> r == f.(name := v)
    ensures field == Email ==> r == f.(email := v)
    ensures field == Password ==> r == f.(password := v)
    ensures field == ConfirmPassword ==> r == f.(confirmPassword := v)
  {
    match field
    case Name => f.(name := v)
    case Email => f.(email := v)
    case Password => f.(password := v)
    case ConfirmPassword => f.(confirmPassword := v)
  }

  const ProfileSetupPath := "/profile-setup"

  /** The test account of each user type. */
  function TestUser(t: UserType): (u: User)
    ensures u.userType == t && u.email == "test@example.com"
    ensures !u.profileComplete && u.subscription == Free
  {
    match t
    case Brand => User("brand-1", Brand, "Test Brand Company", "test@example.com", false, Free)
    case Influencer => User("influencer-1", Influencer, "Test Influencer", "test@example.com", false, Free)
  }

  function DefaultName(t: UserType): string {
    match t
    case Brand => "Demo Brand"
    case Influencer => "Demo Influencer"
  }

  predicate IsTestLogin(f: AuthForm) {
    f.email == "test" && f.password == "test"
  }

  /** The user `handleSubmit` logs in, if any. */
  function SubmittedUser(f: AuthForm, t: UserType): (r: Option<User>)
    ensures r.None? <==> f.email == "" || f.password == ""
    ensures IsTestLogin(f) ==> r == Some(TestUser(t))
    ensures !IsTestLogin(f) && r.Some? ==>
      r.value.id == "1" && r.value.email == f.email &&
      r.value.name == (if f.name != "" then f.name else DefaultName(t))
    ensures r.Some? ==> r.value.userType == t && !r.value.profileComplete && r.value.subscription == Free
  {
    if IsTestLogin(f) then Some(TestUser(t))
    else if f.email != "" && f.password != "" then
      Some(User("1", t, if f.name != "" then f.name else DefaultName(t), f.email, false, Free))
    else None
  }

  /** The test credentials reach the same account as the quick-test button, whatever
      else the form holds. */
  lemma TestCredentialsAreQuickTest(name: string, confirm: string, t: UserType)
    ensures SubmittedUser(AuthForm(name, "test", "test", confirm), t) == Some(TestUser(t))
  {
  }

  /** The two test accounts differ only in what depends on the type. */
  lemma TestUsersDiffer()
    ensures TestUser(Brand).id == "brand-1" && TestUser(Influencer).id == "influencer-1"
    ensures TestUser(Brand).name == "Test Brand Company" && TestUser(Influencer).name == "Test Influencer"
  {
  }

  class AuthPage {
    var isLogin: bool
    var userType: UserType
    var showPassword: bool
    var form: AuthForm
    var isLoading: bool

    constructor ()
      ensures isLogin && userType == Brand && !showPassword && form == EmptyForm && !isLoading
    {
      isLogin := true;
      userType := Brand;
      showPassword := false;
      form := EmptyForm;
      isLoading := false;
    }

    method HandleInputChange(field: FormField, v: string)
      modifies this`form
      ensures form == WithField(old(form), field, v)
    {
      form := WithField(form, field, v);
    }

    method SetUserType(t: UserType)
      modifies this`userType
      ensures userType == t
    {
      userType := t;
    }

    /** `handleSubmit`, after its simulated delay.  Loading is switched on and never
        off: with an empty field nothing else happens. */
    method HandleSubmit() returns (loggedIn: Option<User>, nav: Option<string>)
      modifies this`isLoading
      ensures isLoading
      ensures loggedIn == SubmittedUser(form, userType)
      ensures nav.Some? <==> loggedIn.Some?
      ensures nav.Some? ==> nav.value == ProfileSetupPath
    {
      isLoading := true;
      loggedIn := SubmittedUser(form, userType);
      nav := if loggedIn.Some? then Some(ProfileSetupPath) else None;
    }

    /** `quickTest`, after its simulated delay. */
    method QuickTest(t: UserType) returns (loggedIn: User, nav: string)
      modifies this`userType, this`isLoading
      ensures userType == t && isLoading
      ensures loggedIn == TestUser(t) && nav == ProfileSetupPath
    {
      userType := t;
      isLoading := true;
      loggedIn := TestUser(t);
      nav := ProfileSetupPath;
    }

    /** `toggleAuthMode`: the other mode, with every field cleared. */
    method ToggleAuthMode()
      modifies this`isLogin, this`form
      ensures isLogin == !old(isLogin) && form == EmptyForm
    {
      isLogin := !isLogin;
      form := EmptyForm;
    }
  }
}
