/** The navigation shell: which of the three screens is showing and the
    current user object, with the callbacks the screens invoke. */
module App {
  import opened Records
  import opened TextRules
  import Login
  import Profile

  const LoginScreen := "login"
  const DashboardScreen := "dashboard"
  const ProfileScreen := "profile"

  /** The display name given to a user whose derived name is empty. */
  const DefaultName := "User"

  /** What the shell draws: a screen and the props it hands that screen. */
  datatype View = LoginView | DashboardView(user: Option<UserRecord>) | ProfileView(user: Option<UserRecord>)

  /** The screen switch: the dashboard and the profile screen each for
      their own name, the login screen for "login" and for every name the
      switch does not know. */
  function RenderScreen(screen: string, user: Option<UserRecord>): (v: View)
    ensures v.DashboardView? <==> screen == DashboardScreen
    ensures v.ProfileView? <==> screen == ProfileScreen
    ensures v.LoginView? <==> screen != DashboardScreen && screen != ProfileScreen
    ensures !v.LoginView? ==> v.user == user
  {
    if screen == LoginScreen then LoginView
    else if screen == DashboardScreen then DashboardView(user)
    else if screen == ProfileScreen then ProfileView(user)
    else LoginView
  }

  /** The user object a login builds: the given name (or "User" when it is
      empty), the given email, and empty optional fields. */
  function LoginRecord(data: Login.Credentials): (u: UserRecord)
    ensures u.Keys == AllFields
    ensures u[Name] == if data.name == "" then DefaultName else data.name
    ensures u[Name] != ""
    ensures u[Email] == data.email
    ensures u[Phone] == "" && u[Bio] == "" && u[Location] == ""
  {
    map[Name := if data.name == "" then DefaultName else data.name, Email := data.email,
        Phone := "", Bio := "", Location := ""]
  }

  /** `{...prev, ...data}`: every key of the saved data takes its new value,
      every other key of the previous user is kept; spreading a null user
      contributes nothing. */
  function Overlay(prev: Option<UserRecord>, data: UserRecord): (u: UserRecord)
    ensures u.Keys == data.Keys + (if prev.Some? then prev.value.Keys else {})
    ensures forall f | f in data :: u[f] == data[f]
    ensures prev.Some? ==> forall f | f in prev.value && f !in data :: u[f] == prev.value[f]
  {
    if prev.Some? then prev.value + data else data
  }

  /** The application's own state. */
  class Shell {
    var currentScreen: string
    var user: Option<UserRecord>

    /** Only the three known screens are ever current; a user is present
        exactly when the login screen is not showing, and carries all five
        keys. */
    ghost predicate Valid()
      reads this
    {
      && (currentScreen == LoginScreen || currentScreen == DashboardScreen || currentScreen == ProfileScreen)
      && (currentScreen == LoginScreen <==> user.None?)
      && (user.Some? ==> user.value.Keys == AllFields)
    }

    /** Start-up: the login screen, no user. */
    constructor ()
      ensures currentScreen == LoginScreen && user == None
      ensures Valid()
    {
      currentScreen := LoginScreen;
      user := None;
    }

    /** The login callback: builds the user and shows the dashboard. */
    method HandleLogin(data: Login.Credentials)
      modifies this
      ensures user == Some(LoginRecord(data)) && currentScreen == DashboardScreen
      ensures Valid()
    {
      user := Some(LoginRecord(data));
      currentScreen := DashboardScreen;
    }

    /** The logout callback: clears the user and shows the login screen,
        whatever was showing. */
    method HandleLogout()
      modifies this
      ensures user == None && currentScreen == LoginScreen
      ensures Valid()
    {
      user := None;
      currentScreen := LoginScreen;
    }

    /** The dashboard's profile button: only the screen changes. */
    method HandleNavigateToProfile()
      requires Valid() && currentScreen == DashboardScreen
      modifies this`currentScreen
      ensures currentScreen == ProfileScreen
      ensures Valid()
    {
      currentScreen := ProfileScreen;
    }

    /** The profile screen's back button: only the screen changes. */
    method HandleBackToDashboard()
      requires Valid() && currentScreen == ProfileScreen
      modifies this`currentScreen
      ensures currentScreen == DashboardScreen
      ensures Valid()
    {
      currentScreen := DashboardScreen;
    }

    /** The profile screen's save callback: the saved keys are laid over the
        previous user; the screen stays. */
    method HandleSaveProfile(profileData: UserRecord)
      requires Valid() && currentScreen == ProfileScreen
      modifies this`user
      ensures user == Some(Overlay(old(user), profileData))
      ensures Valid()
    {
      EveryFieldListed();
      user := Some(Overlay(user, profileData));
    }
  }

  /** In a consistent shell the switch never falls through: the login
      screen is drawn exactly when nobody is logged in, and the other two
      receive the present user. */
  lemma ValidShellRendersOwnScreen(s: Shell)
    requires s.Valid()
    ensures RenderScreen(s.currentScreen, s.user).LoginView? <==> s.user.None?
    ensures !RenderScreen(s.currentScreen, s.user).LoginView? ==> RenderScreen(s.currentScreen, s.user).user.Some?
  {
  }

  /** Saving the profile makes the user exactly the saved buffer: the
      buffer carries all five keys, so nothing of the previous user shows
      through. */
  lemma SavedBufferBecomesUser(prev: Option<UserRecord>, d: FormData)
    ensures Overlay(prev, ToRecord(d)) == ToRecord(d)
  {
    EveryFieldListed();
    var u := Overlay(prev, ToRecord(d));
    assert u.Keys == ToRecord(d).Keys;
  }

  /** After a save, the profile screen's effect re-seeds the buffer from the
      new user and gets the saved buffer back unchanged. */
  lemma ReseedAfterSaveKeepsBuffer(prev: Option<UserRecord>, d: FormData)
    ensures Seed(Overlay(prev, ToRecord(d))) == d
  {
    SavedBufferBecomesUser(prev, d);
    SeedToRecord(d);
  }

  /** A non-empty, all-whitespace email: the profile form (which trims)
      reports it as missing, the login form (which does not) as invalid. */
  lemma BlankEmailDiffersByScreen(email: string, d: FormData)
    requires email != "" && Blank(email) && d.email == email
    ensures Verdict(Profile.Validate(d), Email) == Some(EmailRequired)
    ensures Verdict(Login.Validate(email, ""), Login.EmailField) == Some(EmailInvalid)
  {
    Profile.ValidateMeaning(d);
  }

  /** An email whose "@" comes first still passes the login form, and its
      derived name is empty, so the user is called "User". */
  lemma EmptyDerivedNameFallsBack()
    ensures Login.Validate("@a@b.c", "secret") == map[]
    ensures Login.DeriveName("@a@b.c") == ""
    ensures LoginRecord(Login.Credentials("@a@b.c", Login.DeriveName("@a@b.c")))[Name] == DefaultName
  {
    var email := "@a@b.c";
    assert AtDotPair(email, 2, 4);
    var v := Login.Validate(email, "secret");
    assert Verdict(v, Login.EmailField) == None && Verdict(v, Login.PasswordField) == None;
    assert Login.EmailField !in v && Login.PasswordField !in v;
    assert v.Keys == {};
  }

  /** The buffer after the session below: the login's email, the edited
      name and bio, the other inputs empty as the login left them. */
  function SessionBuffer(email: string, name: string, bio: string): FormData {
    FormData(name, email, "", bio, "")
  }

  /** The buffer seeded from a freshly logged-in user, with the name and
      the bio typed over, is the session buffer. */
  lemma EditedLoginBuffer(data: Login.Credentials, name: string, bio: string)
    ensures Seed(LoginRecord(data)).Set(Name, name).Set(Bio, bio) == SessionBuffer(data.email, name, bio)
  {
    var d := Seed(LoginRecord(data)).Set(Name, name).Set(Bio, bio);
    assert d.Get(Email) == data.email && d.Get(Phone) == "" && d.Get(Location) == "";
  }

  /** The first half of a session: a login with credentials the login
      form accepts, then the dashboard's profile button. The profile screen
      is showing, for the user built from the email and its derived name. */
  method LogInAndOpenProfile(email: string, password: string) returns (shell: Shell)
    requires Login.Validate(email, password) == map[]
    ensures fresh(shell) && shell.Valid() && shell.currentScreen == ProfileScreen
    ensures shell.user == Some(LoginRecord(Login.Credentials(email, Login.DeriveName(email))))
  {
    var form := new Login.LoginForm();
    form.SetEmail(email);
    form.SetPassword(password);
    var login := form.HandleSubmit();
    shell := new Shell();
    shell.HandleLogin(login.value);
    shell.HandleNavigateToProfile();
  }

  /** The second half: the profile screen mounted for `u`, the Edit
      button, a new name and bio typed in, and Save. When the edited buffer
      passes the validator, the save callback receives exactly that buffer. */
  method EditAndSave(u: UserRecord, name: string, bio: string) returns (saved: UserRecord)
    requires Profile.Validate(Seed(u).Set(Name, name).Set(Bio, bio)) == map[]
    ensures saved == ToRecord(Seed(u).Set(Name, name).Set(Bio, bio))
  {
    var editor := new Profile.ProfileEditor(Some(u));
    editor.StartEdit();
    editor.HandleInputChange(Name, name);
    editor.HandleInputChange(Bio, bio);
    assert editor.formData == Seed(u).Set(Name, name).Set(Bio, bio);
    var result := editor.HandleSave();
    saved := result.value;
  }

  /** A whole session: log in, open the profile, type a new name and bio,
      save, and go back. When the login form and the profile form both
      accept their input, the dashboard ends up showing and the user is
      exactly the saved buffer. */
  method SaveProfileSession(email: string, password: string, name: string, bio: string)
      returns (screen: string, user: UserRecord)
    requires Login.Validate(email, password) == map[]
    requires Profile.Validate(SessionBuffer(email, name, bio)) == map[]
    ensures screen == DashboardScreen
    ensures user == ToRecord(SessionBuffer(email, name, bio))
  {
    var shell := LogInAndOpenProfile(email, password);
    var data := Login.Credentials(email, Login.DeriveName(email));
    EditedLoginBuffer(data, name, bio);
    var saved := EditAndSave(LoginRecord(data), name, bio);
    shell.HandleSaveProfile(saved);
    SavedBufferBecomesUser(Some(LoginRecord(data)), SessionBuffer(email, name, bio));
    shell.HandleBackToDashboard();
    screen, user := shell.currentScreen, shell.user.value;
  }

  /** The session's login passes the login form. */
  lemma TestSessionLogin()
    ensures Login.Validate("test@example.com", "password123") == map[]
  {
    EmailExamples();
    EmailTestIsRegexSearch("test@example.com");
    Login.ValidatePassesIff("test@example.com", "password123");
  }

  /** The session's login derives the name "test". */
  lemma TestSessionName()
    ensures Login.DeriveName("test@example.com") == "test"
  {
    assert "test@example.com" == "test" + ['@'] + "example.com";
    Login.DeriveNameIsLocalPart("test", "example.com");
  }

  /** The session's edits (the name "Test User", the bio "Software
      Developer") pass the profile form. */
  lemma TestSessionEdits()
    ensures Profile.Validate(SessionBuffer("test@example.com", "Test User", "Software Developer")) == map[]
  {
    var d := SessionBuffer("test@example.com", "Test User", "Software Developer");
    assert !Blank(d.name) by { assert !IsWs(d.name[0]); }
    assert !Blank(d.email) by { assert !IsWs(d.email[0]); }
    EmailExamples();
    EmailTestIsRegexSearch(d.email);
    Profile.ValidatePassesIff(d);
  }
}
