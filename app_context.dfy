/** The session/preferences store (`AppProvider`): seven state fields, eight
    mutators, and the effect that mirrors the theme choices into the class
    list of the document root. */
module AppContext {
  import opened Text

  datatype Option<T> = None | Some(value: T)

  datatype FontSize = Normal | Large | ExtraLarge

  datatype User = User(
    name: string,
    email: string,
    avatar: string,
    interests: seq<string>,
    language: string)

  /** The short label shown in the avatar: the first two characters, upper-cased. */
  function Avatar(s: string): (a: string)
    ensures |a| == if |s| < 2 then |s| else 2
    ensures forall i :: 0 <= i < |a| ==> a[i] == UpperChar(s[i])
  {
    Upper(Take(s, 2))
  }

  /** The user `login` makes up from an email address. */
  function LoginUser(email: string): (u: User)
    ensures u.email == email
    ensures u.name <= email && '@' !in u.name
    ensures |u.name| < |email| ==> email[|u.name|] == '@'
    ensures u.avatar == Avatar(email)
    ensures u.interests == [] && u.language == "en"
  {
    User(BeforeFirst(email, '@'), email, Avatar(email), [], "en")
  }

  /** The user `signup` makes up from a display name and an email address. */
  function SignupUser(name: string, email: string): (u: User)
    ensures u.name == name && u.email == email
    ensures u.avatar == Avatar(name)
    ensures u.interests == [] && u.language == "en"
  {
    User(name, email, Avatar(name), [], "en")
  }

  /** The class names the theme effect manages on the document root. */
  const ThemeClassNames: set<string> :=
    {"dark", "high-contrast", "font-size-large", "font-size-extra-large"}

  /** The root's class set after the theme effect has run on `classes`. */
  function ThemeClasses(classes: set<string>, darkMode: bool, highContrast: bool, fontSize: FontSize): (r: set<string>)
    ensures "dark" in r <==> darkMode
    ensures "high-contrast" in r <==> highContrast
    ensures "font-size-large" in r <==> fontSize == Large
    ensures "font-size-extra-large" in r <==> fontSize == ExtraLarge
    ensures forall c :: c !in ThemeClassNames ==> (c in r <==> c in classes)
  {
    var base := classes - ThemeClassNames;
    base
      + (if darkMode then {"dark"} else {})
      + (if highContrast then {"high-contrast"} else {})
      + (if fontSize == Large then {"font-size-large"}
         else if fontSize == ExtraLarge then {"font-size-extra-large"}
         else {})
  }

  /** Running the effect a second time with the same settings changes nothing. */
  lemma ThemeClassesIdempotent(classes: set<string>, darkMode: bool, highContrast: bool, fontSize: FontSize)
    ensures var once := ThemeClasses(classes, darkMode, highContrast, fontSize);
            ThemeClasses(once, darkMode, highContrast, fontSize) == once
  {
    var once := ThemeClasses(classes, darkMode, highContrast, fontSize);
    var twice := ThemeClasses(once, darkMode, highContrast, fontSize);
    forall c ensures c in twice <==> c in once {
      if c !in ThemeClassNames {
        assert c in twice <==> c in once;
      }
    }
  }

  /** `document.documentElement`, of which only the class list is modelled. */
  class DocumentRoot {
    var classList: set<string>

    constructor (classes: set<string>)
      ensures classList == classes
    {
      classList := classes;
    }

    method Add(c: string)
      modifies this
      ensures classList == old(classList) + {c}
    {
      classList := classList + {c};
    }

    method Remove(c: string)
      modifies this
      ensures classList == old(classList) - {c}
    {
      classList := classList - {c};
    }
  }

  class AppStore {
    var isAuthenticated: bool
    var user: Option<User>
    var language: string
    var darkMode: bool
    var highContrast: bool
    var fontSize: FontSize
    var hasCompletedOnboarding: bool

    /** The preferences that do not depend on who is signed in. */
    twostate predicate PreferencesUnchanged()
      reads this
    {
      && language == old(language)
      && darkMode == old(darkMode)
      && highContrast == old(highContrast)
      && fontSize == old(fontSize)
    }

    /** Logged out, no user, English, default theme, onboarding not done. */
    constructor ()
      ensures !isAuthenticated && user == None
      ensures language == "en"
      ensures !darkMode && !highContrast && fontSize == Normal
      ensures !hasCompletedOnboarding
    {
      isAuthenticated := false;
      user := None;
      language := "en";
      darkMode := false;
      highContrast := false;
      fontSize := Normal;
      hasCompletedOnboarding := false;
    }

    /** Mock login: any password is accepted and ignored. */
    method Login(email: string, password: string)
      modifies this
      ensures isAuthenticated && user == Some(LoginUser(email))
      ensures hasCompletedOnboarding == old(hasCompletedOnboarding)
      ensures PreferencesUnchanged()
    {
      user := Some(LoginUser(email));
      isAuthenticated := true;
    }

    method Logout()
      modifies this
      ensures !isAuthenticated && user == None && !hasCompletedOnboarding
      ensures PreferencesUnchanged()
    {
      user := None;
      isAuthenticated := false;
      hasCompletedOnboarding := false;
    }

    /** Mock signup: the name is stored verbatim, the password is ignored. */
    method Signup(name: string, email: string, password: string)
      modifies this
      ensures isAuthenticated && user == Some(SignupUser(name, email))
      ensures hasCompletedOnboarding == old(hasCompletedOnboarding)
      ensures PreferencesUnchanged()
    {
      user := Some(SignupUser(name, email));
      isAuthenticated := true;
    }

    /** Stores any language code, without checking it. */
    method SetLanguage(lang: string)
      modifies this
      ensures language == lang
      ensures darkMode == old(darkMode) && highContrast == old(highContrast) && fontSize == old(fontSize)
      ensures isAuthenticated == old(isAuthenticated) && user == old(user)
      ensures hasCompletedOnboarding == old(hasCompletedOnboarding)
    {
      language := lang;
    }

    method ToggleDarkMode()
      modifies this
      ensures darkMode == !old(darkMode)
      ensures language == old(language) && highContrast == old(highContrast) && fontSize == old(fontSize)
      ensures isAuthenticated == old(isAuthenticated) && user == old(user)
      ensures hasCompletedOnboarding == old(hasCompletedOnboarding)
    {
      darkMode := !darkMode;
    }

    method ToggleHighContrast()
      modifies this
      ensures highContrast == !old(highContrast)
      ensures language == old(language) && darkMode == old(darkMode) && fontSize == old(fontSize)
      ensures isAuthenticated == old(isAuthenticated) && user == old(user)
      ensures hasCompletedOnboarding == old(hasCompletedOnboarding)
    {
      highContrast := !highContrast;
    }

    method SetFontSize(size: FontSize)
      modifies this
      ensures fontSize == size
      ensures language == old(language) && darkMode == old(darkMode) && highContrast == old(highContrast)
      ensures isAuthenticated == old(isAuthenticated) && user == old(user)
      ensures hasCompletedOnboarding == old(hasCompletedOnboarding)
    {
      fontSize := size;
    }

    /** Replaces (does not merge) the user's interests when there is a user,
        and marks onboarding done whether or not anyone is signed in. */
    method CompleteOnboarding(interests: seq<string>)
      modifies this
      ensures hasCompletedOnboarding
      ensures old(user).None? ==> user == None
      ensures old(user).Some? ==> user == Some(old(user).value.(interests := interests))
      ensures isAuthenticated == old(isAuthenticated)
      ensures PreferencesUnchanged()
    {
      if user.Some? {
        user := Some(user.value.(interests := interests));
      }
      hasCompletedOnboarding := true;
    }

    /** The theme effect: adds or removes each managed class on the root so
        that it reflects the current settings, touching no other class. */
    method ApplyTheme(root: DocumentRoot)
      modifies root
      ensures root.classList == ThemeClasses(old(root.classList), darkMode, highContrast, fontSize)
    {
      if darkMode {
        root.Add("dark");
      } else {
        root.Remove("dark");
      }
      if highContrast {
        root.Add("high-contrast");
      } else {
        root.Remove("high-contrast");
      }
      root.Remove("font-size-large");
      root.Remove("font-size-extra-large");
      if fontSize == Large {
        root.Add("font-size-large");
      } else if fontSize == ExtraLarge {
        root.Add("font-size-extra-large");
      }
      assert root.classList == ThemeClasses(old(root.classList), darkMode, highContrast, fontSize);
    }
  }

  /** `login("jane@example.com", _)`: signed in as "jane", initials "JA". */
  lemma LoginExample()
    ensures LoginUser("jane@example.com").name == "jane"
    ensures LoginUser("jane@example.com").avatar == "JA"
  {
    JaneName();
    JaneInitials();
  }

  lemma JaneName()
    ensures BeforeFirst("jane@example.com", '@') == "jane"
  {
    var p, q := "jane", "example.com";
    BeforeFirstSplit(p, '@', q);
    assert p + ['@'] + q == "jane@example.com";
  }

  lemma JaneInitials()
    ensures Avatar("jane@example.com") == "JA"
  {
    var e := "jane@example.com";
    assert Take(e, 2) == e[..2] == "ja";
    var u := Upper("ja");
    assert u[0] == 'J' && u[1] == 'A';
  }

  /** Completing onboarding without signing in leaves the store onboarded
      but anonymous: the two flags are independent. */
  method OnboardedWithoutLogin() returns (isAuthenticated: bool, hasCompletedOnboarding: bool)
    ensures !isAuthenticated && hasCompletedOnboarding
  {
    var store := new AppStore();
    store.CompleteOnboarding(["health"]);
    isAuthenticated, hasCompletedOnboarding := store.isAuthenticated, store.hasCompletedOnboarding;
  }

  /** Sign in, finish onboarding with two interests, sign out: the interests
      land on the user, and signing out clears the session but keeps the
      preferences. */
  method SessionLifecycle(store: AppStore, email: string, password: string)
      returns (interests: seq<string>, onboarded: bool)
    modifies store
    ensures interests == ["health", "finance"] && onboarded
    ensures !store.isAuthenticated && store.user == None && !store.hasCompletedOnboarding
    ensures store.language == old(store.language) && store.darkMode == old(store.darkMode)
    ensures store.highContrast == old(store.highContrast) && store.fontSize == old(store.fontSize)
  {
    store.Login(email, password);
    store.CompleteOnboarding(["health", "finance"]);
    interests, onboarded := store.user.value.interests, store.hasCompletedOnboarding;
    store.Logout();
  }

  /** Toggling dark mode twice restores it; setting the font size reads back. */
  method PreferenceRoundTrips(store: AppStore, size: FontSize) returns (darkBefore: bool, darkAfter: bool, sizeRead: FontSize)
    modifies store
    ensures darkAfter == darkBefore && sizeRead == size
  {
    darkBefore := store.darkMode;
    store.ToggleDarkMode();
    store.ToggleDarkMode();
    darkAfter := store.darkMode;
    store.SetFontSize(size);
    sizeRead := store.fontSize;
  }
}
