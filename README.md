# SheRise web app: session store, route guards and page logic in Dafny

This project models the logic under the markup of the SheRise single-page
app, a wellness, safety, career, community and finance portal behind a
mock login and an onboarding wizard. Everything it models is sequential
and in memory.

- **Session/preferences store** (`AppContext`, from `src/contexts/AppContext.tsx`).
  The class `AppStore` holds the store's seven fields: the auth flag, the
  user, the language, dark mode, high contrast, the font size and the
  onboarding flag. Its eight mutators are methods that state the whole new
  state. The theme effect is the method `ApplyTheme`. It adds and removes
  classes on a `DocumentRoot` object and is specified by the function
  `ThemeClasses`. `isAuthenticated` and `hasCompletedOnboarding` are two
  independent booleans, as in the source. "Onboarded but anonymous" can be
  reached (`OnboardedWithoutLogin`).
- **Route resolution** (`Routes`, from `src/App.tsx`). The path table and
  the guards `ProtectedRoute` and `AuthRoute` form one pure function,
  `Resolve(isAuthenticated, hasCompletedOnboarding, path)`. It returns
  `Render(page)` or `Redirect(target, replace)`. The browser history is a
  sequence of paths. A navigation pushes an entry, and a guard redirect
  overwrites the newest one (`Visit`).
- **Translation lookup** (`Translation`, from `src/hooks/useTranslation.ts`).
  The string tables are a parameter of type language → key → text.
- **Community page** (`Community`, from `src/pages/Community.tsx`). It has
  the topic filter and the class `CommunityPage`. The class holds the
  page's state fields and the guarded prepend `CreatePost`.
- **Onboarding wizard** (`Onboarding`, from `src/pages/Onboarding.tsx`).
  It has the interest toggle and the summary. The class `OnboardingWizard`
  holds the step counter (always in 1..3), the language selection and the
  hand-off to the store.
- **Finance page** (`Finance`, from `src/pages/Finance.tsx`). It has the
  chart entries, the expense total, the amount still to go to the savings
  goal, and the icon fallback.
- Helper modules: `Seqs` holds `filter`, subsequences and duplicate
  freedom. `Text` holds ASCII upper-casing, `substring`, `split(c)[0]`,
  `trim` and first-letter capitalisation.

Three facts about the store shape the model:

- `completeOnboarding` **replaces** the user's interests; it does not merge
  them (src/contexts/AppContext.tsx:111).
- The session is **two independent booleans**. "Onboarded but not signed
  in" can be reached: `/onboarding` is unguarded (src/App.tsx:54), and
  `completeOnboarding` sets the flag without a user
  (src/contexts/AppContext.tsx:109-114).
- `login` and `signup` leave the onboarding flag as it was
  (src/contexts/AppContext.tsx:64-91).

## Model

| member | source | states |
|---|---|---|
| AppContext.AppStore.constructor | src/contexts/AppContext.tsx:32-38 | initial state: signed out, no user, "en", dark mode and high contrast off, normal font size, not onboarded |
| AppContext.Avatar | src/contexts/AppContext.tsx:69 | the avatar label is the first two characters (fewer if shorter), each upper-cased |
| AppContext.LoginUser | src/contexts/AppContext.tsx:66-72 | the login user has the given email; the name is the prefix of the email before the first '@' (the whole email if it has none); interests are empty and the language is "en" |
| AppContext.SignupUser | src/contexts/AppContext.tsx:83-89 | the signup user keeps the name verbatim; the avatar is taken from the name; interests are empty and the language is "en" |
| AppContext.AppStore.Login | src/contexts/AppContext.tsx:64-74 | signs in as `LoginUser(email)` whatever the password; onboarding flag, language, dark mode, high contrast and font size unchanged |
| AppContext.AppStore.Logout | src/contexts/AppContext.tsx:76-80 | signed out, no user, not onboarded; language and theme preferences unchanged |
| AppContext.AppStore.Signup | src/contexts/AppContext.tsx:82-91 | signs in as `SignupUser(name, email)` whatever the password; onboarding flag and preferences unchanged |
| AppContext.AppStore.SetLanguage | src/contexts/AppContext.tsx:93-95 | stores any code, without validation, and changes no other field |
| AppContext.AppStore.ToggleDarkMode | src/contexts/AppContext.tsx:97-99 | negates dark mode and changes no other field |
| AppContext.AppStore.ToggleHighContrast | src/contexts/AppContext.tsx:101-103 | negates high contrast and changes no other field |
| AppContext.AppStore.SetFontSize | src/contexts/AppContext.tsx:105-107 | stores the size and changes no other field |
| AppContext.AppStore.CompleteOnboarding | src/contexts/AppContext.tsx:109-114 | marks onboarding done in every case; a present user gets exactly the given interests with all other user fields kept; an absent user stays absent; auth flag and preferences unchanged |
| AppContext.ThemeClasses | src/contexts/AppContext.tsx:41-62 | the root has "dark" iff dark mode, "high-contrast" iff high contrast, "font-size-large" iff size is large, "font-size-extra-large" iff size is extra-large; every other class is kept as it was |
| AppContext.ThemeClassesIdempotent | src/contexts/AppContext.tsx:41-62 | running the effect again with the same settings changes nothing |
| AppContext.AppStore.ApplyTheme | src/contexts/AppContext.tsx:41-62 | the add/remove steps on the root's class list leave exactly `ThemeClasses` of the old list |
| AppContext.LoginExample | src/contexts/AppContext.tsx:64-72 | logging in as "jane@example.com" gives the name "jane" and the avatar "JA" |
| AppContext.OnboardedWithoutLogin | src/contexts/AppContext.tsx:109-114 | completing onboarding on a fresh store gives a store that is onboarded but not signed in |
| AppContext.SessionLifecycle | src/contexts/AppContext.tsx:64-114 | login, then completeOnboarding(["health", "finance"]), then logout: the user held exactly those interests; afterwards the session is cleared and the preferences are kept |
| AppContext.PreferenceRoundTrips | src/contexts/AppContext.tsx:97-107 | toggling dark mode twice restores it; a font size that was set reads back unchanged |
| Text.BeforeFirst | src/contexts/AppContext.tsx:67 | `split(sep)[0]` is a prefix without `sep`, followed in the input by `sep` unless it is the whole input |
| Text.BeforeFirstSplit | src/contexts/AppContext.tsx:67 | for `p + sep + q` with no `sep` in `p`, the part before the first separator is exactly `p` |
| Text.Upper | src/contexts/AppContext.tsx:69 | upper-casing keeps the length and maps each character through the ASCII upper-case function |
| Text.Take | src/contexts/AppContext.tsx:69 | `substring(0, n)` is the prefix of length min(n, length) |
| Text.Trim | src/pages/Community.tsx:58 | `trim()` is no longer than its input, and a non-empty result starts and ends with a non-whitespace character |
| Text.TrimDropsOnlyBlankEnds | src/pages/Community.tsx:58 | `trim()` returns a contiguous run of the input; everything before and after that run is whitespace |
| Text.TrimEmptyIffBlank | src/pages/Community.tsx:58 | `trim()` gives the empty string exactly when every character is whitespace |
| Text.HasText | src/pages/Community.tsx:58 | evaluating `s.trim()` for truthiness gives true exactly when `s` has a non-whitespace character |
| Text.Capitalize | src/pages/Finance.tsx:43 | keeps the length; the first character is upper-cased and the rest is unchanged |
| Text.CapitalizeIdempotent | src/pages/Finance.tsx:43 | capitalising twice is the same as capitalising once |
| Seqs.Filter | src/pages/Community.tsx:55 | `filter` keeps exactly the elements that pass, in their original relative order |
| Seqs.FilterCount | src/pages/Community.tsx:55 | `filter` keeps every occurrence of a kept value and drops all others |
| Seqs.FilterAppend | src/pages/Onboarding.tsx:33 | filtering a concatenation concatenates the filtered parts |
| Routes.RouteFor | src/App.tsx:51-64 | the nine paths /dashboard to /settings are protected; /login and /signup are auth-only; every path outside the table is NotFound |
| Routes.ProtectedRoute | src/App.tsx:24-36 | the page renders iff the user is signed in and onboarded; otherwise a replacing redirect goes to /login when not signed in and to /onboarding when signed in |
| Routes.AuthRoute | src/App.tsx:38-46 | a replacing redirect to /dashboard happens iff the user is signed in and onboarded; otherwise the page renders |
| Routes.Resolve | src/App.tsx:24-64 | a rendered page is always the table's page for the path; a redirect happens iff the path is auth-only and the user is signed in and onboarded, or the path is protected and the user is not both; every redirect replaces and goes to /login, /onboarding or /dashboard |
| Routes.ProtectedNeedsLogin | src/App.tsx:27-29 | a protected path redirects to /login, replacing history, whenever the user is not signed in, whatever the onboarding flag is |
| Routes.ProtectedNeedsOnboarding | src/App.tsx:31-35 | when signed in but not onboarded, a protected path redirects to /onboarding; when signed in and onboarded, it renders its own page |
| Routes.AuthPagesRedirectIffOnboarded | src/App.tsx:41-45 | /login and /signup redirect to /dashboard iff the user is signed in and onboarded, and otherwise render their own page, including when signed in but not onboarded |
| Routes.OpenPagesAlwaysRender | src/App.tsx:51-54 | "/" and "/onboarding" render in every state |
| Routes.UnknownPathsNotFound | src/App.tsx:64 | any path outside the table renders NotFound in every state |
| Routes.RedirectChainsEndAfterOneStep | src/App.tsx:27-45 | a redirect's target renders in the same state, so chains have length at most one; every guard redirect replaces the history entry |
| Routes.Visit | src/App.tsx:24-46 | a navigation adds exactly one history entry; the newest entry is a path that renders the page shown; an allowed path is itself that entry |
| Routes.RefusedPageNotInHistory | src/App.tsx:27-45 | after a refused navigation, the history is the old history plus one entry, which is the redirect target and not the refused path |
| Translation.ActiveLanguage | src/hooks/useTranslation.ts:8-9 | a code with a table is used as is; any other code reads as "en" |
| Translation.T | src/hooks/useTranslation.ts:7-11 | the lookup never fails; its result is the active entry, the English entry or the key itself; it is non-empty whenever the key is non-empty |
| Translation.ActiveEntryWins | src/hooks/useTranslation.ts:10 | a non-empty entry in the active language is returned |
| Translation.UnknownLanguageIsEnglish | src/hooks/useTranslation.ts:9 | a language without a table gives exactly the English lookup |
| Translation.EnglishFallback | src/hooks/useTranslation.ts:10 | when the active entry is missing or empty, a non-empty English entry is returned |
| Translation.KeyFallback | src/hooks/useTranslation.ts:10 | when both entries are missing or empty, the key itself is returned |
| Translation.UseTranslation | src/hooks/useTranslation.ts:4-14 | the hook returns the store's language unchanged, and the lookup it binds uses that language |
| Community.PostTopics | src/pages/Community.tsx:127 | the chooser offers exactly the topics other than "All", in the filter bar's order |
| Community.PostTopicsAreTheSix | src/pages/Community.tsx:36-44 | the chooser's topics are Career, Health, Lifestyle, Education, Finance and Relationships |
| Community.FilterPosts | src/pages/Community.tsx:53-55 | with "All" the list is returned unchanged; with another topic the result holds exactly the posts of that topic, in their original relative order |
| Community.FilterKeepsExactlyTopic | src/pages/Community.tsx:55 | with a specific topic, each post of that topic is kept as often as it occurs, and no other post is kept |
| Community.NewPost | src/pages/Community.tsx:59-69 | the new post has the given id, untrimmed title and content, and the chosen topic; the author is "You", the avatar "YO", likes and comments 0, the time "Just now" |
| Community.PrependedPostVisibility | src/pages/Community.tsx:53-70 | a prepended post heads the filtered view iff the topic is "All" or the post's own topic; the rest of the view is unchanged |
| Community.CommunityPage.Shown | src/pages/Community.tsx:53-55 | the posts on screen are a subsequence of the page's posts |
| Community.CommunityPage.constructor | src/pages/Community.tsx:46-51 | the filter starts at "All", the form is empty, the new-post topic starts at "Career", and the dialog is closed |
| Community.CommunityPage.SelectTopic | src/pages/Community.tsx:161 | sets the filter topic |
| Community.CommunityPage.ChooseNewPostTopic | src/pages/Community.tsx:127-130 | sets the new-post topic to one of the chooser's topics |
| Community.CommunityPage.EditTitle | src/pages/Community.tsx:114 | stores the typed title |
| Community.CommunityPage.EditContent | src/pages/Community.tsx:122 | stores the typed content |
| Community.CommunityPage.SetDialogOpen | src/pages/Community.tsx:96 | opens or closes the dialog |
| Community.CommunityPage.CreatePost | src/pages/Community.tsx:57-75 | with a blank title or blank content nothing changes; otherwise exactly one post with id old length + 1 is prepended before the old posts, its topic is one the chooser offers, title and content become "", the dialog closes, and the topic and filter are kept |
| Onboarding.Toggled | src/pages/Onboarding.tsx:31-35 | toggling flips the membership of exactly that id |
| Onboarding.ToggleAbsentAppends | src/pages/Onboarding.tsx:33 | an id not yet selected is appended at the end |
| Onboarding.TogglePresentRemoves | src/pages/Onboarding.tsx:33 | a selected id loses every occurrence; the other ids keep their counts and relative order |
| Onboarding.ToggleKeepsNoDuplicates | src/pages/Onboarding.tsx:31-35 | a duplicate-free selection stays duplicate-free |
| Onboarding.ToggleTwiceRestores | src/pages/Onboarding.tsx:33 | toggling an absent id twice restores the exact original list |
| Onboarding.SummaryOf | src/pages/Onboarding.tsx:211-221 | the "all topics" text is shown iff the selection is empty; otherwise the summary lists the selected ids known to the five-entry interest table, in selection order, each as many times as it was selected, and no other id |
| Onboarding.OnboardingWizard.constructor | src/pages/Onboarding.tsx:16-18 | the wizard starts at step 1, with "en" and no interests selected |
| Onboarding.OnboardingWizard.Next | src/pages/Onboarding.tsx:118-173 | the continue buttons move 1 to 2 and 2 to 3, so the step stays in 1..3 |
| Onboarding.OnboardingWizard.Back | src/pages/Onboarding.tsx:170-227 | the back buttons move 2 to 1 and 3 to 2, so the step stays in 1..3 |
| Onboarding.OnboardingWizard.ToggleInterest | src/pages/Onboarding.tsx:31-35 | the selection becomes `Toggled` of the old selection |
| Onboarding.OnboardingWizard.SelectLanguage | src/pages/Onboarding.tsx:37-40 | the page's selection and the store's language get the same code; nothing else in the store changes |
| Onboarding.OnboardingWizard.Complete | src/pages/Onboarding.tsx:42-45 | the current selection goes to `completeOnboarding` (a present user's interests are replaced, the flag is set, the auth flag, language, dark mode, high contrast and font size are kept), then the page navigates to /dashboard, which renders for a signed-in user and redirects an anonymous one to /login |
| Finance.ExpenseData | src/pages/Finance.tsx:42-46 | one entry per expense key, in key order; each name is the capitalised key, the value is unchanged, and the i-th colour is `COLORS[i mod 7]` |
| Finance.ColorsCycleWithPeriodSeven | src/pages/Finance.tsx:22-45 | two entries share a colour iff their positions agree modulo 7 |
| Finance.ChartAddsUpToTotal | src/pages/Finance.tsx:42-48 | the chart entries' values add up to `totalExpenses` |
| Finance.Total | src/pages/Finance.tsx:48 | `totalExpenses`, the left fold of the amounts, is not negative when no amount is negative; `ChartAddsUpToTotal` and `EachAmountWithinTotal` relate it to the chart and to each amount |
| Finance.EachAmountWithinTotal | src/pages/Finance.tsx:48 | when no amount is negative, every amount lies between 0 and the total |
| Finance.ToGo | src/pages/Finance.tsx:157 | the amount to go plus the current savings equals the target |
| Finance.IconFor | src/pages/Finance.tsx:32-37 | a known icon name gives its mapped icon; an unknown name falls back to Wallet |
| Finance.TipIconsAreMapped | src/pages/Finance.tsx:174-175 | each of the four tip icon names has its own mapping, so no tip uses the fallback |
| Finance.BudgetFigures | src/data/mockData.ts:115-131 | on the shipped budget, total expenses are 4000, 3500 remain to go, and the first chart entry is named "Housing" |

## Left out

- JSX rendering, styling, animations and the UI widgets are presentation.
  So are the chart rendering and the `toLocaleString` formatting.
- `savingsProgress` and its `toFixed(0)` (src/pages/Finance.tsx:49, 156) use
  floating-point division. The model keeps to the integer total and difference.
- React's runtime is not modelled: state batching, re-render scheduling and
  context propagation. Each store and page is a sequential object. The
  theme effect is a method the caller runs after a change. Nothing runs it
  automatically.
- `useApp` outside a provider throws (src/contexts/AppContext.tsx:141-147).
  The model has no provider: `OnboardingWizard` and
  `Translation.UseTranslation` take the store as a parameter. The community
  and finance pages use the store only through `t` for their labels, which
  is presentation, so `CommunityPage` is built without one.
- The translation tables in `@/i18n/translations` are not part of this
  model. `Translation.T` takes them as a parameter. It requires an English
  table: the tables' type always has `en`, and an unknown code is replaced
  by `en` and used to index the tables (src/hooks/useTranslation.ts:9).
- The router's path matching is not modelled. React Router also matches
  paths case-insensitively and with a trailing slash; the model compares
  paths exactly. The history API is a sequence of paths.
- Translation.ActiveLanguage: JavaScript's `in` also sees properties
  inherited from `Object.prototype`, so a code such as "constructor" counts
  as present at src/hooks/useTranslation.ts:9 and English is not used. The
  model's tables have only their own keys. The app only ever passes "en"
  or "hi" (src/pages/Settings.tsx:65, src/pages/Onboarding.tsx:39).
- Finance.IconFor: `iconMap[name]` also finds inherited properties, so a
  name such as "toString" yields a truthy function and no Wallet fallback
  (src/pages/Finance.tsx:175). The model's map has only its own keys. The
  tip icon names are fixed (src/data/mockData.ts:134-137) and all mapped.
- Finance.Total: expense amounts are JavaScript numbers (doubles) and the
  sum is floating-point (src/pages/Finance.tsx:48). The model uses unbounded
  integers, so rounding and precision loss are not modelled.
- The document root's class list is a set, so the order of its classes is
  not modelled.
- Text.Upper: upper-cases only the ASCII letters a–z. Unicode case mapping
  (which can change a string's length) is not modelled.
- Text.IsWhitespace: the ECMAScript whitespace and line-terminator code
  points are a fixed list.
- Text.Take, AppContext.Avatar, Text.Capitalize: JavaScript strings are
  UTF-16 code units, while the model's strings are sequences of Unicode
  scalar values. So `"a😀".substring(0, 2)` cuts a surrogate pair in the
  source, but `Take` keeps the emoji whole. `charAt(0)` and `slice(1)` in
  `Capitalize` differ in the same way for a leading character outside the
  Basic Multilingual Plane.
- The onboarding greeting (`user?.name?.split(' ')[0] || t('friend')`,
  src/pages/Onboarding.tsx:202) and the selected-state highlighting are
  presentation.
- `Math.random` tip and quote selection on the dashboard is
  nondeterministic. The other pages are presentational: Landing, Career,
  Health, Safety, Stories, Profile, Dashboard and NotFound. So are the
  layout components.
- Login and Signup are thin handlers that call the store and navigate. Their
  effect on the store is `AppStore.Login` / `AppStore.Signup`.
- Settings is a thin caller of the store: its controls call `setLanguage`,
  `toggleDarkMode`, `toggleHighContrast` and `setFontSize`
  (src/pages/Settings.tsx:65, 94, 114, 130). Their effect is
  `AppStore.SetLanguage`, `AppStore.ToggleDarkMode`,
  `AppStore.ToggleHighContrast` and `AppStore.SetFontSize`.
- src/data/mockData.ts is static content. Only the budget figures appear,
  as constants in `Finance.BudgetFigures`, and the community posts are a
  constructor parameter.
