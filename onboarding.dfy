/** The onboarding wizard: a three-step page that picks a language, toggles
    interests on and off, and hands the selection to the store. */
module Onboarding {
  import opened Seqs
  import AppContext
  import Routes

  /** `toggleInterest`: an id already selected is removed (every occurrence),
      any other id is appended at the end. */
  function Toggled(selected: seq<string>, id: string): (r: seq<string>)
    ensures forall x :: x in r <==> (x == id) != (x in selected)
  {
    if id in selected then Filter(selected, (i: string) => i != id) else selected + [id]
  }

  /** Toggling an id that is not selected appends it. */
  lemma ToggleAbsentAppends(selected: seq<string>, id: string)
    requires id !in selected
    ensures Toggled(selected, id) == selected + [id]
  {
  }

  /** Toggling a selected id removes all of its occurrences and keeps the
      others, each as often as before and in the same order. */
  lemma TogglePresentRemoves(selected: seq<string>, id: string)
    requires id in selected
    ensures id !in Toggled(selected, id)
    ensures IsSubsequence(Toggled(selected, id), selected)
    ensures forall x :: x != id ==> multiset(Toggled(selected, id))[x] == multiset(selected)[x]
  {
    forall x | x != id
      ensures multiset(Toggled(selected, id))[x] == multiset(selected)[x]
    {
      FilterCount(selected, (i: string) => i != id, x);
    }
  }

  /** A selection without repeats stays without repeats. */
  lemma ToggleKeepsNoDuplicates(selected: seq<string>, id: string)
    requires NoDuplicates(selected)
    ensures NoDuplicates(Toggled(selected, id))
  {
    var r := Toggled(selected, id);
    if id in selected {
      forall x ensures multiset(r)[x] <= 1 {
        FilterCount(selected, (i: string) => i != id, x);
      }
    } else {
      assert multiset(r) == multiset(selected) + multiset{id};
    }
  }

  /** Toggling an unselected id twice gives back exactly the original list. */
  lemma ToggleTwiceRestores(selected: seq<string>, id: string)
    requires id !in selected
    ensures Toggled(Toggled(selected, id), id) == selected
  {
    var keep := (i: string) => i != id;
    FilterAppend(selected, [id], keep);
    FilterKeepsAll(selected, keep);
    assert Filter([id], keep) == [];
  }

  /** The ids of the five-entry interest table, in display order. */
  const InterestIds: seq<string> := ["health", "career", "safety", "finance", "community"]

  /** What the last step lists: the "all topics" text, or the selected ids
      that the interest table knows, in selection order. */
  predicate IsKnownInterest(id: string) {
    id in InterestIds
  }

  datatype Summary = AllTopics | Chips(ids: seq<string>)

  function SummaryOf(selected: seq<string>): (r: Summary)
    ensures r.AllTopics? <==> selected == []
    ensures r.Chips? ==> forall id :: id in r.ids <==> id in selected && id in InterestIds
    ensures r.Chips? ==> IsSubsequence(r.ids, selected)
    ensures r.Chips? ==> forall x :: multiset(r.ids)[x] == if x in InterestIds then multiset(selected)[x] else 0
  {
    if selected == [] then AllTopics
    else
      FilterCountAll(selected, IsKnownInterest);
      Chips(Filter(selected, IsKnownInterest))
  }

  class OnboardingWizard {
    var step: int
    var selectedLanguage: string
    var selectedInterests: seq<string>
    const store: AppContext.AppStore

    /** The step counter never leaves 1..3. */
    predicate Valid()
      reads this
    {
      1 <= step <= 3
    }

    constructor (store: AppContext.AppStore)
      ensures Valid()
      ensures step == 1 && selectedLanguage == "en" && selectedInterests == []
      ensures this.store == store
    {
      step := 1;
      selectedLanguage := "en";
      selectedInterests := [];
      this.store := store;
    }

    /** The "continue" button of steps 1 and 2. */
    method Next()
      requires Valid() && step < 3
      modifies this`step
      ensures Valid() && step == old(step) + 1
    {
      if step == 1 {
        step := 2;
      } else {
        step := 3;
      }
    }

    /** The "back" button of steps 2 and 3. */
    method Back()
      requires Valid() && step > 1
      modifies this`step
      ensures Valid() && step == old(step) - 1
    {
      if step == 2 {
        step := 1;
      } else {
        step := 2;
      }
    }

    method ToggleInterest(id: string)
      modifies this`selectedInterests
      ensures selectedInterests == Toggled(old(selectedInterests), id)
    {
      selectedInterests := Toggled(selectedInterests, id);
    }

    /** `handleLanguageSelect`: the page and the store get the same code. */
    method SelectLanguage(code: string)
      modifies this`selectedLanguage, store
      ensures selectedLanguage == code && store.language == code
      ensures store.darkMode == old(store.darkMode) && store.highContrast == old(store.highContrast)
      ensures store.fontSize == old(store.fontSize)
      ensures store.isAuthenticated == old(store.isAuthenticated) && store.user == old(store.user)
      ensures store.hasCompletedOnboarding == old(store.hasCompletedOnboarding)
    {
      selectedLanguage := code;
      store.SetLanguage(code);
    }

    /** `handleComplete`: the selection goes to `completeOnboarding`, then the
        wizard navigates to /dashboard, which now renders for a signed-in user
        and sends an anonymous one to /login. */
    method Complete() returns (target: string)
      modifies store
      ensures target == "/dashboard"
      ensures store.hasCompletedOnboarding
      ensures store.isAuthenticated == old(store.isAuthenticated)
      ensures store.PreferencesUnchanged()
      ensures old(store.user).Some? ==>
                store.user == AppContext.Some(old(store.user).value.(interests := selectedInterests))
      ensures old(store.user).None? ==> store.user == AppContext.None
      ensures Routes.Resolve(store.isAuthenticated, store.hasCompletedOnboarding, target)
              == if store.isAuthenticated then Routes.Render(Routes.Dashboard) else Routes.Redirect("/login", true)
    {
      store.CompleteOnboarding(selectedInterests);
      target := "/dashboard";
    }
  }
}
