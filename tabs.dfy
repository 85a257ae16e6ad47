/**
 * The tab bar: each of the four category tabs selects the records of one
 * `type`; any other tab value (the home button sets "") selects everything.
 */
module Tabs {
  import opened Wrappers
  import opened Tasks

  const ActivityTab := "activity"
  const IdeaTab := "idea"
  const LearnTab := "learn"
  const GrantTab := "ทุน"

  const ActivityType := "กิจกรรม"
  const IdeaType := "project-idea"
  const LearnType := "เรียน"
  const GrantType := "ทุน"

  /** The tab the component starts on. */
  const InitialTab := ActivityTab

  /** The value the home button sets. */
  const HomeTab := ""

  predicate IsCategoryTab(tab: string)
  {
    tab == ActivityTab || tab == IdeaTab || tab == LearnTab || tab == GrantTab
  }

  predicate IsCategory(c: string)
  {
    c == ActivityType || c == IdeaType || c == LearnType || c == GrantType
  }

  /** The `type` equality filter that the fetch for a tab adds to its query. */
  function TypeFilter(tab: string): (f: Option<string>)
    ensures f.Some? <==> IsCategoryTab(tab)
    ensures f.Some? ==> IsCategory(f.value)
  {
    if tab == ActivityTab then Some(ActivityType)
    else if tab == IdeaTab then Some(IdeaType)
    else if tab == LearnTab then Some(LearnType)
    else if tab == GrantTab then Some(GrantType)
    else None
  }

  /** The tab that shows a category: the inverse of TypeFilter on the four category tabs. */
  function TabOf(c: string): (tab: string)
    requires IsCategory(c)
    ensures IsCategoryTab(tab)
  {
    if c == ActivityType then ActivityTab
    else if c == IdeaType then IdeaTab
    else if c == LearnType then LearnTab
    else GrantTab
  }

  /** TypeFilter and TabOf are inverse bijections between the four tabs and the four categories. */
  lemma TabCategoryRoundTrip(tab: string, c: string)
    ensures IsCategoryTab(tab) ==> TabOf(TypeFilter(tab).value) == tab
    ensures IsCategory(c) ==> TypeFilter(TabOf(c)) == Some(c)
  {
  }

  /** The home button's value, and the initial tab, are what the code says they select. */
  lemma HomeIsUnfiltered()
    ensures TypeFilter(HomeTab) == None
    ensures TypeFilter(InitialTab) == Some(ActivityType)
  {
  }

  /** A record passes a filter: no filter passes everything. */
  predicate Matches(f: Option<string>, t: Todo)
  {
    f.None? || t.category == f.value
  }

  /**
   * The rows a query with filter f asks the store for, in the store's order:
   * the records that pass the filter.
   */
  function Select(store: seq<Todo>, f: Option<string>): (r: seq<Todo>)
    ensures |r| <= |store|
    ensures forall t :: t in r <==> t in store && Matches(f, t)
  {
    if store == [] then []
    else (if Matches(f, store[0]) then [store[0]] else []) + Select(store[1..], f)
  }

  /**
   * Answered faithfully, a category tab's query yields only records of that
   * tab's category, all of them, and the unfiltered query yields the whole store.
   */
  lemma {:induction false} SelectForTab(store: seq<Todo>, tab: string)
    ensures IsCategoryTab(tab) ==>
      forall t :: t in Select(store, TypeFilter(tab)) <==> t in store && t.category == TypeFilter(tab).value
    ensures !IsCategoryTab(tab) ==> Select(store, TypeFilter(tab)) == store
  {
    if !IsCategoryTab(tab) {
      SelectAll(store);
    }
  }

  lemma {:induction false} SelectAll(store: seq<Todo>)
    ensures Select(store, None) == store
  {
    if store != [] {
      SelectAll(store[1..]);
      assert store == [store[0]] + store[1..];
    }
  }
}
