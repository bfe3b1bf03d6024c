/**
 * The tab-selection state machine of the tab renderer, as values. The state
 * is the active tab and whether a search was active at the last update; two
 * kinds of event drive it: new props (search data appearing, disappearing or
 * staying as it was) and the user picking a tab. After each event the
 * component re-derives its state from its props before it renders, and that
 * derived-state step takes precedence over the user's choice.
 */
module TabMachine {
  import opened Tabs

  datatype TabState = TabState(activeTab: TabType, hasActiveSearch: bool)

  /** The state the constructor sets up for the given props. */
  function InitialState(searchPresent: bool): (s: TabState)
    ensures s.activeTab == Statistics && s.hasActiveSearch == searchPresent
    // search data present at construction does not force the search tab:
    // the first derived-state step leaves this state as it is
    ensures Derive(s, searchPresent) == s
  {
    TabState(Statistics, searchPresent)
  }

  /** The derived-state step run with the current props before every render. */
  function Derive(s: TabState, searchPresent: bool): (r: TabState)
    ensures r.hasActiveSearch == searchPresent
    ensures searchPresent && !s.hasActiveSearch ==> r.activeTab == SearchResults
    ensures !searchPresent && s.hasActiveSearch ==> r.activeTab == Statistics
    ensures searchPresent == s.hasActiveSearch ==> r == s
  {
    var tab :=
      if searchPresent && !s.hasActiveSearch then SearchResults
      else if !searchPresent && s.hasActiveSearch then Statistics
      else s.activeTab;
    TabState(tab, searchPresent)
  }

  /** Running the derived-state step twice with the same props changes nothing more. */
  lemma DeriveIdempotent(s: TabState, searchPresent: bool)
    ensures Derive(Derive(s, searchPresent), searchPresent) == Derive(s, searchPresent)
  {
  }

  /**
   * A user selection and a change of search presence in the same update: the
   * forced transition wins whatever tab was picked.
   */
  lemma ForcedTransitionWins(s: TabState, picked: TabType, searchPresent: bool)
    requires searchPresent != s.hasActiveSearch
    ensures Derive(s.(activeTab := picked), searchPresent).activeTab ==
      (if searchPresent then SearchResults else Statistics)
  {
  }

  /** What the component holds: its props (as search presence) and its state. */
  datatype Component = Component(searchPresent: bool, state: TabState)

  datatype Event =
    | PropsChanged(newSearchPresent: bool) // the parent renders with new search data
    | TabSelected(tab: TabType)            // the tab control reports a click

  /** Construction followed by the derived-state step that precedes the first render. */
  function Mount(searchPresent: bool): (c: Component)
    ensures c.searchPresent == searchPresent && c.state == InitialState(searchPresent)
  {
    Component(searchPresent, Derive(InitialState(searchPresent), searchPresent))
  }

  /** One event, followed by the derived-state step with the props then current. */
  function Step(c: Component, e: Event): Component
  {
    match e
    case PropsChanged(p) => Component(p, Derive(c.state, p))
    case TabSelected(t) => Component(c.searchPresent, Derive(c.state.(activeTab := t), c.searchPresent))
  }

  function Run(c: Component, events: seq<Event>): Component
    decreases |events|
  {
    if events == [] then c else Run(Step(c, events[0]), events[1..])
  }

  /**
   * The state agrees with the props and the active tab is one the tab bar
   * lists, so the tab bar always has its value among its tabs.
   */
  predicate Consistent(c: Component)
  {
    c.state.hasActiveSearch == c.searchPresent && c.state.activeTab in VisibleTabs(c.searchPresent)
  }

  /** The tab control can only report a tab it lists. */
  predicate Offered(c: Component, e: Event)
  {
    e.TabSelected? ==> e.tab in VisibleTabs(c.searchPresent)
  }

  predicate OfferedRun(c: Component, events: seq<Event>)
    decreases |events|
  {
    events != [] ==> Offered(c, events[0]) && OfferedRun(Step(c, events[0]), events[1..])
  }

  lemma MountConsistent(searchPresent: bool)
    ensures Consistent(Mount(searchPresent))
  {
  }

  /**
   * One event keeps the component consistent. It is the forced transitions
   * that make this so: without the switch back to Statistics, clearing the
   * search would leave the no longer listed Search Results tab active.
   */
  lemma StepConsistent(c: Component, e: Event)
    requires Consistent(c) && Offered(c, e)
    ensures Consistent(Step(c, e))
    ensures e.TabSelected? ==> Step(c, e).state.activeTab == e.tab
  {
  }

  /** Every sequence of events the user interface can produce keeps the component consistent. */
  lemma {:induction false} RunConsistent(c: Component, events: seq<Event>)
    requires Consistent(c) && OfferedRun(c, events)
    ensures Consistent(Run(c, events))
    decreases |events|
  {
    if events != [] {
      StepConsistent(c, events[0]);
      RunConsistent(Step(c, events[0]), events[1..]);
    }
  }

  /** While a search is present only the statistics and search tabs can be active. */
  lemma SearchNarrowsTabs(c: Component)
    requires Consistent(c) && c.searchPresent
    ensures c.state.activeTab == Statistics || c.state.activeTab == SearchResults
  {
  }

  /**
   * A search that appears and is later cleared ends on Statistics, whatever
   * tab was active before it and whatever the user picked while it lasted.
   */
  lemma {:induction false} SearchThenClearEndsOnStatistics(c: Component, during: seq<TabType>)
    requires Consistent(c) && !c.searchPresent
    ensures Run(c, [PropsChanged(true)] + Picks(during) + [PropsChanged(false)]).state ==
      TabState(Statistics, false)
  {
    var searching := Step(c, PropsChanged(true));
    assert searching.state.hasActiveSearch && searching.searchPresent;
    PicksKeepSearchFlag(searching, during);
    RunAppend(c, [PropsChanged(true)] + Picks(during), [PropsChanged(false)]);
    RunAppend(c, [PropsChanged(true)], Picks(during));
  }

  /** A run of user selections only. */
  function Picks(tabs: seq<TabType>): (r: seq<Event>)
    ensures |r| == |tabs|
    ensures forall i :: 0 <= i < |tabs| ==> r[i] == TabSelected(tabs[i])
  {
    seq(|tabs|, i requires 0 <= i < |tabs| => TabSelected(tabs[i]))
  }

  /** User selections never change the props nor the remembered search flag. */
  lemma {:induction false} PicksKeepSearchFlag(c: Component, tabs: seq<TabType>)
    requires c.state.hasActiveSearch == c.searchPresent
    ensures Run(c, Picks(tabs)).searchPresent == c.searchPresent
    ensures Run(c, Picks(tabs)).state.hasActiveSearch == c.searchPresent
    decreases |tabs|
  {
    if tabs != [] {
      assert Picks(tabs)[1..] == Picks(tabs[1..]);
      PicksKeepSearchFlag(Step(c, TabSelected(tabs[0])), tabs[1..]);
    }
  }

  lemma {:induction false} RunAppend(c: Component, first: seq<Event>, rest: seq<Event>)
    ensures Run(c, first + rest) == Run(Run(c, first), rest)
    decreases |first|
  {
    if first != [] {
      assert first + rest != [] && (first + rest)[0] == first[0];
      assert (first + rest)[1..] == first[1..] + rest;
      RunAppend(Step(c, first[0]), first[1..], rest);
    } else {
      assert first + rest == rest;
    }
  }
}
