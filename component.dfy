/**
 * The tab renderer as the object it is: a state object whose two fields the
 * derived-state step overwrites in place, a component holding its props and
 * that state, and the override hook that mutates the levels record it is given
 * and hands the same record back. Each method is specified by the value-level
 * functions of the Levels and TabMachine modules.
 */
module TabRendererComponent {
  import opened Levels
  import opened Tabs
  import opened TabMachine

  /** The mutable `{level, variantLevel}` record the renderer passes to the hook. */
  class LevelsRecord {
    var level: nat
    var variantLevel: nat

    constructor (level: nat, variantLevel: nat)
      ensures Value() == Levels(level, variantLevel)
    {
      this.level := level;
      this.variantLevel := variantLevel;
    }

    function Value(): Levels
      reads this
    {
      Levels(level, variantLevel)
    }
  }

  /** The component's state object. */
  class TabRendererState {
    var activeTab: TabType
    var hasActiveSearch: bool

    constructor (activeTab: TabType, hasActiveSearch: bool)
      ensures Value() == TabState(activeTab, hasActiveSearch)
    {
      this.activeTab := activeTab;
      this.hasActiveSearch := hasActiveSearch;
    }

    function Value(): TabState
      reads this
    {
      TabState(activeTab, hasActiveSearch)
    }
  }

  class TabRenderer {
    /** Whether the `searchData` prop is truthy. */
    var searchPresent: bool
    var state: TabRendererState

    ghost function Model(): Component
      reads this, state
    {
      Component(searchPresent, state.Value())
    }

    /** The state starts on Statistics, with the search flag taken from the props. */
    constructor (searchPresent: bool)
      ensures fresh(state)
      ensures Model() == Component(searchPresent, InitialState(searchPresent))
    {
      this.searchPresent := searchPresent;
      this.state := new TabRendererState(Statistics, searchPresent);
    }

    /** Overwrites both fields of the given state object and returns that same object. */
    static method GetDerivedStateFromProps(searchPresent: bool, state: TabRendererState)
      returns (r: TabRendererState)
      modifies state
      ensures r == state
      ensures state.Value() == Derive(old(state.Value()), searchPresent)
    {
      if searchPresent && !state.hasActiveSearch {
        state.activeTab := SearchResults;
      } else if !searchPresent && state.hasActiveSearch {
        state.activeTab := Statistics;
      }
      state.hasActiveSearch := searchPresent;
      r := state;
    }

    /** The tab control's change handler: the picked tab becomes active, nothing else changes. */
    method HandleChange(nextTab: TabType)
      modifies state
      ensures state.activeTab == nextTab
      ensures state.hasActiveSearch == old(state.hasActiveSearch)
    {
      state.activeTab := nextTab;
    }

    /**
     * The parent renders the component with new props: they replace the old
     * ones and the derived-state step runs before the next render.
     */
    method ReceiveProps(newSearchPresent: bool)
      modifies this, state
      ensures state == old(state)
      ensures Model() == Step(old(Model()), PropsChanged(newSearchPresent))
    {
      searchPresent := newSearchPresent;
      state := GetDerivedStateFromProps(newSearchPresent, state);
    }

    /** A tab click: the change handler, then the derived-state step of the re-render. */
    method SelectTab(nextTab: TabType)
      modifies this, state
      ensures state == old(state)
      ensures Model() == Step(old(Model()), TabSelected(nextTab))
    {
      HandleChange(nextTab);
      state := GetDerivedStateFromProps(searchPresent, state);
    }

    /**
     * The search override hook: adjusts the given record in place for the key
     * being descended into and returns that same record.
     */
    method ModifyLevelsForSearch(nextLevels: LevelsRecord, key: string) returns (r: LevelsRecord)
      modifies nextLevels
      ensures r == nextLevels
      ensures nextLevels.Value() == SearchAdjusted(old(nextLevels.Value()), key)
    {
      if key == "uniques" {
        nextLevels.level := nextLevels.level + 1;
      } else if key == "sets" {
        nextLevels.level := nextLevels.level + 1;
        nextLevels.variantLevel := nextLevels.variantLevel + 2;
      }
      r := nextLevels;
    }
  }

  /**
   * A client of the component: a search arrives while the user is on a
   * category tab, the user looks at the statistics of the results, the search
   * is cleared, and the component is back on Statistics rather than on the
   * tab that was active before the search.
   */
  method SearchScenario()
  {
    var c := new TabRenderer(false);
    c.ReceiveProps(false);
    assert c.state.activeTab == Statistics;
    c.SelectTab(Sets);
    assert c.state.activeTab == Sets;
    c.ReceiveProps(true);
    assert c.state.activeTab == SearchResults;
    c.SelectTab(Statistics);
    c.ReceiveProps(true);
    assert c.state.activeTab == Statistics;
    c.SelectTab(SearchResults);
    c.ReceiveProps(false);
    assert c.state.activeTab == Statistics && !c.state.hasActiveSearch;
  }

  /**
   * A client of the hook: because the record is adjusted in place and handed
   * back, a caller that keeps its own reference sees the change as well.
   */
  method SharedLevelsScenario(c: TabRenderer)
  {
    var levels := new LevelsRecord(0, 2);
    var next := c.ModifyLevelsForSearch(levels, "uniques");
    assert next == levels && levels.Value() == Levels(1, 2);
    next := c.ModifyLevelsForSearch(levels, "sets");
    assert levels.Value() == Levels(2, 4);
    next := c.ModifyLevelsForSearch(levels, "armor");
    assert levels.Value() == Levels(2, 4);
  }
}
