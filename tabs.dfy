/**
 * The tabs of the grail viewer: which tabs the tab bar lists and which view
 * (renderer, data, levels, ancestor keys, override hook) each tab shows.
 * Search data and the catalog are opaque here; only whether search data is
 * present (its truthiness) decides anything.
 */
module Tabs {
  import opened Levels

  datatype Option<T> = None | Some(value: T)

  /** The seven tabs, in the order the enum declares them. */
  datatype TabType =
    | Statistics
    | UniqueArmor
    | UniqueWeapons
    | UniqueOther
    | Sets
    | SearchResults
    | MissingItems

  /** The five tabs that browse the catalog by category. */
  predicate IsCategory(t: TabType)
  {
    t.UniqueArmor? || t.UniqueWeapons? || t.UniqueOther? || t.Sets? || t.MissingItems?
  }

  /** The category tabs that show a fixed subtree of the catalog. */
  predicate IsCatalogSubtree(t: TabType)
  {
    t.UniqueArmor? || t.UniqueWeapons? || t.UniqueOther? || t.Sets?
  }

  /** The category tabs, listed only while no search is present. */
  function CategoryTabs(searchPresent: bool): (r: seq<TabType>)
    ensures searchPresent ==> r == []
    ensures !searchPresent ==> |r| == 5 && forall t :: t in r <==> IsCategory(t)
  {
    if searchPresent then []
    else [UniqueArmor, UniqueWeapons, UniqueOther, Sets, MissingItems]
  }

  /**
   * The tab bar: Statistics first and always, then the category tabs when no
   * search is present, then Search Results when a search is present.
   */
  function VisibleTabs(searchPresent: bool): (r: seq<TabType>)
    ensures |r| > 0 && r[0] == Statistics
    ensures forall t :: t in r <==>
      (t == Statistics || (IsCategory(t) && !searchPresent) || (t == SearchResults && searchPresent))
    ensures forall i, j :: 0 <= i < j < |r| ==> r[i] != r[j]
  {
    [Statistics] + CategoryTabs(searchPresent) + (if searchPresent then [SearchResults] else [])
  }

  /** Where a view takes its data from. */
  datatype DataSource =
    | SearchData                 // the search results passed in as a prop
    | AllData                    // the whole catalog
    | AllDataAt(path: seq<string>) // a subtree of the catalog, by its keys
    | MissingItemsOfAllData      // the missing-items tree derived from the catalog

  /** The `levels` prop as written at the call site: each counter may be absent. */
  datatype LevelsProp = LevelsProp(level: Option<nat>, variantLevel: Option<nat>)

  /** What a tab renders. An absent prop is `None`. */
  datatype View =
    | DataRenderer(data: DataSource, levels: Option<LevelsProp>,
                   ancestorKeys: Option<seq<string>>, modifyLevels: bool)
    | StatisticsTable(data: DataSource)

  /*
   * The ancestor keys of the catalog tabs are literals written at each call
   * site. The three functions below only describe how those literals relate
   * to the data paths beside them (each is the key with its first letter in
   * upper case); the renderer derives no labels itself. Upper handles ASCII
   * letters only, which is all the four call sites use.
   */

  function Upper(c: char): char
  {
    if 'a' <= c <= 'z' then (c as int - 'a' as int + 'A' as int) as char else c
  }

  /** A key with its first letter in upper case. */
  function Capitalize(s: string): (r: string)
    ensures |r| == |s|
    ensures s != [] ==> r[1..] == s[1..] && r[0] == Upper(s[0])
  {
    if s == [] then s else [Upper(s[0])] + s[1..]
  }

  /** Every key of a path with its first letter in upper case. */
  function Labels(path: seq<string>): (r: seq<string>)
    ensures |r| == |path|
    ensures forall i :: 0 <= i < |path| ==> r[i] == Capitalize(path[i])
  {
    seq(|path|, i requires 0 <= i < |path| => Capitalize(path[i]))
  }

  /** The view shown for the active tab. */
  function ViewFor(activeTab: TabType, searchPresent: bool): (v: View)
    // the default branch: only the Statistics tab reaches the statistics table,
    // which summarises the search results when there are any
    ensures v.StatisticsTable? <==> activeTab == Statistics
    ensures activeTab == Statistics ==> v.data == (if searchPresent then SearchData else AllData)
    // only the two aggregated views attach the override hook, and they pass
    // neither levels nor ancestor keys
    ensures v.DataRenderer? ==> (v.modifyLevels <==> activeTab == SearchResults || activeTab == MissingItems)
    ensures v.DataRenderer? && v.modifyLevels ==> v.levels.None? && v.ancestorKeys.None?
    ensures activeTab == SearchResults ==> v.data == SearchData
    ensures activeTab == MissingItems ==> v.data == MissingItemsOfAllData
    // search results are shown only by the search-aware views
    ensures v.data == SearchData ==> activeTab == SearchResults || (activeTab == Statistics && searchPresent)
    // a catalog subtree is labelled by the path that selects it, and that
    // path starts below one of the keys the search override compensates for
    ensures IsCatalogSubtree(activeTab) <==> v.data.AllDataAt?
    ensures IsCatalogSubtree(activeTab) ==>
      v.DataRenderer? && !v.modifyLevels && v.data.path != [] &&
      v.data.path[0] in SyntheticKeys && v.ancestorKeys == Some(Labels(v.data.path))
    // the levels each catalog subtree is rendered with
    ensures activeTab.UniqueArmor? || activeTab.UniqueWeapons? || activeTab.UniqueOther? ==>
      v.levels == Some(LevelsProp(None, Some(2))) && |v.data.path| == 2 && v.data.path[0] == "uniques"
    ensures activeTab == Sets ==> v.levels == Some(LevelsProp(Some(1), Some(3))) && v.data.path == ["sets"]
    // the subtree and the ancestor keys of each catalog tab
    ensures activeTab == UniqueArmor ==>
      v.data == AllDataAt(["uniques", "armor"]) && v.ancestorKeys == Some(["Uniques", "Armor"])
    ensures activeTab == UniqueWeapons ==>
      v.data == AllDataAt(["uniques", "weapons"]) && v.ancestorKeys == Some(["Uniques", "Weapons"])
    ensures activeTab == UniqueOther ==>
      v.data == AllDataAt(["uniques", "other"]) && v.ancestorKeys == Some(["Uniques", "Other"])
    ensures activeTab == Sets ==> v.ancestorKeys == Some(["Sets"])
  {
    LabelsOfCatalogPaths();
    match activeTab
    case SearchResults => DataRenderer(SearchData, None, None, true)
    case UniqueArmor =>
      DataRenderer(AllDataAt(["uniques", "armor"]), Some(LevelsProp(None, Some(2))), Some(["Uniques", "Armor"]), false)
    case UniqueWeapons =>
      DataRenderer(AllDataAt(["uniques", "weapons"]), Some(LevelsProp(None, Some(2))), Some(["Uniques", "Weapons"]), false)
    case UniqueOther =>
      DataRenderer(AllDataAt(["uniques", "other"]), Some(LevelsProp(None, Some(2))), Some(["Uniques", "Other"]), false)
    case Sets => DataRenderer(AllDataAt(["sets"]), Some(LevelsProp(Some(1), Some(3))), Some(["Sets"]), false)
    case MissingItems => DataRenderer(MissingItemsOfAllData, None, None, true)
    case _ => StatisticsTable(if searchPresent then SearchData else AllData)
  }

  /** The ancestor keys written at the four call sites are their data paths, capitalised. */
  lemma LabelsOfCatalogPaths()
    ensures Labels(["uniques", "armor"]) == ["Uniques", "Armor"]
    ensures Labels(["uniques", "weapons"]) == ["Uniques", "Weapons"]
    ensures Labels(["uniques", "other"]) == ["Uniques", "Other"]
    ensures Labels(["sets"]) == ["Sets"]
  {
    assert Capitalize("uniques") == "Uniques";
    assert Capitalize("armor") == "Armor";
    assert Capitalize("weapons") == "Weapons";
    assert Capitalize("other") == "Other";
    assert Capitalize("sets") == "Sets";
  }

  /**
   * The two synthetic keys of the override hook are exactly the catalog keys
   * that the category tabs step over when they select their subtree.
   */
  lemma SyntheticKeysAreCategoryRoots(searchPresent: bool)
    ensures forall k :: k in SyntheticKeys <==>
      exists t :: IsCatalogSubtree(t) && ViewFor(t, searchPresent).data.path[0] == k
  {
    assert ViewFor(UniqueArmor, searchPresent).data.path[0] == "uniques";
    assert ViewFor(Sets, searchPresent).data.path[0] == "sets";
  }

  /** Only the Statistics tab looks at whether a search is present. */
  lemma ViewIgnoresSearchExceptStatistics(activeTab: TabType)
    requires activeTab != Statistics
    ensures ViewFor(activeTab, true) == ViewFor(activeTab, false)
  {
  }
}
