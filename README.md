# Tab selection of the grail viewer

This project models the tab orchestration of the item-collection tracker's
grail viewer (`TabRenderer`). It covers the tab state machine: the active tab
and the remembered search flag. The derived-state step forces the Search
Results tab when search data arrives and forces Statistics when it is
cleared. The user's own tab choice stands otherwise. The project also models
which tabs the tab bar lists and the fixed view configuration behind each
tab: the data, the levels, the ancestor keys and the search override hook.
Finally it models the override hook `modifyLevelsForSearch`, which adjusts
a levels record in place for the synthetic keys `"uniques"` and `"sets"`.

Search data and the catalog are opaque payloads. Only whether search data is
present (its truthiness) decides anything, so props are modelled as one
boolean.

Files:

- `levels.dfy` (module `Levels`): the levels value, the hook as a function on
  it, and what repeated application of the hook does.
- `tabs.dfy` (module `Tabs`): the tab enum, the listed tabs and the tab-to-view
  table.
- `machine.dfy` (module `TabMachine`): the state machine as values. It has
  construction, the derived-state step, user and props events, and runs of
  events. Its invariant is that the active tab is always one the tab bar lists.
- `component.dfy` (module `TabRendererComponent`): the component as objects.
  The state object is overwritten in place. The change handler writes the
  picked tab into that same object. The
  hook mutates the record it is given and returns that same record. Every
  method is specified by the functions above.

Three behaviours of the code that the model keeps as written:

- The override hook mutates the levels record it is given and returns the same
  object. It does not copy.
- The search and missing-items views pass no `levels` and no ancestor keys.
  The statistics view is not a tree renderer at all.
- When search data is already present at construction, the remembered flag
  starts true. The first derived-state step therefore leaves the active tab on
  Statistics instead of switching to Search Results.

## Model

| member | source | states |
|---|---|---|
| `TabMachine.InitialState` | client/src/areas/grail/tabRenderer/TabRenderer.tsx:49-55 | the initial state is Statistics with the search flag equal to search presence, and the derived-state step at mount leaves it unchanged |
| `TabMachine.Mount` | client/src/areas/grail/tabRenderer/TabRenderer.tsx:49-63 | construction followed by the first derived-state step yields exactly the initial state, even when search data is present |
| `TabMachine.Derive` | client/src/areas/grail/tabRenderer/TabRenderer.tsx:57-66 | afterwards the flag equals search presence; search appearing forces SearchResults; search disappearing forces Statistics; unchanged presence changes nothing |
| `TabMachine.DeriveIdempotent` | client/src/areas/grail/tabRenderer/TabRenderer.tsx:57-66 | repeating the derived-state step with the same props changes nothing |
| `TabMachine.ForcedTransitionWins` | client/src/areas/grail/tabRenderer/TabRenderer.tsx:57-63 | when presence flips in the same update as a user pick, the forced tab wins over the picked one |
| `TabMachine.MountConsistent` | client/src/areas/grail/tabRenderer/TabRenderer.tsx:49-76 | right after mounting, the flag matches the props and the active tab is one the tab bar lists |
| `TabMachine.StepConsistent` | client/src/areas/grail/tabRenderer/TabRenderer.tsx:57-98 | one props event or one pick of a listed tab keeps the state consistent, and a pick then survives the re-render |
| `TabMachine.RunConsistent` | client/src/areas/grail/tabRenderer/TabRenderer.tsx:57-98 | every event sequence the tab bar can produce keeps the active tab among the listed tabs and the flag in sync with the props |
| `TabMachine.SearchNarrowsTabs` | client/src/areas/grail/tabRenderer/TabRenderer.tsx:72-98 | while a search is present, only Statistics or SearchResults can be active |
| `TabMachine.SearchThenClearEndsOnStatistics` | client/src/areas/grail/tabRenderer/TabRenderer.tsx:57-66 | a search that appears and is then cleared ends on Statistics, whatever was active before and whatever the user picked meanwhile |
| `TabMachine.PicksKeepSearchFlag` | client/src/areas/grail/tabRenderer/TabRenderer.tsx:83-85 | user picks change neither the props nor the remembered search flag |
| `Tabs.CategoryTabs` | client/src/areas/grail/tabRenderer/TabRenderer.tsx:87-98 | no category tab while a search is present; otherwise exactly the five category tabs |
| `Tabs.VisibleTabs` | client/src/areas/grail/tabRenderer/TabRenderer.tsx:72-76 | Statistics is listed first and always; the category tabs are listed iff no search is present; Search Results is listed iff a search is present; no tab is listed twice |
| `Tabs.ViewFor` | client/src/areas/grail/tabRenderer/TabRenderer.tsx:100-128 | only Statistics shows the statistics table, over search data if present and else all data; only SearchResults and MissingItems attach the hook and they pass no levels or ancestor keys; the unique tabs use variantLevel 2 with no level; Sets uses level 1 and variantLevel 3; each of the four catalog tabs shows its own subtree (uniques/armor, uniques/weapons, uniques/other, sets) with its literal ancestor keys, which are the capitalised data path |
| `Tabs.LabelsOfCatalogPaths` | client/src/areas/grail/tabRenderer/TabRenderer.tsx:106-123 | a cross-check of the literals: the ancestor keys written for the four catalog tabs are the capitalised keys of their data paths |
| `Tabs.SyntheticKeysAreCategoryRoots` | client/src/areas/grail/tabRenderer/TabRenderer.tsx:106-139 | a cross-check of the literals: the keys the hook compensates for are exactly the top-level catalog keys the category tabs step over |
| `Tabs.ViewIgnoresSearchExceptStatistics` | client/src/areas/grail/tabRenderer/TabRenderer.tsx:100-128 | every tab but Statistics shows the same view whether or not a search is present |
| `Levels.SearchAdjusted` | client/src/areas/grail/tabRenderer/TabRenderer.tsx:131-139 | "uniques" adds 1 to level; "sets" adds 1 to level and 2 to variantLevel; the record is unchanged iff the key is neither; no counter ever decreases |
| `Levels.AdjustedAlongCounts` | client/src/areas/grail/tabRenderer/TabRenderer.tsx:131-139 | applying the hook to the same record key after key adds one level per synthetic key and two variant levels per "sets" |
| `Levels.AdjustedAlongPermutation` | client/src/areas/grail/tabRenderer/TabRenderer.tsx:131-139 | any rearrangement of the same keys (equal multisets) gives the same accumulated record |
| `TabRendererComponent.TabRenderer.constructor` | client/src/areas/grail/tabRenderer/TabRenderer.tsx:49-55 | a new state object holding Statistics and the search presence of the props |
| `TabRendererComponent.TabRenderer.GetDerivedStateFromProps` | client/src/areas/grail/tabRenderer/TabRenderer.tsx:57-66 | overwrites the given state object in place by the derived-state step and returns that same object |
| `TabRendererComponent.TabRenderer.HandleChange` | client/src/areas/grail/tabRenderer/TabRenderer.tsx:83-85 | sets the active tab to the picked one and leaves the search flag untouched |
| `TabRendererComponent.TabRenderer.ReceiveProps` | client/src/areas/grail/tabRenderer/TabRenderer.tsx:57-66 | new props followed by the derived-state step on the same state object |
| `TabRendererComponent.TabRenderer.SelectTab` | client/src/areas/grail/tabRenderer/TabRenderer.tsx:83-85 | the change handler followed by the derived-state step of the re-render |
| `TabRendererComponent.TabRenderer.ModifyLevelsForSearch` | client/src/areas/grail/tabRenderer/TabRenderer.tsx:131-139 | adjusts the given record in place as the hook function says and returns that same record |

## Left out

- The tree renderer (`DataRenderer`) and the missing-items computation
  (`Util.getMissingItems`) are not part of this model. A view only names its
  data source and its props.
- `StatisticsTable`, all JSX, the app bar, the tab bar widgets and the styles
  are left out. Only which tabs are listed is kept.
- VisibleTabs, CategoryTabs: the order of the tabs is kept in their bodies,
  but their contracts state only that Statistics comes first, not the order
  of the other tabs.
- The numeric values of the tab enum are left out. The tab bar only compares
  them for identity.
- The contents of `searchData` and `allData` are left out. Only whether search
  data is truthy is modelled. A missing `uniques` field makes
  `allData.uniques.armor` (and its two siblings) throw; a missing `sets`
  field hands `undefined` to the renderer. Neither case is modelled.
- ModifyLevelsForSearch: both counters are naturals that are always present.
  When the renderer hands the hook a record without `level`, the JavaScript
  sum gives NaN; that case is not modelled, because the renderer's defaults
  are not part of this model.
- React's scheduling is reduced to one synchronous derived-state step after
  each event. This covers `setState` batching and merging, and re-renders
  without a change.
- HandleChange, ReceiveProps, SelectTab: the model keeps one state object
  through every event and writes the picked tab into it. In React,
  `setState` merges the update into a new state object instead. The
  state values are the same either way; object identity across updates is
  not modelled.
- `RegisterFormDialog.tsx` and `DiscardLocalChangesButton.tsx` are left out.
  They are form and network plumbing, or stream and reload plumbing, with no
  local logic to model.
