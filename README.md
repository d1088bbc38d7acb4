# Sentinel-2 imagery finder: scene selection and session coordinate

`app.py` is a Streamlit page that searches the Earth Search STAC catalog for
Sentinel-2 L2A scenes over a point and a date range and shows the clearest one.
Two pieces of it carry logic, and this project models both in Dafny:

- **Best-scene selection and presentation** (`search_satellite_imagery`,
  module `SceneSelection`, pure functions). The items returned by the catalog
  are the input. With no items, a warning is shown and `None` is returned.
  Otherwise the items are stably sorted by `eo:cloud_cover`, a missing value
  counting as 100, and the first one is shown: id, acquisition time, cloud
  cover, bounding box, and the thumbnail when a `thumbnail` asset exists. The
  cloud cover is read there without a default, so an item lacking it raises a
  `KeyError` after the first three lines have been written. `Outcome` records
  the lines written and either the return value or the exception. The sort is
  an insertion sort (`SortByCloudCover`). It is proved to be a sorted
  permutation that keeps tied items in catalog order. Its head is proved equal
  to an independent definition, the first index of least key (`FirstMinIndex`).
- **Session coordinate** (lines 116-131, module `CoordinateState`, a class).
  `Session` holds the optional `lat` and `lon` entries of `st.session_state`.
  `Session.Rerun` runs once per rerun. It stores the default
  (37.8199, -122.4783) only when `lat` is absent. A map click then overwrites
  both entries. It returns the stored pair, which the number inputs show. The
  pure `Reconcile`/`Replay` functions state the same step over a run of reruns.
  The main property proved about them is that the last click wins.

The map's `last_clicked` result is an input of `Rerun` (`Option<Coord>`). The
catalog's answer is an input of `SearchImagery` (`seq<Item>`).

## Model

| member | source | states |
|---|---|---|
| SceneSelection.CloudKey | app.py:45 | the sort key is the item's `eo:cloud_cover` when present, and 100 when it is missing |
| SceneSelection.Insert | app.py:43-46 | inserting into the sorted list adds exactly that item (length and multiset) |
| SceneSelection.InsertKeepsSorted | app.py:43-46 | inserting into a list sorted by cloud-cover key keeps it sorted |
| SceneSelection.SortByCloudCover | app.py:43-46 | the sorted list is a permutation of the catalog items, ascending by cloud cover with a missing value counted as 100 |
| SceneSelection.InsertGoesBeforeTies | app.py:43-46 | an inserted item comes before every item that ties with it, and the ties keep their order |
| SceneSelection.SortKeepsTiesInOrder | app.py:43-46 | stability of `sorted`: for every key, the items with that key keep their catalog order |
| SceneSelection.FirstMinIndex | app.py:43-48 | reference winner: a valid index whose key is ≤ every key and < the key of every earlier item |
| SceneSelection.SortedHeadIsFirstMin | app.py:43-48 | `sorted_items[0]` is the item at the first index of least key |
| SceneSelection.Select | app.py:37-48 | no choice exactly for an empty list; otherwise the choice is an input item with the least key, and the earliest such item |
| SceneSelection.Present | app.py:50-60 | raises KeyError('eo:cloud_cover') exactly when the item lacks that property, having shown exactly success, id and time; otherwise returns the item after showing those three, then its cloud cover and bounding box, then, exactly when a thumbnail asset exists, that asset's href with the caption "Sentinel-2 thumbnail"; a missing thumbnail is not an error |
| SceneSelection.SearchImagery | app.py:37-62 | an empty list gives exactly the warning and None; a non-empty list gives exactly what presenting the selected item gives; it raises exactly when the selected item lacks a cloud cover |
| SceneSelection.KeyErrorOnlyWhenNothingClearer | app.py:45-53 | a KeyError is raised only when every item's key is at least 100 |
| SceneSelection.ImageOnlyWithThumbnail | app.py:37-60 | the thumbnail is shown exactly when an item is returned and it has a thumbnail asset |
| SceneSelection.ClearestSceneWins | app.py:43-48 | covers 23.4, 5.0 and missing: the 5.0 scene is chosen |
| SceneSelection.TieGoesToCatalogOrder | app.py:43-48 | two scenes tied at 5.0 are chosen in catalog order, whichever order that is |
| CoordinateState.Reconcile | app.py:122-128 | the pair stored after one rerun: the click if there is one, else the pair stored before, else the default (37.8199, -122.4783) |
| CoordinateState.Replay | app.py:122-128 | reruns in sequence: no reruns leave the stored value as it was, and after any rerun a pair is stored |
| CoordinateState.LastClickWins | app.py:122-128 | after reruns the stored pair is the last click; with no click it is the earlier stored pair, or the default if there was none |
| CoordinateState.NoClickKeepsStored | app.py:122-124 | reruns without a click leave a stored pair unchanged |
| CoordinateState.NoClicksHasNoLast | app.py:126-128 | a run of reruns without clicks has no last click |
| CoordinateState.Session.constructor | app.py:122 | a new session stores no coordinate |
| CoordinateState.Session.Rerun | app.py:116-131 | default only when `lat` is absent; a click overwrites both entries; the shown pair is the stored pair; the new state is Reconcile of the old one |
| CoordinateState.RunReruns | app.py:116-131 | a run of reruns on one session leaves it storing what `Replay` gives for those clicks, so last-click-wins and no-click-keeps-stored hold of the session |
| CoordinateState.ClickThenRerun | app.py:116-131 | a click is kept by a later rerun without a click and replaced by a later click |

## Left out

- Page setup, the form and its widgets, the `st.subheader`/`st.write` text of lines 16-18 and 35, and float formatting (`:.2f`, `:.6f`): display only. `Line` records which value each call shows, not the formatted text.
- The `st.success("Selected point ...")` line (120) and the local `lat`/`lon` it prints: display only. Lines 130-131 overwrite those locals anyway.
- The folium map and `st_folium` (lines 94-114): rendering only. The map is centred on the form's values, not the session's. Only `last_clicked` enters the model.
- Edits a user makes in the number inputs of lines 130-131: `value=` is only the widget's starting value. `Session.Rerun` returns that starting value, and what the widget later returns is UI state.
- `Client.open`, the catalog search over HTTP and shapely's `Point.__geo_interface__` (lines 20-34): network and foreign libraries. The server-side `eo:cloud_cover < 15` filter runs in the catalog, so the model does not assume the returned items satisfy it. Transport errors are not modelled.
- `Item.properties` holds only numeric values, so an `eo:cloud_cover` that is present but null or a string is not modelled; `.get` would return such a value unchanged rather than 100. A null cover makes `sorted` raise TypeError when there are two or more items, and the `:.2f` of line 53 raise TypeError when there is one. A string cover makes `sorted` raise TypeError only when it is compared with a number or the default 100, and `:.2f` raises ValueError on it.
- Cloud covers are exact reals, not IEEE doubles: NaN, infinities and rounding are not modelled. Only comparisons are made on them.
- Start ≤ end dates and latitude/longitude ranges are not checked, because the code never checks them; no date-range error exists in the model.
- Typing in the number inputs does not write the stored coordinate: `st.number_input` never assigns `st.session_state`. The only writes are the default and the map click, and the model has no third write path.
