/**
 * The best-scene rule of `search_satellite_imagery` (app.py): from the items the
 * catalog returned, warn when there are none; otherwise sort them by cloud cover,
 * a missing cover counting as 100, take the first one and show its details.
 */
module SceneSelection {
  import opened Wrappers

  /** Property that carries an item's cloud cover, in percent. */
  const CloudCoverKey: string := "eo:cloud_cover"
  /** Sort key given to an item whose properties lack CloudCoverKey. */
  const MissingCloudCover: real := 100.0
  /** Asset role of the preview image. */
  const ThumbnailRole: string := "thumbnail"

  const NoImagesMessage: string :=
    "No images found. Try expanding the date range or increasing cloud cover tolerance."
  const FoundMessage: string := "Best available image found"
  const ThumbnailCaption: string := "Sentinel-2 thumbnail"

  /**
   * A catalog item: its id, acquisition time and bounding box, its numeric
   * properties by name, and the href of each asset by role.
   */
  datatype Item = Item(
    id: string,
    datetime: string,
    bbox: seq<real>,
    properties: map<string, real>,
    assets: map<string, string>)

  /** The sort key: the item's cloud cover, or 100 when it has none. */
  function CloudKey(item: Item): (key: real)
    ensures CloudCoverKey in item.properties ==> key == item.properties[CloudCoverKey]
    ensures CloudCoverKey !in item.properties ==> key == MissingCloudCover
  {
    if CloudCoverKey in item.properties then item.properties[CloudCoverKey] else MissingCloudCover
  }

  ghost predicate SortedByKey(s: seq<Item>) {
    forall i, j :: 0 <= i < j < |s| ==> CloudKey(s[i]) <= CloudKey(s[j])
  }

  /**
   * Places x in front of the first element of s whose key is not smaller, so
   * that x precedes every element of s that ties with it.
   */
  function Insert(x: Item, s: seq<Item>): (r: seq<Item>)
    ensures |r| == |s| + 1
    ensures multiset(r) == multiset(s) + multiset{x}
  {
    if s == [] || CloudKey(x) <= CloudKey(s[0]) then [x] + s
    else
      assert s == [s[0]] + s[1..];
      [s[0]] + Insert(x, s[1..])
  }

  lemma {:induction false} InsertKeepsSorted(x: Item, s: seq<Item>)
    requires SortedByKey(s)
    ensures SortedByKey(Insert(x, s))
  {
    if s != [] && CloudKey(x) > CloudKey(s[0]) {
      var rest := Insert(x, s[1..]);
      InsertKeepsSorted(x, s[1..]);
      forall j | 0 <= j < |rest| ensures CloudKey(s[0]) <= CloudKey(rest[j]) {
        assert rest[j] in multiset(rest);
        if rest[j] != x {
          assert rest[j] in multiset(s[1..]);
          assert rest[j] in s[1..];
        }
      }
      assert Insert(x, s) == [s[0]] + rest;
    }
  }

  /**
   * Stable sort by cloud cover, ascending: Python's `sorted` with the key of
   * CloudKey, written as an insertion sort.
   */
  function SortByCloudCover(items: seq<Item>): (r: seq<Item>)
    ensures |r| == |items|
    ensures multiset(r) == multiset(items)
    ensures SortedByKey(r)
  {
    if items == [] then []
    else
      assert items == [items[0]] + items[1..];
      InsertKeepsSorted(items[0], SortByCloudCover(items[1..]));
      Insert(items[0], SortByCloudCover(items[1..]))
  }

  /** The items of s whose key is k, in the order of s. */
  function WithKey(s: seq<Item>, k: real): (ties: seq<Item>) {
    if s == [] then []
    else (if CloudKey(s[0]) == k then [s[0]] else []) + WithKey(s[1..], k)
  }

  lemma WithKeyCons(y: Item, s: seq<Item>, k: real)
    ensures WithKey([y] + s, k) == (if CloudKey(y) == k then [y] else []) + WithKey(s, k)
  {
  }

  lemma {:induction false} InsertGoesBeforeTies(x: Item, s: seq<Item>, k: real)
    ensures WithKey(Insert(x, s), k) == (if CloudKey(x) == k then [x] else []) + WithKey(s, k)
  {
    if s == [] || CloudKey(x) <= CloudKey(s[0]) {
      WithKeyCons(x, s, k);
    } else {
      var rest := Insert(x, s[1..]);
      WithKeyCons(s[0], rest, k);
      InsertGoesBeforeTies(x, s[1..], k);
      WithKeyCons(s[0], s[1..], k);
      assert [s[0]] + s[1..] == s;
    }
  }

  /**
   * Stability: for every cloud cover k, the items with key k keep the catalog's
   * relative order after sorting.
   */
  lemma {:induction false} SortKeepsTiesInOrder(items: seq<Item>, k: real)
    ensures WithKey(SortByCloudCover(items), k) == WithKey(items, k)
  {
    if items != [] {
      SortKeepsTiesInOrder(items[1..], k);
      InsertGoesBeforeTies(items[0], SortByCloudCover(items[1..]), k);
    }
  }

  /**
   * Reference definition of the winner: the first position holding the smallest
   * key. Every item's key is at least the winner's, and every earlier item's key
   * is strictly larger.
   */
  function FirstMinIndex(items: seq<Item>): (i: nat)
    requires items != []
    ensures i < |items|
    ensures forall j :: 0 <= j < |items| ==> CloudKey(items[i]) <= CloudKey(items[j])
    ensures forall j :: 0 <= j < i ==> CloudKey(items[i]) < CloudKey(items[j])
  {
    if |items| == 1 then 0
    else
      var j := 1 + FirstMinIndex(items[1..]);
      assert forall m :: 1 <= m < |items| ==> items[m] == items[1..][m - 1];
      if CloudKey(items[0]) <= CloudKey(items[j]) then 0 else j
  }

  /** The head of the stable sort is the first item of least key. */
  lemma {:induction false} SortedHeadIsFirstMin(items: seq<Item>)
    requires items != []
    ensures SortByCloudCover(items)[0] == items[FirstMinIndex(items)]
  {
    if |items| > 1 {
      SortedHeadIsFirstMin(items[1..]);
    }
  }

  /**
   * `sorted(items, key=...)[0]` on a non-empty list, None on an empty one. The
   * choice is one of the inputs, no input has a smaller key, and among inputs
   * with the same key the earliest is chosen.
   */
  function Select(items: seq<Item>): (best: Option<Item>)
    ensures best.None? <==> items == []
    ensures best.Some? ==> best.value == items[FirstMinIndex(items)]
    ensures best.Some? ==> best.value in items
    ensures best.Some? ==> forall j :: 0 <= j < |items| ==> CloudKey(best.value) <= CloudKey(items[j])
  {
    if items == [] then None
    else
      SortedHeadIsFirstMin(items);
      Some(SortByCloudCover(items)[0])
  }

  /** One call of `st.success`, `st.warning`, `st.write` or `st.image` from line 37 on. */
  datatype Line =
    | Warning(message: string)
    | Success(message: string)
    | SceneId(id: string)
    | AcquisitionTime(datetime: string)
    | CloudCover(percent: real)
    | BoundingBox(bbox: seq<real>)
    | Image(href: string, caption: string)

  datatype Error = KeyError(key: string)

  /** The lines a call wrote, and either the value it returned or the exception it raised. */
  datatype Outcome =
    | Returned(shown: seq<Line>, value: Option<Item>)
    | Raised(shown: seq<Line>, error: Error)

  predicate ShowsImage(shown: seq<Line>) {
    exists i :: 0 <= i < |shown| && shown[i].Image?
  }

  /**
   * Shows the chosen item. Reading the cloud cover without a default raises a
   * KeyError after the first three lines when the item has none; a missing
   * thumbnail only leaves the image out.
   */
  function Present(best: Item): (o: Outcome)
    ensures o.Raised? <==> CloudCoverKey !in best.properties
    ensures o.Raised? ==> o.error == KeyError(CloudCoverKey) && !ShowsImage(o.shown)
    ensures o.Returned? ==> o.value == Some(best)
    ensures o.Returned? ==> (ShowsImage(o.shown) <==> ThumbnailRole in best.assets)
    ensures o.Raised? ==>
              o.shown == [Success(FoundMessage), SceneId(best.id), AcquisitionTime(best.datetime)]
    ensures o.Returned? ==>
              |o.shown| == (if ThumbnailRole in best.assets then 6 else 5) &&
              o.shown[3..5] == [CloudCover(best.properties[CloudCoverKey]), BoundingBox(best.bbox)]
    ensures o.Returned? && ThumbnailRole in best.assets ==>
              o.shown[5] == Image(best.assets[ThumbnailRole], ThumbnailCaption)
    ensures 3 <= |o.shown|
    ensures forall i :: 0 <= i < |o.shown| && o.shown[i].Image? ==>
              ThumbnailRole in best.assets && o.shown[i].href == best.assets[ThumbnailRole]
    ensures o.shown[..3] == [Success(FoundMessage), SceneId(best.id), AcquisitionTime(best.datetime)]
  {
    var header := [Success(FoundMessage), SceneId(best.id), AcquisitionTime(best.datetime)];
    if CloudCoverKey !in best.properties then
      Raised(header, KeyError(CloudCoverKey))
    else
      var details := header + [CloudCover(best.properties[CloudCoverKey]), BoundingBox(best.bbox)];
      if ThumbnailRole in best.assets then
        var shown := details + [Image(best.assets[ThumbnailRole], ThumbnailCaption)];
        assert shown[5].Image?;
        Returned(shown, Some(best))
      else
        Returned(details, Some(best))
  }

  /**
   * `search_satellite_imagery` from line 37 on, given the items the catalog
   * returned: a warning and None for no items, else the chosen item presented.
   */
  function SearchImagery(items: seq<Item>): (o: Outcome)
    ensures items == [] <==> o == Returned([Warning(NoImagesMessage)], None)
    ensures o.Returned? ==> o.value == Select(items)
    ensures o.Raised? <==> items != [] && CloudCoverKey !in Select(items).value.properties
    ensures items != [] ==> o == Present(Select(items).value)
  {
    match Select(items)
    case None => Returned([Warning(NoImagesMessage)], None)
    case Some(best) => Present(best)
  }

  /**
   * The KeyError of line 53 needs a chosen item without cloud cover, which the
   * sort puts first only when no item has a key below 100.
   */
  lemma KeyErrorOnlyWhenNothingClearer(items: seq<Item>)
    requires SearchImagery(items).Raised?
    ensures forall j :: 0 <= j < |items| ==> CloudKey(items[j]) >= MissingCloudCover
  {
  }

  /** The thumbnail is shown exactly when the search returns an item that has one. */
  lemma ImageOnlyWithThumbnail(items: seq<Item>)
    ensures ShowsImage(SearchImagery(items).shown) <==>
              SearchImagery(items).Returned? && Select(items).Some? &&
              ThumbnailRole in Select(items).value.assets
  {
  }

  function Scene(id: string, cover: Option<real>): (item: Item) {
    Item(id, "", [], if cover.Some? then map[CloudCoverKey := cover.value] else map[], map[])
  }

  /** Covers 23.4, 5.0 and none: the 5.0 scene wins, the one without cover ranks as 100. */
  lemma ClearestSceneWins()
    ensures Select([Scene("X", Some(23.4)), Scene("Y", Some(5.0)), Scene("Z", None)]) ==
              Some(Scene("Y", Some(5.0)))
  {
  }

  /** Two scenes tied at 5.0 are chosen in whichever order the catalog lists them. */
  lemma TieGoesToCatalogOrder()
    ensures Select([Scene("A", Some(5.0)), Scene("B", Some(5.0))]) == Some(Scene("A", Some(5.0)))
    ensures Select([Scene("B", Some(5.0)), Scene("A", Some(5.0))]) == Some(Scene("B", Some(5.0)))
  {
  }
}
