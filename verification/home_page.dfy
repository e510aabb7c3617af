/** The home page's in-memory list of images and how it follows the store:
    optimistic rewrites after a favourite toggle or a tag update, clearing
    the history, and reloading on a filter change. `storeOk` says whether
    the awaited store call returned or threw. */
module HomePage {
  import opened Wrappers
  import opened Text
  import opened Records
  import opened ImageStore
  import opened ImageQuery
  import opened FilterControls

  /** `images.map(img => img.id === id ? f(img) : img)`. */
  function ReplaceById(images: seq<ImageRecord>, id: string, f: ImageRecord -> ImageRecord): (r: seq<ImageRecord>)
    ensures |r| == |images|
    ensures forall i :: 0 <= i < |images| ==> r[i] == if images[i].id == id then f(images[i]) else images[i]
  {
    if images == [] then []
    else [if images[0].id == id then f(images[0]) else images[0]] + ReplaceById(images[1..], id, f)
  }

  /** The list entry for `id` with its flag flipped and `updatedAt` set. */
  function ToggleFavoriteInList(images: seq<ImageRecord>, id: string, now: Timestamp): (r: seq<ImageRecord>)
    ensures |r| == |images|
    ensures forall i :: 0 <= i < |images| && images[i].id != id ==> r[i] == images[i]
    ensures forall i :: 0 <= i < |images| && images[i].id == id ==>
      r[i] == images[i].(isFavorite := !images[i].isFavorite, updatedAt := now)
  {
    ReplaceById(images, id, (img: ImageRecord) => img.(isFavorite := !img.isFavorite, updatedAt := now))
  }

  /** The list entry for `id` with the new tags and `updatedAt` set. */
  function UpdateTagsInList(images: seq<ImageRecord>, id: string, newTags: seq<string>, now: Timestamp): (r: seq<ImageRecord>)
    ensures |r| == |images|
    ensures forall i :: 0 <= i < |images| && images[i].id != id ==> r[i] == images[i]
    ensures forall i :: 0 <= i < |images| && images[i].id == id ==>
      r[i] == images[i].(tags := newTags, updatedAt := now)
  {
    ReplaceById(images, id, (img: ImageRecord) => img.(tags := newTags, updatedAt := now))
  }

  /** `handleToggleFavorite`: rewrite the list only when the store call returned. */
  function HandleToggleFavorite(images: seq<ImageRecord>, id: string, storeOk: bool, now: Timestamp): (r: seq<ImageRecord>)
    ensures !storeOk ==> r == images
    ensures storeOk ==> r == ToggleFavoriteInList(images, id, now)
  {
    if storeOk then ToggleFavoriteInList(images, id, now) else images
  }

  /** `handleUpdateTags`: rewrite the list only when the store call returned. */
  function HandleUpdateTags(images: seq<ImageRecord>, id: string, newTags: seq<string>, storeOk: bool, now: Timestamp): (r: seq<ImageRecord>)
    ensures !storeOk ==> r == images
    ensures storeOk ==> r == UpdateTagsInList(images, id, newTags, now)
  {
    if storeOk then UpdateTagsInList(images, id, newTags, now) else images
  }

  /** `handleClearHistory`: empty the list only when the store call returned. */
  function HandleClearHistory(images: seq<ImageRecord>, storeOk: bool): (r: seq<ImageRecord>)
    ensures storeOk ==> r == []
    ensures !storeOk ==> r == images
  {
    if storeOk then [] else images
  }

  /** The store after rewriting the record at `id` with `f` (when present). */
  ghost predicate RewrittenAt(s: Store, s': Store, id: string, f: ImageRecord -> ImageRecord) {
    && s'.Keys == s.Keys
    && (id in s ==> s'[id] == f(s[id]))
    && (forall k :: k in s && k != id ==> s'[k] == s[k])
  }

  /** `images` holds, once each, exactly the stored records that pass `o`:
      what a reload with those options shows, up to the order of ties. */
  ghost predicate ListsMatching(s: Store, o: FilterOptions, images: seq<ImageRecord>) {
    && DistinctIds(images)
    && (forall x :: x in images <==> x in s.Values && Matches(o, x))
  }

  lemma ReplaceListsMatching(s: Store, s': Store, images: seq<ImageRecord>, id: string,
                             f: ImageRecord -> ImageRecord, o: FilterOptions)
    requires WellKeyed(s) && ListsMatching(s, o, images) && RewrittenAt(s, s', id, f)
    requires forall x :: Matches(o, f(x)) <==> Matches(o, x)
    ensures forall x :: x in ReplaceById(images, id, f) <==> x in s'.Values && Matches(o, x)
  {
    var r := ReplaceById(images, id, f);
    forall x | x in r ensures x in s'.Values && Matches(o, x) {
      var i :| 0 <= i < |r| && r[i] == x;
      assert images[i] in s.Values && Matches(o, images[i]);
      assert s[images[i].id] == images[i];
    }
    forall v | v in s'.Values && Matches(o, v) ensures v in r {
      var k :| k in s' && s'[k] == v;
      assert Matches(o, s[k]);
      assert s[k] in images;
      var i :| 0 <= i < |images| && images[i] == s[k];
      assert r[i] == v;
    }
  }

  lemma ReplaceKeepsOrder(images: seq<ImageRecord>, id: string, f: ImageRecord -> ImageRecord)
    requires forall x :: f(x).id == x.id && f(x).createdAt == x.createdAt
    requires DistinctIds(images) && Sorted(Desc, images)
    ensures DistinctIds(ReplaceById(images, id, f)) && Sorted(Desc, ReplaceById(images, id, f))
  {
    var r := ReplaceById(images, id, f);
    assert forall i :: 0 <= i < |r| ==> r[i].id == images[i].id && r[i].createdAt == images[i].createdAt;
  }

  /** Under filters without a favourite flag, the optimistic rewrite after a
      toggle (same clock reading) shows exactly what a reload would show, in
      the same order. The unfiltered list is the case of no filters at all. */
  lemma ToggleKeepsFilteredListing(s: Store, images: seq<ImageRecord>, id: string, now: Timestamp, filters: PageFilters)
    requires WellKeyed(s) && filters.isFavorite.None?
    requires ListsMatching(s, QueryOptions(filters), images) && Sorted(Desc, images)
    ensures var s' := ToggleFavoriteStatus(s, id, now).store;
      var r := HandleToggleFavorite(images, id, true, now);
      ListsMatching(s', QueryOptions(filters), r) && Sorted(Desc, r)
  {
    var f := (img: ImageRecord) => img.(isFavorite := !img.isFavorite, updatedAt := now);
    var s' := ToggleFavoriteStatus(s, id, now).store;
    assert RewrittenAt(s, s', id, f);
    ReplaceListsMatching(s, s', images, id, f, QueryOptions(filters));
    ReplaceKeepsOrder(images, id, f);
  }

  /** Under filters without an active search term, the optimistic rewrite
      after a tag update (same clock reading) shows exactly what a reload
      would show, in the same order. */
  lemma UpdateTagsKeepsFilteredListing(s: Store, images: seq<ImageRecord>, id: string, newTags: seq<string>,
                                       now: Timestamp, filters: PageFilters)
    requires WellKeyed(s) && !SearchActive(QueryOptions(filters))
    requires ListsMatching(s, QueryOptions(filters), images) && Sorted(Desc, images)
    ensures var s' := UpdateGeneratedImage(s, id, NoChanges.(tags := Some(newTags)), now).store;
      var r := HandleUpdateTags(images, id, newTags, true, now);
      ListsMatching(s', QueryOptions(filters), r) && Sorted(Desc, r)
  {
    var f := (img: ImageRecord) => img.(tags := newTags, updatedAt := now);
    var s' := UpdateGeneratedImage(s, id, NoChanges.(tags := Some(newTags)), now).store;
    assert RewrittenAt(s, s', id, f);
    ReplaceListsMatching(s, s', images, id, f, QueryOptions(filters));
    ReplaceKeepsOrder(images, id, f);
  }

  /** As written, under a favourite flag the toggled entry stays in the list
      although a reload with the same filters leaves it out: with
      "favourites only" on, an image just unmarked keeps being shown. */
  lemma ToggleUnderFlagKeepsWhatReloadDrops(s: Store, images: seq<ImageRecord>, id: string, now: Timestamp,
                                            filters: PageFilters, i: nat, reloaded: seq<ImageRecord>)
    requires filters.isFavorite.Some?
    requires i < |images| && images[i].id == id && Matches(QueryOptions(filters), images[i])
    requires forall x :: x in reloaded <==> x in ToggleFavoriteStatus(s, id, now).store.Values && Matches(QueryOptions(filters), x)
    ensures HandleToggleFavorite(images, id, true, now)[i].id == id
    ensures HandleToggleFavorite(images, id, true, now)[i] !in reloaded
  {
    var x := HandleToggleFavorite(images, id, true, now)[i];
    assert x.isFavorite != filters.isFavorite.value;
  }

  /** As written, under a search term an entry whose prompt and new tags no
      longer contain the term stays in the list, although a reload leaves it out. */
  lemma UpdateTagsUnderSearchKeepsWhatReloadDrops(s: Store, images: seq<ImageRecord>, id: string, newTags: seq<string>,
                                                  now: Timestamp, filters: PageFilters, i: nat, reloaded: seq<ImageRecord>)
    requires SearchActive(QueryOptions(filters))
    requires i < |images| && images[i].id == id
    requires !Contains(Lower(images[i].prompt), Lower(filters.searchTerm.value))
    requires forall k :: 0 <= k < |newTags| ==> !Contains(Lower(newTags[k]), Lower(filters.searchTerm.value))
    requires forall x :: x in reloaded <==>
      x in UpdateGeneratedImage(s, id, NoChanges.(tags := Some(newTags)), now).store.Values && Matches(QueryOptions(filters), x)
    ensures HandleUpdateTags(images, id, newTags, true, now)[i].id == id
    ensures HandleUpdateTags(images, id, newTags, true, now)[i] !in reloaded
  {
    var x := HandleUpdateTags(images, id, newTags, true, now)[i];
    assert x.tags == newTags && x.prompt == images[i].prompt;
    assert !SearchMatches(QueryOptions(filters), x);
  }

  /** `handleToggleFavorite` with the reload its comment mentions: after the
      store call the list is exactly the records the current filters pass. */
  method ToggleFavoriteAndReload(s: Store, id: string, now: Timestamp, filters: PageFilters)
    returns (s': Store, images: seq<ImageRecord>)
    requires WellKeyed(s)
    ensures s' == ToggleFavoriteStatus(s, id, now).store
    ensures forall x :: x in images <==> x in s'.Values && Matches(QueryOptions(filters), x)
    ensures DistinctIds(images) && Sorted(Desc, images)
  {
    s' := ToggleFavoriteStatus(s, id, now).store;
    images := FilterImages(s', QueryOptions(filters));
  }

  /** `handleUpdateTags` with the reload its comment mentions. */
  method UpdateTagsAndReload(s: Store, id: string, newTags: seq<string>, now: Timestamp, filters: PageFilters)
    returns (s': Store, images: seq<ImageRecord>)
    requires WellKeyed(s)
    ensures s' == UpdateGeneratedImage(s, id, NoChanges.(tags := Some(newTags)), now).store
    ensures forall x :: x in images <==> x in s'.Values && Matches(QueryOptions(filters), x)
    ensures DistinctIds(images) && Sorted(Desc, images)
  {
    s' := UpdateGeneratedImage(s, id, NoChanges.(tags := Some(newTags)), now).store;
    images := FilterImages(s', QueryOptions(filters));
  }

  /** After a successful clear, the empty list lists the emptied store. */
  lemma ClearKeepsListing(s: Store, images: seq<ImageRecord>)
    ensures IsListing(ClearAllImages(s).store, HandleClearHistory(images, true))
  {
    assert ClearAllImages(s).store == map[];
  }

  /** `handleFilterChange`: the reported filters replace the current ones and
      the list is reloaded with exactly those. */
  method HandleFilterChange(s: Store, filters: PageFilters) returns (current: PageFilters, images: seq<ImageRecord>)
    requires WellKeyed(s)
    ensures current == filters
    ensures forall r :: r in images <==> r in s.Values && Matches(QueryOptions(filters), r)
    ensures DistinctIds(images) && Sorted(Desc, images)
  {
    current := filters;
    images := FilterImages(s, QueryOptions(filters));
  }
}
