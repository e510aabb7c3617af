/** The local image store: the `generatedImages` table keyed by `id`, with
    the add, get, update, delete, toggle-favourite and clear operations.
    A store is a finite map from id to record; every operation is a function
    from the store before to the store after and what the call answers. */
module ImageStore {
  import opened Wrappers
  import opened Records

  type Store = map<string, ImageRecord>

  /** Every record sits under its own primary key. */
  ghost predicate WellKeyed(s: Store) {
    forall k :: k in s ==> s[k].id == k
  }

  /** What the database throws; only the primary-key violation is distinguished. */
  datatype StoreError = ConstraintError

  /** The store after a call and what the call returned or threw. */
  datatype Written<T> = Written(store: Store, outcome: Result<T, StoreError>)

  /** `addGeneratedImage`: inserts the record under its id and returns the id;
      an id already present violates the primary key and changes nothing. */
  function AddGeneratedImage(s: Store, rec: ImageRecord): (w: Written<string>)
    ensures rec.id in s ==> w == Written(s, Failure(ConstraintError))
    ensures rec.id !in s ==>
      && w.outcome == Success(rec.id)
      && w.store.Keys == s.Keys + {rec.id}
      && w.store[rec.id] == rec
      && (forall k :: k in s ==> w.store[k] == s[k])
    ensures WellKeyed(s) ==> WellKeyed(w.store)
  {
    if rec.id in s then Written(s, Failure(ConstraintError))
    else Written(s[rec.id := rec], Success(rec.id))
  }

  /** `getGeneratedImageById`: the stored record, or `None` for an absent id. */
  function GetGeneratedImageById(s: Store, id: string): (r: Option<ImageRecord>)
    ensures r.Some? <==> id in s
    ensures r.Some? ==> r.value == s[id]
  {
    if id in s then Some(s[id]) else None
  }

  /** The change set the update writes: the caller's changes with `updatedAt`
      overridden by the time of the write. */
  function StampedChanges(changes: Changes, now: Timestamp): (c: Changes)
    ensures c.updatedAt == Some(now)
  {
    Spread(changes, NoChanges.(updatedAt := Some(now)))
  }

  /** `updateGeneratedImage`: merges `changes` into the record with the given
      id, stamping `updatedAt` with `now`, and answers 1; for an absent id it
      answers 0 and changes nothing. */
  function UpdateGeneratedImage(s: Store, id: string, changes: Changes, now: Timestamp): (w: Written<nat>)
    ensures id !in s ==> w == Written(s, Success(0))
    ensures id in s ==>
      && w.outcome == Success(1)
      && w.store.Keys == s.Keys
      && w.store[id] == Merge(s[id], changes).(updatedAt := now)
      && (forall k :: k in s && k != id ==> w.store[k] == s[k])
    ensures WellKeyed(s) ==> WellKeyed(w.store)
  {
    if id in s then Written(s[id := Merge(s[id], StampedChanges(changes, now))], Success(1))
    else Written(s, Success(0))
  }

  /** Whatever `updatedAt` the caller supplies, the stored one is the write time. */
  lemma UpdateOverridesUpdatedAt(s: Store, id: string, changes: Changes, now: Timestamp)
    requires id in s
    ensures UpdateGeneratedImage(s, id, changes, now).store[id].updatedAt == now
  {
  }

  /** Fields the change set leaves out keep their stored value. */
  lemma UpdateKeepsOmittedFields(s: Store, id: string, changes: Changes, now: Timestamp)
    requires id in s
    ensures var r := UpdateGeneratedImage(s, id, changes, now).store[id];
      && (changes.prompt.None? ==> r.prompt == s[id].prompt)
      && (changes.tags.None? ==> r.tags == s[id].tags)
      && (changes.collections.None? ==> r.collections == s[id].collections)
      && (changes.isFavorite.None? ==> r.isFavorite == s[id].isFavorite)
      && (changes.imageData.None? ==> r.imageData == s[id].imageData)
      && (changes.createdAt.None? ==> r.createdAt == s[id].createdAt)
      && (changes.width.None? ==> r.width == s[id].width)
      && (changes.height.None? ==> r.height == s[id].height)
      && (changes.modelUsed.None? ==> r.modelUsed == s[id].modelUsed)
      && (changes.originalUrl.None? ==> r.originalUrl == s[id].originalUrl)
      && (changes.artisticStyle.None? ==> r.artisticStyle == s[id].artisticStyle)
      && (changes.aspectRatio.None? ==> r.aspectRatio == s[id].aspectRatio)
      && (changes.imageQuality.None? ==> r.imageQuality == s[id].imageQuality)
  {
  }

  /** `deleteGeneratedImage`: removes the id if present; an absent id is no error. */
  function DeleteGeneratedImage(s: Store, id: string): (w: Written<()>)
    ensures w.outcome.Success?
    ensures w.store.Keys == s.Keys - {id}
    ensures forall k :: k in w.store ==> w.store[k] == s[k]
    ensures WellKeyed(s) ==> WellKeyed(w.store)
  {
    Written(s - {id}, Success(()))
  }

  /** After a delete the id is gone, and deleting again changes nothing. */
  lemma DeleteThenGet(s: Store, id: string)
    ensures GetGeneratedImageById(DeleteGeneratedImage(s, id).store, id) == None
    ensures var s' := DeleteGeneratedImage(s, id).store;
      DeleteGeneratedImage(s', id).store == s'
  {
  }

  /** `toggleFavoriteStatus`: reads the record and writes the negated flag
      through the update; an absent id answers 0 and changes nothing. */
  function ToggleFavoriteStatus(s: Store, id: string, now: Timestamp): (w: Written<nat>)
    ensures id !in s ==> w == Written(s, Success(0))
    ensures id in s ==>
      && w.outcome == Success(1)
      && w.store.Keys == s.Keys
      && w.store[id] == s[id].(isFavorite := !s[id].isFavorite, updatedAt := now)
      && (forall k :: k in s && k != id ==> w.store[k] == s[k])
    ensures WellKeyed(s) ==> WellKeyed(w.store)
  {
    match GetGeneratedImageById(s, id)
    case Some(image) => UpdateGeneratedImage(s, id, NoChanges.(isFavorite := Some(!image.isFavorite)), now)
    case None => Written(s, Success(0))
  }

  /** Toggling twice restores the flag; the record differs from the original
      only in the `updatedAt` of the second write. */
  lemma ToggleTwice(s: Store, id: string, t1: Timestamp, t2: Timestamp)
    ensures var s2 := ToggleFavoriteStatus(ToggleFavoriteStatus(s, id, t1).store, id, t2).store;
      && s2.Keys == s.Keys
      && (id in s ==> s2[id] == s[id].(updatedAt := t2))
      && (forall k :: k in s && k != id ==> s2[k] == s[k])
  {
  }

  /** `clearAllImages`: the store afterwards holds no record. */
  function ClearAllImages(s: Store): (w: Written<()>)
    ensures w.outcome.Success?
    ensures |w.store| == 0
  {
    Written(map[], Success(()))
  }
}
