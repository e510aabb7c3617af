/** The one persisted entity, `GeneratedImage`, and the partial change sets
    the store's update accepts. */
module Records {
  import opened Wrappers

  /** A `Date`, as the milliseconds since the epoch it carries. */
  type Timestamp = int

  /** A browser `Blob`: its reported MIME type and its bytes. */
  datatype Blob = Blob(mimeType: string, bytes: seq<bv8>)

  /** One generated image with its metadata; `id` is the primary key. */
  datatype ImageRecord = ImageRecord(
    id: string,
    imageData: Blob,
    prompt: string,
    tags: seq<string>,
    collections: Option<seq<string>>,
    modelUsed: string,
    isFavorite: bool,
    createdAt: Timestamp,
    updatedAt: Timestamp,
    width: Option<int>,
    height: Option<int>,
    originalUrl: Option<string>,
    artisticStyle: Option<string>,
    aspectRatio: Option<string>,
    imageQuality: Option<string>)

  /** A `Partial<GeneratedImage>` without the primary key: a field that is
      `None` is not part of the change set. */
  datatype Changes = Changes(
    imageData: Option<Blob>,
    prompt: Option<string>,
    tags: Option<seq<string>>,
    collections: Option<seq<string>>,
    modelUsed: Option<string>,
    isFavorite: Option<bool>,
    createdAt: Option<Timestamp>,
    updatedAt: Option<Timestamp>,
    width: Option<int>,
    height: Option<int>,
    originalUrl: Option<string>,
    artisticStyle: Option<string>,
    aspectRatio: Option<string>,
    imageQuality: Option<string>)

  /** The empty change set `{}`. */
  const NoChanges := Changes(None, None, None, None, None, None, None, None, None, None, None, None, None, None)

  /** Right-biased union of two optional field values, as in `{...a, ...b}`. */
  function Over<T>(a: Option<T>, b: Option<T>): (r: Option<T>)
    ensures b.Some? ==> r == b
    ensures b.None? ==> r == a
  {
    if b.Some? then b else a
  }

  /** The object spread `{...a, ...b}` on two change sets: `b` wins on every field it sets. */
  function Spread(a: Changes, b: Changes): Changes {
    Changes(
      Over(a.imageData, b.imageData), Over(a.prompt, b.prompt), Over(a.tags, b.tags),
      Over(a.collections, b.collections), Over(a.modelUsed, b.modelUsed),
      Over(a.isFavorite, b.isFavorite), Over(a.createdAt, b.createdAt),
      Over(a.updatedAt, b.updatedAt), Over(a.width, b.width), Over(a.height, b.height),
      Over(a.originalUrl, b.originalUrl), Over(a.artisticStyle, b.artisticStyle),
      Over(a.aspectRatio, b.aspectRatio), Over(a.imageQuality, b.imageQuality))
  }

  /** A record with every field of `c` written over it; fields `c` leaves out keep their value. */
  function Merge(rec: ImageRecord, c: Changes): (r: ImageRecord)
    ensures r.id == rec.id
  {
    ImageRecord(
      rec.id,
      c.imageData.GetOr(rec.imageData),
      c.prompt.GetOr(rec.prompt),
      c.tags.GetOr(rec.tags),
      if c.collections.Some? then c.collections else rec.collections,
      c.modelUsed.GetOr(rec.modelUsed),
      c.isFavorite.GetOr(rec.isFavorite),
      c.createdAt.GetOr(rec.createdAt),
      c.updatedAt.GetOr(rec.updatedAt),
      if c.width.Some? then c.width else rec.width,
      if c.height.Some? then c.height else rec.height,
      if c.originalUrl.Some? then c.originalUrl else rec.originalUrl,
      if c.artisticStyle.Some? then c.artisticStyle else rec.artisticStyle,
      if c.aspectRatio.Some? then c.aspectRatio else rec.aspectRatio,
      if c.imageQuality.Some? then c.imageQuality else rec.imageQuality)
  }

  /** Merging nothing changes nothing. */
  lemma MergeNothing(rec: ImageRecord)
    ensures Merge(rec, NoChanges) == rec
  {
  }

  /** Merging two change sets one after the other is merging their spread. */
  lemma MergeSpread(rec: ImageRecord, a: Changes, b: Changes)
    ensures Merge(Merge(rec, a), b) == Merge(rec, Spread(a, b))
  {
  }
}
