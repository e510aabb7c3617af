/** Reading the store in `createdAt` order: `getAllGeneratedImages` and
    `filterImages`. Ties in `createdAt` come out in an order the model
    leaves open. */
module ImageQuery {
  import opened Wrappers
  import opened Text
  import opened Records
  import opened ImageStore

  datatype SortOrder = Asc | Desc

  /** `a` may precede `b` in a listing ordered by `createdAt`. */
  predicate Before(order: SortOrder, a: ImageRecord, b: ImageRecord) {
    match order
    case Asc => a.createdAt <= b.createdAt
    case Desc => a.createdAt >= b.createdAt
  }

  ghost predicate Sorted(order: SortOrder, rs: seq<ImageRecord>) {
    forall i, j :: 0 <= i < j < |rs| ==> Before(order, rs[i], rs[j])
  }

  ghost predicate DistinctIds(rs: seq<ImageRecord>) {
    forall i, j :: 0 <= i < j < |rs| ==> rs[i].id != rs[j].id
  }

  /** `rs` lists every record of `s` exactly once. */
  ghost predicate IsListing(s: Store, rs: seq<ImageRecord>) {
    && DistinctIds(rs)
    && (forall r :: r in rs <==> r in s.Values)
  }

  /** Places `x` into a sorted listing after every record that may precede it. */
  function Insert(order: SortOrder, rs: seq<ImageRecord>, x: ImageRecord): (r: seq<ImageRecord>)
    ensures |r| == |rs| + 1
    ensures forall y :: y in r <==> y == x || y in rs
  {
    if rs == [] || Before(order, x, rs[0]) then [x] + rs
    else [rs[0]] + Insert(order, rs[1..], x)
  }

  lemma {:induction false} InsertSorted(order: SortOrder, rs: seq<ImageRecord>, x: ImageRecord)
    requires Sorted(order, rs)
    ensures Sorted(order, Insert(order, rs, x))
  {
    if rs == [] || Before(order, x, rs[0]) {
    } else {
      InsertSorted(order, rs[1..], x);
      var t := Insert(order, rs[1..], x);
      assert Before(order, rs[0], x);
      forall y | y in t ensures Before(order, rs[0], y) {
        if y != x {
          var k :| 0 <= k < |rs[1..]| && rs[1..][k] == y;
          assert y == rs[k + 1];
        }
      }
    }
  }

  lemma {:induction false} InsertDistinct(order: SortOrder, rs: seq<ImageRecord>, x: ImageRecord)
    requires DistinctIds(rs)
    requires forall y :: y in rs ==> y.id != x.id
    ensures DistinctIds(Insert(order, rs, x))
  {
    if rs == [] || Before(order, x, rs[0]) {
    } else {
      InsertDistinct(order, rs[1..], x);
      var t := Insert(order, rs[1..], x);
      forall y | y in t ensures rs[0].id != y.id {
        if y != x {
          var k :| 0 <= k < |rs[1..]| && rs[1..][k] == y;
          assert y == rs[k + 1];
        }
      }
    }
  }

  /** The ordered scan `orderBy('createdAt')`, reversed for `Desc`. */
  method OrderedScan(s: Store, order: SortOrder) returns (rs: seq<ImageRecord>)
    requires WellKeyed(s)
    ensures IsListing(s, rs)
    ensures Sorted(order, rs)
  {
    var keys := s.Keys;
    rs := [];
    while keys != {}
      invariant keys <= s.Keys
      invariant Sorted(order, rs)
      invariant DistinctIds(rs)
      invariant forall r :: r in rs ==> r.id in s.Keys - keys && s[r.id] == r
      invariant forall k :: k in s.Keys - keys ==> s[k] in rs
      decreases keys
    {
      var k :| k in keys;
      InsertSorted(order, rs, s[k]);
      InsertDistinct(order, rs, s[k]);
      rs := Insert(order, rs, s[k]);
      keys := keys - {k};
    }
  }

  /** `getAllGeneratedImages` ordered by `createdAt` (the default key). */
  method GetAllGeneratedImages(s: Store, order: SortOrder) returns (rs: seq<ImageRecord>)
    requires WellKeyed(s)
    ensures IsListing(s, rs)
    ensures Sorted(order, rs)
  {
    rs := OrderedScan(s, order);
  }

  /** The options `filterImages` accepts; `None` means the key is absent. */
  datatype FilterOptions = FilterOptions(searchTerm: Option<string>, tags: Option<seq<string>>, isFavorite: Option<bool>)

  const NoFilters := FilterOptions(None, None, None)

  /** When the flag is given, only records with exactly that flag pass. */
  predicate FavoriteMatches(o: FilterOptions, r: ImageRecord) {
    o.isFavorite.Some? ==> r.isFavorite == o.isFavorite.value
  }

  /** The search applies when the term is present and not blank after trimming. */
  predicate SearchActive(o: FilterOptions) {
    o.searchTerm.Some? && o.searchTerm.value != "" && Trim(o.searchTerm.value) != ""
  }

  /** The lower-cased (untrimmed) term occurs in the lower-cased prompt or in some lower-cased tag. */
  predicate SearchMatches(o: FilterOptions, r: ImageRecord) {
    SearchActive(o) ==>
      var needle := Lower(o.searchTerm.value);
      Contains(Lower(r.prompt), needle) || exists i :: 0 <= i < |r.tags| && Contains(Lower(r.tags[i]), needle)
  }

  /** A non-empty tag list requires every listed tag verbatim in the record's tags. */
  predicate TagsMatch(o: FilterOptions, r: ImageRecord) {
    (o.tags.Some? && |o.tags.value| > 0) ==> forall t :: t in o.tags.value ==> t in r.tags
  }

  predicate Matches(o: FilterOptions, r: ImageRecord) {
    FavoriteMatches(o, r) && SearchMatches(o, r) && TagsMatch(o, r)
  }

  /** The records of a listing that satisfy every active predicate, in listing order. */
  function Keep(o: FilterOptions, rs: seq<ImageRecord>): (r: seq<ImageRecord>)
    ensures forall x :: x in r <==> x in rs && Matches(o, x)
    ensures |r| <= |rs|
  {
    if rs == [] then []
    else if Matches(o, rs[0]) then [rs[0]] + Keep(o, rs[1..])
    else Keep(o, rs[1..])
  }

  lemma {:induction false} KeepSortedDistinct(order: SortOrder, o: FilterOptions, rs: seq<ImageRecord>)
    requires Sorted(order, rs) && DistinctIds(rs)
    ensures Sorted(order, Keep(o, rs)) && DistinctIds(Keep(o, rs))
  {
    if rs != [] {
      KeepSortedDistinct(order, o, rs[1..]);
      var t := Keep(o, rs[1..]);
      forall y | y in t ensures Before(order, rs[0], y) && rs[0].id != y.id {
        var k :| 0 <= k < |rs[1..]| && rs[1..][k] == y;
        assert y == rs[k + 1];
      }
    }
  }

  /** `filterImages`: exactly the stored records that pass every active
      predicate, newest first; the store is only read. */
  method FilterImages(s: Store, o: FilterOptions) returns (rs: seq<ImageRecord>)
    requires WellKeyed(s)
    ensures forall r :: r in rs <==> r in s.Values && Matches(o, r)
    ensures DistinctIds(rs)
    ensures Sorted(Desc, rs)
  {
    var all := OrderedScan(s, Desc);
    KeepSortedDistinct(Desc, o, all);
    rs := Keep(o, all);
  }

  /** An absent or blank term constrains nothing. */
  lemma {:induction false} BlankSearchMatchesAll(o: FilterOptions, r: ImageRecord)
    requires o.searchTerm.Some? ==> forall k :: 0 <= k < |o.searchTerm.value| ==> IsWhitespace(o.searchTerm.value[k])
    ensures SearchMatches(o, r)
  {
    if o.searchTerm.Some? {
      TrimEmptyIffBlank(o.searchTerm.value);
    }
  }

  /** The search never looks at `collections`. */
  lemma SearchIgnoresCollections(o: FilterOptions, r: ImageRecord, c: Option<seq<string>>)
    ensures Matches(o, r.(collections := c)) <==> Matches(o, r)
  {
  }

  /** A flag of `false` keeps exactly the non-favourites. */
  lemma FalseFlagKeepsNonFavorites(o: FilterOptions, r: ImageRecord)
    requires o.isFavorite == Some(false)
    requires Matches(o, r)
    ensures !r.isFavorite
  {
  }

  /** With no options, every record passes. */
  lemma NoFiltersMatchAll(r: ImageRecord)
    ensures Matches(NoFilters, r)
  {
  }
}
