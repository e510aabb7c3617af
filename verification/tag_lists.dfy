/** Tag-list rules shared by the generation form and the details dialog. */
module TagLists {

  /** `tags.filter(tag => tag !== x)`. */
  function RemoveTag(tags: seq<string>, x: string): (r: seq<string>)
    ensures forall t :: t in r <==> t in tags && t != x
    ensures |r| <= |tags|
  {
    if tags == [] then []
    else if tags[0] == x then RemoveTag(tags[1..], x)
    else [tags[0]] + RemoveTag(tags[1..], x)
  }

  /** Every copy of `x` goes and every other tag keeps its number of copies. */
  lemma {:induction false} RemoveTagCounts(tags: seq<string>, x: string)
    ensures multiset(RemoveTag(tags, x)) == multiset(tags)[x := 0]
  {
    if tags != [] {
      RemoveTagCounts(tags[1..], x);
      assert tags == [tags[0]] + tags[1..];
      assert multiset(tags) == multiset{tags[0]} + multiset(tags[1..]);
    }
  }

  /** Removal works piecewise, so the tags that stay keep their order. */
  lemma {:induction false} RemoveTagConcat(a: seq<string>, b: seq<string>, x: string)
    ensures RemoveTag(a + b, x) == RemoveTag(a, x) + RemoveTag(b, x)
  {
    if a != [] {
      assert (a + b)[0] == a[0];
      assert (a + b)[1..] == a[1..] + b;
      RemoveTagConcat(a[1..], b, x);
    } else {
      assert a + b == b;
    }
  }

  /** Removing a tag that is not there changes nothing. */
  lemma {:induction false} RemoveAbsentTag(tags: seq<string>, x: string)
    requires x !in tags
    ensures RemoveTag(tags, x) == tags
  {
    if tags != [] {
      RemoveAbsentTag(tags[1..], x);
      assert tags == [tags[0]] + tags[1..];
    }
  }

  /** No tag appears twice (exact comparison). */
  ghost predicate NoDuplicates(tags: seq<string>) {
    forall i, j :: 0 <= i < j < |tags| ==> tags[i] != tags[j]
  }

  /** Removal keeps a list without repeats free of repeats. */
  lemma {:induction false} RemoveTagKeepsNoDuplicates(tags: seq<string>, x: string)
    requires NoDuplicates(tags)
    ensures NoDuplicates(RemoveTag(tags, x))
  {
    if tags != [] {
      var rest := tags[1..];
      assert NoDuplicates(rest) by {
        forall i, j | 0 <= i < j < |rest| ensures rest[i] != rest[j] {
          assert rest[i] == tags[i + 1] && rest[j] == tags[j + 1];
        }
      }
      RemoveTagKeepsNoDuplicates(rest, x);
      if tags[0] != x {
        assert tags[0] !in rest;
        var r := RemoveTag(rest, x);
        assert tags[0] !in r;
        forall i, j | 0 <= i < j < |r| + 1 ensures ([tags[0]] + r)[i] != ([tags[0]] + r)[j] {
          if i == 0 {
            assert ([tags[0]] + r)[j] == r[j - 1];
          } else {
            assert ([tags[0]] + r)[i] == r[i - 1] && ([tags[0]] + r)[j] == r[j - 1];
          }
        }
      }
    }
  }
}
