/** The frequency charts of the statistics dialog: occurrences are counted
    in a dictionary, listed, sorted by count (largest first) and cut to the
    top 15. */
module Statistics {
  import opened Wrappers

  datatype CountData = CountData(name: string, count: nat)

  const TopLimit := 15

  /** The `counts` dictionary after counting every element of `xs`. */
  function CountMap(xs: seq<string>): (m: map<string, nat>)
    ensures forall n :: n in m <==> n in xs
    ensures forall n :: n in m ==> m[n] == multiset(xs)[n]
  {
    if xs == [] then map[]
    else
      var init := xs[..|xs| - 1];
      var x := xs[|xs| - 1];
      assert xs == init + [x];
      var m := CountMap(init);
      m[x := (if x in m then m[x] else 0) + 1]
  }

  /** The distinct elements of `xs` in order of first occurrence, the order
      in which the dictionary receives its keys. */
  function Distinct(xs: seq<string>): (d: seq<string>)
    ensures forall n :: n in d <==> n in xs
    ensures forall i, j :: 0 <= i < j < |d| ==> d[i] != d[j]
  {
    if xs == [] then []
    else
      var init := xs[..|xs| - 1];
      var x := xs[|xs| - 1];
      assert xs == init + [x];
      var d := Distinct(init);
      if x in d then d else d + [x]
  }

  ghost predicate NamesDistinct(es: seq<CountData>) {
    forall i, j :: 0 <= i < j < |es| ==> es[i].name != es[j].name
  }

  ghost predicate CountDescending(es: seq<CountData>) {
    forall i, j :: 0 <= i < j < |es| ==> es[i].count >= es[j].count
  }

  /** Inserts `e` before the first entry whose count is not larger. */
  function InsertByCount(e: CountData, t: seq<CountData>): (r: seq<CountData>)
    ensures |r| == |t| + 1
    ensures forall y :: y in r <==> y == e || y in t
  {
    if t == [] || t[0].count <= e.count then [e] + t
    else [t[0]] + InsertByCount(e, t[1..])
  }

  /** Putting an entry in front of a ranked list whose every entry it
      outranks and differs from in name keeps the list ranked. */
  lemma ConsKeeps(x: CountData, rest: seq<CountData>)
    requires CountDescending(rest) && NamesDistinct(rest)
    requires forall y :: y in rest ==> x.count >= y.count && x.name != y.name
    ensures CountDescending([x] + rest) && NamesDistinct([x] + rest)
  {
    var r := [x] + rest;
    forall i, j | 0 <= i < j < |r| ensures r[i].count >= r[j].count && r[i].name != r[j].name {
      assert r[j] == rest[j - 1];
      if i > 0 {
        assert r[i] == rest[i - 1];
      }
    }
  }

  lemma TailKeeps(t: seq<CountData>)
    requires CountDescending(t) && NamesDistinct(t) && t != []
    ensures CountDescending(t[1..]) && NamesDistinct(t[1..])
    ensures forall y :: y in t[1..] ==> t[0].count >= y.count && t[0].name != y.name
  {
    forall y | y in t[1..] ensures t[0].count >= y.count && t[0].name != y.name {
      var k :| 0 <= k < |t[1..]| && t[1..][k] == y;
      assert y == t[k + 1];
    }
  }

  lemma {:induction false} InsertByCountKeeps(e: CountData, t: seq<CountData>)
    requires CountDescending(t) && NamesDistinct(t)
    requires forall y :: y in t ==> y.name != e.name
    ensures CountDescending(InsertByCount(e, t)) && NamesDistinct(InsertByCount(e, t))
  {
    if t == [] || t[0].count <= e.count {
      forall y | y in t ensures e.count >= y.count && e.name != y.name {
        var k :| 0 <= k < |t| && t[k] == y;
        if k > 0 {
          assert t[0].count >= t[k].count;
        }
      }
      ConsKeeps(e, t);
    } else {
      TailKeeps(t);
      InsertByCountKeeps(e, t[1..]);
      ConsKeeps(t[0], InsertByCount(e, t[1..]));
    }
  }

  /** The comparator `b.count - a.count`: a stable sort, largest count first. */
  function SortByCount(es: seq<CountData>): (r: seq<CountData>)
    ensures |r| == |es|
    ensures forall y :: y in r <==> y in es
  {
    if es == [] then [] else InsertByCount(es[0], SortByCount(es[1..]))
  }

  lemma {:induction false} SortByCountKeeps(es: seq<CountData>)
    requires NamesDistinct(es)
    ensures CountDescending(SortByCount(es)) && NamesDistinct(SortByCount(es))
  {
    if es != [] {
      SortByCountKeeps(es[1..]);
      forall y | y in SortByCount(es[1..]) ensures y.name != es[0].name {
        var k :| 0 <= k < |es[1..]| && es[1..][k] == y;
        assert y == es[k + 1];
      }
      InsertByCountKeeps(es[0], SortByCount(es[1..]));
    }
  }

  /** The names of `es` leave out `n`. */
  predicate Omits(es: seq<CountData>, n: string) {
    forall i :: 0 <= i < |es| ==> es[i].name != n
  }

  /** `Object.entries(counts)`: one entry per distinct name with its count. */
  function Entries(xs: seq<string>): (es: seq<CountData>)
    ensures NamesDistinct(es)
    ensures forall i :: 0 <= i < |es| ==> es[i].name in xs && es[i].count == multiset(xs)[es[i].name]
    ensures forall n :: n in xs ==> exists i :: 0 <= i < |es| && es[i].name == n
  {
    var counts := CountMap(xs);
    var names := Distinct(xs);
    var es := seq(|names|, i requires 0 <= i < |names| => CountData(names[i], counts[names[i]]));
    assert forall n :: n in xs ==> exists i :: 0 <= i < |names| && names[i] == n && es[i].name == n;
    es
  }

  /** `.slice(0, k)` of a count-descending list: what it leaves out counts at
      most as much as the last entry it keeps. */
  function Cut(sorted: seq<CountData>, k: nat): (r: seq<CountData>)
    requires CountDescending(sorted) && NamesDistinct(sorted) && k > 0
    ensures |r| <= k
    ensures CountDescending(r) && NamesDistinct(r)
    ensures forall i :: 0 <= i < |r| ==> r[i] in sorted
    ensures forall e :: e in sorted && Omits(r, e.name) ==> |r| == k && e.count <= r[k - 1].count
  {
    if |sorted| <= k then
      assert forall e :: e in sorted ==> !Omits(sorted, e.name);
      sorted
    else
      var r := sorted[..k];
      assert forall e :: e in sorted && Omits(r, e.name) ==> e.count <= r[k - 1].count by {
        forall e | e in sorted && Omits(r, e.name) ensures e.count <= r[k - 1].count {
          var p :| 0 <= p < |sorted| && sorted[p] == e;
          assert p >= k;
        }
      }
      r
  }

  /** What the top-15 cut of the sorted entries says about the counted list. */
  lemma TopCutFacts(xs: seq<string>, es: seq<CountData>, r: seq<CountData>)
    requires es == Entries(xs)
    requires CountDescending(SortByCount(es)) && NamesDistinct(SortByCount(es))
    requires r == Cut(SortByCount(es), TopLimit)
    ensures forall i :: 0 <= i < |r| ==> r[i].name in xs && r[i].count == multiset(xs)[r[i].name]
    ensures forall n :: n in xs && Omits(r, n) ==> |r| == TopLimit && multiset(xs)[n] <= r[TopLimit - 1].count
  {
    var sorted := SortByCount(es);
    forall i | 0 <= i < |r| ensures r[i].name in xs && r[i].count == multiset(xs)[r[i].name] {
      assert r[i] in es;
    }
    forall n | n in xs && Omits(r, n) ensures |r| == TopLimit && multiset(xs)[n] <= r[TopLimit - 1].count {
      var i :| 0 <= i < |es| && es[i].name == n;
      assert es[i] in sorted;
    }
  }

  /** Count, list, sort and keep the top 15: the shared core of both chart functions. */
  function TopCounts(xs: seq<string>): (r: seq<CountData>)
    ensures |r| <= TopLimit
    ensures CountDescending(r)
    ensures NamesDistinct(r)
    ensures forall i :: 0 <= i < |r| ==> r[i].name in xs && r[i].count == multiset(xs)[r[i].name]
    ensures forall n :: n in xs && Omits(r, n) ==> |r| == TopLimit && multiset(xs)[n] <= r[TopLimit - 1].count
  {
    var es := Entries(xs);
    SortByCountKeeps(es);
    var r := Cut(SortByCount(es), TopLimit);
    TopCutFacts(xs, es, r);
    r
  }

  /** The tag or collection lists concatenated, an undefined list skipped. */
  function Flatten(items: seq<Option<seq<string>>>): seq<string> {
    if items == [] then []
    else (if items[0].Some? then items[0].value else []) + Flatten(items[1..])
  }

  /** How often `n` occurs across the lists, counting repeats inside one list. */
  function Occurrences(items: seq<Option<seq<string>>>, n: string): nat {
    if items == [] then 0
    else (if items[0].Some? then multiset(items[0].value)[n] else 0) + Occurrences(items[1..], n)
  }

  lemma {:induction false} FlattenCounts(items: seq<Option<seq<string>>>, n: string)
    ensures multiset(Flatten(items))[n] == Occurrences(items, n)
    ensures n in Flatten(items) <==> exists i :: 0 <= i < |items| && items[i].Some? && n in items[i].value
  {
    if items != [] {
      FlattenCounts(items[1..], n);
      var head := if items[0].Some? then items[0].value else [];
      assert multiset(head + Flatten(items[1..])) == multiset(head) + multiset(Flatten(items[1..]));
      if n in Flatten(items[1..]) {
        var i :| 0 <= i < |items[1..]| && items[1..][i].Some? && n in items[1..][i].value;
        assert items[i + 1] == items[1..][i];
      }
      if exists i :: 0 <= i < |items| && items[i].Some? && n in items[i].value {
        var i :| 0 <= i < |items| && items[i].Some? && n in items[i].value;
        if i > 0 {
          assert items[1..][i - 1] == items[i];
        }
      }
    }
  }

  /** `processDataForChart`: occurrence counts over all present lists, at most
      15 entries, largest first, each name from some list, and no omitted
      name more frequent than the last one shown. */
  function ProcessDataForChart(items: seq<Option<seq<string>>>): (r: seq<CountData>)
    ensures |r| <= TopLimit
    ensures CountDescending(r)
    ensures NamesDistinct(r)
    ensures forall i :: 0 <= i < |r| ==> r[i].count == Occurrences(items, r[i].name)
    ensures forall i :: 0 <= i < |r| ==> exists j :: 0 <= j < |items| && items[j].Some? && r[i].name in items[j].value
    ensures forall n :: Occurrences(items, n) > 0 && Omits(r, n) ==>
      |r| == TopLimit && Occurrences(items, n) <= r[TopLimit - 1].count
  {
    var xs := Flatten(items);
    var r := TopCounts(xs);
    forall n ensures multiset(xs)[n] == Occurrences(items, n)
      && (n in xs <==> exists j :: 0 <= j < |items| && items[j].Some? && n in items[j].value) {
      FlattenCounts(items, n);
    }
    r
  }

  /** The defined, non-empty values (`if (item)` skips `undefined` and `''`). */
  function PresentValues(items: seq<Option<string>>): (xs: seq<string>)
    ensures forall n :: n in xs <==> n != "" && Some(n) in items
    ensures forall n :: multiset(xs)[n] == if n == "" then 0 else multiset(items)[Some(n)]
  {
    if items == [] then []
    else
      var rest := PresentValues(items[1..]);
      assert items == [items[0]] + items[1..];
      if items[0].Some? && items[0].value != "" then [items[0].value] + rest else rest
  }

  /** `processObjectPropertyForChart`: the same ranking over single optional
      values, skipping undefined and empty ones. */
  function ProcessObjectPropertyForChart(items: seq<Option<string>>): (r: seq<CountData>)
    ensures |r| <= TopLimit
    ensures CountDescending(r)
    ensures NamesDistinct(r)
    ensures forall i :: 0 <= i < |r| ==> r[i].name != "" && r[i].count == multiset(items)[Some(r[i].name)]
    ensures forall n :: n != "" && Some(n) in items && Omits(r, n) ==>
      |r| == TopLimit && multiset(items)[Some(n)] <= r[TopLimit - 1].count
  {
    TopCounts(PresentValues(items))
  }
}
