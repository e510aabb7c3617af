/** The filter panel: a search term and a "favourites only" switch; every
    change reports the whole filter to the page. */
module FilterControls {
  import opened Wrappers
  import opened Records
  import opened ImageQuery

  /** The `{ searchTerm?, isFavorite? }` object the panel hands to the page;
      `None` is an absent key. */
  datatype PageFilters = PageFilters(searchTerm: Option<string>, isFavorite: Option<bool>)

  /** The page's filters before the panel has reported anything: `{}`. */
  const NoPageFilters := PageFilters(None, None)

  /** What the page passes on to `filterImages`: the same keys, no tags. */
  function QueryOptions(f: PageFilters): (o: FilterOptions)
    ensures o.searchTerm == f.searchTerm && o.isFavorite == f.isFavorite && o.tags.None?
  {
    FilterOptions(f.searchTerm, None, f.isFavorite)
  }

  datatype Controls = Controls(searchTerm: string, isFavorite: bool)

  const InitialControls := Controls("", false)

  datatype Event = SearchChanged(value: string) | FavoriteChanged(checked: bool) | SearchCleared

  /** One event: the new panel state and the filter it reports. */
  function Step(c: Controls, e: Event): (r: (Controls, PageFilters))
    ensures e.SearchChanged? ==> r.0 == c.(searchTerm := e.value)
    ensures e.FavoriteChanged? ==> r.0 == c.(isFavorite := e.checked)
    ensures e.SearchCleared? ==> r.0 == c.(searchTerm := "")
    ensures r.1 == PageFilters(Some(r.0.searchTerm), Some(r.0.isFavorite))
  {
    match e
    case SearchChanged(v) => (c.(searchTerm := v), PageFilters(Some(v), Some(c.isFavorite)))
    case FavoriteChanged(checked) => (c.(isFavorite := checked), PageFilters(Some(c.searchTerm), Some(checked)))
    case SearchCleared => (c.(searchTerm := ""), PageFilters(Some(""), Some(c.isFavorite)))
  }

  /** The filters reported over a run of events, in order. */
  function Run(c: Controls, es: seq<Event>): (fs: seq<PageFilters>)
    ensures |fs| == |es|
    decreases |es|
  {
    if es == [] then [] else [Step(c, es[0]).1] + Run(Step(c, es[0]).0, es[1..])
  }

  /** The panel state after a run of events. */
  function After(c: Controls, es: seq<Event>): (c': Controls)
    decreases |es|
  {
    if es == [] then c else After(Step(c, es[0]).0, es[1..])
  }

  /** Every reported filter carries a flag, and the last one reported
      describes the panel's state. */
  lemma {:induction false} ReportedFiltersCarryFlag(c: Controls, es: seq<Event>)
    ensures forall i :: 0 <= i < |es| ==> Run(c, es)[i].isFavorite.Some?
    ensures es != [] ==>
      Run(c, es)[|es| - 1] == PageFilters(Some(After(c, es).searchTerm), Some(After(c, es).isFavorite))
    decreases |es|
  {
    if es != [] {
      var next := Step(c, es[0]).0;
      ReportedFiltersCarryFlag(next, es[1..]);
      var fs := Run(c, es);
      assert fs == [Step(c, es[0]).1] + Run(next, es[1..]);
      forall i | 0 <= i < |es| ensures fs[i].isFavorite.Some? {
        if i > 0 {
          assert fs[i] == Run(next, es[1..])[i - 1];
        }
      }
    }
  }

  /** As written: once the switch is off and anything is reported, the
      listing drops every favourite, although the switch reads "show only
      favourites". */
  lemma SwitchOffHidesFavorites(c: Controls, e: Event, r: ImageRecord)
    requires !Step(c, e).0.isFavorite && r.isFavorite
    ensures !Matches(QueryOptions(Step(c, e).1), r)
  {
  }

  /** The report as evidently intended: the flag is sent only when the
      switch is on. */
  function StepCorrected(c: Controls, e: Event): (r: (Controls, PageFilters))
    ensures r.0 == Step(c, e).0
    ensures r.1.searchTerm == Step(c, e).1.searchTerm
    ensures r.1.isFavorite == (if r.0.isFavorite then Some(true) else None)
  {
    var (c', f) := Step(c, e);
    (c', f.(isFavorite := if c'.isFavorite then Some(true) else None))
  }

  /** With the corrected report, the switch off constrains nothing and the
      switch on keeps exactly the favourites; the term filters as before. */
  lemma CorrectedSwitchMeaning(c: Controls, e: Event, r: ImageRecord)
    ensures var (c', f) := StepCorrected(c, e);
      && (!c'.isFavorite ==> (Matches(QueryOptions(f), r) <==> SearchMatches(QueryOptions(f), r)))
      && (c'.isFavorite ==> (Matches(QueryOptions(f), r) <==> r.isFavorite && SearchMatches(QueryOptions(f), r)))
  {
  }
}
