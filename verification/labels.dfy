/** `getLabel`, shared by the statistics and details dialogs: the display
    label of an option value, with the raw value and then `N/A` as fallbacks. */
module Labels {
  import opened Wrappers

  datatype LabelEntry = LabelEntry(value: string, labelText: string)

  /** `list.find(item => item.value === value)`: the first entry with that
      value; an absent value matches nothing. */
  function Find(list: seq<LabelEntry>, value: Option<string>): (r: Option<nat>)
    ensures r.Some? ==> r.value < |list| && value.Some? && list[r.value].value == value.value
    ensures r.Some? ==> forall j :: 0 <= j < r.value ==> list[j].value != value.value
    ensures r.None? ==> value.None? || forall j :: 0 <= j < |list| ==> list[j].value != value.value
  {
    if value.None? || list == [] then None
    else if list[0].value == value.value then Some(0)
    else
      match Find(list[1..], value)
      case Some(i) => Some(i + 1)
      case None => None
  }

  /** The first matching entry's label when it is non-empty, else the value
      itself when non-empty, else `N/A`. */
  function GetLabel(list: seq<LabelEntry>, value: Option<string>): (r: string)
    ensures r != ""
    ensures Find(list, value).Some? && list[Find(list, value).value].labelText != "" ==>
      r == list[Find(list, value).value].labelText
    ensures (Find(list, value).None? || list[Find(list, value).value].labelText == "") ==>
      r == if value.Some? && value.value != "" then value.value else "N/A"
  {
    var found := Find(list, value);
    if found.Some? && list[found.value].labelText != "" then list[found.value].labelText
    else if value.Some? && value.value != "" then value.value
    else "N/A"
  }

  /** A listed value with a non-empty label shows that label; an unlisted
      non-empty value shows itself. */
  lemma {:induction false} LabelOfListed(list: seq<LabelEntry>, i: nat, v: string)
    requires i < |list| && list[i].value == v && list[i].labelText != ""
    requires forall j :: 0 <= j < i ==> list[j].value != v
    ensures GetLabel(list, Some(v)) == list[i].labelText
  {
    assert Find(list, Some(v)) == Some(i);
  }

  /** In a list whose values are distinct and whose labels are non-empty,
      every listed value shows its own label. */
  lemma ListedValuesShowLabels(list: seq<LabelEntry>)
    requires forall i, j :: 0 <= i < j < |list| ==> list[i].value != list[j].value
    requires forall i :: 0 <= i < |list| ==> list[i].labelText != ""
    ensures forall i :: 0 <= i < |list| ==> GetLabel(list, Some(list[i].value)) == list[i].labelText
  {
    forall i | 0 <= i < |list| ensures GetLabel(list, Some(list[i].value)) == list[i].labelText {
      LabelOfListed(list, i, list[i].value);
    }
  }
}
