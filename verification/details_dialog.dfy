/** The rules behind the image-details dialog: the editable tag list
    (case-insensitive add, exact remove, change detection), the option
    labels, and the resize fields. */
module ImageDetailsDialog {
  import opened Wrappers
  import opened Text
  import opened Records
  import opened Labels
  import opened TagLists
  import opened StringSort

  const ArtisticStyleLabels := [
    LabelEntry("none", "Ninguno (Por defecto)"),
    LabelEntry("Photorealistic", "Fotorrealista"),
    LabelEntry("Cartoon", "Dibujo Animado"),
    LabelEntry("Watercolor", "Acuarela"),
    LabelEntry("Oil Painting", "Pintura al Óleo"),
    LabelEntry("Pixel Art", "Pixel Art"),
    LabelEntry("Anime", "Anime"),
    LabelEntry("Cyberpunk", "Cyberpunk"),
    LabelEntry("Fantasy Art", "Arte Fantástico"),
    LabelEntry("Abstract", "Abstracto"),
    LabelEntry("Impressionistic", "Impresionista"),
    LabelEntry("Steampunk", "Steampunk"),
    LabelEntry("Vintage Photography", "Fotografía Vintage"),
    LabelEntry("Line Art", "Arte Lineal"),
    LabelEntry("3D Render", "Render 3D")]

  const AspectRatioLabels := [
    LabelEntry("1:1", "Cuadrado (1:1)"),
    LabelEntry("16:9", "Horizontal (16:9)"),
    LabelEntry("9:16", "Vertical (9:16)"),
    LabelEntry("4:3", "Paisaje (4:3)"),
    LabelEntry("3:4", "Retrato (3:4)")]

  const ImageQualityLabels := [
    LabelEntry("draft", "Borrador"),
    LabelEntry("standard", "Estándar"),
    LabelEntry("high", "Alta")]

  /** Every listed style is shown with its label. */
  lemma StyleLabelsResolve()
    ensures forall i :: 0 <= i < |ArtisticStyleLabels| ==>
      GetLabel(ArtisticStyleLabels, Some(ArtisticStyleLabels[i].value)) == ArtisticStyleLabels[i].labelText
  {
    ListedValuesShowLabels(ArtisticStyleLabels);
  }

  /** Every listed aspect ratio and quality is shown with its label. */
  lemma AspectAndQualityLabelsResolve()
    ensures forall i :: 0 <= i < |AspectRatioLabels| ==>
      GetLabel(AspectRatioLabels, Some(AspectRatioLabels[i].value)) == AspectRatioLabels[i].labelText
    ensures forall i :: 0 <= i < |ImageQualityLabels| ==>
      GetLabel(ImageQualityLabels, Some(ImageQualityLabels[i].value)) == ImageQualityLabels[i].labelText
  {
    ListedValuesShowLabels(AspectRatioLabels);
    ListedValuesShowLabels(ImageQualityLabels);
  }

  /** The dialog state the model keeps: the editable tags, the tag input, the
      favourite switch and the two resize fields. */
  datatype DialogState = DialogState(
    editableTags: seq<string>,
    tagInput: string,
    isFavoriteSwitch: bool,
    newWidth: int,
    newHeight: int)

  /** The state a closed dialog is reset to. */
  const ClosedState := DialogState([], "", false, 0, 0)

  /** A number is truthy when present and non-zero. */
  predicate Truthy(n: Option<int>) {
    n.Some? && n.value != 0
  }

  /** The resize fields on opening: the stored size when both sides are
      truthy, else 300 by 300. */
  function InitialDimensions(width: Option<int>, height: Option<int>): (d: (int, int))
    ensures Truthy(width) && Truthy(height) ==> d == (width.value, height.value)
    ensures !(Truthy(width) && Truthy(height)) ==> d == (300, 300)
    ensures d.0 != 0 && d.1 != 0
  {
    if Truthy(width) && Truthy(height) then (width.value, height.value) else (300, 300)
  }

  /** The effect of opening or closing: an open dialog showing an image loads
      its tags, flag and size (the tag input is kept); a closed one resets. */
  function OpenChange(st: DialogState, image: Option<ImageRecord>, open: bool): (r: DialogState)
    ensures open && image.Some? ==>
      && r.editableTags == image.value.tags
      && r.isFavoriteSwitch == image.value.isFavorite
      && (r.newWidth, r.newHeight) == InitialDimensions(image.value.width, image.value.height)
      && r.tagInput == st.tagInput
    ensures !open ==> r == ClosedState
    ensures open && image.None? ==> r == st
  {
    if open && image.Some? then
      var d := InitialDimensions(image.value.width, image.value.height);
      st.(editableTags := image.value.tags, isFavoriteSwitch := image.value.isFavorite, newWidth := d.0, newHeight := d.1)
    else if !open then ClosedState
    else st
  }

  /** `editableTags.map(t => t.toLowerCase())`. */
  function LowerAll(tags: seq<string>): (r: seq<string>)
    ensures |r| == |tags|
    ensures forall i :: 0 <= i < |tags| ==> r[i] == Lower(tags[i])
  {
    if tags == [] then [] else [Lower(tags[0])] + LowerAll(tags[1..])
  }

  /** No two tags are equal once lower-cased. */
  ghost predicate NoCaseDuplicates(tags: seq<string>) {
    forall i, j :: 0 <= i < j < |tags| ==> Lower(tags[i]) != Lower(tags[j])
  }

  /** `handleAddTag`: the trimmed input is appended, in its own case, when it
      is non-empty and no tag equals it ignoring case; the input is cleared
      either way. */
  function AddTag(st: DialogState): (r: DialogState)
    ensures r.tagInput == ""
    ensures r.(editableTags := st.editableTags, tagInput := st.tagInput) == st
    ensures var t := Trim(st.tagInput);
      (t != [] && forall i :: 0 <= i < |st.editableTags| ==> Lower(st.editableTags[i]) != Lower(t)) ==>
        r.editableTags == st.editableTags + [t]
    ensures var t := Trim(st.tagInput);
      !(t != [] && forall i :: 0 <= i < |st.editableTags| ==> Lower(st.editableTags[i]) != Lower(t)) ==>
        r.editableTags == st.editableTags
  {
    var newTag := Lower(Trim(st.tagInput));
    if newTag != "" && newTag !in LowerAll(st.editableTags) then
      st.(editableTags := st.editableTags + [Trim(st.tagInput)], tagInput := "")
    else
      st.(tagInput := "")
  }

  /** `handleTagInputKeyDown`: a comma or Enter adds the tag; any other key
      changes nothing. */
  function TagInputKeyDown(st: DialogState, key: string): (r: DialogState)
    ensures key == "," || key == "Enter" ==> r == AddTag(st)
    ensures key != "," && key != "Enter" ==> r == st
  {
    if key == "," || key == "Enter" then AddTag(st) else st
  }

  /** A list without case-insensitive duplicates keeps that property through an add. */
  lemma AddTagKeepsNoCaseDuplicates(st: DialogState)
    requires NoCaseDuplicates(st.editableTags)
    ensures NoCaseDuplicates(AddTag(st).editableTags)
  {
    var tags := AddTag(st).editableTags;
    if tags != st.editableTags {
      var n := |st.editableTags|;
      forall i, j | 0 <= i < j < |tags| ensures Lower(tags[i]) != Lower(tags[j]) {
        if j == n {
          assert tags[j] == Trim(st.tagInput);
          assert tags[i] == st.editableTags[i];
        } else {
          assert tags[i] == st.editableTags[i] && tags[j] == st.editableTags[j];
        }
      }
    }
  }

  /** Whatever key is pressed, the tags keep having no case-insensitive duplicates. */
  lemma KeyDownKeepsNoCaseDuplicates(st: DialogState, key: string)
    requires NoCaseDuplicates(st.editableTags)
    ensures NoCaseDuplicates(TagInputKeyDown(st, key).editableTags)
  {
    if key == "," || key == "Enter" {
      AddTagKeepsNoCaseDuplicates(st);
    }
  }

  /** `removeTag`. */
  function RemoveEditableTag(st: DialogState, x: string): (r: DialogState)
    ensures r.editableTags == RemoveTag(st.editableTags, x)
    ensures r.(editableTags := st.editableTags) == st
  {
    st.(editableTags := RemoveTag(st.editableTags, x))
  }

  /** `hasTagsChanged`: lengths differ, or the two lists differ somewhere once
      both are put in the default sort order. */
  function HasTagsChanged(original: seq<string>, editable: seq<string>): bool {
    if |editable| != |original| then true
    else
      var sortedOriginal := SortStrings(original);
      var sortedEditable := SortStrings(editable);
      !(forall i | 0 <= i < |sortedEditable| :: sortedEditable[i] == sortedOriginal[i])
  }

  /** Tags count as changed exactly when they differ as multisets, so a pure
      reordering is no change. */
  lemma HasTagsChangedIffMultisetsDiffer(original: seq<string>, editable: seq<string>)
    ensures HasTagsChanged(original, editable) <==> multiset(original) != multiset(editable)
  {
    var so := SortStrings(original);
    var se := SortStrings(editable);
    if multiset(original) == multiset(editable) {
      assert |original| == |multiset(original)| == |multiset(editable)| == |editable|;
      SortStringsSorted(original);
      SortStringsSorted(editable);
      SortedUnique(so, se);
    } else if |editable| == |original| {
      assert multiset(se) != multiset(so);
      assert se != so;
    }
  }

  /** Right after opening, the tags have not changed. */
  lemma OpenedTagsUnchanged(st: DialogState, image: ImageRecord)
    ensures !HasTagsChanged(image.tags, OpenChange(st, Some(image), true).editableTags)
  {
    HasTagsChangedIffMultisetsDiffer(image.tags, image.tags);
  }

  const ResizeErrorMessage := "Datos de imagen inválidos o dimensiones no válidas."

  /** The guard of `handleResizeImage`: both target sides must be positive. */
  function ResizeRequest(newWidth: int, newHeight: int): (r: Result<(nat, nat), string>)
    ensures r.Success? <==> newWidth > 0 && newHeight > 0
    ensures r.Success? ==> r.value == (newWidth, newHeight)
    ensures r.Failure? ==> r.error == ResizeErrorMessage
  {
    if newWidth <= 0 || newHeight <= 0 then Failure(ResizeErrorMessage)
    else Success((newWidth, newHeight))
  }

  /** Opening on an image whose stored sides are absent or non-negative
      leaves resize fields the guard accepts. */
  lemma OpenedSizeIsResizable(st: DialogState, image: ImageRecord)
    requires image.width.Some? ==> image.width.value >= 0
    requires image.height.Some? ==> image.height.value >= 0
    ensures var r := OpenChange(st, Some(image), true);
      ResizeRequest(r.newWidth, r.newHeight).Success?
  {
  }
}
