/** The rules of the generation form: prompt bounds, the tag chips (exact,
    case-sensitive dedup), the submit guard, and how a generation result
    becomes a stored record. */
module GenerationForm {
  import opened Wrappers
  import opened Text
  import opened Records
  import opened TagLists
  import ImageDetailsDialog

  const PromptMin := 5
  const PromptMax := 500

  /** The schema's bounds on the prompt's length. */
  predicate PromptValid(prompt: string) {
    PromptMin <= |prompt| <= PromptMax
  }

  /** The tag chips and the text being typed. */
  datatype FormState = FormState(currentTags: seq<string>, tagInput: string)

  predicate IsAddKey(key: string) {
    key == "," || key == "Enter"
  }

  /** `handleTagInputKeyDown`: on a comma or Enter the trimmed input joins the
      chips when it is non-empty and not already one of them (exact match),
      and the input is cleared either way; other keys change nothing. */
  function KeyDown(st: FormState, key: string): (r: FormState)
    ensures IsAddKey(key) ==> r.tagInput == ""
    ensures IsAddKey(key) && Trim(st.tagInput) != [] && Trim(st.tagInput) !in st.currentTags ==>
      r.currentTags == st.currentTags + [Trim(st.tagInput)]
    ensures IsAddKey(key) && (Trim(st.tagInput) == [] || Trim(st.tagInput) in st.currentTags) ==>
      r.currentTags == st.currentTags
    ensures !IsAddKey(key) ==> r == st
  {
    if IsAddKey(key) then
      var newTag := Trim(st.tagInput);
      if newTag != "" && newTag !in st.currentTags then FormState(st.currentTags + [newTag], "")
      else st.(tagInput := "")
    else st
  }

  /** `removeTag`. */
  function RemoveChip(st: FormState, x: string): (r: FormState)
    ensures r.currentTags == RemoveTag(st.currentTags, x)
    ensures r.tagInput == st.tagInput
  {
    st.(currentTags := RemoveTag(st.currentTags, x))
  }

  /** No chip is the empty string. */
  ghost predicate NoEmptyTags(tags: seq<string>) {
    forall i :: 0 <= i < |tags| ==> tags[i] != ""
  }

  /** Key presses and removals keep the chips distinct and non-empty. */
  lemma ChipsStayDistinctAndNonEmpty(st: FormState, key: string, x: string)
    requires NoDuplicates(st.currentTags) && NoEmptyTags(st.currentTags)
    ensures NoDuplicates(KeyDown(st, key).currentTags) && NoEmptyTags(KeyDown(st, key).currentTags)
    ensures NoDuplicates(RemoveChip(st, x).currentTags) && NoEmptyTags(RemoveChip(st, x).currentTags)
  {
    RemoveTagKeepsNoDuplicates(st.currentTags, x);
    var tags := KeyDown(st, key).currentTags;
    if tags != st.currentTags {
      var n := |st.currentTags|;
      forall i, j | 0 <= i < j < |tags| ensures tags[i] != tags[j] {
        assert tags[i] == st.currentTags[i];
        if j < n {
          assert tags[j] == st.currentTags[j];
        }
      }
    }
    var kept := RemoveChip(st, x).currentTags;
    forall i | 0 <= i < |kept| ensures kept[i] != "" {
      assert kept[i] in st.currentTags;
    }
  }

  /** Whatever the dialog would add, the form adds too: its exact test is
      weaker than the dialog's case-insensitive one. */
  lemma FormAddsWhatDialogAdds(tags: seq<string>, input: string)
    ensures var d := ImageDetailsDialog.AddTag(ImageDetailsDialog.DialogState(tags, input, false, 0, 0));
      d.editableTags != tags ==> KeyDown(FormState(tags, input), ",").currentTags == d.editableTags
  {
  }

  /** A tag that differs from an existing chip only in case is added by the
      form but refused by the dialog. */
  lemma CaseVariantAddedByFormOnly()
    ensures ImageDetailsDialog.AddTag(ImageDetailsDialog.DialogState(["Cat"], "cat", false, 0, 0)).editableTags == ["Cat"]
    ensures KeyDown(FormState(["Cat"], "cat"), ",").currentTags == ["Cat", "cat"]
  {
    assert SkipLeading("cat", 0) == 0;
    assert SkipTrailing("cat", 0, 3) == 3;
    assert Trim("cat") == "cat";
    assert Lower("Cat") == Lower("cat");
    assert Lower("cat") in ImageDetailsDialog.LowerAll(["Cat"]);
  }

  /** `tags.join(',')`. */
  function Join(tags: seq<string>): (r: string)
    ensures r == "" <==> tags == [] || tags == [""]
  {
    if tags == [] then ""
    else if |tags| == 1 then tags[0]
    else tags[0] + "," + Join(tags[1..])
  }

  /** `onSubmit`'s guard: the schema (prompt bounds, non-empty joined tags)
      must pass and there must be at least one chip. */
  function SubmitProceeds(prompt: string, currentTags: seq<string>): (ok: bool)
    ensures ok ==> PromptValid(prompt) && currentTags != []
  {
    var isValid := PromptValid(prompt) && |Join(currentTags)| >= 1;
    isValid && |currentTags| != 0
  }

  /** With chips that are never empty (as key presses keep them), submission
      proceeds exactly for a valid prompt and at least one chip. */
  lemma SubmitGuardExact(prompt: string, currentTags: seq<string>)
    requires NoEmptyTags(currentTags)
    ensures SubmitProceeds(prompt, currentTags) <==> PromptValid(prompt) && currentTags != []
  {
  }

  /** The fields of the action's reply the form reads; each may be absent. */
  datatype ActionReply = ActionReply(
    error: Option<string>,
    success: bool,
    imageUrl: Option<string>,
    id: Option<string>,
    prompt: Option<string>,
    modelUsed: Option<string>,
    createdAt: Option<string>,
    updatedAt: Option<string>)

  /** A string is truthy when present and non-empty. */
  predicate Truthy(s: Option<string>) {
    s.Some? && s.value != ""
  }

  /** `a || b` on an optional string. */
  function OrElse(a: Option<string>, b: string): (r: string)
    ensures Truthy(a) ==> r == a.value
    ensures !Truthy(a) ==> r == b
  {
    if Truthy(a) then a.value else b
  }

  const UnknownModel := "Desconocido"

  /** The record built from a successful reply. `freshId` stands for the
      generated uuid, `now` for the clock and `parseDate` for `new Date(text)`. */
  function BuildRecord(reply: ActionReply, imageUrl: string, formPrompt: string, currentTags: seq<string>,
                       blob: Blob, freshId: string, now: Timestamp, parseDate: string -> Timestamp): (rec: ImageRecord)
    ensures rec.id == OrElse(reply.id, freshId)
    ensures rec.prompt == OrElse(reply.prompt, formPrompt)
    ensures rec.modelUsed == OrElse(reply.modelUsed, UnknownModel)
    ensures rec.createdAt == (if Truthy(reply.createdAt) then parseDate(reply.createdAt.value) else now)
    ensures rec.updatedAt == (if Truthy(reply.updatedAt) then parseDate(reply.updatedAt.value) else now)
    ensures !rec.isFavorite && rec.tags == currentTags && rec.imageData == blob
    ensures rec.originalUrl == Some(imageUrl)
    ensures rec.collections.None? && rec.width.None? && rec.height.None?
    ensures rec.artisticStyle.None? && rec.aspectRatio.None? && rec.imageQuality.None?
  {
    ImageRecord(
      OrElse(reply.id, freshId), blob, OrElse(reply.prompt, formPrompt), currentTags, None,
      OrElse(reply.modelUsed, UnknownModel), false,
      if Truthy(reply.createdAt) then parseDate(reply.createdAt.value) else now,
      if Truthy(reply.updatedAt) then parseDate(reply.updatedAt.value) else now,
      None, None, Some(imageUrl), None, None, None)
  }

  /** The fallbacks leave no identifying field empty: with a non-empty
      uuid and a valid form prompt, id, prompt and model are non-empty. */
  lemma BuiltRecordHasIdentity(reply: ActionReply, imageUrl: string, formPrompt: string, currentTags: seq<string>,
                               blob: Blob, freshId: string, now: Timestamp, parseDate: string -> Timestamp)
    requires freshId != "" && PromptValid(formPrompt)
    ensures var rec := BuildRecord(reply, imageUrl, formPrompt, currentTags, blob, freshId, now, parseDate);
      rec.id != "" && rec.prompt != "" && rec.modelUsed != ""
  {
  }

  const ProcessingErrorMessage := "Ocurrió un problema al generar o procesar la imagen."

  /** What one submission leads to: the chips afterwards, the record handed
      to the page (if any) and the error shown (if any). */
  datatype Submission = Submission(currentTags: seq<string>, emitted: Option<ImageRecord>, errorShown: Option<string>)

  /** The part of `onSubmit` after the action answers. `fetched` is the
      downloaded image, `None` when the download failed. */
  function HandleReply(reply: ActionReply, formPrompt: string, currentTags: seq<string>, fetched: Option<Blob>,
                       freshId: string, now: Timestamp, parseDate: string -> Timestamp): (r: Submission)
    ensures Truthy(reply.error) ==> r == Submission(currentTags, None, Some(reply.error.value))
    ensures r.emitted.Some? <==> !Truthy(reply.error) && reply.success && Truthy(reply.imageUrl) && fetched.Some?
    ensures r.emitted.Some? ==>
      && r.currentTags == []
      && r.errorShown.None?
      && r.emitted.value == BuildRecord(reply, reply.imageUrl.value, formPrompt, currentTags, fetched.value, freshId, now, parseDate)
    ensures r.emitted.None? ==> r.currentTags == currentTags
    ensures !Truthy(reply.error) && reply.success && Truthy(reply.imageUrl) && fetched.None? ==>
      r.errorShown == Some(ProcessingErrorMessage)
  {
    if Truthy(reply.error) then Submission(currentTags, None, Some(reply.error.value))
    else if reply.success && Truthy(reply.imageUrl) then
      match fetched
      case None => Submission(currentTags, None, Some(ProcessingErrorMessage))
      case Some(blob) =>
        Submission([], Some(BuildRecord(reply, reply.imageUrl.value, formPrompt, currentTags, blob, freshId, now, parseDate)), None)
    else Submission(currentTags, None, None)
  }

  /** `onSubmit` as a whole: a failed guard stops before the action is
      called; otherwise `action` stands for `generateImageAction`, `None`
      when its call rejects, which the catch reports as the processing error. */
  function Submit(prompt: string, currentTags: seq<string>, action: string -> Option<ActionReply>, fetched: Option<Blob>,
                  freshId: string, now: Timestamp, parseDate: string -> Timestamp): (r: Option<Submission>)
    ensures r.None? <==> !SubmitProceeds(prompt, currentTags)
    ensures currentTags == [] ==> r.None?
    ensures r.Some? && action(prompt).None? ==> r.value == Submission(currentTags, None, Some(ProcessingErrorMessage))
    ensures r.Some? && action(prompt).Some? ==>
      r.value == HandleReply(action(prompt).value, prompt, currentTags, fetched, freshId, now, parseDate)
  {
    if !SubmitProceeds(prompt, currentTags) then None
    else match action(prompt)
      case None => Some(Submission(currentTags, None, Some(ProcessingErrorMessage)))
      case Some(reply) => Some(HandleReply(reply, prompt, currentTags, fetched, freshId, now, parseDate))
  }
}
