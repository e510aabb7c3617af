/** The tag-suggestion flow's handling of the provider's structured output:
    the missing-output error, the fallback when `tags` is not an array, and
    the normalisation of `suggestedPrompt`. The provider call and `JSON.parse`
    are inputs. */
module SuggestTagsFlow {
  import opened Wrappers
  import opened Text
  import opened GenerateImageFlow

  /** The JSON kind of one field of the provider's output object. */
  datatype Field = Absent | StringField(s: string) | StringArray(items: seq<string>) | OtherValue

  /** The provider's `output`: missing (`null`/`undefined`), a bare string
      together with what `JSON.parse` makes of it (`Some(tags)` when it parses
      to an object whose `tags` is an array), or an object with its two fields. */
  datatype ProviderOutput =
    | NoOutput
    | TextOutput(text: string, reparsedTags: Option<seq<string>>)
    | ObjectOutput(tags: Field, suggestedPrompt: Field)

  datatype SuggestTagsOutput = SuggestTagsOutput(tags: seq<string>, suggestedPrompt: Option<string>)

  const NoSuggestionsMessage := "La IA no pudo generar sugerencias válidas. Revisa los logs del servidor."
  /** What the engine throws when code assigns a property on a string primitive in strict mode. */
  const StringPropertyMessage := "Cannot create property 'tags' on string"

  /** A falsy output: absent, or the empty string. */
  predicate Falsy(out: ProviderOutput) {
    out.NoOutput? || (out.TextOutput? && out.text == "")
  }

  /** On the normal path, a string prompt is trimmed and dropped when blank. */
  function NormalizedPrompt(f: Field): (r: Option<string>)
    ensures r.Some? <==> f.StringField? && Trim(f.s) != ""
    ensures r.Some? ==> r.value == Trim(f.s)
  {
    if f.StringField? && Trim(f.s) != "" then Some(Trim(f.s)) else None
  }

  /** On the fallback path, a string prompt is passed through untrimmed. */
  function RawPrompt(f: Field): (r: Option<string>)
    ensures r.Some? <==> f.StringField?
    ensures r.Some? ==> r.value == f.s
  {
    if f.StringField? then Some(f.s) else None
  }

  /** The flow as written: for a string output whose reparse yields tags, the
      assignment `output.tags = parsedTags` targets a string primitive and throws. */
  function SuggestTagsAsWritten(out: ProviderOutput): (r: Result<SuggestTagsOutput, Thrown>)
    ensures Falsy(out) ==> r == Failure(ErrorWithMessage(NoSuggestionsMessage))
    ensures out.ObjectOutput? && out.tags.StringArray? ==>
      r == Success(SuggestTagsOutput(out.tags.items, NormalizedPrompt(out.suggestedPrompt)))
    ensures out.ObjectOutput? && !out.tags.StringArray? ==>
      r == Success(SuggestTagsOutput([], RawPrompt(out.suggestedPrompt)))
    ensures out.TextOutput? && out.text != "" ==>
      (r.Failure? <==> out.reparsedTags.Some? && out.reparsedTags.value != [])
  {
    match out
    case NoOutput => Failure(ErrorWithMessage(NoSuggestionsMessage))
    case TextOutput(text, reparsed) =>
      if text == "" then Failure(ErrorWithMessage(NoSuggestionsMessage))
      else
        var parsedTags := if reparsed.Some? then reparsed.value else [];
        if parsedTags == [] then Success(SuggestTagsOutput([], None))
        else Failure(ErrorWithMessage(StringPropertyMessage))
    case ObjectOutput(tags, suggestedPrompt) =>
      if tags.StringArray? then Success(SuggestTagsOutput(tags.items, NormalizedPrompt(suggestedPrompt)))
      else Success(SuggestTagsOutput([], RawPrompt(suggestedPrompt)))
  }

  /** A string output that reparses to a tag list is lost: the flow throws
      instead of returning the reparsed tags. */
  lemma ReparsedTagsAreLost(text: string, tags: seq<string>)
    requires text != "" && tags != []
    ensures SuggestTagsAsWritten(TextOutput(text, Some(tags))) == Failure(ErrorWithMessage(StringPropertyMessage))
  {
  }

  /** The flow with the reparse used as its comment says: reparsed tags are
      returned (a string output has no `suggestedPrompt`). */
  function SuggestTags(out: ProviderOutput): (r: Result<SuggestTagsOutput, Thrown>)
    ensures Falsy(out) <==> r.Failure?
    ensures r.Failure? ==> r.error == ErrorWithMessage(NoSuggestionsMessage)
    ensures out.ObjectOutput? && out.tags.StringArray? ==>
      r == Success(SuggestTagsOutput(out.tags.items, NormalizedPrompt(out.suggestedPrompt)))
    ensures out.ObjectOutput? && !out.tags.StringArray? ==>
      r == Success(SuggestTagsOutput([], RawPrompt(out.suggestedPrompt)))
    ensures out.TextOutput? && out.text != "" ==>
      r == Success(SuggestTagsOutput(out.reparsedTags.GetOr([]), None))
  {
    match out
    case NoOutput => Failure(ErrorWithMessage(NoSuggestionsMessage))
    case TextOutput(text, reparsed) =>
      if text == "" then Failure(ErrorWithMessage(NoSuggestionsMessage))
      else Success(SuggestTagsOutput(reparsed.GetOr([]), None))
    case ObjectOutput(tags, suggestedPrompt) =>
      if tags.StringArray? then Success(SuggestTagsOutput(tags.items, NormalizedPrompt(suggestedPrompt)))
      else Success(SuggestTagsOutput([], RawPrompt(suggestedPrompt)))
  }

  /** The corrected flow agrees with the written one everywhere except on the
      reparse that succeeds, where it returns the reparsed tags. */
  lemma CorrectedAgreesElsewhere(out: ProviderOutput)
    ensures !(out.TextOutput? && out.text != "" && out.reparsedTags.Some? && out.reparsedTags.value != []) ==>
      SuggestTags(out) == SuggestTagsAsWritten(out)
    ensures out.TextOutput? && out.text != "" && out.reparsedTags.Some? ==>
      SuggestTags(out).Success? && SuggestTags(out).value.tags == out.reparsedTags.value
  {
  }

  /** The normal path returns the provider's tags untouched: repeats stay and
      the count asked for in the prompt is not enforced. */
  lemma TagsPassThrough(items: seq<string>, sp: Field)
    ensures SuggestTags(ObjectOutput(StringArray(items), sp)).value.tags == items
  {
  }
}
