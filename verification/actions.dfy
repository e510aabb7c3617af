/** The two server actions: input validation, the call into the flows, and
    the classification of what they throw into user-facing messages. The
    flows, the id generator and the clock are parameters. */
module ImageActions {
  import opened Wrappers
  import opened Text
  import opened GenerateImageFlow
  import opened SuggestTagsFlow

  const InvalidInputMessage := "Entrada inválida."
  const SafetyMessage := "La generación de la imagen fue bloqueada por filtros de seguridad. Intenta con un prompt diferente."
  const GenerateFailedMessage := "Error al generar la imagen con IA."
  const SuggestFailedMessage := "Error al sugerir etiquetas."

  datatype GenerateValues = GenerateValues(prompt: string, artisticStyle: Option<string>)

  /** What `generateImageAction` answers; `hasDetails` marks the validation
      error, which carries the validator's details. */
  datatype GenerateActionResult =
    | Generated(imageDataUri: string, id: string, prompt: string, modelUsed: string, createdAt: int, updatedAt: int)
    | GenerateError(message: string, hasDetails: bool)

  /** The input handed to the flow: the prompt alone. */
  function ForwardedInput(values: GenerateValues): (input: GenerateImageInput)
    ensures input.prompt == values.prompt
    ensures input.artisticStyle.None? && input.aspectRatio.None? && input.imageQuality.None?
  {
    GenerateImageInput(values.prompt, None, None, None)
  }

  /** A thrown `Error` whose message mentions `SAFETY` is a safety block. */
  predicate BlockedBySafety(e: Thrown) {
    e.ErrorWithMessage? && Contains(e.message, "SAFETY")
  }

  function FailureMessage(e: Thrown): (m: string)
    ensures BlockedBySafety(e) ==> m == SafetyMessage
    ensures !BlockedBySafety(e) ==> m == GenerateFailedMessage
  {
    if BlockedBySafety(e) then SafetyMessage else GenerateFailedMessage
  }

  /** `generateImageAction`. `flow` stands for the generation flow, `freshId`
      for the generated uuid and `t1`, `t2` for the two clock reads. */
  function GenerateImageAction(values: GenerateValues, flow: GenerateImageInput -> Result<GenerateImageOutput, Thrown>,
                               freshId: string, t1: int, t2: int): (r: GenerateActionResult)
    ensures values.prompt == "" <==> r == GenerateError(InvalidInputMessage, true)
    ensures values.prompt != "" && flow(ForwardedInput(values)).Success? ==>
      r == Generated(flow(ForwardedInput(values)).value.imageDataUri, freshId, values.prompt,
                     flow(ForwardedInput(values)).value.modelUsed, t1, t2)
    ensures values.prompt != "" && flow(ForwardedInput(values)).Failure? ==>
      r == GenerateError(FailureMessage(flow(ForwardedInput(values)).error), false)
  {
    if values.prompt == "" then GenerateError(InvalidInputMessage, true)
    else
      match flow(ForwardedInput(values))
      case Success(out) => Generated(out.imageDataUri, freshId, values.prompt, out.modelUsed, t1, t2)
      case Failure(e) => GenerateError(FailureMessage(e), false)
  }

  /** The style a caller passes never reaches the flow. */
  lemma StyleIsDropped(values: GenerateValues, style: Option<string>,
                       flow: GenerateImageInput -> Result<GenerateImageOutput, Thrown>, freshId: string, t1: int, t2: int)
    ensures GenerateImageAction(values.(artisticStyle := style), flow, freshId, t1, t2)
         == GenerateImageAction(values, flow, freshId, t1, t2)
  {
  }

  /** Through this action the image model receives the user's prompt exactly:
      no hint is ever appended. */
  lemma ModelSeesPromptOnly(values: GenerateValues)
    ensures FinalPrompt(ForwardedInput(values)) == values.prompt
  {
    FinalPromptUnchangedIffNoHints(ForwardedInput(values));
  }

  /** A model answer without media reaches the user as the generic error,
      not as the safety message, although the flow's message mentions safety
      filters (in lower case). */
  lemma MissingMediaIsGenericError(values: GenerateValues, imageModel: string -> ModelReply, freshId: string, t1: int, t2: int)
    requires values.prompt != ""
    requires imageModel(values.prompt) == Replied(None)
    ensures GenerateImageAction(values, input => GenerateImage(input, imageModel), freshId, t1, t2)
         == GenerateError(GenerateFailedMessage, false)
  {
    ModelSeesPromptOnly(values);
    assert !Contains(NoMediaMessage, "SAFETY") by {
      NoSafetyInNoMediaMessage();
    }
  }

  lemma NoSafetyInNoMediaMessage()
    ensures !Contains(NoMediaMessage, "SAFETY")
  {
    assert 'S' !in NoMediaMessage by {
      assert 'S' !in "Image generation failed or ";
      assert 'S' !in "did not return a media URL. ";
      assert 'S' !in "This might be due to safety ";
      assert 'S' !in "filters or an issue with the model.";
    }
    MissingFirstCharNotContained(NoMediaMessage, "SAFETY");
  }

  datatype SuggestActionResult = Suggested(tags: seq<string>) | SuggestError(message: string, hasDetails: bool)

  /** `suggestTagsAction`: rejects an empty prompt, returns only the tags on
      success and the generic message on any failure. */
  function SuggestTagsAction(prompt: string, flow: string -> Result<SuggestTagsOutput, Thrown>): (r: SuggestActionResult)
    ensures prompt == "" <==> r == SuggestError(InvalidInputMessage, true)
    ensures prompt != "" && flow(prompt).Success? ==> r == Suggested(flow(prompt).value.tags)
    ensures prompt != "" && flow(prompt).Failure? ==> r == SuggestError(SuggestFailedMessage, false)
  {
    if prompt == "" then SuggestError(InvalidInputMessage, true)
    else
      match flow(prompt)
      case Success(out) => Suggested(out.tags)
      case Failure(_) => SuggestError(SuggestFailedMessage, false)
  }

  /** The suggested prompt never leaves the action. */
  lemma SuggestedPromptDropped(prompt: string, tags: seq<string>, p1: Option<string>, p2: Option<string>)
    ensures SuggestTagsAction(prompt, _ => Success(SuggestTagsOutput(tags, p1)))
         == SuggestTagsAction(prompt, _ => Success(SuggestTagsOutput(tags, p2)))
  {
  }
}
