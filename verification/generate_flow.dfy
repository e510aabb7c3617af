/** The image-generation flow: the final prompt built from the user's prompt
    and the optional style, aspect-ratio and quality hints, and the check of
    the media the image model returns. The model call itself is a parameter. */
module GenerateImageFlow {
  import opened Wrappers
  import opened Text

  datatype GenerateImageInput = GenerateImageInput(
    prompt: string,
    artisticStyle: Option<string>,
    aspectRatio: Option<string>,
    imageQuality: Option<string>)

  datatype GenerateImageOutput = GenerateImageOutput(imageDataUri: string, modelUsed: string)

  /** The `media` part of the model's answer; `url` may be missing. */
  datatype Media = Media(url: Option<string>)

  /** What the model call produced: a possibly absent `media`, or a thrown value. */
  datatype ModelReply = Replied(media: Option<Media>) | ModelThrew(error: Thrown)

  /** A thrown JavaScript value: an `Error` with its message, or anything else. */
  datatype Thrown = ErrorWithMessage(message: string) | NonErrorValue

  const ImageModel := "googleai/gemini-2.0-flash-exp"
  const StylePrefix := ", in the artistic style of "
  const AspectPrefix := ", with an aspect ratio of "
  const NoMediaMessage := "Image generation failed or " + "did not return a media URL. "
    + "This might be due to safety " + "filters or an issue with the model."

  /** A hint counts when it is present, non-empty and not blank after trimming. */
  predicate HintGiven(h: Option<string>) {
    h.Some? && h.value != "" && Trim(h.value) != ""
  }

  /** The style applies unless it is blank or (case-insensitively) `none`. */
  predicate StyleApplies(style: Option<string>) {
    HintGiven(style) && Lower(style.value) != "none"
  }

  function StyleSuffix(style: Option<string>): (r: string)
    ensures !StyleApplies(style) <==> r == ""
    ensures StyleApplies(style) ==> r == StylePrefix + style.value
  {
    if StyleApplies(style) then StylePrefix + style.value else ""
  }

  function AspectSuffix(aspect: Option<string>): (r: string)
    ensures !HintGiven(aspect) <==> r == ""
    ensures HintGiven(aspect) ==> r == AspectPrefix + aspect.value
  {
    if HintGiven(aspect) then AspectPrefix + aspect.value else ""
  }

  /** The three known quality levels get fixed descriptors (exact case);
      any other value is used verbatim. */
  function QualityDescriptor(q: string): (d: string)
    ensures q == "draft" ==> d == "draft quality, quick sketch"
    ensures q == "standard" ==> d == "standard quality"
    ensures q == "high" ==> d == "high quality, detailed"
    ensures q != "draft" && q != "standard" && q != "high" ==> d == q
  {
    if q == "draft" then "draft quality, quick sketch"
    else if q == "standard" then "standard quality"
    else if q == "high" then "high quality, detailed"
    else q
  }

  function QualitySuffix(quality: Option<string>): (r: string)
    ensures !HintGiven(quality) <==> r == ""
    ensures HintGiven(quality) ==> r == ", " + QualityDescriptor(quality.value)
  {
    if HintGiven(quality) then ", " + QualityDescriptor(quality.value) else ""
  }

  /** The prompt sent to the model: the user's prompt followed by the style,
      aspect and quality suffixes, in that order, each only when it applies. */
  function FinalPrompt(input: GenerateImageInput): (r: string)
    ensures input.prompt <= r
    ensures r == input.prompt + StyleSuffix(input.artisticStyle)
                 + AspectSuffix(input.aspectRatio) + QualitySuffix(input.imageQuality)
  {
    var withStyle := input.prompt + StyleSuffix(input.artisticStyle);
    var withAspect := withStyle + AspectSuffix(input.aspectRatio);
    withAspect + QualitySuffix(input.imageQuality)
  }

  /** Without hints the final prompt is the user's prompt exactly; with hints
      it is strictly longer. */
  lemma FinalPromptUnchangedIffNoHints(input: GenerateImageInput)
    ensures FinalPrompt(input) == input.prompt <==>
      !StyleApplies(input.artisticStyle) && !HintGiven(input.aspectRatio) && !HintGiven(input.imageQuality)
  {
    var r := FinalPrompt(input);
    if r == input.prompt {
      assert |StyleSuffix(input.artisticStyle)| + |AspectSuffix(input.aspectRatio)| + |QualitySuffix(input.imageQuality)| == 0;
    }
  }

  /** Right after the user's prompt comes the style suffix when the style
      applies, otherwise the aspect suffix when that applies; the quality
      suffix is always last. */
  lemma SuffixOrder(input: GenerateImageInput)
    ensures input.prompt + StyleSuffix(input.artisticStyle) <= FinalPrompt(input)
    ensures !StyleApplies(input.artisticStyle) ==> input.prompt + AspectSuffix(input.aspectRatio) <= FinalPrompt(input)
    ensures EndsWith(FinalPrompt(input), QualitySuffix(input.imageQuality))
  {
    ConcatParts(input.prompt, StyleSuffix(input.artisticStyle), AspectSuffix(input.aspectRatio), QualitySuffix(input.imageQuality));
  }

  /** `s` ends with `t`. */
  predicate EndsWith(s: string, t: string) {
    |t| <= |s| && s[|s| - |t|..] == t
  }

  lemma ConcatParts(p: string, s: string, a: string, q: string)
    ensures p + s <= p + s + a + q
    ensures s == "" ==> p + a <= p + s + a + q
    ensures EndsWith(p + s + a + q, q)
  {
    var r := p + s + a + q;
    assert r[..|p + s|] == p + s;
    assert r[|r| - |q|..] == q;
    if s == "" {
      assert p + s == p;
      assert r[..|p + a|] == p + a;
    }
  }

  /** The media check: no media or an empty URL is an error; otherwise the
      output carries the URL and the fixed model id. */
  function CheckMedia(media: Option<Media>): (r: Result<GenerateImageOutput, Thrown>)
    ensures r.Failure? <==> media.None? || media.value.url.None? || media.value.url.value == ""
    ensures r.Failure? ==> r.error == ErrorWithMessage(NoMediaMessage)
    ensures r.Success? ==> r.value.imageDataUri == media.value.url.value && r.value.modelUsed == ImageModel
  {
    if media.None? || media.value.url.None? || media.value.url.value == "" then
      Failure(ErrorWithMessage(NoMediaMessage))
    else
      Success(GenerateImageOutput(media.value.url.value, ImageModel))
  }

  /** The whole flow, with `imageModel` standing for the model call on the final prompt. */
  function GenerateImage(input: GenerateImageInput, imageModel: string -> ModelReply): (r: Result<GenerateImageOutput, Thrown>)
    ensures imageModel(FinalPrompt(input)).ModelThrew? ==> r == Failure(imageModel(FinalPrompt(input)).error)
    ensures imageModel(FinalPrompt(input)).Replied? ==> r == CheckMedia(imageModel(FinalPrompt(input)).media)
    ensures r.Success? ==> r.value.modelUsed == ImageModel
  {
    match imageModel(FinalPrompt(input))
    case ModelThrew(e) => Failure(e)
    case Replied(media) => CheckMedia(media)
  }
}
