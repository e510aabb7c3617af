/** What an image card derives for display: the shortened prompt, the badge
    rows, the download file name, and when suggested collections are stored. */
module ImageCard {
  import opened Wrappers
  import opened Text

  const PromptLimit := 50
  const Ellipsis := "..."

  /** The title: a prompt over 50 characters is cut to 50 and marked with `...`. */
  function TruncatePrompt(prompt: string): (r: string)
    ensures |prompt| <= PromptLimit ==> r == prompt
    ensures |prompt| > PromptLimit ==> |r| == PromptLimit + |Ellipsis| && r[PromptLimit..] == Ellipsis
    ensures Prefix(prompt, PromptLimit) <= r
  {
    if |prompt| > PromptLimit then Prefix(prompt, PromptLimit) + Ellipsis else prompt
  }

  /** The title never runs past 53 characters, and a title that is not the
      whole prompt shows exactly its first 50 characters. */
  lemma TitleShowsPromptStart(prompt: string)
    ensures |TruncatePrompt(prompt)| <= PromptLimit + |Ellipsis|
    ensures TruncatePrompt(prompt) != prompt ==>
      TruncatePrompt(prompt)[..PromptLimit] == prompt[..PromptLimit]
  {
  }

  const BadgeLimit := 3

  /** A badge row: the first three names, and a `+n` badge for the rest. */
  datatype BadgeRow = BadgeRow(shown: seq<string>, overflow: Option<nat>)

  function Badges(names: seq<string>): (b: BadgeRow)
    ensures b.shown <= names && |b.shown| <= BadgeLimit
    ensures b.overflow.Some? <==> |names| > BadgeLimit
  {
    var shown := if |names| <= BadgeLimit then names else names[..BadgeLimit];
    BadgeRow(shown, if |names| > BadgeLimit then Some(|names| - BadgeLimit) else None)
  }

  /** The badges account for every name: those shown plus the overflow count
      give the list's length, and nothing is shown twice over. */
  lemma BadgesCoverList(names: seq<string>)
    ensures var b := Badges(names);
      |b.shown| + b.overflow.GetOr(0) == |names|
    ensures var b := Badges(names);
      b.overflow.Some? ==> b.overflow.value > 0 && |b.shown| == BadgeLimit
  {
  }

  /** The collections row; absent collections show no badges. */
  function CollectionBadges(collections: Option<seq<string>>): (b: BadgeRow)
    ensures collections.None? ==> b == BadgeRow([], None)
    ensures collections.Some? ==>
      b.shown == collections.value[..if |collections.value| <= BadgeLimit then |collections.value| else BadgeLimit]
    ensures b.overflow.Some? <==> collections.Some? && |collections.value| > BadgeLimit
    ensures b.overflow.Some? ==> b.overflow.value == |collections.value| - BadgeLimit
  {
    Badges(collections.GetOr([]))
  }

  /** The first index of `c` in `s`. */
  function IndexOf(s: string, c: char): (r: Option<nat>)
    ensures r.Some? ==> r.value < |s| && s[r.value] == c && c !in s[..r.value]
    ensures r.None? ==> c !in s
  {
    if s == [] then None
    else if s[0] == c then Some(0)
    else
      match IndexOf(s[1..], c)
      case Some(i) => assert s[..i + 1] == [s[0]] + s[1..][..i]; Some(i + 1)
      case None => None
  }

  /** `mimeType.split('/')[1]`: the piece between the first and the second
      slash, absent when there is no slash. */
  function SecondPiece(mimeType: string): (r: Option<string>)
    ensures r.Some? ==> '/' !in r.value
    ensures r.None? <==> '/' !in mimeType
  {
    match IndexOf(mimeType, '/')
    case None => None
    case Some(i) =>
      var rest := mimeType[i + 1..];
      match IndexOf(rest, '/')
      case None => Some(rest)
      case Some(j) => Some(rest[..j])
  }

  /** Splitting a joined type and subtype gives back the subtype. */
  lemma SecondPieceOfJoin(kind: string, subtype: string)
    requires '/' !in kind && '/' !in subtype
    ensures SecondPiece(kind + "/" + subtype) == Some(subtype)
  {
    var m := kind + "/" + subtype;
    assert m[|kind|] == '/';
    assert m[..|kind|] == kind;
    assert IndexOf(m, '/') == Some(|kind|);
    assert m[|kind| + 1..] == subtype;
  }

  const DownloadPrefix := "imagina-ai-"
  const DefaultExtension := "png"

  /** The extension: the MIME subtype, or `png` when it is absent or empty. */
  function Extension(mimeType: string): (e: string)
    ensures e != "" && '/' !in e
    ensures SecondPiece(mimeType).Some? && SecondPiece(mimeType).value != "" ==> e == SecondPiece(mimeType).value
    ensures SecondPiece(mimeType).None? || SecondPiece(mimeType).value == "" ==> e == DefaultExtension
  {
    var piece := SecondPiece(mimeType);
    if piece.Some? && piece.value != "" then piece.value else DefaultExtension
  }

  /** The download file name: prefix, the id's first eight characters, a dot
      and the extension. */
  function DownloadName(id: string, mimeType: string): (name: string)
    ensures DownloadPrefix <= name
    ensures var tail := "." + Extension(mimeType);
      |tail| <= |name| && name[|name| - |tail|..] == tail && '/' !in tail[1..]
    ensures |DownloadPrefix| + |"." + Extension(mimeType)| <= |name| <= |DownloadPrefix| + 8 + |"." + Extension(mimeType)|
    ensures var middle := name[|DownloadPrefix|..|name| - |"." + Extension(mimeType)|];
      middle <= id && |middle| == if |id| < 8 then |id| else 8
  {
    var name := DownloadPrefix + Prefix(id, 8) + "." + Extension(mimeType);
    assert name == DownloadPrefix + (Prefix(id, 8) + ("." + Extension(mimeType)));
    assert ("." + Extension(mimeType))[1..] == Extension(mimeType);
    name
  }

  /** A well-formed MIME type names its own subtype in the file name, after
      the id's first eight characters. */
  lemma DownloadNameOfWellFormedType(id: string, kind: string, subtype: string)
    requires '/' !in kind && '/' !in subtype && subtype != ""
    ensures DownloadName(id, kind + "/" + subtype) == DownloadPrefix + Prefix(id, 8) + "." + subtype
  {
    SecondPieceOfJoin(kind, subtype);
  }

  /** What `handleSuggestCollections` reads from the action's reply; each
      field may be absent. */
  datatype SuggestReply = SuggestReply(success: bool, suggestedCollections: Option<seq<string>>, error: Option<string>)

  /** The collections handed to `onCollectionsUpdated`, or the error text shown. */
  datatype SuggestOutcome = CollectionsUpdated(collections: seq<string>) | ErrorShown(text: string)

  const NoSuggestionsText := "No se pudieron obtener sugerencias."
  const SuggestProblemText := "Ocurrió un problema al sugerir colecciones."

  /** `handleSuggestCollections`; `None` stands for an action call that threw.
      Collections are forwarded when the reply succeeded and carries the field
      (an array is truthy even when empty); otherwise the reply's error, or a
      fixed text when that is falsy, is shown. */
  function SuggestCollections(reply: Option<SuggestReply>): (o: SuggestOutcome)
    ensures o.CollectionsUpdated? <==>
      reply.Some? && reply.value.success && reply.value.suggestedCollections.Some?
    ensures o.CollectionsUpdated? ==> o.collections == reply.value.suggestedCollections.value
    ensures o.ErrorShown? ==> o.text != ""
    ensures reply.None? ==> o == ErrorShown(SuggestProblemText)
    ensures reply.Some? && o.ErrorShown? ==>
      o.text == if reply.value.error.Some? && reply.value.error.value != "" then reply.value.error.value else NoSuggestionsText
  {
    match reply
    case None => ErrorShown(SuggestProblemText)
    case Some(r) =>
      if r.success && r.suggestedCollections.Some? then CollectionsUpdated(r.suggestedCollections.value)
      else if r.error.Some? && r.error.value != "" then ErrorShown(r.error.value)
      else ErrorShown(NoSuggestionsText)
  }

  /** An empty suggested array is still forwarded, since arrays are truthy. */
  lemma EmptySuggestionForwarded(error: Option<string>)
    ensures SuggestCollections(Some(SuggestReply(true, Some([]), error))) == CollectionsUpdated([])
  {
  }

  /** A failed or throwing call forwards nothing and shows a non-empty text. */
  lemma FailureForwardsNothing(reply: Option<SuggestReply>)
    requires reply.None? || !reply.value.success || reply.value.suggestedCollections.None?
    ensures SuggestCollections(reply).ErrorShown? && SuggestCollections(reply).text != ""
  {
  }
}
