# ImaginaAI core, modelled in Dafny

ImaginaAI is a browser application that generates images from text prompts
through a hosted model, keeps them in a local IndexedDB table
(`generatedImages`, keyed by `id`), and lets the user tag, favourite, search,
page through and chart them. This project models the logic of that core as
pure functions over immutable data and proves what it promises:

- `Records` — the `GeneratedImage` record and the partial change sets an update accepts.
- `ImageStore` — the store as a finite map from id to record: add, get, update (with the
  `updatedAt` stamp), delete, toggle favourite, clear.
- `ImageQuery` — the `createdAt`-ordered scan and `filterImages` (favourite flag,
  case-insensitive search over prompt and tags, required tags).
- `GenerateImageFlow`, `SuggestTagsFlow` — the two model flows: how the final prompt is
  assembled, the media check, and the handling of the suggestion output.
- `ImageActions` — the two server actions: validation, forwarding, and the mapping of
  failures to user-facing messages.
- `Labels`, `Statistics`, `StringSort`, `Text`, `TagLists` — shared helpers: `getLabel`, the
  frequency charts, the default string sort, ASCII `trim`/`toLowerCase`/`includes`/`substring`,
  and tag removal.
- `ImageDetailsDialog`, `GenerationForm`, `Pagination`, `FilterControls`, `HomePage`,
  `ImageCard` — the decision logic of the UI components: tag editing, change detection,
  the submit guard and record construction, page navigation, filter reporting, the
  page's list updates, and what a card derives for display.

Calls the model cannot see — the image and text models, `JSON.parse`, uuid generation,
the clock, `fetch` of the generated image, the store's success or failure as seen by a
page handler — are parameters of the functions that use them.

## Model

| member | source | states |
|---|---|---|
| ImageStore.AddGeneratedImage | src/lib/db.ts:25-32 | A fresh id is inserted and returned and no other record changes; an id already present fails with a constraint error and leaves the store as it was; well-keyedness is preserved. |
| ImageStore.GetGeneratedImageById | src/lib/db.ts:47-54 | Yields a record exactly when the id is stored, and then the stored record. |
| ImageStore.UpdateGeneratedImage | src/lib/db.ts:56-63 | For a stored id: answers 1, keeps the key set, writes the merged record with `updatedAt` set to the write time, leaves every other record alone. For an absent id: answers 0 and changes nothing. |
| ImageStore.UpdateOverridesUpdatedAt | src/lib/db.ts:58 | Whatever `updatedAt` the caller passes, the stored one is the time of the write. |
| ImageStore.UpdateKeepsOmittedFields | src/lib/db.ts:56-63 | Every field the change set leaves out keeps its stored value (all thirteen fields besides `id` and `updatedAt`). |
| ImageStore.DeleteGeneratedImage | src/lib/db.ts:65-72 | Removes exactly that key; an absent id is not an error; the remaining records are unchanged. |
| ImageStore.DeleteThenGet | src/lib/db.ts:47-72 | After a delete the id reads as absent, and a second delete changes nothing. |
| ImageStore.ToggleFavoriteStatus | src/lib/db.ts:74-80 | For a stored id: answers 1 and flips only the flag, with `updatedAt` set to the write time. For an absent id: answers 0 and changes nothing. |
| ImageStore.ToggleTwice | src/lib/db.ts:74-80 | Two toggles restore the flag; the record then differs from the original only in `updatedAt`. |
| ImageStore.ClearAllImages | src/lib/db.ts:119-126 | The store afterwards is empty. |
| Records.MergeSpread | src/lib/db.ts:58 | Merging two change sets in turn is the same as merging their object spread, the later one winning. |
| ImageQuery.OrderedScan | src/lib/db.ts:34-45 | Lists every stored record exactly once, ordered by `createdAt` in the requested direction. |
| ImageQuery.GetAllGeneratedImages | src/lib/db.ts:34-45 | The same listing under the default sort key. |
| ImageQuery.FilterImages | src/lib/db.ts:82-117 | Exactly the stored records that pass every active filter (sound and complete), without repeats, newest first. |
| ImageQuery.BlankSearchMatchesAll | src/lib/db.ts:98 | An absent, empty or all-white-space search term filters nothing out. |
| ImageQuery.SearchIgnoresCollections | src/lib/db.ts:98-104 | Changing a record's collections never changes whether it matches. |
| ImageQuery.FalseFlagKeepsNonFavorites | src/lib/db.ts:94-96 | A flag of `false` lets only non-favourites through. |
| Text.Trim | src/lib/db.ts:98 | The result is an infix of the input that cut off only white space and neither starts nor ends with white space. |
| Text.TrimEmptyIffBlank | src/lib/db.ts:98 | Trimming gives the empty string exactly when every character is white space. |
| Text.ContainsIffOccurs | src/lib/db.ts:101-102 | The recursive `includes` agrees with "occurs at some position". |
| GenerateImageFlow.StyleSuffix | src/ai/flows/generate-image-flow.ts:47-49 | The style clause is empty exactly when the style is absent, blank or `none` in any case; otherwise it names the style verbatim. |
| GenerateImageFlow.AspectSuffix | src/ai/flows/generate-image-flow.ts:51-53 | The aspect clause is empty exactly when the ratio is absent or blank. |
| GenerateImageFlow.QualityDescriptor | src/ai/flows/generate-image-flow.ts:56-59 | The three known levels get their fixed descriptors (exact case); any other value is used as given. |
| GenerateImageFlow.FinalPrompt | src/ai/flows/generate-image-flow.ts:45-62 | The user's prompt is a prefix of the final prompt, which is followed by the style, aspect and quality clauses in that order. |
| GenerateImageFlow.FinalPromptUnchangedIffNoHints | src/ai/flows/generate-image-flow.ts:45-62 | The final prompt equals the user's prompt exactly when no hint applies. |
| GenerateImageFlow.SuffixOrder | src/ai/flows/generate-image-flow.ts:45-62 | The style clause comes right after the prompt when it applies, otherwise the aspect clause does; the quality clause is always last. |
| GenerateImageFlow.CheckMedia | src/ai/flows/generate-image-flow.ts:92-99 | Missing media, or media without a URL, raises the no-media error; otherwise the output carries the URL and the fixed model id. |
| GenerateImageFlow.GenerateImage | src/ai/flows/generate-image-flow.ts:44-100 | A model failure propagates; otherwise the result is the media check of the reply to the final prompt; every success names the fixed model. |
| SuggestTagsFlow.SuggestTagsAsWritten | src/ai/flows/suggest-tags-flow.ts:63-121 | A missing output raises the no-suggestions error. An object with a tag array returns those tags and the trimmed non-blank prompt. An object without one returns no tags and the raw prompt. A string output whose reparse yields tags throws. |
| SuggestTagsFlow.ReparsedTagsAreLost | src/ai/flows/suggest-tags-flow.ts:86-108 | Any non-empty string output that reparses to a non-empty tag list ends in the string-property exception, not in those tags. |
| SuggestTagsFlow.SuggestTags | src/ai/flows/suggest-tags-flow.ts:63-121 | The corrected flow: it fails exactly on a missing output, and a string output returns its reparsed tags. |
| SuggestTagsFlow.CorrectedAgreesElsewhere | src/ai/flows/suggest-tags-flow.ts:63-121 | The corrected flow agrees with the written one on every input except a successful reparse. |
| ImageActions.GenerateImageAction | src/actions/imageActions.ts:16-45 | An empty prompt is the validation error with details. A flow success returns the data URI, a fresh id, the prompt and the model. A flow failure returns the safety message exactly when the thrown error mentions `SAFETY`, else the generic message. |
| ImageActions.FailureMessage | src/actions/imageActions.ts:37-44 | The safety message exactly for a thrown `Error` whose message contains `SAFETY`. |
| ImageActions.StyleIsDropped | src/actions/imageActions.ts:22-25 | The artistic style a caller passes never changes the action's result. |
| ImageActions.ModelSeesPromptOnly | src/actions/imageActions.ts:25 | The image model receives the user's prompt with nothing appended. |
| ImageActions.MissingMediaIsGenericError | src/actions/imageActions.ts:37-44 | A reply without media reaches the user as the generic error, not as the safety message. |
| ImageActions.SuggestTagsAction | src/actions/imageActions.ts:52-66 | An empty prompt is the validation error; a flow success returns only the tags; any flow failure is the generic suggestion error. |
| ImageActions.SuggestedPromptDropped | src/actions/imageActions.ts:61 | The suggested prompt never affects what the action returns. |
| Labels.GetLabel | src/components/StatisticsDialog.tsx:59-61 | The first matching entry's non-empty label, else the non-empty value, else `N/A`; never empty. |
| Labels.ListedValuesShowLabels | src/components/ImageDetailsDialog.tsx:65-67 | In a list with distinct values and non-empty labels, every listed value shows its own label. |
| Statistics.CountMap | src/components/StatisticsDialog.tsx:32-39 | The counts dictionary has exactly the occurring names as keys, each with its number of occurrences. |
| Statistics.TopCounts | src/components/StatisticsDialog.tsx:40-43 | At most 15 entries, distinct names, counts non-increasing, each count exact; any name left out occurs no more often than the last entry shown. |
| Statistics.FlattenCounts | src/components/StatisticsDialog.tsx:33-39 | Counting over the concatenated present lists counts every occurrence in every list, and skips absent lists. |
| Statistics.ProcessDataForChart | src/components/StatisticsDialog.tsx:31-44 | The top-15 ranking of occurrence counts across all present tag lists, with the same completeness guarantee. |
| Statistics.PresentValues | src/components/StatisticsDialog.tsx:48-52 | Keeps exactly the defined, non-empty values, each as often as it occurs. |
| Statistics.ProcessObjectPropertyForChart | src/components/StatisticsDialog.tsx:46-57 | The top-15 ranking of single optional values, undefined and empty ones skipped. |
| StringSort.SortedUnique | src/components/ImageDetailsDialog.tsx:207-208 | Two sorted lists with the same elements are equal, so the default sort is determined by the multiset alone. |
| TagLists.RemoveTag | src/components/ImageDetailsDialog.tsx:159-161 | Keeps exactly the tags other than the removed one. |
| TagLists.RemoveTagCounts | src/components/GenerationForm.tsx:61-63 | Every copy of the removed tag goes; every other tag keeps its number of copies. |
| TagLists.RemoveTagConcat | src/components/GenerationForm.tsx:61-63 | Removal works piecewise over a concatenation, so the kept tags stay in order. |
| TagLists.RemoveTagKeepsNoDuplicates | src/components/GenerationForm.tsx:61-63 | Removal keeps a list without repeats free of repeats. |
| ImageDetailsDialog.InitialDimensions | src/components/ImageDetailsDialog.tsx:105-117 | The stored size when both sides are truthy, else 300 by 300; neither side is ever 0. |
| ImageDetailsDialog.OpenChange | src/components/ImageDetailsDialog.tsx:89-135 | Opening on an image loads its tags, flag and size and keeps the tag input; closing resets every field; opening without an image changes nothing. |
| ImageDetailsDialog.AddTag | src/components/ImageDetailsDialog.tsx:144-150 | The trimmed input is appended in its own case exactly when it is non-empty and equals no tag ignoring case; the input is cleared either way; nothing else changes. |
| ImageDetailsDialog.TagInputKeyDown | src/components/ImageDetailsDialog.tsx:152-157 | A comma or Enter adds the tag; any other key changes nothing. |
| ImageDetailsDialog.AddTagKeepsNoCaseDuplicates | src/components/ImageDetailsDialog.tsx:144-150 | A tag list without case-insensitive duplicates keeps that property through an add. |
| ImageDetailsDialog.KeyDownKeepsNoCaseDuplicates | src/components/ImageDetailsDialog.tsx:152-157 | Whatever key is pressed in the tag input, a tag list without case-insensitive duplicates keeps that property. |
| ImageDetailsDialog.HasTagsChangedIffMultisetsDiffer | src/components/ImageDetailsDialog.tsx:198-212 | Tags count as changed exactly when the two lists differ as multisets, so a pure reordering is no change. |
| ImageDetailsDialog.OpenedTagsUnchanged | src/components/ImageDetailsDialog.tsx:102 | Right after opening, the tags do not count as changed. |
| ImageDetailsDialog.ResizeRequest | src/components/ImageDetailsDialog.tsx:256-259 | The resize proceeds exactly when both sides are positive; otherwise it shows the fixed error. |
| ImageDetailsDialog.OpenedSizeIsResizable | src/components/ImageDetailsDialog.tsx:105-117 | Opening on an image with absent or non-negative sides leaves a size the resize guard accepts. |
| ImageDetailsDialog.StyleLabelsResolve | src/components/ImageDetailsDialog.tsx:33-49 | Every listed artistic style is shown with its Spanish label. |
| ImageDetailsDialog.AspectAndQualityLabelsResolve | src/components/ImageDetailsDialog.tsx:51-63 | Every listed aspect ratio and quality is shown with its label. |
| GenerationForm.KeyDown | src/components/GenerationForm.tsx:50-59 | On a comma or Enter, the trimmed input becomes a chip exactly when it is non-empty and not already a chip (exact match), and the input is cleared; other keys change nothing. |
| GenerationForm.ChipsStayDistinctAndNonEmpty | src/components/GenerationForm.tsx:50-63 | Key presses and removals both keep the chips distinct and non-empty. |
| GenerationForm.FormAddsWhatDialogAdds | src/components/GenerationForm.tsx:53-55 | Any tag the dialog would add, the form adds too, with the same result. |
| GenerationForm.CaseVariantAddedByFormOnly | src/components/GenerationForm.tsx:54 | `cat` next to an existing `Cat` is added by the form but refused by the dialog. |
| GenerationForm.Join | src/components/GenerationForm.tsx:68 | The joined tags are empty exactly for no tags or one empty tag. |
| GenerationForm.SubmitGuardExact | src/components/GenerationForm.tsx:65-84 | With non-empty chips, submission proceeds exactly for a prompt of 5 to 500 characters and at least one chip. |
| GenerationForm.BuildRecord | src/components/GenerationForm.tsx:107-117 | Each field of the new record comes from the reply when that is truthy, else from its fallback: uuid, form prompt, `Desconocido`, the current time. The record is not a favourite and carries the chips and the original URL. |
| GenerationForm.BuiltRecordHasIdentity | src/components/GenerationForm.tsx:107-117 | With a non-empty uuid and a valid prompt, the record's id, prompt and model are never empty. |
| GenerationForm.HandleReply | src/components/GenerationForm.tsx:88-134 | A truthy error is shown and the chips are kept. A record is emitted, and the chips cleared, exactly on success with a URL and a completed download. A failed download shows the processing error. |
| GenerationForm.Submit | src/components/GenerationForm.tsx:65-134 | A failed guard (in particular no chips) stops before the action is called. An action call that rejects shows the processing error and keeps the chips. Otherwise the reply is handled as above. |
| Pagination.PreviousPage | src/components/PaginationControls.tsx:32-36 | Asks for the previous page exactly when the current page is past the first. |
| Pagination.NextPage | src/components/PaginationControls.tsx:38-42 | Asks for the next page exactly when the current page is before the last. |
| Pagination.FirstPage | src/components/PaginationControls.tsx:44-48 | Asks for page 1 exactly when not already there. |
| Pagination.LastPage | src/components/PaginationControls.tsx:50-54 | Asks for the last page exactly when there is one and it is not the current page. |
| Pagination.NavigationStaysInRange | src/components/PaginationControls.tsx:32-54 | From a page in range, every request is for a page in range and never for the page already shown. |
| Pagination.PreviousNextInverse | src/components/PaginationControls.tsx:32-42 | Previous undoes Next and Next undoes Previous. |
| Pagination.StartItem | src/components/PaginationControls.tsx:56 | 0 when there are no items, else the number of the page's first item. |
| Pagination.EndItem | src/components/PaginationControls.tsx:57 | The page's end capped by the total. |
| Pagination.PagesTile | src/components/PaginationControls.tsx:56-57 | A full page ends right before the next page starts. |
| Pagination.ItemOnItsPage | src/components/PaginationControls.tsx:56-57 | Every item lies within the range shown on its own page. |
| Pagination.ViewFor | src/components/PaginationControls.tsx:63-86 | Skeleton exactly while loading with no items; the simplified bar exactly when idle and either nothing matched or everything fits on one page. |
| Pagination.SimplifiedIffOnePage | src/components/PaginationControls.tsx:86 | With the page count derived from the totals, the idle bar is simplified exactly when all items fit on one page. |
| FilterControls.Step | src/components/FilterControls.tsx:19-32 | Each event updates its own field and reports the whole new state, always with both keys present. |
| FilterControls.ReportedFiltersCarryFlag | src/components/FilterControls.tsx:19-32 | Every reported filter carries a favourite flag, and the last one reported describes the panel's state. |
| FilterControls.SwitchOffHidesFavorites | src/components/FilterControls.tsx:24-27 | As written, once the switch is off, any report hides every favourite from the listing. |
| FilterControls.StepCorrected | src/components/FilterControls.tsx:19-32 | The corrected report sends the flag only when the switch is on. |
| FilterControls.CorrectedSwitchMeaning | src/components/FilterControls.tsx:24-27 | With the corrected report, the switch off filters nothing and the switch on keeps exactly the favourites. |
| HomePage.ToggleFavoriteInList | src/app/page.tsx:60-62 | Only the entries with that id change: the flag is flipped and `updatedAt` set. Length and other entries stay. |
| HomePage.UpdateTagsInList | src/app/page.tsx:83-85 | Only the entries with that id change: the tags are replaced and `updatedAt` set. |
| HomePage.HandleToggleFavorite | src/app/page.tsx:56-67 | The list is rewritten only when the store call returned. |
| HomePage.HandleUpdateTags | src/app/page.tsx:79-90 | The list is rewritten only when the store call returned. |
| HomePage.HandleClearHistory | src/app/page.tsx:101-111 | The list is emptied only when the store call returned. |
| HomePage.ToggleKeepsFilteredListing | src/app/page.tsx:56-67 | Under filters without a favourite flag (in particular none at all), the list rewritten after a toggle with the same clock reading shows exactly what a reload would, newest first. |
| HomePage.UpdateTagsKeepsFilteredListing | src/app/page.tsx:79-90 | Under filters without an active search term, the list rewritten after a tag update with the same clock reading shows exactly what a reload would, newest first. |
| HomePage.ToggleUnderFlagKeepsWhatReloadDrops | src/app/page.tsx:59-63 | As written, under a favourite flag the toggled entry stays in the list although a reload with the same filters leaves it out. |
| HomePage.UpdateTagsUnderSearchKeepsWhatReloadDrops | src/app/page.tsx:82-86 | As written, under a search term an entry whose prompt and new tags no longer contain the term stays in the list although a reload leaves it out. |
| HomePage.ToggleFavoriteAndReload | src/app/page.tsx:56-67 | With the reload the handler's comment mentions, the list after a toggle is exactly the stored records the current filters pass, newest first. |
| HomePage.UpdateTagsAndReload | src/app/page.tsx:79-90 | With the reload, the list after a tag update is exactly the stored records the current filters pass, newest first. |
| HomePage.ClearKeepsListing | src/app/page.tsx:101-111 | After a clear, the empty list lists the emptied store. |
| HomePage.HandleFilterChange | src/app/page.tsx:92-95 | The reported filters become the current ones, and the list is reloaded with exactly the matching records, newest first. |
| ImageCard.TruncatePrompt | src/components/ImageCard.tsx:106 | A prompt of up to 50 code points is shown whole; a longer one is shown as its first 50 code points followed by `...`. |
| ImageCard.TitleShowsPromptStart | src/components/ImageCard.tsx:106 | The title is at most 53 code points, and a shortened title starts with the prompt's first 50. |
| ImageCard.Badges | src/components/ImageCard.tsx:129-136 | At most the first three names are shown, and an overflow badge appears exactly for more than three. |
| ImageCard.BadgesCoverList | src/components/ImageCard.tsx:133-136 | Shown names plus the overflow count give the list's length, and the overflow is positive when present. |
| ImageCard.CollectionBadges | src/components/ImageCard.tsx:142-149 | Absent collections show no badges; otherwise the first three are shown, and an overflow badge counting the rest appears exactly for more than three. |
| ImageCard.SecondPieceOfJoin | src/components/ImageCard.tsx:61 | `split('/')[1]` of `type/subtype` gives back the subtype. |
| ImageCard.Extension | src/components/ImageCard.tsx:61 | The MIME subtype when present and non-empty, else `png`; never empty. |
| ImageCard.DownloadName | src/components/ImageCard.tsx:61 | The name starts with `imagina-ai-`, ends with a dot and a slash-free extension, and in between holds the id's first eight characters (the whole id when it is shorter). |
| ImageCard.DownloadNameOfWellFormedType | src/components/ImageCard.tsx:61 | For any id and a well-formed MIME type, the name is the prefix, the id's first eight characters, a dot and the subtype. |
| ImageCard.SuggestCollections | src/components/ImageCard.tsx:77-91 | The suggested collections are forwarded exactly when the reply succeeded and carries them. Otherwise the reply's error is shown, or a fixed text when it is falsy, or another fixed text when the call threw; the text shown is never empty. |
| ImageCard.EmptySuggestionForwarded | src/components/ImageCard.tsx:81-82 | An empty suggested array is still forwarded, since arrays are truthy. |
| ImageCard.FailureForwardsNothing | src/components/ImageCard.tsx:84-88 | A failed reply, a reply without the field, or a throwing call forwards nothing and shows a non-empty text. |

## Left out

- Dexie internals (schema versions, indexes, migration, transactions) are not modelled: the store is a map and its errors are one opaque failure. The `catch` paths that log and return `[]` or `undefined` are not modelled either.
- ImageStore.UpdateGeneratedImage: the change set cannot delete a field by passing an explicit `undefined`, and cannot change the primary key; `Changes` has no `id`.
- ImageQuery.OrderedScan: only the `createdAt` key is modelled. Among records with equal `createdAt` the order is left open, while IndexedDB orders them by primary key.
- Text.Trim: white space and case mapping are ASCII only; Unicode white space and non-ASCII case are not modelled.
- GenerationForm.SubmitGuardExact: prompt length is counted in characters, not UTF-16 code units.
- ImageCard.TruncatePrompt: lengths and the cut at 50 count code points, while the source counts UTF-16 code units. A prompt with characters outside the Basic Multilingual Plane is cut later than in the source, and a cut that splits a surrogate pair cannot be represented.
- SuggestTagsFlow.SuggestTagsAsWritten: a `tags` array holding non-strings cannot be represented, so it is not modelled. The source would take it down the normal path; the output schema of the model call is expected to reject it first.
- GenerationForm.HandleReply: the form's `reset()` after a success (src/components/GenerationForm.tsx:124) is not modelled, because the prompt field's state is not part of the model; only the chips are cleared.
- Statistics.TopCounts: entries are listed in first-occurrence order. The engine puts integer-like keys first. Since the sort is stable and the cut to 15 comes after it, that order also decides which tied names survive the cut; the contract leaves both open. Names that collide with `Object.prototype` members are not modelled.
- Floating point is not modelled: `formatBytes`, the aspect-ratio recalculation with `Math.round`, canvas resizing, and the `originalAspectRatio` state of the details dialog.
- Browser I/O is not modelled: object URLs, the image URL state, downloads, clipboard, toasts and the console. `fetch` of the generated image is an `Option` parameter.
- The favourite switch inside the details dialog (with its revert on error) and its save handlers are not modelled. Their store effect is `ToggleFavoriteStatus`/`UpdateGeneratedImage`.
- The model calls, `JSON.parse`, uuid generation and `new Date()` are parameters; the safety settings sent to the model are not modelled.
- The reply of `generateImageAction` names its URL `imageDataUri` while the form reads `imageUrl`. The suggestion action returns `tags` while the card reads `suggestedCollections`. Each side is modelled against its own code (`ActionReply`, `SuggestCollections`), and the two are not composed.
- The `suggestedPrompt` field that the details dialog reads is not a field of the record type, so it is not modelled.
- Pagination.PagesFor: the page count is an input of the pagination controls. Deriving it by ceiling division is an assumption used only by `SimplifiedIffOnePage`.
- The count texts of the pagination bar are not modelled.
- `handleImageGenerated` and `handleDeleteImage` on the home page only call the store and reload; they are covered by `AddGeneratedImage`, `DeleteGeneratedImage` and `FilterImages`, with no list logic of their own.
- Searching `collections`, store-level pagination, import/export and a distinct not-found error are absent from the code and not modelled.
- Async ordering and React re-render timing are not modelled: each handler is one atomic step.

## Findings

| source | as written | input that shows it | evidently intended | confidence | as-written member | corrected member |
|---|---|---|---|---|---|---|
| src/ai/flows/suggest-tags-flow.ts:108 | When the output is a string whose reparse yields tags, the flow assigns `tags` on that string primitive, which throws in strict module code. | the output `{"tags":["a"]}` arriving as a string | return the reparsed tags | not executed | SuggestTagsFlow.SuggestTagsAsWritten | SuggestTagsFlow.SuggestTags |
| src/app/page.tsx:59-63 | After a successful toggle the list is rewritten in place, and the reload is commented out. Under "favourites only", an image just unmarked stays on screen. | the switch on, then unmarking a shown favourite | the list shows what a reload with the current filters shows | not executed | HomePage.ToggleUnderFlagKeepsWhatReloadDrops | HomePage.ToggleFavoriteAndReload |
| src/components/FilterControls.tsx:24-27 | Every report sends `isFavorite: false` when the switch is off. The store (src/lib/db.ts:94-96) then keeps only non-favourites. | the switch off, with any favourite record | the switch "show only favourites" off shows all images | not executed | FilterControls.SwitchOffHidesFavorites | FilterControls.StepCorrected |
