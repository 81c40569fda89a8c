# JSON2Video node: a verified model of its data logic

This project models the part of the JSON2Video n8n community node that
builds what the node sends to the JSON2Video API. It has two sources.

- **The template loader** (`templateLoader.ts`). It holds the registry of
  bundled templates and builds the category and template options from it.
  Its classifiers guess what role an element of a scene plays: title,
  subtitle, body text or logo. Its rewriters change the scenes of a movie
  document in place: text, media sources and background colours.
  `applyTemplateCustomizations` runs them in a fixed order.
- **The data logic of the node's `execute`** (`JSON2Video.node.ts`).
  For each input item it does the following:
  - merges the movie settings;
  - takes the scenes from a JSON definition, or builds them from the
    simple scene editor;
  - replaces zero durations by 1;
  - collects the template variables;
  - derives the file name and extension of an upload and checks them
    against the allow-list of its file type;
  - gathers the results in `returnData`, either stopping at the first
    failure or, with "continue on fail", leaving an `{error}` entry and
    moving on.

JSON documents are the value type `Json` (module `JsonValues`). It models
JavaScript's truthiness, nullish reads (`undefined` for a missing key, a
`TypeError` message when reading a property of `null` or `undefined`) and
`=== 0`.

The module structure:

- The rewriters mutate a `MovieDocument` object. They are methods with
  loops, proved against the functions `EditedScenes`, `RecoloredScenes`
  and `Customized`.
- Each step of `execute` is a method proved against a specification
  function. The per-item loop is `Execute.Execute`, proved equal to
  `Execute.Run`.
- The outside world is one `Services` value. It holds:
  - the HTTP client;
  - the template loader's file access;
  - the download of a URL;
  - the clock;
  - the random part of a file name.

  The node reads these answers as parameters.

## Model

| member | source | states |
|---|---|---|
| TemplateRegistry.Capitalized | nodes/JSON2Video/templateLoader.ts:44 | the display name has the key's length, upper-cases the first character and keeps the rest |
| TemplateRegistry.TemplateCategories | nodes/JSON2Video/templateLoader.ts:41-46 | one option per registry category, in registry order, valued by the key and named by the capitalised key |
| TemplateRegistry.Lookup | nodes/JSON2Video/templateLoader.ts:53-57 | a category key is absent exactly when no registry entry has it; a found value is the template table of an entry with that key |
| TemplateRegistry.EntryOptions | nodes/JSON2Video/templateLoader.ts:59-62 | one option per template entry, in order, valued by the template key and named by its display name |
| TemplateRegistry.TemplatesForCategory | nodes/JSON2Video/templateLoader.ts:51-63 | the reference definition of getTemplatesForCategory: the options of the category's templates, or none for an unknown category (its properties are TemplatesForCategorySpec and OfferedCategoriesHaveTemplates) |
| TemplateRegistry.TemplatesInSpec | nodes/JSON2Video/templateLoader.ts:51-63 | for any registry with distinct keys, an unknown category yields no options and a known one yields exactly its templates' options |
| TemplateRegistry.TemplatesForCategorySpec | nodes/JSON2Video/templateLoader.ts:51-63 | the same for the bundled registry |
| TemplateRegistry.RegistryKeysDistinct | nodes/JSON2Video/templateLoader.ts:13-36 | the bundled registry has distinct category keys and distinct template keys in each category |
| TemplateRegistry.RegistryHasNoEmptyCategory | nodes/JSON2Video/templateLoader.ts:13-36 | every bundled category lists at least one template |
| TemplateRegistry.TemplatesOnlyForOffered | nodes/JSON2Video/templateLoader.ts:41-63 | a category that has templates is one of the offered categories |
| TemplateRegistry.OfferedHaveTemplates | nodes/JSON2Video/templateLoader.ts:41-63 | in a registry without empty categories, every offered category has templates |
| TemplateRegistry.OfferedCategoriesHaveTemplates | nodes/JSON2Video/templateLoader.ts:41-63 | for the bundled registry, a category has templates if and only if the category list offers it |
| Classifiers.TextLength | nodes/JSON2Video/templateLoader.ts:120-133 | the `length` of a string or array text, and no length for any other value |
| Classifiers.IsLikelyTitle | nodes/JSON2Video/templateLoader.ts:118-134 | true when the font size is large; otherwise true exactly for a non-empty text shorter than 60 |
| Classifiers.IsLikelySubtitle | nodes/JSON2Video/templateLoader.ts:139-150 | true when `y` is a number above 100; otherwise true exactly for a text longer than 30 and shorter than 120 |
| Classifiers.IsLikelyBodyText | nodes/JSON2Video/templateLoader.ts:155-161 | true exactly for a text longer than 60 |
| Classifiers.IsLikelyLogo | nodes/JSON2Video/templateLoader.ts:166-182 | true exactly when a numeric width or height is nonzero and below 200, or `x` is a number equal to 0 or above 1500 while `y` is a number below 100 |
| Classifiers.TitleAndBodyPartitionStrings | nodes/JSON2Video/templateLoader.ts:118-161 | with no large font, a non-empty string text is a title or body text and never both; length 60 is neither |
| Customizer.RetextSlot | nodes/JSON2Video/templateLoader.ts:213-237 | a settings slot whose `text` is falsy is kept; otherwise only its `text` is replaced, as an array when it was one |
| Customizer.RetextSettings | nodes/JSON2Video/templateLoader.ts:209-239 | keeps the settings' keys and rewrites only the slot that belongs to the text type |
| Customizer.TextRewritten | nodes/JSON2Video/templateLoader.ts:195-240 | only `text` and `settings` can change: a selected text element gets the new text and its slot is rewritten, every other key keeps its value |
| Customizer.MediaRewritten | nodes/JSON2Video/templateLoader.ts:255-273 | only `src` changes, and only in an element selected for the media type (logos by the logo test) |
| Customizer.EditedItems | nodes/JSON2Video/templateLoader.ts:190-241 | one edited element per element, in order |
| Customizer.EditedScenes | nodes/JSON2Video/templateLoader.ts:187-275 | as many scenes as before, still well formed |
| Customizer.EditedScenesShape | nodes/JSON2Video/templateLoader.ts:187-275 | a scene without an elements array is kept; otherwise only its `elements` changes, to the edited elements |
| Customizer.RecoloredScenes | nodes/JSON2Video/templateLoader.ts:280-286 | the reference definition of replaceBackgroundColorInTemplate's result: as many scenes as before, still well formed (contents in RecoloredScenesSpec) |
| Customizer.RecoloredScenesSpec | nodes/JSON2Video/templateLoader.ts:280-286 | every scene gets the new `background-color` and keeps every other key |
| Customizer.OptionallyEdited | nodes/JSON2Video/templateLoader.ts:301-329 | a falsy override leaves the scenes as they were |
| Customizer.CustomizedScenes | nodes/JSON2Video/templateLoader.ts:291-330 | the seven guarded passes keep the number of scenes and their shape |
| Customizer.Customized | nodes/JSON2Video/templateLoader.ts:291-330 | the reference definition of applyTemplateCustomizations' result: the body unchanged without a truthy scenes array, otherwise its scenes replaced by CustomizedScenes (proved against the method ApplyTemplateCustomizations) |
| Customizer.ScenesOverwritten | nodes/JSON2Video/templateLoader.ts:301-329 | each successive pass overwrites the scenes the previous one wrote and nothing else |
| Customizer.TitleOverrideExample | nodes/JSON2Video/templateLoader.ts:195-205 | a short title element with no settings gets the `mainTitle` override |
| Customizer.MediaRewriteIdempotent | nodes/JSON2Video/templateLoader.ts:255-273 | rewriting a media element twice gives what rewriting it once gives |
| Customizer.MediaEditIdempotent | nodes/JSON2Video/templateLoader.ts:247-275 | replaceMediaInTemplate called twice with the same arguments equals one call |
| Customizer.RecolorIdempotent | nodes/JSON2Video/templateLoader.ts:280-286 | replaceBackgroundColorInTemplate called twice equals one call |
| Customizer.UnselectedElementUnchanged | nodes/JSON2Video/templateLoader.ts:195-273 | an element that a pass does not select (no matching media type or logo, no classifier hit, no component container with a truthy `text`) is left exactly as it was |
| Customizer.UnselectedPassIsNoOp | nodes/JSON2Video/templateLoader.ts:187-275 | a pass in which no element of any scene is selected leaves the scenes unchanged |
| Customizer.CustomizedWithoutOverridesIsNoOp | nodes/JSON2Video/templateLoader.ts:291-330 | a document without a scenes array, or customised with every override falsy, is left unchanged |
| Customizer.MovieDocument.constructor | nodes/JSON2Video/templateLoader.ts:187 | the document object holds the given body |
| Customizer.ReplaceTextInTemplate | nodes/JSON2Video/templateLoader.ts:187-242 | in place, the document's scenes become the text-edited scenes; every other key is kept |
| Customizer.ReplaceMediaInTemplate | nodes/JSON2Video/templateLoader.ts:247-275 | in place, the document's scenes become the media-edited scenes; every other key is kept |
| Customizer.ReplaceBackgroundColorInTemplate | nodes/JSON2Video/templateLoader.ts:280-286 | in place, every scene of the document gets the new background colour; every other key is kept |
| Customizer.ApplyEdit | nodes/JSON2Video/templateLoader.ts:301-323 | one guarded override: with a truthy value the pass runs, otherwise nothing changes |
| Customizer.ApplyTemplateCustomizations | nodes/JSON2Video/templateLoader.ts:291-330 | in place, the document becomes `Customized` of the old one: the title, subtitle and body text passes, then the image, video and logo passes, then the colour, each only when its override is truthy |
| MovieConfig.Merged | nodes/JSON2Video/JSON2Video.node.ts:908-940 | the reference definition of the merge, as one map over the base's keys and the copied settings (read back by MergedGet) |
| MovieConfig.DisplayStepsMerge | nodes/JSON2Video/JSON2Video.node.ts:911-923 | the resolution, width and height copies together merge those three settings |
| MovieConfig.ApplyMovieConfig | nodes/JSON2Video/JSON2Video.node.ts:908-940 | each key reads the copied setting when the merge copies it and the base value otherwise; the keys are the base's plus the copied ones; the result is `Merged` |
| MovieConfig.MergeStep | nodes/JSON2Video/JSON2Video.node.ts:908-940 | each guarded copy extends a merge that is correct for the keys done so far by one key |
| MovieConfig.StepsMerge | nodes/JSON2Video/JSON2Video.node.ts:908-940 | the seven guarded copies, in the node's order, merge every setting |
| MovieConfig.MergeComplete | nodes/JSON2Video/JSON2Video.node.ts:908-940 | a merge done for every setting reads as the copied setting or the base value, key by key |
| MovieConfig.StepsAreTheMerge | nodes/JSON2Video/JSON2Video.node.ts:908-940 | the seven guarded copies equal `Merged` |
| MovieConfig.MergedIsTheMerge | nodes/JSON2Video/JSON2Video.node.ts:1208-1239 | two maps that agree with the merge on every read and every key are `Merged` |
| MovieConfig.OnlyConfigKeysCopied | nodes/JSON2Video/JSON2Video.node.ts:908-940 | only the seven settings, and only those present in the config, are ever copied |
| MovieConfig.MergedGet | nodes/JSON2Video/JSON2Video.node.ts:1208-1239 | reads and key membership of `Merged`, for the template body as well |
| SceneBuilder.JsonScenes | nodes/JSON2Video/JSON2Video.node.ts:965-984 | fails exactly on a parse error or a nullish definition, with the "Invalid JSON in movie definition: " prefix; otherwise returns a truthy `scenes`, a definition that is an array, or the definition wrapped as one scene |
| SceneBuilder.GroupList | nodes/JSON2Video/JSON2Video.node.ts:1014-1088 | a truthy element group is its list and a falsy one is empty |
| SceneBuilder.BuildElement | nodes/JSON2Video/JSON2Video.node.ts:1014-1088 | a built element carries the API type of its kind |
| SceneBuilder.BuildElementFields | nodes/JSON2Video/JSON2Video.node.ts:1014-1088 | texts carry `text` and media carry `src`; `x` and `y` only for custom-positioned texts and images; `resize` only for truthy images and videos; the duration is copied |
| SceneBuilder.BuiltElementsAt | nodes/JSON2Video/JSON2Video.node.ts:1014-1088 | the built elements of a group are its entries built one by one, in order |
| SceneBuilder.PushElements | nodes/JSON2Video/JSON2Video.node.ts:1014-1088 | pushing a group appends its built elements |
| SceneBuilder.BuildSceneElements | nodes/JSON2Video/JSON2Video.node.ts:1012-1088 | the element list of a scene is texts, then images, then videos, then audio |
| SceneBuilder.BuildScene | nodes/JSON2Video/JSON2Video.node.ts:1003-1099 | the scene object the simple builder pushes |
| SceneBuilder.BuildSimpleScene | nodes/JSON2Video/JSON2Video.node.ts:998-1099 | scene `i` of the built list |
| SceneBuilder.SimpleScenes | nodes/JSON2Video/JSON2Video.node.ts:986-1100 | the reference definition of the simple builder's scene list (read back by SimpleSceneAt) |
| SceneBuilder.BuildSimpleScenes | nodes/JSON2Video/JSON2Video.node.ts:986-1100 | the scenes are `SimpleScenes` of the entries |
| SceneBuilder.SimpleSceneAt | nodes/JSON2Video/JSON2Video.node.ts:986-1100 | one scene per entry, each built from that entry |
| SceneBuilder.ElementsOmittedWhenEmpty | nodes/JSON2Video/JSON2Video.node.ts:1090-1093 | a scene has `elements` exactly when some group is non-empty, and then it holds them |
| SceneBuilder.ElementsOrderedByKind | nodes/JSON2Video/JSON2Video.node.ts:1012-1088 | every element's type matches its position's kind, and kinds never go back in the order text, image, video, audio |
| Durations.FixedDuration | nodes/JSON2Video/JSON2Video.node.ts:1106-1121 | a zero duration becomes 1; every other value and key is kept |
| Durations.FirstNullish | nodes/JSON2Video/JSON2Video.node.ts:1103-1123 | a helper: the value it finds is nullish (what it finds is characterised by FirstNullishSpec) |
| Durations.FirstNullishSpec | nodes/JSON2Video/JSON2Video.node.ts:1103-1123 | nothing is found exactly when no visited value is nullish; a found value was visited |
| Durations.FirstNullishAppend | nodes/JSON2Video/JSON2Video.node.ts:1103-1123 | the search over two parts finds the first part's value if it has one |
| Durations.VisitOrderAppend | nodes/JSON2Video/JSON2Video.node.ts:1103-1123 | the visit order of two scene lists is the concatenation of theirs |
| Durations.VisitOrderMembers | nodes/JSON2Video/JSON2Video.node.ts:1103-1123 | the pass visits exactly each scene and each element of a scene's elements array |
| Durations.NormalizeElements | nodes/JSON2Video/JSON2Video.node.ts:1112-1120 | fails exactly when an element is nullish, with the `TypeError` of reading its `duration`; otherwise each element is normalised |
| Durations.NormalizeScene | nodes/JSON2Video/JSON2Video.node.ts:1105-1121 | the same for one scene and its elements |
| Durations.Normalized | nodes/JSON2Video/JSON2Video.node.ts:1103-1123 | the reference definition of the duration pass: the error of the first nullish scene or element visited, or every scene normalised (properties in PassFailsIffNullRead, PassRemovesZeroDurations, PassKeepsEverythingElse, PassIdempotent) |
| Durations.NormalizeDurations | nodes/JSON2Video/JSON2Video.node.ts:1103-1123 | the loop returns `Normalized` of the scenes |
| Durations.VisitPrefix | nodes/JSON2Video/JSON2Video.node.ts:1103-1123 | one more scene adds that scene and its elements to the visit order |
| Durations.VisitSplit | nodes/JSON2Video/JSON2Video.node.ts:1103-1123 | the visit order splits after any scene |
| Durations.FirstNullishReached | nodes/JSON2Video/JSON2Video.node.ts:1103-1123 | with a clean prefix, the first nullish value is found in the next scene or later |
| Durations.PassFailsIffNullRead | nodes/JSON2Video/JSON2Video.node.ts:1103-1123 | the pass fails if and only if it reads a property of a nullish scene or element |
| Durations.PassRemovesZeroDurations | nodes/JSON2Video/JSON2Video.node.ts:1103-1123 | after a successful pass no scene or element has a zero duration, and every other duration, negatives included, is unchanged; each visited element, object or not, is exactly that element normalised, so an object stays an object and a primitive is untouched |
| Durations.PassKeepsEverythingElse | nodes/JSON2Video/JSON2Video.node.ts:1103-1123 | the pass keeps the number and order of scenes, their keys, and every value but the durations and elements; an `elements` it does not visit (absent, falsy, not an array, or empty) is kept as it was, and `elements` stays an array exactly when it was one |
| Durations.NormalizedElementKeepsFields | nodes/JSON2Video/JSON2Video.node.ts:1112-1120 | an element keeps its keys and every value but a zero duration |
| Durations.PassLeavesNoNullRead | nodes/JSON2Video/JSON2Video.node.ts:1103-1123 | a successfully normalised list reads nothing nullish |
| Durations.NullishVisitKept | nodes/JSON2Video/JSON2Video.node.ts:1103-1123 | a nullish value visited after normalising a scene was visited before it |
| Durations.PassIdempotent | nodes/JSON2Video/JSON2Video.node.ts:1241-1261 | normalising an already normalised list succeeds and changes nothing |
| Durations.NormalizedSceneIdempotent | nodes/JSON2Video/JSON2Video.node.ts:1103-1123 | normalising one scene twice equals normalising it once |
| TemplateVariables.Variables | nodes/JSON2Video/JSON2Video.node.ts:1268-1275 | the reference definition of the variables object (properties in VariablesKeys and VariablesLastWins) |
| TemplateVariables.CollectVariables | nodes/JSON2Video/JSON2Video.node.ts:1263-1284 | the loop returns `Variables` of the entries |
| TemplateVariables.VariablesKeys | nodes/JSON2Video/JSON2Video.node.ts:1263-1284 | a name is set if and only if some entry with that name is kept: a truthy name and a defined value |
| TemplateVariables.VariablesLastWins | nodes/JSON2Video/JSON2Video.node.ts:1263-1284 | a name's value comes from the last kept entry with that name |
| TemplateVariables.VariablesSetIffOneSurvives | nodes/JSON2Video/JSON2Video.node.ts:1279-1284 | the body gets `variables` when an entry is kept, and is left unchanged when none is |
| Upload.MimeTypeExtension | nodes/JSON2Video/JSON2Video.node.ts:1312-1324 | a listed MIME type maps to its table extension and any other to `jpg`; the result is one of six extensions |
| Upload.HashFileName | nodes/JSON2Video/JSON2Video.node.ts:1305-1310 | the generated name ends in a dot and the extension |
| Upload.UrlExtension | nodes/JSON2Video/JSON2Video.node.ts:1369-1372 | the reference definition of the URL extension (properties in UrlExtensionSpec, UrlWithoutDot, UrlEndingIn) |
| Upload.FromBinary | nodes/JSON2Video/JSON2Video.node.ts:1332-1358 | the reference definition of the binary input: a missing binary or binary property is an error; the extension is the lower-cased file-name suffix or the MIME extension |
| Upload.FromUrl | nodes/JSON2Video/JSON2Video.node.ts:1359-1399 | the reference definition of the URL input: an empty URL or a failed download is an error; a content type overrides the URL extension |
| Upload.Derived | nodes/JSON2Video/JSON2Video.node.ts:1326-1407 | the reference definition of the dispatch on the input method, with an empty extension for an unknown one |
| Upload.Prepared | nodes/JSON2Video/JSON2Video.node.ts:1326-1422 | the reference definition of the prepared upload: the derived one, or the allow-list's rejection (properties in RejectedIff, GeneratedNameMatchesExtension) |
| Upload.DeriveFromBinary | nodes/JSON2Video/JSON2Video.node.ts:1332-1358 | returns `FromBinary`: a missing binary property is an error, and the extension comes from the file name or the MIME type |
| Upload.DeriveFromUrl | nodes/JSON2Video/JSON2Video.node.ts:1359-1399 | returns `FromUrl`: the extension comes from the content type or else from the URL |
| Upload.DeriveUpload | nodes/JSON2Video/JSON2Video.node.ts:1326-1407 | returns `Derived`, dispatching on the input method |
| Upload.PrepareUpload | nodes/JSON2Video/JSON2Video.node.ts:1326-1422 | returns `Prepared`: the derived upload, or its rejection by the allow-list |
| Upload.BeforeFirstOfJoined | nodes/JSON2Video/JSON2Video.node.ts:1371 | the text before the first separator of a joined string is its head |
| Upload.AfterLastOfJoined | nodes/JSON2Video/JSON2Video.node.ts:1369 | the text after the last separator of a joined string is its tail |
| Upload.MimeTableExtensionsAllowed | nodes/JSON2Video/JSON2Video.node.ts:1312-1324 | every listed MIME type's extension is allowed for its own file type |
| Upload.UnlistedMimeTypeFitsOnlyImages | nodes/JSON2Video/JSON2Video.node.ts:1312-1324 | the `jpg` fallback is allowed for images only |
| Upload.LowerKeepsPunctuation | nodes/JSON2Video/JSON2Video.node.ts:1369 | lower-casing neither adds nor removes a non-letter |
| Upload.UrlExtensionSpec | nodes/JSON2Video/JSON2Video.node.ts:1369-1372 | the URL extension is the lower-cased text after the last dot, cut before the first `?`, or `jpg` when that text is empty |
| Upload.CutAtQuestion | nodes/JSON2Video/JSON2Video.node.ts:1370-1372 | cutting at `?` leaves a prefix with no `?` that ends at the first `?` |
| Upload.UrlWithoutDot | nodes/JSON2Video/JSON2Video.node.ts:1369-1372 | a URL without a dot has its whole lower-cased text, cut at `?`, as its extension |
| Upload.RejectedIff | nodes/JSON2Video/JSON2Video.node.ts:1409-1422 | an upload is rejected exactly when its extension is empty, its file type unknown, or the extension not in the type's list, with the node's message |
| Upload.UnknownFileTypeRejected | nodes/JSON2Video/JSON2Video.node.ts:1409-1422 | a file type other than image, video or audio is always rejected |
| Upload.UnknownInputMethodRejected | nodes/JSON2Video/JSON2Video.node.ts:1326-1422 | an unknown input method leaves the extension empty and is rejected |
| Upload.GeneratedNameMatchesExtension | nodes/JSON2Video/JSON2Video.node.ts:1332-1399 | an accepted binary or URL upload is named by the hash and its allowed extension; a URL with a content type takes the MIME extension |
| Upload.UrlEndingIn | nodes/JSON2Video/JSON2Video.node.ts:1369-1372 | a URL ending in a dot and lower-case letters has those letters as its extension |
| Upload.WebmUrlExtension | nodes/JSON2Video/JSON2Video.node.ts:1369-1417 | a `.webm` URL without a content type yields the allowed video extension `webm` |
| Upload.WebmServedAsWebmRefused | nodes/JSON2Video/JSON2Video.node.ts:1312-1422 | a video URL served as `video/webm` is rejected as `jpg`, because the MIME table has no webm entry |
| Execute.MovieBody | nodes/JSON2Video/JSON2Video.node.ts:906-1123 | the reference definition of the createMovie body (properties in NoEntriesNoScenes, SimpleModeSendsBuiltScenes, JsonModeExample) |
| Execute.LoadedTemplate | nodes/JSON2Video/JSON2Video.node.ts:1158-1203 | the reference definition of the template load: the missing-selection or load-failure error, or the template without `_debug` and the debug entry it pushes |
| Execute.TemplateBody | nodes/JSON2Video/JSON2Video.node.ts:1208-1284 | the reference definition of the createMovieFromTemplate body (properties in TemplateBodySpec, DebugInfoHandling) |
| Execute.UploadOutcome | nodes/JSON2Video/JSON2Video.node.ts:1299-1462 | the reference definition of the uploadFile outcome (properties in UploadRecordSpec) |
| Execute.ItemResult | nodes/JSON2Video/JSON2Video.node.ts:900-1462 | the reference definition of one item's outcome, dispatched on the operation |
| Execute.Collected | nodes/JSON2Video/JSON2Video.node.ts:898-1471 | the reference definition of `returnData` after a run's outcomes (properties in RunFailsAtFirstFailure, ContinueOnFailNeverFails, FailedItemLeavesErrorEntry, RunWithoutFailures) |
| Execute.Run | nodes/JSON2Video/JSON2Video.node.ts:898-1471 | the reference definition of the whole run (proved against the method Execute) |
| Execute.StatusOutcomeSpec | nodes/JSON2Video/JSON2Video.node.ts:1140-1157 | checkMovieStatus sends one GET of `/movies` with only the project id as query and no body, and pushes the response exactly when the request succeeds |
| Execute.Outcomes | nodes/JSON2Video/JSON2Video.node.ts:898-1471 | one outcome per input item |
| Execute.NormalizeBody | nodes/JSON2Video/JSON2Video.node.ts:1103-1123 | the duration pass runs only on a truthy scenes array |
| Execute.BuildMovieBody | nodes/JSON2Video/JSON2Video.node.ts:906-1123 | the createMovie body: the merged settings, then the scenes of the input method, normalised |
| Execute.PostMovie | nodes/JSON2Video/JSON2Video.node.ts:1127-1139 | POSTs the body to `/movies` and pushes the response |
| Execute.CreateMovie | nodes/JSON2Video/JSON2Video.node.ts:904-1139 | returns the createMovie outcome |
| Execute.CheckMovieStatus | nodes/JSON2Video/JSON2Video.node.ts:1140-1157 | GETs `/movies` with the project id as a query and pushes the response |
| Execute.BuildTemplateBody | nodes/JSON2Video/JSON2Video.node.ts:1208-1284 | the template under the merged settings, normalised, with the collected variables |
| Execute.CreateMovieFromTemplate | nodes/JSON2Video/JSON2Video.node.ts:1158-1298 | the template outcome: a missing selection or a load failure is an error; the debug entry is pushed before the POST |
| Execute.UploadFile | nodes/JSON2Video/JSON2Video.node.ts:1299-1462 | returns the upload outcome |
| Execute.ProcessItem | nodes/JSON2Video/JSON2Video.node.ts:900-1462 | item `i` under its operation |
| Execute.Execute | nodes/JSON2Video/JSON2Video.node.ts:898-1471 | returns `Run`: every item's pushed entries in order, with an `{error}` entry for each failure when failures are continued, or else the first failure's error |
| Execute.CollectedKeepsFirstError | nodes/JSON2Video/JSON2Video.node.ts:1464-1471 | once a prefix of the run fails, the whole run fails with the same error |
| Execute.ContinueOnFailNeverFails | nodes/JSON2Video/JSON2Video.node.ts:1464-1471 | with "continue on fail" the run never fails |
| Execute.FailedItemLeavesErrorEntry | nodes/JSON2Video/JSON2Video.node.ts:1464-1468 | with "continue on fail" a failed item adds what it pushed and then its `{error}` entry |
| Execute.RunFailsAtFirstFailure | nodes/JSON2Video/JSON2Video.node.ts:1464-1471 | without "continue on fail" the run fails if and only if an item fails, and it fails with the first failure's message |
| Execute.RunWithoutFailures | nodes/JSON2Video/JSON2Video.node.ts:898-1471 | with no failing item the run returns every item's entries in order |
| Execute.NormalizedBodySpec | nodes/JSON2Video/JSON2Video.node.ts:1103-1123 | normalising keeps the body's keys and every value but the scenes, which stay an array exactly when they were one |
| Execute.NoEntriesNoScenes | nodes/JSON2Video/JSON2Video.node.ts:986-1100 | the simple editor with no scene entries sends the merged settings and no `scenes` |
| Execute.SimpleModeSendsBuiltScenes | nodes/JSON2Video/JSON2Video.node.ts:986-1123 | the simple editor's body succeeds exactly when its built scenes normalise, and then carries them |
| Execute.TemplateBodySpec | nodes/JSON2Video/JSON2Video.node.ts:1208-1284 | the template body reads each setting from the merge over the template, and `variables` from the collected variables when one is kept |
| Execute.DebugInfoHandling | nodes/JSON2Video/JSON2Video.node.ts:1180-1203 | a truthy `_debug` never reaches the request body; a falsy one passes through unchanged |
| Execute.DebugRecordComesFirst | nodes/JSON2Video/JSON2Video.node.ts:1180-1298 | a template with debug info pushes its debug entry first, and a second entry only when the POST succeeds |
| Execute.UploadRecordSpec | nodes/JSON2Video/JSON2Video.node.ts:1409-1462 | a successful upload passed the allow-list and pushes one record whose response fields win over the node's own |
| Execute.ContinueOnFailBatchExample | nodes/JSON2Video/JSON2Video.node.ts:1464-1471 | a batch of success, failure, success returns the first entry, an `{error}` entry and the third entry |
| Execute.JsonModeExample | nodes/JSON2Video/JSON2Video.node.ts:965-1123 | a JSON definition with a zero-duration scene and element is sent with both durations set to 1 |

## Left out

- HTTP is not modelled. `Services.request` supplies the response or
  the error message. The API-key header, credentials and a failing
  `getCredentials` are left out.
- The template loader's file reading (`loadTemplate`) is a parameter, so
  the paths it tries are not modelled.
- The clock and `Math.random` are parameters indexed by the item.
  `generateHashFilename` draws a fresh hash on each call, but the model
  uses one hash per item.
- `JSON.parse` is a parameter that returns the parsed value or its error
  message.
- Buffer base64 encoding is not modelled. The binary and download data
  are given as base64 text.
- Console logging and the upload error log are not modelled.
- The `template` input method of createMovie reads an undeclared
  parameter. Its default `{}` leaves the body as the merge made it, and
  only that is modelled.
- The font-size parse in `isLikelyTitle` is the parameter `fontIsLarge`.
  It is consulted only when `settings` and its `font-size` are truthy.
- Classifiers.IsLikelyTitle: a truthy `font-size` that is not a string
  (a number such as 32, or `true`) and does not parse above 40 makes the
  source throw a `TypeError`, because it calls `includes` on it. That
  error would abort replaceTextInTemplate and applyTemplateCustomizations
  partway through. The total `fontIsLarge` cannot express it, so the
  model answers instead of failing.
- Classifiers.TextLength: JavaScript reads `length` from any value. An
  object text with its own `length` key (such as `{"length": 10}`) has a
  length in the source and none in the model.
- JSON objects are values, so the model has no aliasing. When one object
  appears twice in the scenes, in-place mutation would change both
  copies; the model does not capture this. The duration pass is
  modelled on values.
- The rewriters assume scenes and element lists hold objects, which is
  the node's TypeScript type. A `null` entry would throw a `TypeError` in
  the node; this is not modelled (`Customizer.Customizable`).
- Lengths count characters, not UTF-16 code units. Case mapping is
  ASCII only.
- Objects have no prototype. Looking up `constructor` or `toString` in
  the extension or MIME tables finds nothing.
- Execute.UploadRecordSpec: for a response that is not an object the
  model adds nothing to the upload record. JavaScript's spread would add
  a string's or an array's index keys ("0", "1", …) with its characters
  or items. Decimal index keys are not modelled.
- The simple editor's collections have the shape the node's form gives
  them. `SceneBuilder.EntryWellTyped` and `SceneBuilder.GroupWellTyped`
  require each scene entry to be an object and each element group to be
  empty or an array of objects. Other shapes would make the node read
  properties of non-objects; those are not modelled.
- Variable names and string parameters are strings.
  `TemplateVariables.NamesAreStrings` excludes names of other types.
- Several steps of `execute` are factored into their own methods, such
  as `Execute.PostMovie` and `Durations.NormalizeScene`. In the source
  the same code is inline.
- In createMovieFromTemplate the node normalises durations before adding
  `variables`. The model follows that order.
