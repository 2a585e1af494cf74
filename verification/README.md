# EcoScan core, modelled in Dafny

EcoScan is a single-page app. It photographs a waste item, asks a generative
model whether the item is recyclable, suggests reuse ideas with an AI-drawn
visualisation and finds nearby recycling centers. It rewards each scan with
points and a level.

This project models the app's decision logic as Dafny:
- the browser-side image preparation (`components/ImageUploader.tsx`);
- the three service calls' post-processing (`services/geminiService.ts`);
- the App component's session state and its stats reducer (`App.tsx`);
- the arithmetic of the profile modal (`components/GamificationModal.tsx`);
- the rendering decisions of the result card (`components/ResultCard.tsx`).

Files:
- `wrappers.dfy` holds `Option`/`Result`.
- `types.dfy` holds the records of `types.ts`.
- `text.dfy` holds the JavaScript string helpers: `trim`, `startsWith`, and `split(',')[1]`.
- There is one file per source module: `image_uploader.dfy`, `gemini_service.dfy`, `gamification_modal.dfy`, `result_card.dfy`, `app.dfy`.

The remote calls, the canvas and the geolocation API are not modelled.
Their outcomes are inputs to the model:
- a reply datatype per call;
- the decoded image size;
- whether a 2D context exists;
- the JPEG data URL the canvas produces;
- `JSON.parse` as a function parameter.

The App's handlers are asynchronous. Each `setState` step is one method of the class `App.Session`. `App.Session.HandleImageSelected` composes those steps the way `handleImageSelected` does.

## Model

| member | source | states |
|---|---|---|
| Text.TrimStart | services/geminiService.ts:100 | The result is a suffix of the input. Everything dropped is JavaScript whitespace. The result starts with a non-whitespace character or is empty. |
| Text.TrimEnd | services/geminiService.ts:100 | The result is a prefix of the input. Everything dropped is whitespace. The result ends with a non-whitespace character or is empty. |
| Text.Trim | services/geminiService.ts:100 | The result is a slice of the input. Everything before and after the slice is whitespace, and the slice has no whitespace at either end. |
| Text.FramedAfterBothEnds | services/geminiService.ts:100 | Dropping a whitespace-only prefix and then a whitespace-only suffix leaves a slice with only whitespace outside it. |
| Text.TrimIdempotent | services/geminiService.ts:100 | Trimming twice equals trimming once. |
| Text.TrimOfTrimmed | services/geminiService.ts:100 | A string with no whitespace at either end is left unchanged by trim. |
| Text.FirstComma | components/ImageUploader.tsx:51 | The result lies in [-1, length). It is -1 exactly when there is no comma; otherwise it indexes a comma with none before it. |
| Text.StartsWith | components/ImageUploader.tsx:72 | `startsWith` holds exactly when the prefix is no longer than the string and agrees with it character by character. |
| Text.IsJsWhitespace | services/geminiService.ts:100 | Space, tab, line feed and carriage return are trimmed. No visible ASCII character is, so JSON braces and backticks survive `trim`. |
| Types.Truthy | services/geminiService.ts:94 | A string is truthy exactly when it is present and non-empty. |
| GeminiService.CarriesImage | services/geminiService.ts:135 | A part carries an image exactly when it has inline data whose `data` is present and non-empty. |
| GeminiService.Interpolated | services/geminiService.ts:136 | A present string is interpolated as itself; an absent one reads "undefined". |
| GeminiService.HasMapsPlace | services/geminiService.ts:174 | A maps place is taken exactly when the chunk has maps data whose title and URI are both present and non-empty. |
| GeminiService.HasWebPlace | services/geminiService.ts:183 | A web place is taken exactly when the chunk has web data whose URI and title are both present and non-empty. |
| GeminiService.ReplyChunks | services/geminiService.ts:167-170 | A reply that carries chunks yields those chunks. Any non-empty result came from a reply that carried exactly it, so a failed call or a missing list yields none. |
| Text.UpToComma | components/ImageUploader.tsx:51 | The result is the comma-free prefix that ends at the first comma. |
| Text.AfterComma | components/ImageUploader.tsx:51 | Absent exactly when the string has no comma. Otherwise it is the suffix after the first comma. |
| Text.AfterCommaOfJoin | components/ImageUploader.tsx:51 | If `p` has no comma, the text after the first comma of `p + "," + q` is `q`. |
| Text.UpToCommaOfCommaFree | components/ImageUploader.tsx:51 | A comma-free string is its own first field. |
| Text.SecondField | components/ImageUploader.tsx:51 | `split(',')[1]` is `undefined` exactly when there is no comma. Otherwise it is the comma-free text between the first comma and the next comma (or the end). |
| Text.SecondFieldOfJoin | components/ImageUploader.tsx:51 | `split(',')[1]` of `p,q` gives back `q`. A string without a comma has no second field (`undefined`). |
| GeminiService.RemoveFences | services/geminiService.ts:100 | Removing the fences never lengthens the text. |
| GeminiService.StripFences | services/geminiService.ts:100 | The sanitised text is no longer than the reply and has no whitespace at either end. |
| GeminiService.RemoveFencesLeavesNoFence | services/geminiService.ts:100 | After the global replace of "```json" and "```", no "```" is left. |
| GeminiService.RemoveFencesOfFenceFree | services/geminiService.ts:100 | Text without "```" is left unchanged. |
| GeminiService.SliceOfFenceFree | services/geminiService.ts:100 | Every slice of fence-free text is fence-free. |
| GeminiService.StripFencesLeavesNoFence | services/geminiService.ts:100 | Replace-then-trim leaves no fence. |
| GeminiService.StripFencesIdempotent | services/geminiService.ts:100 | Sanitising twice equals sanitising once. |
| GeminiService.RemoveFencesKeepsPlainPrefix | services/geminiService.ts:100 | A prefix without backticks passes through the replace unchanged. |
| GeminiService.FencedBodyStripsLikeBody | services/geminiService.ts:99-100 | A body wrapped in a "```json … ```" block is sanitised to the same text as the bare body. |
| GeminiService.AnalyzeWasteImage | services/geminiService.ts:94-115 | Success holds exactly when there is a truthy reply text whose sanitised form parses, and the result is that parse. An empty or absent text gives "No response text received from Gemini.". An unparsable text gives "Failed to parse recycling data. Please try again.". A thrown `Error` keeps its message; anything else becomes "Failed to connect to AI service.". |
| GeminiService.FencedReplyAnalysedLikeBare | services/geminiService.ts:94-108 | A reply fenced as a JSON code block is analysed exactly like the bare JSON. |
| GeminiService.IdeaPrompt | services/geminiService.ts:120 | The prompt holds the item name, the idea title and the description, each at its place between the fixed phrases. |
| GeminiService.ScannedParts | services/geminiService.ts:133-134 | A failed call scans no parts. When the first candidate has content with parts, exactly those parts are scanned. Any non-empty scan comes from there. |
| GeminiService.DataUri | services/geminiService.ts:136 | The URI starts with "data:" and ends with the image payload. |
| GeminiService.DataUriPayloadRoundTrip | services/geminiService.ts:136 | Taking the field after the comma of the built data URI gives back the payload. |
| GeminiService.FirstImageDataUri | services/geminiService.ts:134-138 | The result is null exactly when no part carries inline data with a truthy payload. Otherwise it is the data URI of the first such part. |
| GeminiService.GenerateIdeaImage | services/geminiService.ts:132-145 | A failed call gives null. Otherwise the result is the first image among the first candidate's parts, or null when there is none. |
| GeminiService.FirstAddress | services/geminiService.ts:179 | The address is the first answer source's formatted address. It is absent when there are no answer sources. |
| GeminiService.PlaceOf | services/geminiService.ts:172-188 | A chunk yields a place exactly when it has maps or web data with a truthy title and uri. Maps data wins and takes the first answer source's address. Web data has no address. |
| GeminiService.ExtractedPlaces | services/geminiService.ts:171-189 | The places collected chunk by chunk are never more than the chunks. |
| GeminiService.ExtractedPlacesOfConcat | services/geminiService.ts:171-189 | Extraction distributes over concatenated chunk lists. |
| GeminiService.ExtractedPlacesBounded | services/geminiService.ts:171-189 | There are no more places than chunks. Every extracted place has a truthy uri. |
| GeminiService.ExtractPlaces | services/geminiService.ts:167-190 | The loop's `places` equals the extraction function of the chunk list. |
| GeminiService.FindIndexByUri | services/geminiService.ts:194-196 | `findIndex` returns the first index with that uri, or -1 when no element has it. |
| GeminiService.DedupPrefix | services/geminiService.ts:193-197 | Filtering the first n places keeps at most n, and always keeps the first place. |
| GeminiService.DedupByUri | services/geminiService.ts:193-197 | The filtered list is no longer than the input, and a non-empty input keeps its first place first. |
| GeminiService.DedupPrefixFirstSeen | services/geminiService.ts:193-197 | Every kept place is the first occurrence of its uri in the input. |
| GeminiService.DedupPrefixDistinct | services/geminiService.ts:193-197 | The kept places have pairwise distinct uris. |
| GeminiService.DedupPrefixCovers | services/geminiService.ts:193-197 | Every uri of the input appears among the kept places. |
| GeminiService.DedupPrefixSubsequence | services/geminiService.ts:193-197 | The filter keeps a subsequence of the input, in order. |
| GeminiService.DedupUrisDistinct | services/geminiService.ts:193-197 | The filtered list has no two places with the same uri. |
| GeminiService.DedupIsSubsequence | services/geminiService.ts:193-197 | The filtered list is an order-preserving subsequence and no longer than the input. |
| GeminiService.DedupKeepsEveryUriOnce | services/geminiService.ts:193-197 | Every input uri appears in the filtered list exactly once. |
| GeminiService.DedupKeepsFirstSeen | services/geminiService.ts:193-197 | Every kept place is the first place with its uri in the input. |
| GeminiService.FindNearbyRecyclingCenters | services/geminiService.ts:148-204 | The result is the deduplicated extraction of the first candidate's grounding chunks. A failed call or missing chunks give `[]`. There are no more places than chunks, and the uris are distinct. |
| ImageUploader.RoundDiv | components/ImageUploader.tsx:27 | `Math.round(num/den)` for non-negative operands: the nearest integer, with halves rounded up. |
| ImageUploader.RoundingIsUnique | components/ImageUploader.tsx:27 | The rounding bounds determine the result. |
| ImageUploader.ScaledSideFits | components/ImageUploader.tsx:27-30 | Scaling the shorter side by 1536/longer never exceeds 1536. |
| ImageUploader.ResizeToFit | components/ImageUploader.tsx:19-33 | An image within 1536×1536 keeps its size. Otherwise the longer side becomes 1536 (width when strictly wider) and the other side is the rounded proportional length. Both sides end up at most 1536. |
| ImageUploader.ResizeThinImage | components/ImageUploader.tsx:25-28 | A 10000×1 image is resized to 1536×0, so the canvas gets a zero height. |
| ImageUploader.ProcessImage | components/ImageUploader.tsx:12-65 | A read error, a decode error or a missing 2D context each reject with their own message. Otherwise the result carries the JPEG data URL as preview, "image/jpeg" as type, and the part after its first comma as base64. The canvas gets the resized size: unchanged when the image fits, otherwise 1536 on the longer side and the rounded proportional length on the other. |
| ImageUploader.JpegPayloadExtracted | components/ImageUploader.tsx:50-51 | For a `data:image/jpeg;base64,` URL, the extracted base64 is exactly the payload. |
| ImageUploader.FileInput.constructor | components/ImageUploader.tsx:67 | The file input starts with the given value. |
| ImageUploader.HandleFileChange | components/ImageUploader.tsx:67-88 | The handler returns early, leaving the input alone, exactly when there is no file or its type does not start with "image/". An image is passed on exactly when it decodes and a context exists. Otherwise processing fails with the message for a read error, a decode error or a missing context. After processing the input is cleared. The preview URL is the JPEG data URL of the canvas. That canvas keeps the image's size when it fits in 1536×1536; otherwise its longer side is 1536 and the other side is the rounded proportional size. |
| GamificationModal.NextLevelPoints | components/GamificationModal.tsx:14 | The bar's target is a multiple of 500, at least the points and less than 500 above them. |
| GamificationModal.NextLevelIsLeastMultiple | components/GamificationModal.tsx:14 | The target is the least multiple of 500 that is not below the points. |
| GamificationModal.Progress | components/GamificationModal.tsx:15 | The bar's percentage is the points past the last multiple of 500, divided by 5. It always lies in [0, 100). |
| GamificationModal.PointsToNextLevel | components/GamificationModal.tsx:52 | The "more points" figure lies between 1 and 500 and brings the points to a multiple of 500. |
| GamificationModal.PointsToNextLevelMatchesBar | components/GamificationModal.tsx:14-52 | Off a multiple of 500, the points plus the "more points" figure equal the bar's target. |
| GamificationModal.AtMultipleNextLevelIsCurrent | components/GamificationModal.tsx:14-52 | On a multiple of 500, the target equals the points and the bar is empty, yet the text asks for 500 more. |
| GamificationModal.RenderModal | components/GamificationModal.tsx:11-52 | A closed modal renders nothing. An open one shows the level and points, plus the next target, progress percentage and points to go computed from the points alone. These are a target within 500, a percentage in [0, 100) and a figure in [1, 500]. |
| GamificationModal.ProgressDependsOnlyOnPoints | components/GamificationModal.tsx:14-52 | The three figures depend only on the points. |
| ResultCard.StatusColor | components/ResultCard.tsx:27-33 | One of the four colour classes. The neutral one is used exactly for an unknown status. |
| ResultCard.StatusIcon | components/ResultCard.tsx:36-43 | The help icon appears exactly for an unknown status. |
| ResultCard.BadgeDistinguishesStatuses | components/ResultCard.tsx:27-43 | Distinct statuses get distinct colours and distinct icons. |
| ResultCard.StatusLabel | components/ResultCard.tsx:75 | "Recyclable" exactly for YES and "Not Recyclable" exactly for NO. MAYBE and UNKNOWN both read "Check Local Rules". |
| ResultCard.ShowsCentersSection | components/ResultCard.tsx:122 | The centers section is offered exactly when the status is neither NO nor UNKNOWN. |
| ResultCard.ShownCenters | components/ResultCard.tsx:148 | At most four centers are listed: the first min(4, n), in order. |
| ResultCard.VisualisationPane | components/ResultCard.tsx:197-213 | A truthy generated image is shown. Otherwise a spinner shows exactly while generating, and "unavailable" shows otherwise. |
| ResultCard.RenderCard | components/ResultCard.tsx:27-229 | The badge has the status's colour, icon and label. The centers section appears exactly for YES and MAYBE. The find button appears exactly when not loading and there are no centers. The listed centers are exactly the shown ones. The ideas section appears exactly when there are ideas; its pane follows the visualisation precedence and its footer reads "Designing..." while generating. The caption appears only for a finished, truthy image. Alternatives appear exactly when present and non-empty. |
| App.ScanReducer | App.tsx:50-71 | A scan adds 20 points, one scan, 0.05 kg plastic and 0.15 kg CO2. Badges are kept. The level becomes the tier of the highest threshold (500, 1000, 2000) the new points pass, and is kept when none is passed. |
| App.TierFor | App.tsx:57-60 | The tier is one of the four level names, and its rank is the number of thresholds (500, 1000, 2000) the points exceed. |
| App.TierForMonotone | App.tsx:57-60 | More points never earn a lower tier. |
| App.RepeatedScans | App.tsx:50-71 | n scans add exactly 20·n points and n scans, and keep the badges. |
| App.ReducerKeepsLevelInStep | App.tsx:57-60 | If the level matches the points' tier before a scan, it matches after. |
| App.LevelFromInitialIsTier | App.tsx:11-60 | Starting from the initial stats, the level after n scans is the tier of 20·n points. |
| App.LevelNeverDrops | App.tsx:11-60 | Starting from the initial stats, no scan lowers the level. |
| App.LevelAheadOfPointsDrops | App.tsx:57-60 | Stats whose level is ahead of their points (580 points, "Eco Legend") are moved down to "Recycling Ranger" by the next scan. |
| App.BarStepsAreNotTiers | App.tsx:58-59 | The modal's 500-point target for 520 points is 1000, which still earns only "Recycling Ranger". |
| App.ErrorMessage | App.tsx:120-126 | An `Error` shows its message and a thrown string shows itself. Anything else shows "Something went wrong. Please try again.". |
| App.AnalysisFailureShowsServiceMessage | App.tsx:119-126 | A failed analysis always reaches the handler as an `Error`, so its message is shown: one of the service's three fixed messages, or the message of an `Error` the call threw. Unless the call threw an `Error`, the generic fallback text never appears. |
| App.GeneratedImageIsDisplayed | App.tsx:104-114 | An image produced by the visualisation call is always displayed by the result card. |
| App.Session.constructor | App.tsx:22-43 | The session starts in the initial state, with the stored stats when a record was saved and the initial stats otherwise. |
| App.Session.UpdateStats | App.tsx:50-71 | The stats become the reducer applied once, and the session state is unchanged. A level that matched its points still matches. |
| App.Session.StartScan | App.tsx:75-85 | A new scan clears everything except the new preview, and is loading. |
| App.Session.AnalysisSucceeded | App.tsx:91-117 | The result is stored, loading stops and the scan is counted exactly once. Generation continues, and the first idea is requested, exactly when there are ideas. |
| App.Session.VisualisationCompleted | App.tsx:110-114 | The returned image is stored and generation stops. |
| App.Session.AnalysisFailed | App.tsx:119-133 | Loading and generation stop, the extracted message is shown and the stats are untouched. |
| App.Session.FindCenters | App.tsx:137-150 | Nothing changes without a result or without geolocation. Otherwise centers are loading, and the query is the item name followed by " recycling center". |
| App.Session.CentersFound | App.tsx:153-157 | Loading stops and the centers are replaced by the places found. |
| App.Session.LocationFailed | App.tsx:159-163 | Loading stops and the centers are kept. |
| App.Session.Reset | App.tsx:167-178 | The state returns to the initial state whatever it was, so reset is idempotent. The stats are untouched. |
| App.Session.HandleImageSelected | App.tsx:73-135 | After a scan nothing is loading, the preview is set and there are no centers. On success the analysis is the result, there is no error and the scan is counted once. With ideas, the visualisation prompt is built from the item and the first idea, and the stored image is the first image of that reply (none when it carries none). Without ideas no prompt is sent and no image is stored. On failure the service's message is the error, there is no result and the stats are unchanged. |

Every method of `App.Session` keeps `Valid()`: loading hides the result and
the error, and a center lookup runs only for a result.

## Left out

- The network calls to the generative model are not modelled: no request bodies, models, schema or temperature. Their replies are inputs (`AnalysisReply`, `ImageReply`, `LocationReply`). `Session.FindCenters` builds the location query and returns it. `FindNearbyRecyclingCenters` does not take the query or the coordinates as parameters, because they reach only the remote call, whose reply is the input.
- `JSON.parse` is a function parameter. The code casts whatever it parses to `WasteAnalysis` without checking a single field, and the model follows the code. A parsed record is assumed to have the declared shape: `creativeIdeas` and `instructions` are sequences, and `status` is one of the four values.
- `FileReader`, `Image` decoding, the canvas drawing (white fill, draw, `toDataURL` at quality 0.85) and `alert`/`console` are not modelled. The decoded size, whether a 2D context exists and the produced JPEG data URL are inputs.
- ImageUploader.RoundDiv: assumes exact rational arithmetic. The source's floating-point division before `Math.round` could differ at half-way points only for sizes far beyond real images.
- App.ScanReducer: `plasticSaved` and `co2Saved` are exact reals. The source's repeated float additions, and the `toFixed` used when they are shown, are not modelled.
- `localStorage` persistence (the save effect and the unguarded parse of a stored record) is modelled only as the optional stored stats the session starts with.
- The asynchronous interleaving of handlers is not modelled. Each `setState` step is atomic, and `HandleImageSelected` runs one scan to completion. The code has no guard against a stale reply landing after a newer scan or a reset.
- `components/Header.tsx`, the App's choice between the hero, uploader and result views, and the JSX layout and styling of every component are not modelled. The result card's decisions are modelled; its markup is not.
- App.Session.FindCenters: the query is built from the state at the time of the click, as in the code. The geolocation callback's later use of that captured state is not modelled separately.
