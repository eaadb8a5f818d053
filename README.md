# AgriAI core in Dafny

A model of the AgriAI farming assistant's core and proofs about it. The assistant is a React front end over two AWS service wrappers.

- **Bedrock wrapper.** It sends a chat transcript, crop recommendation prompts, a pest image and a weekly report prompt to hosted language models. The chat swallows every error and answers with an apology. The other three operations rethrow.
- **SageMaker wrapper.** It sends one JSON instance to each of three prediction endpoints: yield, crop recommendation and pest detection. Yield prediction returns `predictions[0]`'s four fields renamed, and the other two return `predictions[0]` itself. Each answers with fixed demo data when the call fails, and yield prediction also does so when there is no first prediction.
- **Crop recommendation page.** It asks the text model, then the crop endpoint. It merges the two answers, text model first, into at most four cards. If anything throws, it falls back to two fixed cards.
- **Pest identification page.** It extracts the base64 payload of an uploaded data URL and asks both services. It shows the first answer by priority: vision model, then endpoint (converted), then demo data. If the conversion throws, it shows an error record. It also colours severity badges, ignoring case.
- **Chat page.** It appends the user's message and a "Thinking..." placeholder. It asks the chat wrapper with the last five real messages plus the farm context. Then it replaces every placeholder with exactly one reply.
- **Marketplace.** It filters the catalogue by a case-insensitive name search and a category.

## Modules

| file | module | contents |
|---|---|---|
| `outcomes.dfy` | `Outcomes` | `Option`, and `Settled` (the outcome of a promise: fulfilled or rejected with a `Fault`) |
| `numbers.dfy` | `Numbers` | `Math.round`; decimal numbers (`Decimal`) as JSON and JavaScript write them; number-to-text rendering with its parsers and round trips |
| `seqs.dfy` | `Seqs` | `filter`, `map`, `slice`; order-preserving subsequences |
| `text.dfy` | `Text` | `toLowerCase`, `includes`, `join`, `split`, `trim`, `substring` |
| `bedrock_service.dfy` | `BedrockService` | the four Bedrock operations, with the requests they build and what they return |
| `sagemaker_service.dfy` | `SageMakerService` | the three endpoint operations, their request instances and their demo fallbacks |
| `crop_recommendation.dfy` | `CropRecommendation` | the merge and fallback, and the page state as class `CropAdvisor` |
| `pest_identification.dfy` | `PestIdentification` | the payload extraction, the result selector, the badge colours, and the page state as `PestAnalyzer` |
| `chat_bot.dfy` | `ChatBot` | the send guard, the context window, the reply settling, and the chat state as `ChatSession` |
| `marketplace.dfy` | `Marketplace` | the product filter over the catalogue |

A network call is a parameter of each operation. It is a function from the request the code builds to `Settled<reply>`. A rejection stands for every way the call can throw: transport failure, credentials, `JSON.parse`, or reading a missing `results[0]` or `content[0]`. The page handlers take the wrapper operations as parameters in the same way. Separate lemmas plug the real wrappers into them.

Each handler has a ghost `events` log. It records the handler's state writes and service calls in order.

## Model

The functions that compute the page logic are stated through the lemma rows that name them:

- `PestIdentification.SelectResult`: OneOfFourServices, BedrockWins, EndpointPath, ErrorPath, DemoOnlyWhenBothFail and PestAnalyzer.AnalyzeImage.
- `CropRecommendation.RefreshFor`: FallbackOnBedrockFailure, FallbackOnMissingCrops, ShownCount, ShownWhenEndpointDown and CropAdvisor.GenerateRecommendations.
- `CropRecommendation.Merge`: MergeOrder.
- `ChatBot.ContextWindow`: ContextWindowShape and ContextWindowSource.
- `ChatBot.Settle`: SettleAfterSend and ChatSession.HandleSendMessage.
- `PestIdentification.SeverityColor`: SeverityColorCases and SeverityColorIgnoresCase.
- `PestIdentification.Base64Payload`: Base64PayloadBetweenCommas and DataUrlPayload.

| member | source | states |
|---|---|---|
| Numbers.Round | src/components/CropRecommendation.tsx:77 | `Math.round`: the nearest integer, halves rounding up; the result is within half a unit of its argument |
| Numbers.DecimalToStringRoundTrip | src/services/bedrockService.ts:63-72 | a number interpolated into a prompt can be parsed back to the same value |
| Numbers.IntToStringRoundTrip | src/components/PestIdentification.tsx:113 | the rounded health score interpolated into the description reads back as the same integer, sign included |
| Text.TrimBlank | src/components/ChatBot.tsx:44 | `trim()` yields the empty string exactly when every character is JavaScript whitespace |
| Text.ContainsAt | src/components/Marketplace.tsx:108 | `includes` holds exactly when the needle occupies some stretch of the text |
| Text.JoinSplit | src/components/PestIdentification.tsx:93 | joining the pieces of `split(',')` with the comma gives back the string |
| Text.SplitJoin | src/components/PestIdentification.tsx:93 | splitting a comma-join of comma-free pieces gives back the pieces |
| Text.ToLowerIdempotent | src/components/Marketplace.tsx:108 | lowercasing twice is lowercasing once |
| Seqs.FilterIsSubsequence | src/components/Marketplace.tsx:107 | `filter` keeps its survivors in their original order |
| Seqs.FilterIdempotent | src/components/Marketplace.tsx:107-111 | filtering again by the same predicate changes nothing |
| BedrockService.SystemPromptCarriesContext | src/services/bedrockService.ts:13-24 | the system prompt always starts with the fixed opening and ends with the fixed closing; it is longer than the fixed text exactly when the context is truthy; it then carries `Current context: ` and the context between the two; a falsy context leaves the slot empty, so the prompt is exactly opening then closing |
| BedrockService.TranscriptEmpty | src/services/bedrockService.ts:26 | only the empty conversation renders to the empty prompt |
| BedrockService.TranscriptAppend | src/services/bedrockService.ts:26 | rendering two non-empty parts and joining them with a blank line is rendering the whole |
| BedrockService.TranscriptSnoc | src/services/bedrockService.ts:26 | a new turn is rendered at the end of the prompt, after a blank line |
| BedrockService.ChatWithClaude | src/services/bedrockService.ts:11-55 | the reply is the model's text when the call succeeds, and the fixed apology when it fails |
| BedrockService.ChatSwallowsErrors | src/services/bedrockService.ts:51-54 | a failing model yields the apology, never an error |
| BedrockService.GenerateCropRecommendations | src/services/bedrockService.ts:58-136 | a failure is rethrown unchanged; a success gives the fixed-shape advice built around the generated text |
| BedrockService.AdviceShape | src/services/bedrockService.ts:109-131 | whatever the model writes, there are two entries, Tomatoes at 95 and Bell Peppers at 88. Their care instructions are characters 0-200 and 200-400 of the text, each followed by `...`, clamped to the text's length. The insights are the whole text |
| BedrockService.CareExcerptsAdjoin | src/services/bedrockService.ts:118-127 | the two care excerpts without their ellipses are together the first 400 characters |
| BedrockService.AnalyzePestImage | src/services/bedrockService.ts:139-212 | a failure is rethrown unchanged; on success the report carries the model's text as `aiAnalysis` |
| BedrockService.PestReportFixed | src/services/bedrockService.ts:191-207 | two successful analyses differ only in `aiAnalysis`; the pest is Aphids at 94, severity Medium, with three treatments and three preventions |
| BedrockService.OperationsRethrow | src/services/bedrockService.ts:132-135 | crop recommendations, pest analysis and the weekly report all reject with the model service's own error (also lines 208-211 and 259-262) |
| BedrockService.WeeklyReportPassesThrough | src/services/bedrockService.ts:215-263 | the weekly report settles exactly as the text model's call settles |
| SageMakerService.Lookup | src/services/sageMakerService.ts:8-23 | a property read finds a value exactly when some pair carries the key, and the value it finds is stored under that key |
| SageMakerService.LookupAt | src/services/sageMakerService.ts:56-70 | with distinct keys, each key finds its own value |
| SageMakerService.YieldRequestKeys | src/services/sageMakerService.ts:8-23 | the yield request is one instance with the ten snake_case keys, all distinct |
| SageMakerService.YieldRequestReadsBack | src/services/sageMakerService.ts:10-21 | the caller's yield input can be read back unchanged from the instance |
| SageMakerService.YieldLeadingFields | src/services/sageMakerService.ts:11-15 | the first five fields are found under their snake_case keys |
| SageMakerService.YieldTrailingFields | src/services/sageMakerService.ts:16-20 | the last five fields are found under their snake_case keys |
| SageMakerService.PredictCropYield | src/services/sageMakerService.ts:6-51 | the first prediction's four fields, renamed; the fixed demo forecast when the call fails or there is no first prediction |
| SageMakerService.CropRecommendationRequestKeys | src/services/sageMakerService.ts:56-70 | the recommendation request is one instance with the nine snake_case keys, all distinct |
| SageMakerService.CropRecommendationRequestReadsBack | src/services/sageMakerService.ts:58-68 | the environmental data can be read back unchanged from the instance |
| SageMakerService.EnvironmentalLeadingFields | src/services/sageMakerService.ts:59-63 | the first five fields are found under their snake_case keys |
| SageMakerService.EnvironmentalTrailingFields | src/services/sageMakerService.ts:64-67 | the last four fields are found under their snake_case keys |
| SageMakerService.GetCropRecommendations | src/services/sageMakerService.ts:54-96 | `predictions[0]` (absent when the list is empty); the demo prediction when the call fails |
| SageMakerService.FallbackCropsInRange | src/services/sageMakerService.ts:86-94 | the demo proposes Tomatoes, Bell Peppers and Lettuce in that order, each scored within [0, 1] |
| SageMakerService.PestDetectionRequestCarriesImage | src/services/sageMakerService.ts:101-108 | one instance whose `image_data` is exactly the payload given (absent when none) and whose `image_format` is `jpeg` |
| SageMakerService.DetectPests | src/services/sageMakerService.ts:99-141 | `predictions[0]` (absent when the list is empty); the demo detection when the call fails |
| SageMakerService.FallbackPestShape | src/services/sageMakerService.ts:124-139 | the demo detection holds one pest, Aphids at 0.94 with severity `medium`, on a plant of health score 0.72 |
| SageMakerService.FallbacksOnFailure | src/services/sageMakerService.ts:41-50 | a failing endpoint never makes any of the three operations fail: each answers with its demo payload (also lines 83-95 and 121-140) |
| CropRecommendation.MergeOrder | src/components/CropRecommendation.tsx:73-86 | at most four entries: the advice's entries first, then the endpoint's cards, each group in its own order |
| CropRecommendation.CardFields | src/components/CropRecommendation.tsx:76-82 | a card takes the crop's name, `Math.round(score * 100)`, the yield in tons per hectare, a profit of `$`, the locale-formatted yield times 1000 and `/ha`, the selected season, the three fixed tags and a random stock image |
| CropRecommendation.SuitabilityRange | src/components/CropRecommendation.tsx:77 | nothing clamps: the suitability is in [0, 100] exactly when the score is in [-0.005, 1.005); it exceeds 100 exactly when the score is at least 1.005, and is negative exactly when the score is below -0.005 |
| CropRecommendation.InsightsChoice | src/components/CropRecommendation.tsx:87 | the insights are the advice's text when it is not empty, else the fixed line; never empty |
| CropRecommendation.FallbackOnBedrockFailure | src/components/CropRecommendation.tsx:88-111 | a failing text model shows two fixed cards, Tomatoes at 95 and Bell Peppers at 85, both for `Summer`, with the cached-recommendations insight |
| CropRecommendation.FallbackOnMissingCrops | src/components/CropRecommendation.tsx:75 | an endpoint answer without a first prediction, or without a crop list, leads to the same fallback |
| CropRecommendation.ShownCount | src/components/CropRecommendation.tsx:28-115 | with the real text wrapper, whatever the text model and the endpoint do, the page shows at least two and at most four entries |
| CropRecommendation.FallbackCropCards | src/services/sageMakerService.ts:87-89 | the endpoint's demo crops become cards for Tomatoes at 95 and Bell Peppers at 88 |
| CropRecommendation.ShownWhenEndpointDown | src/components/CropRecommendation.tsx:73-86 | with the real wrappers, a text model that answers and an endpoint that fails give four entries: the two advised crops, then the demo cards Tomatoes 95 and Bell Peppers 88 |
| CropRecommendation.CropAdvisor.constructor | src/components/CropRecommendation.tsx:7-12 | starts at loamy, summer, temperate, with no recommendations, not loading, no insights |
| CropRecommendation.CropAdvisor.GenerateRecommendations | src/components/CropRecommendation.tsx:28-115 | the selections are unchanged. The list and insights become the merge, or the fallback when anything threw. The loading flag rises first and falls last. The endpoint is asked only after the text model answered |
| PestIdentification.SplitHead | src/components/PestIdentification.tsx:93 | the first piece of a split is everything before the first separator |
| PestIdentification.Base64PayloadBetweenCommas | src/components/PestIdentification.tsx:93 | the payload is absent exactly when the URL has no comma; otherwise it is the text between the first comma and the next comma, or the end |
| PestIdentification.DataUrlPayload | src/components/PestIdentification.tsx:93 | for a base64 data URL (section 3 of RFC 2397) whose media type and data hold no comma, the payload is the data |
| PestIdentification.OneOfFourServices | src/components/PestIdentification.tsx:101-151 | the analysis shown comes from Bedrock, SageMaker, the demo or the error record |
| PestIdentification.BedrockWins | src/components/PestIdentification.tsx:103-105 | the vision model's answer wins whatever the endpoint did, and is shown with all its fields |
| PestIdentification.EndpointPath | src/components/PestIdentification.tsx:106-117 | the endpoint's first pest (or `Unknown`), `Math.round` of its confidence times 100 (or 0), its severity (or `Medium`), its treatments (or the two defaults), and the fixed prevention steps |
| PestIdentification.ErrorPath | src/components/PestIdentification.tsx:141-151 | an endpoint answer with no prediction, or with no pest list, throws and shows the error record: confidence 0, severity `Unknown` |
| PestIdentification.DemoOnlyWhenBothFail | src/components/PestIdentification.tsx:118-137 | demo data is shown exactly when both calls reject |
| PestIdentification.NoDemoWithRealServices | src/components/PestIdentification.tsx:118-137 | with the real wrappers the demo branch is never taken, because the detection wrapper never rejects |
| PestIdentification.BothServicesDown | src/components/PestIdentification.tsx:106-117 | with both services down the page shows the endpoint's demo detection: Aphids at 94 with severity `medium` |
| PestIdentification.SeverityColorCases | src/components/PestIdentification.tsx:157-164 | high, medium and low each get their own badge, exactly for their lowercase spelling; every other string gets the gray badge |
| PestIdentification.SeverityColorIgnoresCase | src/components/PestIdentification.tsx:158 | severities equal up to case get the same badge |
| PestIdentification.PestAnalyzer.constructor | src/components/PestIdentification.tsx:8-10 | starts not analyzing, with no result, for crop `tomato` |
| PestIdentification.PestAnalyzer.AnalyzeImage | src/components/PestIdentification.tsx:87-155 | the flag rises and the old result is cleared. The result selected from the two outcomes is then shown, and the flag falls. The crop type is unchanged |
| ChatBot.CanSendCases | src/components/ChatBot.tsx:44 | sending is refused exactly when a reply is pending or the input is all whitespace |
| ChatBot.ContextWindowShape | src/components/ChatBot.tsx:69-75 | the window has at most six turns and ends with the text being sent; the turns before it are the last five (or fewer) kept messages, in order |
| ChatBot.ContextWindowSource | src/components/ChatBot.tsx:70 | the kept messages are an order-preserving selection; they omit exactly the assistant's placeholders; all of them are used when at most five are kept |
| ChatBot.SettleAfterSend | src/components/ChatBot.tsx:91-112 | the older messages that were not placeholders keep their order and are followed by the user's message and exactly one assistant reply. The reply is the answer as `info`, or the fixed warning as `warning`. No placeholder remains |
| ChatBot.NoWarningWithRealService | src/services/bedrockService.ts:51-54 | with the real chat wrapper the reply is always `info`; a failing model yields the wrapper's apology |
| ChatBot.ChatSession.constructor | src/components/ChatBot.tsx:13-23 | starts with the greeting alone, empty input, not typing |
| ChatBot.ChatSession.HandleSendMessage | src/components/ChatBot.tsx:43-116 | a refused send changes nothing. Otherwise the handler appends the user message, clears the input and raises the typing flag. It then appends the placeholder and asks with the window over the messages before those appends and the fixed farm context. Finally the reply settles the list and the flag falls |
| Marketplace.FilteredProducts | src/components/Marketplace.tsx:107-111 | the products shown are never more than the catalogue |
| Marketplace.FilteredExactly | src/components/Marketplace.tsx:107-111 | the list shown keeps the catalogue's order; a product is in it exactly when its lowercased name contains the lowercased term and the category is `all` or its own |
| Marketplace.EmptySearchShowsAll | src/components/Marketplace.tsx:108-109 | an empty search with `all` shows every product |
| Marketplace.AllCategoriesOnlySearches | src/components/Marketplace.tsx:109 | `all` leaves only the search to decide |
| Marketplace.SearchIgnoresCase | src/components/Marketplace.tsx:108 | the search term's case does not matter |
| Marketplace.FilterAgainUnchanged | src/components/Marketplace.tsx:107-111 | filtering the shown list again changes nothing |
| Marketplace.GrainsAreWheat | src/components/Marketplace.tsx:18-75 | on the catalogue, choosing `grains` shows the wheat alone |

## Left out

- Network I/O, the AWS SDK clients, credentials and region configuration (`src/services/awsConfig.ts` beyond the model and endpoint names) are not modelled. Each call is a parameter from request to outcome.
- `JSON.stringify`/`JSON.parse` and `TextDecoder` are not modelled. A reply is taken as already decoded, and a parse or property-read failure is a rejection. The nested `soilData.nutrients` object appears only as its serialised text.
- `Promise.allSettled`, concurrency and React's batching of state updates are left out. The handlers run their steps in sequence.
- PestIdentification.PestAnalyzer.AnalyzeImage: asks the two services in sequence rather than concurrently, which does not change the outcomes `Promise.allSettled` gathers.
- PestIdentification.PestAnalyzer.AnalyzeImage: the in-place `finalResult.aiService = ...` on the vision model's object is a record update; aliasing of that object is not modelled.
- Message ids, timestamps (`Date.now`, `new Date()`), `FileReader`, `scrollIntoView`, `console.error` and `handleImageUpload` are not modelled; none of them affects the state the model follows.
- The random image URLs of endpoint cards (`Math.random`) are a single value, `RandomStock`.
- `toLocaleString` is a parameter `formatLocale`, because locale formatting depends on the runtime.
- Floating point is not modelled. Numbers are exact decimals and reals, so products such as `score * 100` have no rounding error. `String(number)` is rendered in plain notation only; exponent notation is not modelled.
- `toLowerCase` folds ASCII letters only.
- `undefined` is modelled only for `predictions[0]`, `recommended_crops`, `detected_pests`, the optional confidence, health score and treatments, and the second piece of `split(',')`. A falsy string under `||` is modelled as the empty string.
- BedrockService.ChatWithClaude, BedrockService.AnalyzePestImage: a reply whose `content[0]` has no `text` makes the source return (or store as `aiAnalysis`) `undefined` without throwing; the model's invoker yields a string, so that case is not represented. The chat would then show an empty reply, and a later transcript would carry the literal word `undefined`.
- BedrockService.AdviceShape, Text.Substring: a Dafny string is a sequence of code points, while JavaScript's `substring` counts UTF-16 code units. The 200- and 400-character excerpt bounds are therefore counted in code points, and a generated text holding characters outside the Basic Multilingual Plane (emoji, for instance) is cut by the model further into the text than the source cuts it.
- BedrockService.GenerateWeeklyReport: carries no contract of its own. The report text is passed through (WeeklyReportPassesThrough). A missing `outputText` that would make it return `undefined` is folded into the invoker's outcome.
- BedrockService.SystemPromptCarriesContext: states where the context sits in the prompt through slices rather than by substring search, and says nothing about whether the fixed text itself contains the label.
- SageMakerService.PredictCropYield: returns the prediction's factor and recommendation lists as given. Their element types are not checked.
- JSX rendering, styling other than the severity badge, the other pages (dashboard, monitoring, header, footer) and the quick-question buttons are out of scope.
- Nothing in `src/components/CropRecommendation.tsx:77` clamps `Math.round(score * 100)`, so an endpoint score outside [0, 1] can show a suitability outside [0, 100] (CropRecommendation.SuitabilityRange).
- A missing first prediction or crop list throws at `src/components/CropRecommendation.tsx:75` into the same fallback as a failing text model (CropRecommendation.FallbackOnMissingCrops).
- The fallback cards' season is the literal `Summer`, whatever season is selected, as the code writes it.
