# HelloLinkedSpaces place classification, modelled in Dafny

HelloLinkedSpaces classifies a photo into place categories (restaurant, sightseeing, shopping, hotel, park) in two stages:

1. An on-device image classifier produces label confidences.
2. A chat-completions language model turns the most confident labels into categories, each with a confidence and its contributing tags.

This project models the data handling around those two stages. It covers:

- the 2% confidence filter;
- the top-10 tag selection;
- the prompt and the request body;
- the two-layer decoding of the reply;
- the config-line parser that finds the API key;
- `analyzePhoto`, with its shaping of the result and its progress/failure protocol;
- the greedy row-wrapping `FlowLayout.layout` of the content view.

Modules, one per concern:

| file | module | models |
|---|---|---|
| `wrappers.dfy` | `Wrappers` | `Option` (Swift's `nil`) and `Result` (a throwing call) |
| `json.dfy` | `Json` | JSON values as `JSONSerialization` yields them, and the `as?` casts the code applies |
| `text.dfy` | `Text` | `components(separatedBy:)`, `joined(separator:)`, `hasPrefix`, `trimmingCharacters(in: .whitespaces)` |
| `tags.dfy` | `Tags` | the threshold loop of `getRawPredictions` and `.sorted { $0.value > $1.value }.prefix(10)` |
| `classifier.dfy` | `Classifier` | the prompt, the request body, reply decoding, `getRawPredictions`, `predict` |
| `analysis.dfy` | `Analysis` | `getOpenAIApiKey`, `CategoryResult`/`AnalysisResult`, `analyzePhoto` |
| `flowlayout.dfy` | `FlowLayout` | `FlowLayout.layout(sizes:proposal:)` |

Modelling choices:

- Confidences are `real`, and the threshold is `2/100`. The `Double` to `Float` conversions of `analyzePhoto` are the identity.
- A Swift dictionary's iteration order is unspecified, so it is an input. `IsEnumeration(order, m)` says that `order` lists every key of `m` once; in the pipeline this is an `Iteration` function.
  - The sort is a stable insertion sort over that order.
  - Every property of the selection holds up to ties: it is sorted, it is a subset of the dictionary, and nothing left out beats anything kept.
- Each external collaborator is a parameter:
  - the Vision pass, as the observations or the error it throws;
  - the model load, as the error the initialiser throws, if any;
  - the HTTP round trip, as `Transport`, taking the bearer key and the body and returning the reply text or `None` when it throws;
  - the JSON text parser, as `Parser`, returning `None` when it throws;
  - `String(format: "%.2f")`, as `Formatter`;
  - `localizedDescription`, as `describe`.
- `getOpenAIApiKey` ends in `fatalError` when no key is found. `ApiKey` returns `None` in that case, and `analyzePhoto` then yields `Aborted(progress)`: the process stops, and neither a result nor `nil` is delivered.
- `analyzePhoto` runs Vision twice: once inside `predict` and once in the second `getRawPredictions`. The two passes are separate inputs, and either can fail.

Facts about the code that the model keeps:

- `getRawPredictions` applies the 2% filter itself (PlaceClassificationService.swift:60), so the map `analyzePhoto` reads at PhotoAnalysisService.swift:79 is already filtered.
- `predict` never checks the contributing tags or the category names of the reply against what it sent (PlaceClassificationService.swift:146-165). `targetCategories` (:12) is never read; the five names appear only in the prompt text.
- Both `JSONSerialization.jsonObject` calls sit behind `try` (:134, :140), so a reply or content string that is not JSON at all propagates the parser's own error (`NotJson`). Only JSON of the wrong shape raises the `NSError` with code 4 (`UnparsableResponse`).
- The top ten tags are `sorted { $0.value > $1.value }.prefix(10)` over the dictionary (:83-85). Equal confidences are therefore ordered by dictionary iteration, which the model takes as an input.
- `analyzePhoto` builds a new classifier, and loads its model, on every call, after the key lookup (PhotoAnalysisService.swift:67).
- One `Iteration` function orders every dictionary. So in the model, two equal raw maps (the one `predict` reads and the second read) always break ties the same way. Swift gives no such guarantee: equal dictionaries may iterate differently. No lemma relies on the two orders agreeing. Each property of the top tags is stated for whatever order `Iteration` gives.

## Model

| member | source | states |
|---|---|---|
| `Tags.Threshold` | HelloLinkedSpaces/Models/PlaceClassificationService.swift:56-65 | Every kept confidence is at least 0.02. Every observation at or above 0.02 (inclusive) has its identifier as a key. Each key's value is the confidence of the last observation with that identifier that passes the threshold, so a later duplicate below the threshold does not overwrite. |
| `Tags.SortByConfidence` | HelloLinkedSpaces/Models/PlaceClassificationService.swift:84 | The result is non-increasing by confidence and is a permutation (same multiset) of the entries. |
| `Tags.TopTagsSpec` | HelloLinkedSpaces/Models/PlaceClassificationService.swift:82-86 | The selection has min(10, n) elements, for a map of n entries. It is sorted non-increasing, and each element is an entry of the map, with no tag repeated. Every key of the map is either selected or no more confident than the last selected tag, with exactly 10 selected. |
| `Classifier.PromptLines` | HelloLinkedSpaces/Models/PlaceClassificationService.swift:89-111 | Given a non-empty list of tags without line breaks, the prompt's lines are the fixed introduction, then exactly one `- tag (confidence: …)` line per selected tag in selection order, then the fixed closing text. |
| `Classifier.PromptLinesEmpty` | HelloLinkedSpaces/Models/PlaceClassificationService.swift:89-111 | With no tags, the prompt's lines are the fixed introduction, one blank line, then the fixed closing text. |
| `Classifier.RequestBody` | HelloLinkedSpaces/Models/PlaceClassificationService.swift:120-127 | The body has exactly the keys model, messages and temperature. Read back, the model is "gpt-3.5-turbo", the temperature is 0.3, and the messages are exactly two: the system instruction, then the user message whose content is the prompt. |
| `Classifier.UnwrapEnvelope` | HelloLinkedSpaces/Models/PlaceClassificationService.swift:134-138 | Success means the reply is an object whose `choices` is a non-empty array of objects, and whose first choice has a `message` object with string `content`, which is returned. Any failure is code 4. |
| `Classifier.UnwrapEnvelopeRoundTrip` | HelloLinkedSpaces/Models/PlaceClassificationService.swift:134-138 | An envelope carrying `content` in its first choice yields `content`, whatever the other fields hold and whatever later choices hold, as long as those choices are objects. Only the first choice is consulted. |
| `Classifier.NonObjectChoiceRejected` | HelloLinkedSpaces/Models/PlaceClassificationService.swift:135 | A choice that is not an object, at any position, fails the whole reply with code 4. |
| `Json.AsObjectArray` | HelloLinkedSpaces/Models/PlaceClassificationService.swift:135 | The cast to an array of dictionaries succeeds exactly when the value is an array whose every element is an object. It then returns those objects in order. |
| `Classifier.DecodePayload` | HelloLinkedSpaces/Models/PlaceClassificationService.swift:139-143 | Content that does not parse fails with the parser's error, and any other failure is code 4. It succeeds exactly when the content parses to an object whose `categories` is an array of objects, and then the result is exactly those elements, in order. |
| `Classifier.DecodeTag` | HelloLinkedSpaces/Models/PlaceClassificationService.swift:154-158 | A tag entry decodes iff it has a string `tag` and a numeric `confidence`. Both fields are copied unchanged, and a failure is code 6. |
| `Classifier.DecodeTags` | HelloLinkedSpaces/Models/PlaceClassificationService.swift:153-159 | The list decodes iff every entry is valid, giving one tag per entry in order. Otherwise it fails with code 6 and returns no partial list. |
| `Classifier.DecodeCategory` | HelloLinkedSpaces/Models/PlaceClassificationService.swift:147-165 | An entry decodes iff it has a string `category`, a numeric `confidence`, an array-of-objects `contributing_tags` and only valid tag entries. Its fields are copied unchanged. A bad own field gives code 5, and a bad tag entry gives code 6. |
| `Classifier.DecodeCategories` | HelloLinkedSpaces/Models/PlaceClassificationService.swift:146-166 | Decoding succeeds iff every entry is valid, giving one prediction per entry in response order. Otherwise the error is that of the first invalid entry, and no partial result is returned. |
| `Classifier.DecodeResponse` | HelloLinkedSpaces/Models/PlaceClassificationService.swift:134-166 | A body that is not JSON fails with the parser's error. Every failure is one of: not JSON, code 4, code 5, code 6. |
| `Classifier.EncodedCategory` | HelloLinkedSpaces/Models/PlaceClassificationService.swift:147-165 | A category encoded in the requested shape is a valid entry, and the only prediction it holds is the encoded one. |
| `Classifier.DecodeCategoryRoundTrip` | HelloLinkedSpaces/Models/PlaceClassificationService.swift:147-165 | A category encoded in the requested shape decodes to itself. |
| `Classifier.DecodeCategoriesRoundTrip` | HelloLinkedSpaces/Models/PlaceClassificationService.swift:146-166 | Any list of predictions, encoded in the shape the prompt requests, decodes to itself. Arbitrary category names and confidences pass, and nothing is re-ranked. |
| `Classifier.DecodeResponseRoundTrip` | HelloLinkedSpaces/Models/PlaceClassificationService.swift:134-166 | Take any envelope whose first choice carries the content, whatever its other fields, its first choice's other fields and its message's other fields, and whatever later choices it has, as long as they are objects. If that content parses to the encoded predictions, the reply decodes to exactly those predictions. |
| `Classifier.RawPredictions` | HelloLinkedSpaces/Models/PlaceClassificationService.swift:29-65 | Without a `cgImage` it fails with code 2. A Vision error propagates. Otherwise it succeeds with exactly the thresholded map of the observations: every value is at least 0.02 and every passing observation is present. |
| `Classifier.Predict` | HelloLinkedSpaces/Models/PlaceClassificationService.swift:74-167 | Image and Vision errors propagate before any request. A transport error is returned as such. Otherwise the result is the decoding of the reply to the request built from the top tags of the filtered map. |
| `Text.Split` | HelloLinkedSpaces/Services/PhotoAnalysisService.swift:37 | The number of components is one more than the number of separators, and no component contains the separator. |
| `Text.JoinSplit` | HelloLinkedSpaces/Services/PhotoAnalysisService.swift:37 | Joining the components with the separator restores the text. |
| `Text.SplitJoin` | HelloLinkedSpaces/Models/PlaceClassificationService.swift:94 | Splitting a non-empty list of separator-free lines, after joining them, gives back the same lines. |
| `Text.TrimSpec` | HelloLinkedSpaces/Services/PhotoAnalysisService.swift:35 | The text is the trimmed text with a run of whitespace before it and a run after it, and the trimmed text neither starts nor ends with whitespace. |
| `Analysis.KeyFromLineSound` | HelloLinkedSpaces/Services/PhotoAnalysisService.swift:35-43 | A line yields a key only if its trimmed form starts with OPENAI_API_KEY and is `name=value` with exactly one `=`. The key is then the trimmed value, which may be empty, and it is not the placeholder. |
| `Analysis.KeyFromLineComplete` | HelloLinkedSpaces/Services/PhotoAnalysisService.swift:35-43 | Conversely, every line of that form yields its key. |
| `Analysis.ApiKey` | HelloLinkedSpaces/Services/PhotoAnalysisService.swift:33-47 | The key is that of the first line offering one, and all earlier lines offer none. `None` (the `fatalError`) means that no line offers a key. |
| `Analysis.EmptyKeyAccepted` | HelloLinkedSpaces/Services/PhotoAnalysisService.swift:38-41 | The line `OPENAI_API_KEY =` yields the empty key. |
| `Analysis.ShapeSpec` | HelloLinkedSpaces/Services/PhotoAnalysisService.swift:78-102 | `topCategories` is the first min(2, n) predictions in the classifier's order, copied field by field. `allTags` has min(10, r) entries of the raw map, r being its size, sorted non-increasing, with no tag repeated. They are the top tags: every tag left out is no more confident than the last one reported, and then exactly 10 are reported. |
| `Analysis.Orchestrate` | HelloLinkedSpaces/Services/PhotoAnalysisService.swift:50-112 | Without a `cgImage` the only message is "Failed to process image" and there is no result. With no key the process aborts after the first two messages. A result comes iff every stage succeeds, and then the messages are exactly the four success messages. A failing model load gives the first two success messages, and a failing `predict` or second raw read gives the first three. Each then ends in "Error during analysis: " followed by the description of that stage's own error, with no result. |
| `Analysis.AnalyzeAllOrNothing` | HelloLinkedSpaces/Services/PhotoAnalysisService.swift:62-112 | `analyzePhoto` returns a result iff every stage succeeds: image, key, model load, `predict` and the second raw read. |
| `Analysis.AnalyzeResult` | HelloLinkedSpaces/Services/PhotoAnalysisService.swift:78-102 | When every stage succeeds, the result holds at most two categories, copied in the classifier's order, and at most ten tags of the second raw read, sorted non-increasing, distinct, each at least 0.02. They are the top tags of that read: every tag left out is no more confident than the last one reported. |
| `FlowLayout.Layout` | HelloLinkedSpaces/ContentView.swift:220-239 | The loop returns one position per size, in input order, and the proposed width. Every position and the height equal the item-by-item layout `LayoutOf`. |
| `FlowLayout.WrapRule` | HelloLinkedSpaces/ContentView.swift:227-235 | When the next item fits, it follows the previous one on the same row, `spacing` after its right edge. Otherwise it starts a row at x = 0, at least `spacing` below the previous item's bottom. |
| `FlowLayout.FitsOrStartsRow` | HelloLinkedSpaces/ContentView.swift:227-234 | Every item lies within the proposed width unless it begins a row at x = 0. |
| `FlowLayout.FirstItemTooWide` | HelloLinkedSpaces/ContentView.swift:222-230 | A first item wider than the proposal still wraps, landing at (0, spacing). |
| `FlowLayout.UnboundedSingleRow` | HelloLinkedSpaces/ContentView.swift:221-238 | With no proposed width nothing wraps. Every item is at y = 0, after the widths plus spacings of those before it, and the height is that of the tallest item. |
| `FlowLayout.LayoutBounds` | HelloLinkedSpaces/ContentView.swift:222-238 | For non-negative sizes and spacing, every x and y is non-negative, y never decreases from one item to the next, and the height covers the bottom of every item. |

## Left out

- Core ML / Vision inference, `VNImageRequestHandler` and `VNCoreMLRequest`: the observations, or the error thrown, are an input. Vision's own callback error is only logged in the source.
- Model lookup and loading in the classifier's initialiser: an input giving the thrown error, if any.
- `URLSession`, the HTTP headers and the HTTP status: the `Transport` parameter. The key is passed to it as the bearer token, and the status is ignored, as in the source.
- `JSONSerialization` byte-level parsing: the `Parser` parameter.
  - The request body is modelled as a JSON value. Its serialisation cannot fail for this body.
  - `NSNumber` bridging is simplified: only `Num` reads as `Double`, although Foundation also bridges JSON booleans.
  - Duplicate object keys and top-level fragments are not modelled.
- `String(format: "%.2f")` and the `Double` to `Float` conversions are floating-point formatting and rounding. They are an uninterpreted `Formatter` and the identity.
- Reading `Config.xcconfig` from the bundle and splitting it with `components(separatedBy: .newlines)`: the lines are an input. The `fatalError` process abort is the `None` of `ApiKey` and the `Aborted` outcome.
- The debug `print` calls, SwiftUI views, `PhotosPicker`, `analyzeSelectedPhoto`, and the `Task`/`MainActor` marshalling of progress: UI and concurrency.
- `FlowLayout.sizeThatFits` and `placeSubviews`: SwiftUI glue around `layout`.
- `CGFloat` rounding and infinity arithmetic: an absent width never wraps, which is what `x + w > .infinity` gives for finite values.
- `saveMetadata`, `loadMetadata` and `PhotoMetadata`: UserDefaults persistence with non-deterministic `UUID()` and `Date()`.
- Swift's `sorted` is not documented as stable. The model's sort is stable over the given iteration order, so only tie-independent properties are claimed.
- Text.StartsWith, Analysis.KeyFromLine: strings are compared as sequences of Unicode scalars. Swift compares `Character`s (grapheme clusters, under canonical equivalence) in `hasPrefix` (PhotoAnalysisService.swift:36), in `components(separatedBy: "=")` (:37) and in the placeholder test `apiKey != "YOUR_API_KEY_HERE"` (:40). So text that differs from the prefix, the `=` or the placeholder only in normal form, or that ends inside a cluster, is judged differently. For example, `YOUR_API_\u{212A}EY_HERE` (U+212A KELVIN SIGN, canonically equivalent to `K`) equals the placeholder in Swift and is skipped, while `KeyFromLine` returns it as a key. Unicode segmentation and normalisation tables are outside the model. The name prefix, the separator and the placeholder checked against are ASCII.
- Tags.TopTags: carries no contract of its own. `TopTagsSpec` states its properties.
- Text.Trim: carries no contract of its own. `TrimSpec` states its properties.
- Analysis.KeyFromLine: carries no contract of its own. `KeyFromLineSound` and `KeyFromLineComplete` state its properties.
- Classifier.DecodeResponse: its own contract names only the failure kinds. Success is characterised by `DecodeResponseRoundTrip` and by the contracts of `UnwrapEnvelope`, `DecodePayload` and `DecodeCategories`.
