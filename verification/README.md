# AgriTech widgets: chat send cycle, marketplace query, farming-analysis request

A Dafny model of the three pieces of sequential logic in the frontend of the
AgriTech site:

- **The chat widget's send cycle** (`AgriTechChatbot`). A send is validated in a
  fixed order: blank input, then the character limit, then the cooldown. An
  accepted send appends a `sending` user entry and issues a request. The request
  carries the conversation history as `{role, content}` pairs. The stream
  callback accumulates chunk text into the live streaming message. On the done
  signal, the last log entry is replaced by the `sent` user entry and the AI
  reply. On an exception, it is replaced by the `error` user entry and a fixed
  apology. The model also covers the input-length guard, the cooldown tick, the
  clear button, the send-button enable rule, the counter colour, the link
  handling and the code-block language detection of AI replies.
- **The marketplace query** (`Market`). Six catalogue products are filtered by a
  case-insensitive search on name or description, by buy/rent/all and by
  category. The result is then sorted by price, rating or recency.
- **The smart-farming analysis form** (`SmartFarming`). The model covers whether
  an analysis request is issued, which technique string it carries, the loading
  flag around it and the reset of the custom technique text.

Modules: `Results` (Option/Result), `JsString` (the JavaScript string
operations used: `trim`, `length` in UTF-16 code units, `toLowerCase`,
`includes`, `startsWith`), `Chatbot`, `Market`, `SmartFarming`.

Notes on how the code is modelled:

- The send handler is one `async` function. The model splits it at its
  suspension points:
  - `BeginSend`: everything before the service call, with the accepted branch in `Accept`.
  - `OnChunk` and `OnDone`: the stream callback, for a chunk and for the done
    signal.
  - `OnResolved`: the `finally` after a normal return.
  - `OnError`: the `catch` and the `finally` after a throw.
- The locals that the callback closes over (`userMessage`, `currentTime`,
  `accumulatedResponse`) live in a `PendingSend` object, one per accepted send.
  Its ghost field `chunks` records every chunk received. Its invariant says that
  `accumulated` is their in-order concatenation.
- `slice(0, -1)` on an empty array gives an empty array. So a clear during
  streaming leaves exactly the two final entries (`ReconcileAfterClear`).
- The done handler replaces the latest entry, whoever appended it. The Enter key
  path (Chatbot.tsx:583) does not look at `isLoading`. So once the cooldown is
  over, a second send can start while the first is still streaming. The first
  one's completion then replaces the second one's user entry
  (`OverlappingSendsReplaceLatest`).
- On an exception, the streaming text is left as it was: the `catch` branch does
  not reset `currentStreamingMessage`.

## Model

| member | source | states |
|---|---|---|
| JsString.Trim | frontend/src/components/Chatbot.tsx:327 | `trim()` yields the empty string exactly when every character is ECMAScript whitespace or a line terminator; otherwise the result starts and ends with a non-whitespace character |
| JsString.JsLength | frontend/src/components/Chatbot.tsx:311 | `length` counts UTF-16 code units: at least the number of characters, at most twice it, zero only for the empty string |
| JsString.JsLengthConcat | frontend/src/components/Chatbot.tsx:311 | the length of a concatenation is the sum of the lengths |
| JsString.JsLengthOfBmp | frontend/src/components/Chatbot.tsx:311 | for text in the Basic Multilingual Plane, `length` is the number of characters |
| JsString.IncludesIffOccurs | frontend/src/components/Market.tsx:370-371 | `includes` is true exactly when the needle occurs at some index of the haystack |
| JsString.Includes | frontend/src/components/Market.tsx:370-371 | `includes` searches from the left: the needle is a prefix of the haystack or of one of its suffixes; `IncludesIffOccurs` proves this is "occurs at some index" |
| JsString.ToLower | frontend/src/components/Market.tsx:370-371 | `toLowerCase` keeps the length and maps each character on its own, `A`-`Z` to `a`-`z` and every other character to itself |
| JsString.ToLowerIdempotent | frontend/src/components/Market.tsx:370-371 | lower-casing twice is lower-casing once |
| Chatbot.Validate | frontend/src/components/Chatbot.tsx:326-341 | a blank input is refused as empty before anything else; otherwise too long over `characterLimit`; otherwise refused for cooldown exactly when `now - lastMessageTime < cooldownDuration * 1000`; accepted exactly when all three pass |
| Chatbot.SendDisabled | frontend/src/components/Chatbot.tsx:591 | the button is disabled exactly when a reply is loading, a cooldown is running, or the input's UTF-16 length is over the limit |
| Chatbot.EnabledSendPassesLengthCheck | frontend/src/components/Chatbot.tsx:591 | with the button enabled (`SendDisabled`, the disabled expression), a click is never refused for length, and it happens only when nothing is loading and the cooldown is not positive |
| Chatbot.DefaultSettingsAccept | frontend/src/components/Chatbot.tsx:258-262 | with the default limit of 100 and cooldown of 15 seconds, a non-blank message of at most 100 Basic Multilingual Plane characters sent 15 000 ms or more after the last is accepted |
| Chatbot.PreviousMessages | frontend/src/components/Chatbot.tsx:359-362 | the history has the log's length and order; each role is "user" exactly for user entries and "assistant" exactly for AI entries; each content is the entry's text |
| Chatbot.PreviousMessagesAppend | frontend/src/components/Chatbot.tsx:359-362 | the history of a concatenated log is the concatenation of the histories |
| Chatbot.DropLast | frontend/src/components/Chatbot.tsx:370 | `slice(0, -1)` keeps every entry but the last, and leaves an empty log empty |
| Chatbot.Reconcile | frontend/src/components/Chatbot.tsx:369-373 | the reconciled log ends with exactly the user entry then the AI entry, preceded by the old log without its last entry |
| Chatbot.ReconcileAfterSend | frontend/src/components/Chatbot.tsx:346-373 | with nothing in between, reconciling `L + [sending entry]` gives `L + [user entry, AI entry]` |
| Chatbot.ReconcileAfterClear | frontend/src/components/Chatbot.tsx:369-373 | after a clear during streaming the log is exactly the two final entries |
| Chatbot.OverlappingSendsReplaceLatest | frontend/src/components/Chatbot.tsx:369-373 | when a second send was appended before the first finished, the first one's reconciliation replaces the second's entry |
| Chatbot.Concat | frontend/src/components/Chatbot.tsx:366 | the running `accumulatedResponse`: the texts of the chunks received so far, joined in arrival order, `""` before the first |
| Chatbot.ConcatSnoc | frontend/src/components/Chatbot.tsx:364-367 | one more chunk appends exactly its text to the running concatenation |
| Chatbot.ConcatAppend | frontend/src/components/Chatbot.tsx:366 | concatenation distributes over splitting the chunk sequence |
| Chatbot.CountDown | frontend/src/components/Chatbot.tsx:303 | `max(0, c - 1)` is never negative, never above a non-negative `c`, and below a positive `c` |
| Chatbot.CooldownExpires | frontend/src/components/Chatbot.tsx:299-307 | a cooldown of `c` seconds reaches 0 after `c` ticks |
| Chatbot.ColorFor | frontend/src/components/Chatbot.tsx:319-324 | for a positive limit the counter is red exactly at or over the limit and calm exactly below 80 per cent of it; a zero limit is red, a negative one calm |
| Chatbot.ColorForMatchesRatio | frontend/src/components/Chatbot.tsx:319-324 | for a positive limit the colour is the one the real ratio `length / characterLimit` selects: calm below 0.8, amber from 0.8 to below 1, red from 1 on |
| Chatbot.RatioThresholds | frontend/src/components/Chatbot.tsx:320-322 | the ratio is below 0.8 exactly when `5 * length < 4 * limit`, and below 1 exactly when `length < limit` |
| Chatbot.IsInternalLink | frontend/src/components/Chatbot.tsx:145 | a link is internal exactly when it starts with `/` |
| Chatbot.FollowLink | frontend/src/components/Chatbot.tsx:147-161 | an internal link navigates in the app to its own path; any other link opens in a new tab with `noopener noreferrer` |
| Chatbot.FindLanguage | frontend/src/components/Chatbot.tsx:172 | a found language is a non-empty word and `language-<word>` occurs in the class name |
| Chatbot.FindLanguageIsLeftmostMatch | frontend/src/components/Chatbot.tsx:172 | nothing is found exactly when no `language-` followed by a word character occurs; otherwise the result is the greedy word after the leftmost such occurrence |
| Chatbot.LanguageOfTag | frontend/src/components/Chatbot.tsx:172-177 | the class name `language-<word>` yields exactly that word |
| Chatbot.CodeLanguage | frontend/src/components/Chatbot.tsx:172 | an absent class name gives no language; a language found is a word |
| Chatbot.HighlightedText | frontend/src/components/Chatbot.tsx:181 | one trailing newline is removed, and text without one is unchanged |
| Chatbot.PendingSend.constructor | frontend/src/components/Chatbot.tsx:345-352 | a send starts with no chunks and an empty accumulated response |
| Chatbot.AgriTechChatbot.constructor | frontend/src/components/Chatbot.tsx:258-275 | the widget starts with an empty log and input, no banner, not loading, no cooldown, last send at time 0 |
| Chatbot.AgriTechChatbot.InputChange | frontend/src/components/Chatbot.tsx:309-317 | a value within the limit replaces the input and clears the banner; a longer one leaves the input and sets the limit error; the input never becomes over-long this way |
| Chatbot.AgriTechChatbot.QuickAction | frontend/src/components/Chatbot.tsx:425-430 | a quick action or suggested question replaces the input, with no length check |
| Chatbot.AgriTechChatbot.Tick | frontend/src/components/Chatbot.tsx:299-307 | a positive cooldown goes down by one, stopping at 0; it never increases, and from a non-negative value it never turns negative |
| Chatbot.AgriTechChatbot.BeginSend | frontend/src/components/Chatbot.tsx:326-363 | the send goes ahead exactly when `Validate` accepts it; a refused send sets only the banner to the refusal and leaves log, input, loading, cooldown and last-send time unchanged; an accepted one does what `Accept` states |
| Chatbot.AgriTechChatbot.Accept | frontend/src/components/Chatbot.tsx:343-363 | exactly one sending entry with the untrimmed input is appended; input and banner are cleared; loading is set; `lastMessageTime := now` and `cooldown := cooldownDuration`; a fresh pending send with no chunks carries the request with the history of the log before the append |
| Chatbot.AgriTechChatbot.OnChunk | frontend/src/components/Chatbot.tsx:364-367 | the accumulated response grows by the chunk, and the streaming message equals the in-order concatenation of all chunks so far |
| Chatbot.AgriTechChatbot.OnDone | frontend/src/components/Chatbot.tsx:368-375 | the log's last entry is replaced by the sent user entry and an AI entry whose text is the concatenation of every chunk; the streaming message is reset |
| Chatbot.AgriTechChatbot.OnResolved | frontend/src/components/Chatbot.tsx:390-392 | loading ends |
| Chatbot.AgriTechChatbot.OnError | frontend/src/components/Chatbot.tsx:378-392 | the banner shows the error's message or the generic text; the last entry is replaced by the errored user entry and the apology; loading ends |
| Chatbot.AgriTechChatbot.Clear | frontend/src/components/Chatbot.tsx:395-398 | the log is emptied and the banner cleared; nothing else changes |
| Market.FilterProducts | frontend/src/components/Market.tsx:368-379 | every kept product matches search, type and category; every matching product is kept; the result is a subsequence of the input |
| Market.MatchesSearch | frontend/src/components/Market.tsx:370-371 | the lower-cased query occurs in the lower-cased name or in the lower-cased description |
| Market.MatchesType | frontend/src/components/Market.tsx:372-375 | "all" admits every product, "buy" those with a positive price, "rent" those with a positive rental price |
| Market.MatchesCategory | frontend/src/components/Market.tsx:376 | "All" admits every product, any other category only products of exactly that category |
| Market.Matches | frontend/src/components/Market.tsx:378 | a product is kept exactly when search, type and category all admit it |
| Market.SubsequenceNoDuplicates | frontend/src/components/Market.tsx:368-369 | filtering cannot duplicate a product |
| Market.Insert | frontend/src/components/Market.tsx:380-387 | inserting into a sorted list keeps it sorted and adds exactly that product |
| Market.SortProducts | frontend/src/components/Market.tsx:380-387 | the result is sorted by the comparator's key and is a permutation of the input |
| Market.SortKey | frontend/src/components/Market.tsx:381-385 | each comparator is the difference of keys: price for "price", minus rating for "rating", minus id for "newest", so ascending key order is the comparator's order |
| Market.PermutationNoDuplicates | frontend/src/components/Market.tsx:380-387 | sorting cannot duplicate a product |
| Market.SortedFields | frontend/src/components/Market.tsx:382-384 | sorted by price means non-decreasing price; by rating, non-increasing rating; newest, non-increasing id |
| Market.QueryProducts | frontend/src/components/Market.tsx:368-387 | listed products are exactly the matching ones, as a permutation of the filter result, ordered by price ascending, rating descending or, with unique ids, id strictly descending |
| Market.NewestIsStrict | frontend/src/components/Market.tsx:384 | sorting by recency over products with unique ids gives strictly decreasing ids |
| Market.CatalogueIdsUnique | frontend/src/components/Market.tsx:49-164 | the catalogue's ids are unique |
| Market.FilteredProducts | frontend/src/components/Market.tsx:368-387 | over the catalogue: exactly the matching products, as a permutation of the filter result, by price ascending, by rating descending, or under "newest" by strictly decreasing id |
| Market.EmptyQueryKeepsAll | frontend/src/components/Market.tsx:369-371 | an empty query with "all" types and category "All" keeps every product in order |
| Market.SearchIgnoresQueryCase | frontend/src/components/Market.tsx:370-371 | the search result does not depend on the case of the query's ASCII letters |
| Market.RentNeverListsSeeds | frontend/src/components/Market.tsx:372-375 | the seeds product (rental price 0) is never listed under "rent" |
| Market.OrganicOnlyUnderAll | frontend/src/components/Market.tsx:366-376 | the organic bundle's category is not selectable, so it is listed under no selectable category but "All" |
| Market.OrganicListedUnderAll | frontend/src/components/Market.tsx:376 | under "All", with an empty query, the organic bundle is listed |
| SmartFarming.CheckForm | frontend/src/pages/SmartFarming.tsx:56-86 | refused when the technique or farm size is empty; otherwise refused when "other" has a blank custom text; otherwise a request with the custom text for "other" and the selected id otherwise, farm size and budget unchanged |
| SmartFarming.BlankFarmSizeAccepted | frontend/src/pages/SmartFarming.tsx:57 | a farm size of spaces only passes, since only emptiness is tested |
| SmartFarming.CustomTypeCheckedSecond | frontend/src/pages/SmartFarming.tsx:57-79 | a blank custom text is reported only once technique and farm size are given |
| SmartFarming.SmartFarmingPage.constructor | frontend/src/pages/SmartFarming.tsx:37-43 | no technique, medium budget, empty farm size and custom text, not loading, no analysis |
| SmartFarming.SmartFarmingPage.SelectTechnique | frontend/src/pages/SmartFarming.tsx:195-200 | for one of the four button ids, the technique is selected; the custom text is cleared unless the selection is "other", which keeps it |
| SmartFarming.SmartFarmingPage.BeginAnalysis | frontend/src/pages/SmartFarming.tsx:56-86 | the outcome is the form check; loading is set exactly when a request is issued, and a refusal changes nothing |
| SmartFarming.SmartFarmingPage.FinishAnalysis | frontend/src/pages/SmartFarming.tsx:104-111 | loading ends on success and on failure; the analysis changes only on success |

## Left out

- Any retry, fallback or reply post-processing inside `../ai/aiService` is not modelled. `AgriTechChatbot` itself retries nothing, adds no placeholder entry to the log, and holds the streaming text outside the log.
- The AI services (`../ai/aiService`, `../ai/modernFarmingService`) are not part of this model. The stream is modelled only as the callback calls it makes (`OnChunk`, `OnDone`) or a throw (`OnError`), in any order the service chooses. The analysis result is an opaque type parameter.
- `Date.now()` becomes a parameter. `setInterval` scheduling is left out: only the tick step is modelled. The five-minute auto-refresh of the analysis page is left out.
- React's state batching, effects and stale `useCallback` closures are left out. Each handler runs on the current state.
- The translation tables are left out. The banner holds the kind of error, not its translated text.
- `getInputColor` divides floating-point numbers. `Chatbot.ColorFor` compares by integer cross-multiplication instead. `Chatbot.ColorForMatchesRatio` proves this equals the test on the exact real ratio. Floating-point rounding of the ratio is not modelled.
- Product ratings are held as integer tenths of a star. The product fields the query does not read are left out: image, availability, stock, featured, discount and specifications.
- JsString.ToLower: lower-cases the ASCII letters only. JavaScript's `toLowerCase` folds every Unicode letter.
- Market.SortProducts: states sortedness and permutation but not stability. The insertion sort it uses keeps equal keys in catalogue order, as JavaScript's stable sort does.
- The Razorpay payment flow and the environment-variable check are left out. They depend on a foreign SDK and on environment I/O.
- Presentation is left out: JSX, animation, markdown and syntax-highlight rendering, toasts, charts, `isOpen`/`isExpanded`, input focus and scrolling. The landing page is static content and is not modelled.
- The farm-size, custom-technique and budget inputs of the analysis page are left out. They only assign their field, and the model's fields are set directly.
