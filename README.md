# Geek University web app — a verified model of its front-end logic

Geek University is a Next.js web application for a Web3 course marketplace.
Its pages and hooks hold the logic modelled here:

- the static course catalogue page: filtering, sorting, likes, a cart and checkout, all persisted in local storage;
- the on-chain course listing hook: multicall reads of the market contract, purchased-course ids, and the purchase transaction with its receipt;
- the purchase buttons and toasts of the course listing component;
- the contract test page: reads, course creation and update, buying GEEK tokens, and the approve-then-purchase flow;
- the keyword-driven AI assistant chat widget;
- the wallet display helpers;
- the ETH/GEEK swap widget.

Each React component or hook whose state changes step by step is a Dafny `class`:
- its `useState` variables are fields;
- each handler is a `method` whose `ensures` gives the whole new state.

Each handler that runs a chain of awaited contract calls is specified by a pure *flow* function. The flow function takes the answers of the chain (success, revert, thrown error) as a parameter and returns:
- the status message;
- the transactions sent;
- whether the form was cleared.

The method's postcondition ties the new state to that function, and the lemmas prove the source's promises about the function. The catalogue's filter-and-sort effect is an insertion sort on an `array`, proved equal to a stable sort specification (`SortBy`) that is itself proved sorted, a permutation, and order-preserving on ties.

Modules:

- `Wrappers`: `Option` and `Result`.
- `Text`: `toLowerCase` on ASCII, `includes`, and `trim`-emptiness.
- `I18n`: the `texts[key]?.[lang] || texts[key]?.en || key` lookup.
- `Chain`: the outcome of a contract read and of a sent transaction.
- `CourseCatalog`, `CoursePage`: app/course/page.tsx.
- `CourseData`: hooks/useCourse.ts.
- `CourseListing`: components/course-listing.tsx.
- `ContractTestPage`: app/test-contract/page.tsx.
- `AiAssistant`: components/ai-assistant.tsx.
- `Wallet`: hooks/useWallet.ts.
- `WrapToken`: hooks/useWrapToken.ts.

Conventions:

- JavaScript `||` treats `""`, `0n` and `undefined` as false. This is modelled with explicit `Option` and emptiness tests.
- Ratings such as 4.8 are kept as integer tenths (48), which preserves their order.
- Prices are whole numbers in the catalogue.
- Token amounts are `nat` in the smallest unit.

The test page's purchase always sends an `approve` transaction before `purchaseCourse`, even when the course price is zero (app/test-contract/page.tsx:278-279, modelled by `ContractTestPage.PaymentFlow`).

## Model

| member | source | states |
|---|---|---|
| Text.ToLower | app/course/page.tsx:337-339 | the lower-cased string has the same length and each character is the ASCII lower case of the original |
| Text.ToLowerConcat | components/ai-assistant.tsx:196 | lower-casing distributes over concatenation |
| Text.ToLowerIdempotent | components/ai-assistant.tsx:196 | lower-casing twice equals lower-casing once |
| Text.ContainsAt | components/ai-assistant.tsx:198 | `includes` holds whenever the word occurs at some position |
| Text.ContainsWitness | components/ai-assistant.tsx:198 | conversely, `includes` yields a position where the word occurs |
| Text.ContainsInPrefix | components/ai-assistant.tsx:198 | a word found in a prefix is found in the whole string |
| Text.ContainsInSuffix | components/ai-assistant.tsx:198 | a word found in a suffix is found in the whole string |
| I18n.GetText | app/course/page.tsx:628 | the entry for the language if non-empty, else the English entry if non-empty, else the key itself |
| I18n.GetTextNeverEmpty | components/ai-assistant.tsx:191 | a non-empty key never renders as empty text; with no entries it renders as the key |
| I18n.UnknownLanguageReadsEnglish | components/ai-assistant.tsx:191 | a language without an entry falls back to the English entry |
| CourseCatalog.KeepAll | app/course/page.tsx:343-345 | a filter that accepts everything (type "all", level "all", empty search) leaves the list unchanged |
| CourseCatalog.KeepFuse | app/course/page.tsx:335-353 | successive filters equal one filter by their conjunction |
| CourseCatalog.KeepCount | app/course/page.tsx:335-353 | filtering keeps every accepted course with its multiplicity and drops every rejected one |
| CourseCatalog.KeepExt | app/course/page.tsx:335-353 | filters that agree on the list give the same result |
| CourseCatalog.KeepSound | app/course/page.tsx:335-353 | every kept course was in the list and passes the filter |
| CourseCatalog.Matches | app/course/page.tsx:335-353 | defines the conjunction of the active search, type, level and price predicates; `KeepFuse` proves it equals the chained filters |
| CourseCatalog.Select | app/course/page.tsx:332-353 | defines the filtered catalogue; its soundness and completeness are `BrowseSound` and `BrowseCount` |
| CourseCatalog.Browse | app/course/page.tsx:329-376 | defines the filter-then-sort specification; proved sound, complete, sorted and stable by `BrowseSound`, `BrowseCount` and `BrowseOrder`, and computed by `ApplyFilters` |
| CourseCatalog.InsertBackPerm | app/course/page.tsx:356-373 | inserting one course adds exactly that course to the multiset |
| CourseCatalog.InsertBackSorted | app/course/page.tsx:356-373 | inserting into a sorted list keeps it sorted and adds exactly one element |
| CourseCatalog.InsertBackTies | app/course/page.tsx:356-373 | insertion places a course after those of equal rank (stability) |
| CourseCatalog.InsertBackAt | app/course/page.tsx:356-373 | insertion splices the course in at the position found by the shift loop |
| CourseCatalog.SortByCorrect | app/course/page.tsx:356-373 | the sort is a permutation, ordered by the chosen key, and keeps the input order of courses of equal rank (as `Array.prototype.sort` is stable) |
| CourseCatalog.SortInPlace | app/course/page.tsx:356-373 | sorting the array in place leaves exactly the stable sort of its old contents |
| CourseCatalog.InsertInPlace | app/course/page.tsx:356-373 | one insertion step sorts the prefix up to i and leaves the rest untouched |
| CourseCatalog.ShiftGreater | app/course/page.tsx:356-373 | the courses of greater rank move one slot right and the insertion position is found |
| CourseCatalog.ApplyFilters | app/course/page.tsx:329-376 | the filter effect computes exactly the specification `Browse`: filter by search, type, level and price, then sort |
| CourseCatalog.BrowseSound | app/course/page.tsx:332-353 | every course shown is in the catalogue and matches every active filter |
| CourseCatalog.BrowseCount | app/course/page.tsx:332-353 | a matching course is shown exactly as often as it is in the catalogue; a non-matching one never is |
| CourseCatalog.BrowseOrder | app/course/page.tsx:356-373 | with a known sort option the result is sorted by it and stable; with an unknown option the filtered order is kept |
| CourseCatalog.SortDirections | app/course/page.tsx:357-372 | newest sorts by id descending, popular by students descending, price-low ascending, price-high descending, rating descending |
| CourseCatalog.CatalogIds | app/course/page.tsx:26-232 | the catalogue has eight courses with ids 1 to 8 |
| CourseCatalog.DistinctIdsCountOnce | app/course/page.tsx:26-232 | in a list with distinct ids each member occurs once |
| CourseCatalog.CatalogComplete | app/course/page.tsx:329-376 | a catalogue course that matches the filters is shown exactly once |
| CourseCatalog.DevelopmentSelect | app/course/page.tsx:343-345 | the "development" type filter selects courses 2 and 3 |
| CourseCatalog.DevelopmentNewest | app/course/page.tsx:357-360 | sorted by newest, the development courses show as ids 3 then 2 |
| CoursePage.WithoutCounts | app/course/page.tsx:381-382 | removing an id removes every occurrence of it and keeps every other id with its multiplicity |
| CoursePage.WithoutConcat | app/course/page.tsx:422 | removal distributes over concatenation |
| CoursePage.WithoutAbsent | app/course/page.tsx:422 | removing an absent id changes nothing |
| CoursePage.WithoutIdempotent | app/course/page.tsx:422 | removing the same id twice is removing it once |
| CoursePage.WithoutSubset | app/course/page.tsx:422 | removal introduces no id |
| CoursePage.WithoutNoDuplicates | app/course/page.tsx:422 | removal keeps a list free of duplicates |
| CoursePage.ToggleTwice | app/course/page.tsx:378-394 | liking then unliking restores the same set of liked ids, and exactly the same list when the id was not liked |
| CoursePage.AppendNoDuplicates | app/course/page.tsx:396-418 | appending an absent id keeps the cart free of duplicates |
| CoursePage.PriceOfLookup | app/course/page.tsx:635 | an id absent from the catalogue costs 0; a catalogue course with distinct ids has its own price |
| CoursePage.CartTotalConcat | app/course/page.tsx:634-637 | the cart total is additive over concatenation |
| CoursePage.CartTotalCons | app/course/page.tsx:634-637 | the total of a cart is the first price plus the total of the rest |
| CoursePage.CartTotalWithout | app/course/page.tsx:420-434 | removing an item lowers the total by its price times its multiplicity |
| CoursePage.PriceOf | app/course/page.tsx:635 | defines the price lookup `courses.find(...)?.price || 0`; proved by `PriceOfLookup` |
| CoursePage.CartTotal | app/course/page.tsx:634-637 | defines the `reduce` over the cart; proved additive and consistent with removal by `CartTotalConcat`, `CartTotalCons` and `CartTotalWithout` |
| CoursePage.CoursePageState.Total | app/course/page.tsx:634-637 | the page's `cartTotal`: `CartTotal` of the current cart over the catalogue |
| CoursePage.CoursePageState.constructor | app/course/page.tsx:283-292 | the initial state: not mounted, default filters, full catalogue, empty likes and cart |
| CoursePage.CoursePageState.Mount | app/course/page.tsx:294-327 | mounting restores likes and cart from storage when stored, else keeps them |
| CoursePage.CoursePageState.Refresh | app/course/page.tsx:329-376 | after mounting the shown list is `Browse` of the catalogue under the current filters; before mounting nothing changes |
| CoursePage.CoursePageState.SetFilters | app/course/page.tsx:283-292 | setting a filter replaces the filters |
| CoursePage.CoursePageState.ResetFilters | app/course/page.tsx:773-776 | reset restores the default search, type, level and price range, and keeps the sort option |
| CoursePage.CoursePageState.ToggleLike | app/course/page.tsx:378-394 | the id is added if absent and removed if present, the list is persisted, and the result says which happened |
| CoursePage.CoursePageState.AddToCart | app/course/page.tsx:396-418 | a course already in the cart leaves cart and storage unchanged and is signalled; otherwise it is appended and persisted; no duplicates arise |
| CoursePage.CoursePageState.RemoveFromCart | app/course/page.tsx:420-434 | every occurrence of the id leaves the cart, which is persisted |
| CoursePage.CoursePageState.Checkout | app/course/page.tsx:436-446 | the cart is emptied and its storage entry removed |
| CourseData.MarketAddressFrom | hooks/useCourse.ts:18 | the configured address when set and non-empty, else the default market address |
| CourseData.Misconfigured | hooks/useCourse.ts:196-199 | defines the bad-address guard: empty or starting with "0xYour"; `ConfiguredAddressUsable` relates it to the configured address |
| CourseData.ConfiguredAddressUsable | hooks/useCourse.ts:196-199 | the address counts as misconfigured exactly when it was configured with the "0xYour" placeholder |
| CourseData.Description | hooks/useCourse.ts:100 | the generated description contains the course name |
| CourseData.BuildCourseCalls | hooks/useCourse.ts:79-87 | one `courses(k)` read per id, ids 1 to the course count |
| CourseData.Assembled | hooks/useCourse.ts:95-115 | defines the courses built from the multicall answers; proved by `AssembledOrigin`, `AssembledIncreasing`, `AssembledComplete`, `AssembledDistinct` and `ImagesCycle` |
| CourseData.AssembledOrigin | hooks/useCourse.ts:95-115 | each assembled course comes from a successful answer, with id = its index + 1 and that answer's fields |
| CourseData.AssembledIncreasing | hooks/useCourse.ts:95-115 | assembled courses appear in strictly increasing id order |
| CourseData.AssembledComplete | hooks/useCourse.ts:95-115 | every successful answer yields a course; failed answers are skipped |
| CourseData.ImagesCycle | hooks/useCourse.ts:99 | course images cycle through the six image urls by id |
| CourseData.AssembleCourses | hooks/useCourse.ts:95-115 | the loop builds exactly `Assembled` of the answers |
| CourseData.PurchasedIds | hooks/useCourse.ts:150-156 | defines the purchased-id set; proved by `PurchasedIdsMeaning` |
| CourseData.PurchasedIdsMeaning | hooks/useCourse.ts:150-156 | purchased ids are course ids; with distinct ids, an id is purchased exactly when its answer is a successful `true` |
| CourseData.AssembledDistinct | hooks/useCourse.ts:95-115 | assembled courses have distinct ids |
| CourseData.CollectPurchased | hooks/useCourse.ts:150-156 | the loop collects exactly `PurchasedIds` |
| CourseData.CourseCountAsWritten | hooks/useCourse.ts:55 | as written: the count is undefined when unread and also when it is zero |
| CourseData.ZeroCountUnreachableAsWritten | hooks/useCourse.ts:55-74 | as written, a count of zero can never reach the zero-count branch |
| CourseData.CourseCount | hooks/useCourse.ts:55-74 | corrected: undefined only when unread, otherwise the count itself, zero included |
| CourseData.FindByWeb2Id | hooks/useCourse.ts:201-205 | finds a course with the given web2 id exactly when one exists |
| CourseData.CourseDataState.constructor | hooks/useCourse.ts:32-37 | empty courses and purchases, no loading, no error, no purchase in flight |
| CourseData.CourseDataState.FetchAllCourses | hooks/useCourse.ts:55-123 | as written: no client, an unread count or a count of 0 leaves the list and loading flag as they were, taking the count read error if any; otherwise one read per id and the courses assembled, or the thrown error recorded |
| CourseData.CourseDataState.FetchCourses | hooks/useCourse.ts:57-123 | given the hook's count: undefined leaves the list as it was; 0 empties the list and clears the error; otherwise one read per id, then the assembled courses or the thrown error, and loading ends |
| CourseData.CourseDataState.FetchUserPurchasedCourses | hooks/useCourse.ts:131-164 | without client, account or courses the set is emptied; otherwise one `hasCourse` read per course and the purchased ids collected, always a subset of the course ids |
| CourseData.CourseDataState.PurchaseCourse | hooks/useCourse.ts:188-222 | each guard fails with its message in order; otherwise the purchase is marked in flight and submitted, and a rejection clears the mark and is re-thrown |
| CourseData.CourseDataState.OnReceiptStatus | hooks/useCourse.ts:234-238 | a settled receipt clears the in-flight course; confirming, confirmed and error follow the receipt status |
| CourseData.CourseDataState.PurchaseError | hooks/useCourse.ts:248 | the submission error if any, else the confirmation error |
| CourseData.CourseDataState.IsLoading | hooks/useCourse.ts:253 | loading exactly while any of the three reads is loading |
| CourseData.CourseDataState.FetchError | hooks/useCourse.ts:254 | the fetch error if any, else exactly the count read error |
| CourseListing.StateOf | components/course-listing.tsx:93-121 | owned beats unavailable beats in-flight beats purchasable, and purchasable exactly when none of the others applies |
| CourseListing.ButtonText | components/course-listing.tsx:93-121 | defines `getPurchaseButtonText` as the translated `StateOf`; consistency with the button is `EnabledIffPurchaseLabel` |
| CourseListing.Disabled | components/course-listing.tsx:212 | defines the `disabled` expression; `EnabledIffPurchaseLabel` proves it is false exactly when the label offers the purchase |
| CourseListing.EnabledIffPurchaseLabel | components/course-listing.tsx:212 | the button is enabled exactly when it reads "Purchase Course" in the current language |
| CourseListing.LabelsDistinct | components/course-listing.tsx:93-121 | in each language the five button states have five different labels |
| CourseListing.OtherLanguagesEnglish | components/course-listing.tsx:93-121 | any language other than zh and ko shows the English labels |
| CourseListing.InitiationToast | components/course-listing.tsx:139-145 | a destructive "Purchase Error" toast appears exactly when no purchase error is already shown, carrying the thrown message or a fallback |
| CourseListing.StatusToasts | components/course-listing.tsx:51-67 | one success toast when confirmed, whose description contains "Transaction Hash: " and the hash, and one destructive "Purchase Failed" toast when an error is set, carrying the error or "An unknown error occurred." for an empty one |
| CourseListing.HandlePurchase | components/course-listing.tsx:134-147 | each failed guard (not ready, not connected, bad address, not found) and a rejected submission give the initiation toast with that message, unless an error is already rendered; a submitted purchase gives none; the purchase state of the hook changes as `PurchaseCourse` promises |
| ContractTestPage.ErrorMessage | app/test-contract/page.tsx:183-331 | every caught-error message of the page (adding, updating, approving, purchasing, buying tokens) begins with "Error", so it renders red, and carries the thrown error text |
| ContractTestPage.DisplayDecimals | app/test-contract/page.tsx:261 | token decimals default to 18 while unread |
| ContractTestPage.PurchaseFlow | app/test-contract/page.tsx:233-311 | defines the purchase handler's outcome; its guards and ordering are proved by `PurchaseGuards`, `ApprovalCoversPrice`, `PurchaseAfterApproval`, `ClearedOnlyOnSuccess` and `UnfinishedPurchaseRed` |
| ContractTestPage.PaymentFlow | app/test-contract/page.tsx:278-305 | defines the approve-then-purchase tail, with no revoking call after a failed purchase |
| ContractTestPage.PurchaseGuards | app/test-contract/page.tsx:234-273 | nothing is sent when not connected, the id is empty, the course is missing or inactive, or the balance is below the price, each with its message |
| ContractTestPage.ApprovalCoversPrice | app/test-contract/page.tsx:278-289 | the first transaction sent is an approval of exactly the course price to the market |
| ContractTestPage.PurchaseAfterApproval | app/test-contract/page.tsx:291-305 | `purchaseCourse` is sent only after a confirmed approval |
| ContractTestPage.ClearedOnlyOnSuccess | app/test-contract/page.tsx:291-305 | the id field is cleared only when the purchase is confirmed |
| ContractTestPage.StyleOf | app/test-contract/page.tsx:347-351 | no style for no message; red exactly for error messages |
| ContractTestPage.ErrorPrefixRed | app/test-contract/page.tsx:347-351 | every "Error" message renders red |
| ContractTestPage.UnfinishedPurchaseRed | app/test-contract/page.tsx:233-311 | a purchase that fails after passing the guards leaves a red message |
| ContractTestPage.Normalize | app/test-contract/page.tsx:68-75 | missing fields get the 'N/A', 0 and false defaults and the id is the index |
| ContractTestPage.ListedOrigin | app/test-contract/page.tsx:64-80 | each listed course comes from a successful read of that index |
| ContractTestPage.ListedIncreasing | app/test-contract/page.tsx:64-80 | listed courses appear in increasing id order |
| ContractTestPage.ListedEmpty | app/test-contract/page.tsx:64-80 | the list is empty exactly when every read failed |
| ContractTestPage.AddFlow | app/test-contract/page.tsx:150-186 | defines the add handler's outcome; proved by `AddGates` |
| ContractTestPage.UpdateFlow | app/test-contract/page.tsx:188-231 | defines the update handler's outcome; proved by `UpdateGates` |
| ContractTestPage.BuyTokensFlow | app/test-contract/page.tsx:313-334 | defines the token purchase handler's outcome; proved by `BuyTokensGate` |
| ContractTestPage.AddGates | app/test-contract/page.tsx:150-186 | something is sent exactly when the market contract and signer exist, decimals are loaded, every field is filled, the price is positive and `parseUnits` converts it; then exactly one `addCourse` at the converted price; the form is cleared only on confirmation; a price `parseUnits` rejects ends on a red message carrying its error |
| ContractTestPage.UpdateGates | app/test-contract/page.tsx:188-231 | the same gates for updating a course, which sends exactly one `updateCourse` with both ids, the converted price and the active flag |
| ContractTestPage.BuyTokensGate | app/test-contract/page.tsx:313-334 | tokens are bought exactly when connected with a positive ETH amount that `parseEther` converts, for exactly that many wei; the amount is cleared only on confirmation, and every other ending after the guards is red |
| ContractTestPage.TestPage.constructor | app/test-contract/page.tsx:11-41 | the initial page state |
| ContractTestPage.TestPage.Connect | app/test-contract/page.tsx:126-148 | connecting records the account and the signer and reports it |
| ContractTestPage.TestPage.HandlePurchaseCourse | app/test-contract/page.tsx:233-311 | the new message, transactions and id field are those of `PurchaseFlow` |
| ContractTestPage.TestPage.Pay | app/test-contract/page.tsx:278-305 | the approve-then-purchase step follows `PaymentFlow` |
| ContractTestPage.TestPage.HandleAddCourse | app/test-contract/page.tsx:150-186 | checks the market contract and the signer (not the account), then the new message, transactions and form follow `AddFlow`, including a throwing `parseUnits` |
| ContractTestPage.TestPage.HandleUpdateCourse | app/test-contract/page.tsx:188-231 | checks the market contract and the signer (not the account), then the new state follows `UpdateFlow`, including a throwing `parseUnits` |
| ContractTestPage.TestPage.HandleBuyTokens | app/test-contract/page.tsx:313-334 | the new state follows `BuyTokensFlow`, including a throwing `parseEther` |
| ContractTestPage.TestPage.LoadAllCourses | app/test-contract/page.tsx:52-88 | a failed count read or a zero count empties the list with its message; otherwise the list is `Listed` of the answers |
| ContractTestPage.TestPage.Initialize | app/test-contract/page.tsx:43-124 | with an account and a signer the contracts are set up, the rate and decimals read, and the course list and final message are those of `loadAllCourses` for each count answer; otherwise nothing changes |
| ContractTestPage.TestPage.Style | app/test-contract/page.tsx:347-351 | the current message renders red exactly when it is an error message |
| AiAssistant.TopicFirstMatch | components/ai-assistant.tsx:195-236 | the reply topic is the first of greeting, course, blockchain, pricing whose keywords occur in the lower-cased question, else the fallback |
| AiAssistant.TopicOf | components/ai-assistant.tsx:195-230 | defines the rule chosen for a question; its first-match meaning is proved by `TopicFirstMatch`, `CaseInsensitive` and `HiInsideWordGreets` |
| AiAssistant.Respond | components/ai-assistant.tsx:195-236 | defines `getAIResponse`: the chosen rule's reply in the current language; `OtherLanguagesKorean` proves the language fallback |
| AiAssistant.OtherLanguagesKorean | components/ai-assistant.tsx:199-233 | any language other than en and zh gets the Korean reply |
| AiAssistant.CaseInsensitive | components/ai-assistant.tsx:196 | the topic does not depend on letter case |
| AiAssistant.CoursesKeywordRedundant | components/ai-assistant.tsx:206 | the "courses" keyword adds nothing to "course" |
| AiAssistant.HiInsideWordGreets | components/ai-assistant.tsx:198 | any question containing "hi", even inside a word, is answered with a greeting |
| AiAssistant.ThisIsAGreeting | components/ai-assistant.tsx:198-206 | "tell me about this course" is answered with the greeting, because "this" contains "hi" |
| AiAssistant.PriceReplyMatchesCatalog | components/ai-assistant.tsx:222-229 | the pricing reply quotes "$199" and "$449", which are exactly the catalogue's cheapest and dearest price |
| AiAssistant.Welcome | components/ai-assistant.tsx:162-191 | the welcome text is never empty and is English for unknown languages |
| AiAssistant.ChatWidget.constructor | components/ai-assistant.tsx:36-40 | the chat starts closed, collapsed, empty, in English |
| AiAssistant.ChatWidget.LanguageChanged | components/ai-assistant.tsx:44-63 | a stored language is adopted, an absent one ignored |
| AiAssistant.ChatWidget.ToggleChat | components/ai-assistant.tsx:79-92 | opening an empty chat adds the welcome message once; the open flag flips |
| AiAssistant.ChatWidget.ToggleExpand | components/ai-assistant.tsx:94-96 | the expanded flag flips |
| AiAssistant.ChatWidget.ResetChat | components/ai-assistant.tsx:98-106 | the conversation becomes just the welcome message |
| AiAssistant.ChatWidget.HandleSendMessage | components/ai-assistant.tsx:108-130 | blank input does nothing; otherwise the question is appended, the input cleared, and the reply is `Respond` of the question |
| AiAssistant.ChatWidget.HandleSuggestedQuestion | components/ai-assistant.tsx:138-159 | the question is shown in the input and appended, and the reply is `Respond` of it |
| AiAssistant.ChatWidget.DeliverReply | components/ai-assistant.tsx:123-129 | the assistant's reply is appended to the conversation |
| Wallet.Head | hooks/useWallet.ts:53 | `slice(0, n)` is the prefix of length min(n, length) |
| Wallet.Tail | hooks/useWallet.ts:53 | `slice(-n)` is the suffix of length min(n, length) |
| Wallet.DisplayAddress | hooks/useWallet.ts:51-54 | defines `displayAddress`; its shape is proved by `ShortenedAddress` and `NoAddressNoDisplay` |
| Wallet.ShortenedAddress | hooks/useWallet.ts:51-54 | a long address shows its first 6 and last 4 characters around "..."; a 42-character address shrinks by 29 |
| Wallet.NoAddressNoDisplay | hooks/useWallet.ts:51-54 | there is no display address exactly when there is no address |
| Wallet.DisplayName | hooks/useWallet.ts:57-59 | the ENS name when present, else the shortened address |
| Wallet.DisplayNamePresent | hooks/useWallet.ts:57-59 | a name is shown exactly when there is an ENS name or an address |
| Wallet.FormattedBalance | hooks/useWallet.ts:62-75 | no balance means no text; otherwise the text ends with " " and the symbol, and a zero balance reads "0 " + symbol |
| WrapToken.Swapped | hooks/useWrapToken.ts:104-110 | swapping exchanges both the tokens and the amounts |
| WrapToken.SwapInvolution | hooks/useWrapToken.ts:104-110 | swapping twice restores the pair |
| WrapToken.Failure | hooks/useWrapToken.ts:191-193 | an error is always shown, the thrown message when there is one |
| WrapToken.SendFlow | hooks/useWrapToken.ts:146-193 | defines the pair dispatch after the checks; proved by `DispatchByPair` and `OtherPairsRejected` |
| WrapToken.ExchangeFlow | hooks/useWrapToken.ts:119-193 | defines the exchange after the amount check: wallet, accounts, network, then dispatch; proved by `DispatchByPair` and `ClearedOnlyAfterConfirmation` |
| WrapToken.DispatchByPair | hooks/useWrapToken.ts:146-184 | ETH to GEEK sends `buyWithEth` with the parsed value, GEEK to ETH sends `sellTokens` with the parsed amount |
| WrapToken.OtherPairsRejected | hooks/useWrapToken.ts:185-187 | any other pair sends nothing and reports an invalid pair |
| WrapToken.ClearedOnlyAfterConfirmation | hooks/useWrapToken.ts:146-184 | the amounts are cleared only after a confirmed transaction |
| WrapToken.SwapWidget.constructor | hooks/useWrapToken.ts:23-29 | ETH to GEEK, empty amounts, rate 1000, no error |
| WrapToken.SwapWidget.SwapTokens | hooks/useWrapToken.ts:104-110 | the widget's pair becomes the swapped pair |
| WrapToken.SwapWidget.HandleFromAmountChange | hooks/useWrapToken.ts:79-89 | the from amount is set and the to amount converted, or emptied for empty input |
| WrapToken.SwapWidget.HandleToAmountChange | hooks/useWrapToken.ts:91-101 | the to amount is set and the from amount converted back, or emptied for empty input |
| WrapToken.SwapWidget.RefreshRate | hooks/useWrapToken.ts:32-76 | no wallet, an unreadable network or a wrong network each set their error; on Sepolia the rate is read |
| WrapToken.SwapWidget.HandleExchange | hooks/useWrapToken.ts:113-197 | empty amounts only set an error; otherwise the exchange runs and loading ends |
| WrapToken.SwapWidget.Exchange | hooks/useWrapToken.ts:119-193 | the new error, transactions and amounts follow `ExchangeFlow` |

## Left out

- Rendering (JSX, styling, icons, scrolling, focus, animation) and every effect that only logs to the console.
- Reads of `localStorage` for the preferred language, and the parsing of stored JSON: the model takes the parsed value as an `Option`. A malformed stored value is not modelled.
- Timers: the AI assistant's delayed reply is the separate `DeliverReply` step, and message ids (`Date.now()`) are not modelled.
- Floating-point parsing and formatting (`parseFloat`, `toLocaleString`, `parseUnits`, `formatUnits`, `parseEther`): these are function parameters of the operations that use them. The conversions that can throw (`parseUnits`, `parseEther`) return a `Result`, and their `Err` takes the handler's error path.
- The wagmi, viem and ethers libraries: contract reads, multicall, wallet connection and transaction receipts are answers given as parameters (`Chain.Read`, `Chain.TxOutcome`, `CourseData.MulticallOutcome`).
- The multicall is assumed to answer once per call, which `FetchUserPurchasedCourses` requires.
- `getSigner` failures and the I/O of `connectWallet` are not modelled; `Connect` records an account that was obtained.
- CourseData.CourseDataState.PurchaseCourse: the submission's hash and error are set by the library's write hook; the model records them as fields and does not model the hook.
- WrapToken.SwapWidget.RefreshRate: the source also mutates the shared `tokens` array's GEEK rate. The model keeps only the widget's `exchangeRate`.
- Toasts for liking and adding to the cart on the course page are not modelled; `AddToCart` returns which toast would be shown.
- Text.ToLower: lower-cases ASCII letters only, where `toLowerCase` maps all of Unicode (the Kelvin sign U+212A becomes "k", "İ" becomes "i̇"). Searches and chat rules that depend on non-ASCII case mapping are not modelled, and `AiAssistant.CaseInsensitive` covers ASCII case only.
- Integer widths: ids, prices and amounts are unbounded `nat`; JavaScript `number` and `bigint` limits are not modelled.
- The header, footer, banner and other presentational components are not part of this model.

## Findings

| source | as written | input that shows it | evidently intended | confidence | as-written member | corrected member |
|---|---|---|---|---|---|---|
| hooks/useCourse.ts:55 | `courseCount` is `courseCountData ? BigInt(courseCountData.toString()) : undefined`, so a count of `0n` becomes `undefined`; `fetchAllCourses` then returns at its "count not available" branch (lines 62-68), leaving the loading state and the course list as they were, and never reaches its zero-count branch (lines 69-74) | a market contract with no courses, `courseCountData == 0n` | a zero count is a loaded count and yields an empty course list with no error, which `CourseData.CourseDataState.FetchCourses` does when given `CourseCount` of the read; `FetchAllCourses` keeps the behaviour as written | not executed | CourseData.ZeroCountUnreachableAsWritten | CourseData.CourseCount |
