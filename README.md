# MyProject shopping app — a verified model of its logic

MyProject is a mobile shopping front end written in React. It has these parts:

- a product feed with infinite scrolling;
- a search page that expands matching products into result cards and keeps a search history;
- a shopping cart;
- a community feed with likes;
- a login flow backed by a mock server and a toy token codec;
- an AI-generated avatar dialog that talks to a Coze workflow;
- an AI shopping assistant that guesses the user's intent, retries failed calls and archives chat sessions.

This project models the logic behind those screens in Dafny and proves what it promises. It follows the source file by file, one module per file:

| module | source | form |
|---|---|---|
| `ChatStore` | `src/store/useAIChatStore.js` | class `AIChatStore` with pure helpers |
| `AssistantIntent` | the pure parts of `src/pages/AIAssistant/index.jsx` | functions: intent detection, the budget and product-name regexes as explicit scanners, input hints |
| `AssistantPage` | the handlers of `src/pages/AIAssistant/index.jsx` | the retry loop, plus class `AssistantPage` over an `AIChatStore` |
| `LLM` | `src/LLM/index.js` | functions; the HTTP exchange is an input |
| `Cart` | `src/hooks/useCart.js` and `src/pages/Cart/components/CartItem/index.jsx` | functions on `seq` |
| `Search` | `src/pages/Search/index.jsx` | methods computing results, plus class `SearchPage` |
| `ProductFeed` | `src/pages/Home/components/ProductList/index.jsx` | method `GenerateProducts`, plus class `ProductList` |
| `CozeApi` | `src/api/cozeApi.js` | request defaults, URL scanning, image extraction (a method with loops), the avatar calls |
| `Base64` | `btoa`/`atob` as used by `src/utils/jwt.js` | section 4 of RFC 4648 (the standard alphabet with `=` padding), plus the forgiving decode of the browser's `atob` |
| `Jwt` | `src/utils/jwt.js` | functions |
| `MockApi` | `mock/api.js` | functions |
| `AuthStore` | `src/store/useAuthStore.js` | class `AuthState` |
| `AvatarGenerator` | `src/components/AvatarGenerator/index.jsx` | class `AvatarDialog`, the 1/2/3 step machine |
| `Community` | `src/pages/Community/index.jsx` | functions on the feed value |

Shared helper modules:

- `Common`: `Option`, JSON scalars, JavaScript truthiness of optional strings, and a `Clock` value.
- `Strings`: JavaScript white space, `trim`, `toLowerCase`, `includes`, `split` with its inverse `join`, and decimal numerals.
- `Seqs`: `filter` and subsequences.
- `ChatMessage`: the message record.

Time, randomness, remote replies, `JSON.stringify`/`JSON.parse` and the `jsonwebtoken` sign and verify calls are all parameters:

- A `Clock` value carries `Date.now()`, the ISO timestamp, the random id suffix and the locale date.
- A `CozeHttp`, `HttpExchange`, `LoginExchange` or `UserExchange` value carries what the server answered.
- A `Gateway` function stands for the assistant's per-intent chat calls. Its arguments are the intent, the messages sent and the attempt number.

## Model

| member | source | states |
|---|---|---|
| ChatStore.Stamp | src/store/useAIChatStore.js:22-28 | a logged message keeps role, content and usage and gains the clock's id, timestamp and the current session id |
| ChatStore.Welcome | src/store/useAIChatStore.js:63-79 | the welcome message is an assistant message tagged with the new session and id `welcome_<session>` |
| ChatStore.Truncate | src/store/useAIChatStore.js:122-124 | a title of at most 20 characters is kept whole; a longer one becomes its first 20 characters followed by `...` |
| ChatStore.GenerateSessionTitle | src/store/useAIChatStore.js:116-125 | the title never exceeds 23 characters and is `新的对话` when there is no user message |
| ChatStore.TitleFromFirstUserMessage | src/store/useAIChatStore.js:117-124 | the title is the truncated content of the first user message, whatever precedes it |
| ChatStore.FirstFiltered | src/store/useAIChatStore.js:117 | filtering for user messages puts the first user message at the head |
| ChatStore.LongQuestionTitle | src/store/useAIChatStore.js:121-124 | a 44-character question is cut to 20 characters plus `...` |
| ChatStore.FindIndex | src/store/useAIChatStore.js:99 | the index of the first entry with the id, or -1 exactly when no entry has it |
| ChatStore.KeepLast | src/store/useAIChatStore.js:108 | `slice(-20)` as the store calls it: the last `min(n, length)` elements, in order (for `n > 0`; `n = 0` gives none, unlike `slice(-0)`) |
| ChatStore.Upsert | src/store/useAIChatStore.js:98-109 | the saved entry is in the archive afterwards, every other entry was already archived, and the archive grows by at most one and stays within the cap of 20 |
| ChatStore.UpsertReplacesInPlace | src/store/useAIChatStore.js:101-105 | saving an archived id overwrites that slot and keeps the archive length |
| ChatStore.UpsertAppends | src/store/useAIChatStore.js:106-109 | a new id is appended at the end; at 20 entries the oldest is dropped first |
| ChatStore.UpsertKeepsInvariant | src/store/useAIChatStore.js:99-109 | saving keeps the archive at no more than 20 entries with distinct ids, and the saved entry is in it |
| ChatStore.ResaveNeverGrows | src/store/useAIChatStore.js:101-105 | re-saving an archived id never grows the archive |
| ChatStore.UpsertIdempotent | src/store/useAIChatStore.js:99-109 | saving the same entry twice gives the same archive as saving it once |
| ChatStore.DeleteKeepsOthers | src/store/useAIChatStore.js:140-144 | deleting an id keeps exactly the other entries, in order; an absent id changes nothing |
| ChatStore.HistoryItem | src/store/useAIChatStore.js:90-96 | an archive entry keeps the messages, takes the given session id and falls back to the generated title |
| ChatStore.WithoutId | src/store/useAIChatStore.js:142 | no entry with the deleted id remains, the rest were archived before, and the archive does not grow |
| ChatStore.RoleCountsBounded | src/store/useAIChatStore.js:183-185 | user and assistant counts together never exceed the number of messages |
| ChatStore.CountRole | src/store/useAIChatStore.js:183-185 | a role count never exceeds the log length and is zero exactly when no message has that role |
| ChatStore.AIChatStore.constructor | src/store/useAIChatStore.js:7-18 | the empty store with the default preferences |
| ChatStore.AIChatStore.AddMessage | src/store/useAIChatStore.js:21-35 | appends exactly the stamped message, clears the loading flag and records the activity time |
| ChatStore.AIChatStore.AddMessages | src/store/useAIChatStore.js:38-42 | appends the batch as given |
| ChatStore.AIChatStore.SetLoading | src/store/useAIChatStore.js:45-47 | sets the loading flag |
| ChatStore.AIChatStore.SetTypingIndicator | src/store/useAIChatStore.js:50-52 | sets the typing flag |
| ChatStore.AIChatStore.StartNewSession | src/store/useAIChatStore.js:55-86 | the log becomes the single welcome message of the new session; the archive is untouched |
| ChatStore.AIChatStore.SaveHistory | src/store/useAIChatStore.js:89-113 | the archive becomes the upsert of the new entry, keeping the 20-entry, distinct-id invariant |
| ChatStore.AIChatStore.LoadHistorySession | src/store/useAIChatStore.js:128-137 | an archived id restores that session's messages and id and closes the panel; an unknown id changes nothing |
| ChatStore.AIChatStore.DeleteHistory | src/store/useAIChatStore.js:140-144 | removes the entries with that id and keeps the invariant |
| ChatStore.AIChatStore.ToggleHistory | src/store/useAIChatStore.js:147-151 | flips the history panel flag |
| ChatStore.AIChatStore.ClearMessages | src/store/useAIChatStore.js:154-159 | empties the log and forgets the session id, leaving the persisted part of the store unchanged |
| ChatStore.AIChatStore.ClearAllHistory | src/store/useAIChatStore.js:162-167 | empties the archive and closes the panel |
| ChatStore.AIChatStore.UpdatePreferences | src/store/useAIChatStore.js:170-177 | a shallow merge: patched keys take the new value and the other keys keep theirs |
| ChatStore.AIChatStore.GetMessageStats | src/store/useAIChatStore.js:180-189 | totals equal the log and archive lengths, the user and assistant counts are the messages of each role, and they fit inside the total; the last activity time is passed through |
| ChatStore.AIChatStore.Partialize | src/store/useAIChatStore.js:193-197 | what is persisted is the archive, the preferences and the last activity time, read from those fields alone and none of the live session |
| AssistantIntent.FirstContained | src/pages/AIAssistant/index.jsx:101-102 | `categories.find`: empty exactly when no category occurs, otherwise a listed category that occurs |
| AssistantIntent.RunEnd | src/pages/AIAssistant/index.jsx:105 | `\d+` is greedy: the run ends at the first non-digit |
| AssistantIntent.ReachesOnLine | src/pages/AIAssistant/index.jsx:105 | `.*?c` succeeds exactly when `c` occurs later on the same line |
| AssistantIntent.FirstDigitOnLine | src/pages/AIAssistant/index.jsx:105 | `预算.*?(\d+)`: the first digit later on the same line, or none |
| AssistantIntent.MatchAt | src/pages/AIAssistant/index.jsx:105 | a match of the budget pattern at one position yields a non-empty digit run |
| AssistantIntent.FindBudget | src/pages/AIAssistant/index.jsx:105 | the search finds a digit run, and finds none exactly when no position matches |
| AssistantIntent.FindBudgetIsLeftmost | src/pages/AIAssistant/index.jsx:105 | a found budget comes from the leftmost matching position |
| AssistantIntent.Budget | src/pages/AIAssistant/index.jsx:105-106 | the budget is empty exactly when nothing matches, otherwise digits followed by `元` |
| AssistantIntent.LeadingAmountIsBudget | src/pages/AIAssistant/index.jsx:105-106 | `3000元...` yields the budget `3000元` |
| AssistantIntent.StatedBudget | src/pages/AIAssistant/index.jsx:105-106 | `预算3000` followed by a non-digit yields `3000元` |
| AssistantIntent.RunEndOfDigits | src/pages/AIAssistant/index.jsx:105 | a digit run ending where the scan stops is the whole run |
| AssistantIntent.NoDigitNoBudget | src/pages/AIAssistant/index.jsx:105-106 | text without digits has no budget |
| AssistantIntent.ProductEnd | src/pages/AIAssistant/index.jsx:114 | the lazy `(.+?)` stops at the first price word on the line, or there is none |
| AssistantIntent.ProductAt | src/pages/AIAssistant/index.jsx:114 | a match from one start position ends at the first price word after at least one character |
| AssistantIntent.FindProduct | src/pages/AIAssistant/index.jsx:114 | the leftmost start position with a match, or none when no position matches |
| AssistantIntent.ProductNameIsShortestPrefix | src/pages/AIAssistant/index.jsx:114-115 | on one line, the product name is the trimmed text before the first price word |
| AssistantIntent.NoPriceWordNoName | src/pages/AIAssistant/index.jsx:114-115 | without a price word the product name is empty |
| AssistantIntent.ProductName | src/pages/AIAssistant/index.jsx:114-115 | the product name neither starts nor ends with white space, and is empty when no price word follows any text on its line |
| AssistantIntent.DetectUserIntent | src/pages/AIAssistant/index.jsx:95-122 | a recommendation keyword wins, then a price keyword, otherwise the chat is general |
| AssistantIntent.PriceFields | src/pages/AIAssistant/index.jsx:112-118 | a price question carries the product name of the lower-cased text, trimmed |
| AssistantIntent.RecommendationFields | src/pages/AIAssistant/index.jsx:99-109 | a recommendation carries the first listed category and the extracted budget of the lowered text |
| AssistantIntent.RecommendationBeatsPrice | src/pages/AIAssistant/index.jsx:99-118 | text that asks for both a recommendation and a price is a recommendation |
| AssistantIntent.GetInputHint | src/pages/AIAssistant/index.jsx:207-229 | empty input gets no hint, and any hint is one of the four fixed texts |
| AssistantIntent.HintRules | src/pages/AIAssistant/index.jsx:207-229 | each of the four hints is given exactly when its rule holds and no earlier rule does, in the order of the source; no hint exactly when no rule holds |
| AssistantIntent.HintNeedsKeyword | src/pages/AIAssistant/index.jsx:212-228 | a hint is shown only for text mentioning 推荐, 价格 or 买 |
| AssistantIntent.BudgetHintIsLastResort | src/pages/AIAssistant/index.jsx:212-226 | the budget hint appears only when the three earlier hints do not apply |
| AssistantIntent.CompletePromptGetsNoHint | src/pages/AIAssistant/index.jsx:207-229 | a prompt naming the year, 最新 and a budget gets no hint |
| AssistantPage.ShownError | src/pages/AIAssistant/index.jsx:162 | the toast keeps an error mentioning `API` and otherwise shows the network message |
| AssistantPage.Delays | src/pages/AIAssistant/index.jsx:158 | the k-th wait is 1000·k ms |
| AssistantPage.RetryFrom | src/pages/AIAssistant/index.jsx:125-168 | at most three calls; a reply exactly when some attempt succeeds, taken from the first success; otherwise the last error is shown |
| AssistantPage.SendWithRetry | src/pages/AIAssistant/index.jsx:125-168 | the loop computes the same report as the recursive definition, after one to three calls |
| AssistantPage.ShownErrorIsExplained | src/pages/AIAssistant/index.jsx:162-165 | after three failures the toast shows the third error or the network message |
| AssistantPage.ErrorMessage | src/pages/AIAssistant/index.jsx:145-152 | a refused call always yields a message: the server's own when it gave one, the fixed API failure text otherwise; a thrown error keeps its message |
| AssistantPage.AlwaysFailingGateway | src/pages/AIAssistant/index.jsx:155-165 | a gateway that always fails is called three times, with waits of 1000 and 2000 ms |
| AssistantPage.AssistantPage.constructor | src/pages/AIAssistant/index.jsx:28-32 | empty input, idle and no hint |
| AssistantPage.AssistantPage.HandleInputChange | src/pages/AIAssistant/index.jsx:232-235 | stores the text and its hint |
| AssistantPage.AssistantPage.HandleSend | src/pages/AIAssistant/index.jsx:170-204 | blank input changes nothing; otherwise the trimmed text is logged, the reply is appended on success, a success in a live session archives the pre-send log plus the question, the last activity time is that of the reply (or of the question when no reply came), and the busy flags end cleared |
| AssistantPage.AssistantPage.Dispatch | src/pages/AIAssistant/index.jsx:177-203 | the non-blank path of the send, with the retry report it returns, and the last activity time of the reply or, without one, of the question |
| AssistantPage.AssistantPage.Begin | src/pages/AIAssistant/index.jsx:177-186 | logs the user message once (stamping the last activity time), clears the input, raises the busy and typing flags and leaves the store not loading |
| AssistantPage.AssistantPage.Finish | src/pages/AIAssistant/index.jsx:145-147 | logs the reply only on success (then stamping the last activity time, otherwise leaving it), resets or sets the retry count, archives on success in a live session, and lowers the flags |
| AssistantPage.AssistantPage.HandleNewSession | src/pages/AIAssistant/index.jsx:254-265 | archives a live session with more than one message, then starts a fresh one with its welcome message, stamped as the last activity |
| LLM.BuildRequest | src/LLM/index.js:15-22 | each request field is the caller's option when given, else the default (moonshot-v1-auto, 0.7, 2000, no streaming) |
| LLM.Chat | src/LLM/index.js:4-57 | a request is sent exactly when the key is configured; without a key the result is the configuration error; with one, the request is the built body and the result is the outcome of the exchange |
| LLM.Outcome | src/LLM/index.js:24-56 | success exactly when the service said ok and the reply has a first choice, whose text is trimmed; a refused request carries the API prefix; every other failure is the network message |
| LLM.MissingKeySendsNothing | src/LLM/index.js:7-12 | without a usable key nothing is sent and the configuration error is returned |
| LLM.ChatOutcomes | src/LLM/index.js:24-56 | a non-OK reply, a network failure and a success map to `{code:-1}` with the matching message or to `{code:0}` with the reply |
| LLM.SuccessContentIsTrimmed | src/LLM/index.js:41-50 | a successful reply's content is trimmed |
| LLM.WithSystemPrompt | src/LLM/index.js:60-66 | the shopping prompt is prepended exactly when no system message is present, and the original messages follow unchanged |
| LLM.ShoppingOptions | src/LLM/index.js:68 | the temperature defaults to 0.5 and the other options pass through |
| LLM.ShoppingChat | src/LLM/index.js:59-69 | a request is sent exactly when the key is configured; its messages hold a system message unless the caller replaced them, its temperature is 0.5 unless the caller set one, and a reply is an assistant message |
| LLM.ShoppingRequest | src/LLM/index.js:59-69 | the shopping request carries the system prompt first and temperature 0.5 unless overridden |
| Cart.Find | src/hooks/useCart.js:14 | the index of an item with the id, or none exactly when no item has it |
| Cart.IsInCart | src/hooks/useCart.js:45-47 | true exactly when some item has the id |
| Cart.GetItemQuantity | src/hooks/useCart.js:50 | the quantity of an item with the id, or 0 when absent |
| Cart.Increase | src/hooks/useCart.js:18-22 | every item with the id gains the amount, and the others are unchanged |
| Cart.AddToCart | src/hooks/useCart.js:12-28 | the product is in the cart afterwards; the cart grows by one row exactly when the product was new; existing rows keep their ids and prices, and rows of other products are untouched |
| Cart.RemoveFromCart | src/hooks/useCart.js:31-33 | no row with the id remains, and the rows kept are exactly the other rows |
| Cart.UpdateQuantity | src/hooks/useCart.js:36-42 | every item with the id takes the new quantity, and the others are unchanged |
| Cart.TotalItems | src/hooks/useCart.js:54 | with at least one unit per row, the unit total is at least the number of rows |
| Cart.TotalPrice | src/hooks/useCart.js:55 | with no negative price or quantity, the price total is not negative |
| Cart.Stats | src/hooks/useCart.js:53-64 | the item and price totals are the sums over the rows, the distinct count is the cart length, empty exactly when no items, and with positive quantities the item total is at least the distinct count |
| Cart.TotalsAfterChange | src/hooks/useCart.js:54-55 | changing one row's quantity shifts both totals by exactly that row's difference |
| Cart.TotalsAppend | src/hooks/useCart.js:54-55 | both totals are additive over concatenation |
| Cart.UpdateChangesOneRow | src/hooks/useCart.js:36-42 | with distinct ids, an update rewrites exactly one row |
| Cart.AddExisting | src/hooks/useCart.js:16-22 | adding a product already in the cart raises that row by the quantity, which defaults to 1 |
| Cart.AddNew | src/hooks/useCart.js:23-25 | adding a new product appends one row with the quantity |
| Cart.AddKeepsIdsUnique | src/hooks/useCart.js:12-28 | adding keeps ids distinct and puts the product in the cart |
| Cart.AddTotals | src/hooks/useCart.js:12-28 | adding raises the item total by the quantity and the price total by price times quantity |
| Cart.RemoveProperties | src/hooks/useCart.js:31-33 | removal keeps exactly the other items, in order, and an absent id changes nothing |
| Cart.RemoveKeepsIdsUnique | src/hooks/useCart.js:31-33 | removal keeps ids distinct |
| Cart.HandleIncrease | src/pages/Cart/components/CartItem/index.jsx:9-11 | the + button sets its own row to one unit more |
| Cart.HandleDecrease | src/pages/Cart/components/CartItem/index.jsx:14-20 | the - button removes its row exactly when one unit or fewer is left, and otherwise sets it to one unit less, never below one |
| Cart.HandleRemove | src/pages/Cart/components/CartItem/index.jsx:23-26 | the delete button removes its own row |
| Cart.Apply | src/pages/Cart/components/CartItem/index.jsx:9-26 | a removal leaves no row with the id; a quantity change keeps the length and the ids and sets the quantity of the matching rows |
| Cart.ButtonsKeepQuantitiesPositive | src/pages/Cart/components/CartItem/index.jsx:9-26 | the +, − and delete buttons never leave a zero or negative quantity |
| Cart.FilterKeepsPositive | src/hooks/useCart.js:31-33 | removal keeps quantities positive |
| Cart.DecreaseLastUnitRemoves | src/pages/Cart/components/CartItem/index.jsx:14-20 | − on a single unit removes the item |
| Search.SomeKeywordContains | src/pages/Search/index.jsx:93-95 | true exactly when some lowered keyword contains the query |
| Search.Matches | src/pages/Search/index.jsx:88-97 | a product matches exactly when its lower-cased title or one of its lower-cased keywords contains the lower-cased query; the empty query matches every product |
| Search.Card | src/pages/Search/index.jsx:100-104 | a card copies its product and takes the id `<product>-search-<k+1>` |
| Search.Cards | src/pages/Search/index.jsx:99-105 | a match yields exactly five cards, numbered 1 to 5 |
| Search.Expand | src/pages/Search/index.jsx:91-107 | at most five cards per catalogue product, and exactly five per product for the empty query |
| Search.CollectResults | src/pages/Search/index.jsx:87-107 | the loops build exactly the expansion of the matching products in catalogue order |
| Search.AppendCards | src/pages/Search/index.jsx:99-105 | the inner loop appends the five cards of one product |
| Search.ResultCount | src/pages/Search/index.jsx:91-107 | there are five results per matching product |
| Search.CatalogueResultsBounded | src/pages/Search/index.jsx:38-72 | the built-in catalogue yields at most 15 results |
| Search.AllMatching | src/pages/Search/index.jsx:91-107 | when every product matches there are five results per product |
| Search.ResultIdInjective | src/pages/Search/index.jsx:102 | equal result ids have the same product and copy number |
| Search.ResultsFromCatalogue | src/pages/Search/index.jsx:91-107 | every result comes from a catalogue product that matches the query |
| Search.ResultIdsUnique | src/pages/Search/index.jsx:91-107 | with distinct product ids, all result ids are distinct |
| Search.CardIdsDistinct | src/pages/Search/index.jsx:99-105 | the five cards of one product have distinct ids |
| Search.CardIdFresh | src/pages/Search/index.jsx:102 | no earlier product's card shares an id with a later product's card |
| Search.UpdateHistory | src/pages/Search/index.jsx:114-117 | the query goes first, its older copies are dropped, the rest keep their order and at most 8 remain |
| Search.HistoryKeepsOrder | src/pages/Search/index.jsx:115 | the older entries kept are a subsequence of the previous history |
| Search.HistoryStaysDistinct | src/pages/Search/index.jsx:115-116 | a history without duplicates stays without duplicates |
| Search.SearchPage.constructor | src/pages/Search/index.jsx:22-29 | the query comes from the URL and nothing has been searched |
| Search.SearchPage.PerformSearch | src/pages/Search/index.jsx:75-120 | a blank query clears the results; otherwise the results are the expansion and the history is updated |
| Search.SearchPage.HandleInputChange | src/pages/Search/index.jsx:140-143 | suggestions show exactly when the text is not blank |
| Search.SearchPage.HandleSearch | src/pages/Search/index.jsx:146-151 | a blank query changes nothing; otherwise the search runs and suggestions close |
| Search.SearchPage.HandleClear | src/pages/Search/index.jsx:154-159 | resets the query, results and flags |
| Search.SearchPage.HandleQuickSearch | src/pages/Search/index.jsx:162-166 | a non-blank term becomes the query, its results are the expansion of the catalogue, the history gains it, and the page is searched and not loading; a blank term becomes the query with no results and suggestions hidden, leaving the history and the loading flag as they were and the page not searched |
| ProductFeed.FeedItem | src/pages/Home/components/ProductList/index.jsx:48-54 | position i shows template i mod 3 with id `<template>-<i+1>` |
| ProductFeed.GenerateProducts | src/pages/Home/components/ProductList/index.jsx:44-57 | the batch holds exactly the feed items of the requested positions |
| ProductFeed.FeedIdInjective | src/pages/Home/components/ProductList/index.jsx:53 | ids at different positions differ |
| ProductFeed.FeedIdsDistinct | src/pages/Home/components/ProductList/index.jsx:53 | feed items at different positions have different ids |
| ProductFeed.ProductList.constructor | src/pages/Home/components/ProductList/index.jsx:8-9 | the list starts empty and idle |
| ProductFeed.ProductList.FetchMore | src/pages/Home/components/ProductList/index.jsx:60-73 | while loading nothing changes; otherwise six items are appended after the old ones, keeping position-indexed content |
| ProductFeed.ValidIdsUnique | src/pages/Home/components/ProductList/index.jsx:53-69 | a feed built position by position has distinct ids |
| ProductFeed.LeftColumn | src/pages/Home/components/ProductList/index.jsx:119 | the left column holds half the products rounded up, starting with the first |
| ProductFeed.RightColumn | src/pages/Home/components/ProductList/index.jsx:128 | the right column holds half the products rounded down, starting with the second |
| ProductFeed.ColumnsByParity | src/pages/Home/components/ProductList/index.jsx:119-128 | the left column holds the even positions and the right the odd ones, in order |
| ProductFeed.ColumnsPartition | src/pages/Home/components/ProductList/index.jsx:119-128 | the two columns together show every product exactly once |
| CozeApi.WorkflowRequest | src/api/cozeApi.js:26-32 | the request body applies the defaults: user `123456789`, query `生成头像`, no streaming, history saved unless refused |
| CozeApi.CallCozeWorkflow | src/api/cozeApi.js:19-54 | a reply is returned with its conversation id, and a failure becomes an `API调用失败` error |
| CozeApi.SpaceFreeEnd | src/api/cozeApi.js:183 | `[^\s]+` runs to the first white space |
| CozeApi.ScanLinks | src/api/cozeApi.js:183-184 | the global match list is empty exactly when no `http://` or `https://` followed by a non-space character occurs |
| CozeApi.LinksAreMatches | src/api/cozeApi.js:183-184 | each found link is the text from an `http` start up to the next white space |
| CozeApi.LinkShape | src/api/cozeApi.js:183 | a link starts with a scheme and contains no white space |
| CozeApi.ExtractUrlsFromText | src/api/cozeApi.js:182-190 | keeps exactly the links ending in an image extension, in order |
| CozeApi.ExtractedLinkShape | src/api/cozeApi.js:182-190 | every extracted URL starts with a scheme and has no white space |
| CozeApi.FileUrls | src/api/cozeApi.js:217-221 | one file-content URL per file id, in order |
| CozeApi.ExtractImagesFromCozeResponse | src/api/cozeApi.js:197-249 | the loops compute exactly the images specified by the reply's shape |
| CozeApi.CollectMessage | src/api/cozeApi.js:209-223 | one message contributes its text links then its file URLs |
| CozeApi.AppendFileUrls | src/api/cozeApi.js:218-221 | the file loop appends the file URLs in order |
| CozeApi.ImagesOf | src/api/cozeApi.js:197-249 | never empty: the no-reply placeholder for a missing reply, the collected links when there are any, and otherwise one of the two placeholders |
| CozeApi.ImagesNeverEmpty | src/api/cozeApi.js:201-246 | extraction always returns at least one URL, the placeholder when nothing is found |
| CozeApi.ArrayTakesPrecedence | src/api/cozeApi.js:208-226 | when `messages` is an array, `message` is ignored |
| CozeApi.SingleMessageLikeArray | src/api/cozeApi.js:226-240 | a single `message` object gives the same images as a one-element `messages` array |
| CozeApi.ArrayImagesOrigin | src/api/cozeApi.js:209-223 | every collected URL is an image link or a file-content URL |
| CozeApi.AvatarPrompt | src/api/cozeApi.js:66-76 | the prompt is the fixed head, the description and the fixed tail, so the description can be read back from it |
| CozeApi.GenerateAvatarWithCoze | src/api/cozeApi.js:63-108 | the prompt wraps the description (default `一个人的头像`), and a reply gives its non-empty images and conversation id |
| CozeApi.ContinueCozeConversation | src/api/cozeApi.js:117-155 | without a conversation id nothing is sent; otherwise the call continues that conversation and succeeds exactly when the server replies |
| CozeApi.SaveAvatarImage | src/api/cozeApi.js:163-175 | the saved URL is the given URL |
| Base64.AlphabetChar | src/utils/jwt.js:4 | alphabet letters are never `=` or `.` |
| Base64.AlphabetValue | src/utils/jwt.js:16 | decoding a letter inverts the alphabet |
| Base64.AlphabetRoundTrip | src/utils/jwt.js:4-16 | every 6-bit value survives encoding and decoding |
| Base64.Sextets | src/utils/jwt.js:4 | the 6-bit groups plus their padding fill whole quads |
| Base64.Btoa | src/utils/jwt.js:4 | `btoa` succeeds exactly on byte strings, giving a multiple of four characters without `.` |
| Base64.StripWhitespace | src/utils/jwt.js:16 | `atob` first drops ASCII white space |
| Base64.Values | src/utils/jwt.js:16 | every character must be an alphabet letter |
| Base64.Bytes | src/utils/jwt.js:16 | decoding yields a byte string |
| Base64.Atob | src/utils/jwt.js:16 | a decode yields bytes, and it fails on a length of 1 mod 4 |
| Base64.GroupRoundTrip | src/utils/jwt.js:4-16 | three bytes survive one quad |
| Base64.SextetsRoundTrip | src/utils/jwt.js:4-16 | the 6-bit groups of a byte string decode back to it |
| Base64.ValuesOfAlphabet | src/utils/jwt.js:16 | decoding the letters of encoded groups gives those groups |
| Base64.PaddingDropped | src/utils/jwt.js:16 | the `=` padding is removed exactly |
| Base64.RoundTrip | src/utils/jwt.js:4-16 | `atob(btoa(s)) == s` for every byte string |
| Base64.NoWhitespace | src/utils/jwt.js:16 | encoded text has nothing to strip |
| Jwt.Claims | src/utils/jwt.js:4-7 | the payload fields plus `exp` set to 24 hours after now |
| Jwt.GenerateToken | src/utils/jwt.js:2-9 | a token is produced exactly when the claims' JSON is a byte string, and it splits into `jwt`, the encoding and `signature` |
| Jwt.TokenParts | src/utils/jwt.js:8-14 | a dot-free middle part splits back into the three parts |
| Jwt.DecodeToken | src/utils/jwt.js:11-20 | a missing token, one without a dot, one that does not split into three parts, or one whose middle part `atob` rejects decodes to nothing; a token that splits into three parts with a decodable middle decodes to exactly what `JSON.parse` gives for that middle part |
| Jwt.IsTokenValid | src/utils/jwt.js:22-26 | valid exactly when the decoded payload's numeric `exp` lies after now |
| Jwt.TokenRoundTrip | src/utils/jwt.js:2-20 | decoding a generated token gives back its claims |
| Jwt.TokenLifetime | src/utils/jwt.js:2-26 | a token minted at t is valid exactly before t + 24 h |
| MockApi.LoginCode | mock/api.js:29-39 | the login handler answers 200 or 401 |
| MockApi.LookupAsWritten | mock/api.js:20-21 | a listed user name finds its account |
| MockApi.LoginAsWritten | mock/api.js:17-40 | succeeds exactly when the lookup is truthy and the password is `123456` |
| MockApi.Login | mock/api.js:17-40 | succeeds exactly for `admin` or `user` with `123456`, returning that account and its signed token; otherwise 401 |
| MockApi.PrototypeNameLogsIn | mock/api.js:20 | the as-written handler accepts `__proto__`; the corrected one refuses it |
| MockApi.HandlersAgreeOnAccounts | mock/api.js:17-40 | apart from inherited member names, both handlers agree |
| MockApi.LogoutCode | mock/api.js:47-50 | logout always answers 200 |
| MockApi.BearerToken | mock/api.js:58-61 | a `Bearer ` prefix is stripped, and any other header is used whole |
| MockApi.CurrentUser | mock/api.js:57-83 | no token gives 401 "no token", a refused token gives 401 "invalid", an accepted one gives its user |
| MockApi.BareBearerRefused | mock/api.js:58-68 | the header `Bearer ` alone is treated as no token |
| AuthStore.LoginError | src/store/useAuthStore.js:25-41 | a failed login always has a non-empty message |
| AuthStore.AuthState.constructor | src/store/useAuthStore.js:10-14 | logged out, idle, no error |
| AuthStore.AuthState.Login | src/store/useAuthStore.js:17-52 | an accepted reply stores its user and token; anything else clears the session and records the message |
| AuthStore.AuthState.Logout | src/store/useAuthStore.js:55-71 | clears the session whatever the server answered |
| AuthStore.AuthState.FetchCurrentUser | src/store/useAuthStore.js:74-92 | without a token nothing changes; a 200 with data refreshes the user; anything else logs out |
| AuthStore.AuthState.UpdateUser | src/store/useAuthStore.js:95-102 | when logged out it fails and changes nothing; otherwise a shallow merge of the user record |
| AuthStore.AuthState.ClearError | src/store/useAuthStore.js:105-107 | the error is cleared |
| AuthStore.AuthState.Partialize | src/store/useAuthStore.js:111-115 | only the session flag, user and token are persisted |
| AvatarGenerator.UserIdOf | src/components/AvatarGenerator/index.jsx:38 | the user id falls back to `123456789` and is never empty |
| AvatarGenerator.AvatarDialog.constructor | src/components/AvatarGenerator/index.jsx:16-21 | step 1, no avatars, no selection, no conversation, no description |
| AvatarGenerator.AvatarDialog.CanClose | src/components/AvatarGenerator/index.jsx:229-234 | the dialog can be closed except while generating |
| AvatarGenerator.AvatarDialog.HandleGenerateAvatar | src/components/AvatarGenerator/index.jsx:24-66 | a blank description changes nothing; success moves to step 3 with the extracted images; failure returns to step 1 |
| AvatarGenerator.AvatarDialog.ShowGeneration | src/components/AvatarGenerator/index.jsx:41-58 | a generation result moves to step 3 with its images, a failure back to step 1 |
| AvatarGenerator.AvatarDialog.HandleRegenerate | src/components/AvatarGenerator/index.jsx:69-96 | without a conversation nothing happens; otherwise the conversation continues with the regenerate prompt and the images are replaced on success only |
| AvatarGenerator.AvatarDialog.HandleSelectAvatar | src/components/AvatarGenerator/index.jsx:99-118 | an empty choice does nothing; otherwise the saved URL is delivered and the dialog resets |
| AvatarGenerator.AvatarDialog.HandleClose | src/components/AvatarGenerator/index.jsx:121-128 | resets every field to its initial value |
| Community.Initial | src/pages/Community/index.jsx:13-16 | the recommend tab, no articles, page 1 |
| Community.LoadArticles | src/pages/Community/index.jsx:118-127 | loading installs the mock list and keeps the tab and page |
| Community.LoadIgnoresTab | src/pages/Community/index.jsx:118-127 | every tab loads the same articles |
| Community.HandleTabChange | src/pages/Community/index.jsx:135-138 | the handler alone: it selects the tab and resets the page to 1, leaving the articles to the reload that follows |
| Community.SwitchTab | src/pages/Community/index.jsx:118-138 | the handler followed by the reload it triggers (`loadArticles` depends on the tab): the new tab, page 1, the mock list and loading over |
| Community.TabSwitchDropsLikes | src/pages/Community/index.jsx:118-149 | likes given before a tab switch are lost: the reloaded list is the mock list whatever was liked |
| Community.Like | src/pages/Community/index.jsx:141-149 | articles with the id gain one like, and all others are unchanged |
| Community.HandleLike | src/pages/Community/index.jsx:141-149 | only the article list changes, its length is kept, and the like total rises by the number of articles with that id |
| Community.LikeTotal | src/pages/Community/index.jsx:141-149 | total likes grow by the number of articles with the id |
| Community.UnknownIdChangesNothing | src/pages/Community/index.jsx:141-149 | liking an unknown id changes nothing |
| Community.LikeOnDistinctIds | src/pages/Community/index.jsx:141-149 | with distinct ids, a like adds exactly one to the total |
| Community.CountDistinct | src/pages/Community/index.jsx:19-105 | with distinct ids, an id occurs once or not at all |
| Strings.Trim | src/pages/Search/index.jsx:76 | `trim()` removes only leading and trailing white space |
| Strings.IsBlank | src/pages/AIAssistant/index.jsx:171 | `!s.trim()` holds exactly when the text is all white space |
| Strings.TrimEmptyIffBlank | src/pages/AIAssistant/index.jsx:171-177 | the trimmed text is empty exactly when the text is all white space |
| Strings.TrimIsSlice | src/pages/Search/index.jsx:76 | the trimmed text is a contiguous slice of the input with only white space cut away on either side |
| Strings.Contains | src/pages/Search/index.jsx:92 | `includes` holds exactly when the text occurs at some position |
| Strings.ToLower | src/pages/Search/index.jsx:88 | lower-casing maps each character and keeps the length |
| Strings.Split | src/utils/jwt.js:14 | `split` yields at least one part and no part holds the separator |
| Strings.SplitJoin | src/utils/jwt.js:14 | splitting loses nothing: joining the parts with the separator gives the text back |
| Strings.SplitThree | src/utils/jwt.js:8-14 | joining three dot-free parts with dots and splitting gives them back |

## Left out

- Rendering: all JSX, routing, toasts, focus calls and `Dialog.confirm` are left out. Also left out are the assistant's `handleQuickAction`, `handleClearMessages`, `handleExportChat`, `handleSettings` and `handleKeyPress`, and the search page's `handleBack`. They set an input field, call store operations modelled above, or build a download file.
- Timers and asynchrony: the search debounce, the 800 ms simulated latencies and the IntersectionObserver are left out. Each operation is modelled as completing at once. The retry waits are recorded as delay values.
- AvatarGenerator.AvatarDialog.ShowGeneration: the branch for a successful generation with no images, with its 30 s timer back to step 1, is not modelled. Image extraction never returns an empty list (`CozeApi.ImagesNeverEmpty`), so the branch cannot be reached.
- Network I/O: `fetch` to the completion service, axios calls and the API interceptors are left out. Each server answer is an input value.
- The assistant's per-intent chat functions: the page imports three chat functions that `src/LLM/index.js` does not export. They are a `Gateway` parameter, and every failure is retried as the page does.
- Persistence: zustand `persist` and `localStorage` are left out. Only the `partialize` projections are modelled.
- Clock and randomness: `Date.now`, `Math.random` and `toISOString` are inputs. Ids built from them are not proved unique.
- `JSON.stringify`, `JSON.parse` and the `jsonwebtoken` sign and verify calls are parameters. JSON values are flat: one level of fields holding null, booleans, integers or strings.
- Jwt.IsTokenValid: a string-valued `exp` is treated as not-a-number, so the token is invalid. JavaScript would convert numeric strings, and that conversion is not modelled.
- Strings.ToLower: folds only A–Z. JavaScript's `toLowerCase` folds all of Unicode.
- Strings are sequences of Unicode scalar values. JavaScript counts UTF-16 code units, so the 20-character title cut and `slice` lengths differ for characters outside the Basic Multilingual Plane.
- Prices are integers and ratings are left out. The source uses floating-point numbers for both. The LLM temperature is a real.
- The Coze token guard at `src/api/cozeApi.js:21-23` is left out: the token has a built-in fallback, so the guard never fires.
- A Coze reply whose `messages` holds `null` elements, and a reply whose data body is `null`, are not represented. In the source the former throws inside the extraction.
- Article text fields (title, body, images, time) and the comment and share handlers are left out. They only display.
- The callbacks `onAvatarGenerated`, `onClose`, `onUpdateQuantity` and `onRemove` are left out. Each is modelled by its effect on the state it updates.
- The `/api/products` mock handler returns a constant list and is left out.
- LLM.BuildRequest: `...options` copies every key the caller passes into the request body; the model keeps only `model`, `messages`, `stream`, `temperature` and `max_tokens`. No caller in the app passes any other key.
- Community.SwitchTab: the reload after a tab change is taken as complete at once; the moment in between, with `loading` true and the old list still shown, is not modelled.

## Findings

| source | as written | input that shows it | evidently intended | confidence | as-written member | corrected member |
|---|---|---|---|---|---|---|
| mock/api.js:20 | the account lookup `users[username]` also finds members inherited from `Object.prototype` | user name `__proto__` with password `123456` is answered 200 with a token | only the listed accounts `admin` and `user` log in | not executed | MockApi.LoginAsWritten (shown by MockApi.PrototypeNameLogsIn) | MockApi.Login |
