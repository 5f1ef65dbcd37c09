# お助けさん (otasuke-san-app) — a Dafny model of its core

お助けさん is a Next.js application that helps elderly users. It has three
features:

- it asks a hosted language model, with web search, for daily-goods and
  flight information;
- it serves a table of daily deals to two fixed users, `mother` and `gibo`;
- it writes a TV-shopping style script for a deal.

This project models the application's logic in Dafny and proves properties
of that model:

- **Reply extraction**, in `llm.dfy`:
  - keeps only the text-typed content blocks, in order, joined with `"\n"`;
  - in the daily-goods search only, deletes `<cite…>` and `</cite>` tags;
  - takes the span the greedy pattern `/\{[\s\S]*\}/` matches, then parses it and stamps it with `generatedAt`.
- **The three library calls**:
  - `searchDailyGoods` in `lib_daily_goods.dfy`;
  - `searchFlightInfo` in `lib_claude.dfy`;
  - `generateShoppingScript` in `lib_shopping_script.dfy`.

  The prompts are templates (`templates.dfy`) whose interpolations are modelled exactly, in order. Their fixed wording is replaced by short placeholder tags.
- **The API routes**:
  - the two search routes check required fields, apply the `'不明'`/`'80代'` defaults and answer in an envelope;
  - the today's-deals route checks the user id, filters and sorts (`route_today.dfy`, with the sort in `deal_order.dfy`);
  - the admin list and insert work on a `DealTable` class whose `rows` field is the table;
  - the script route checks that a deal is present.
- **The pages**:
  - the daily-goods wizard is a class with `step`, `selectedProduct` and `selectedPriority`;
  - the two result pages turn the query and the stored settings into the request body, then show the result or an error;
  - the daily-goods result page also composes the Echo Show message;
  - the admin page is a class with `formData` and `editingId`, plus edit, reset, submit and delete.

Effects the application performs through other code are parameters of the model:

| effect | how it is modelled |
|---|---|
| the language model call | a function `model: Prompts -> Result<seq<Block>, JsError>` |
| `JSON.parse` | `parse: JsonParser`, with no JSON grammar |
| the Supabase table | a sequence of rows, or the store's answer |
| `new Date()` | `now` and `nowIso` |
| `fetch` plus `response.json()` | a server function from the request body to the envelope or the thrown error |
| `localStorage` | a `StoredSettings` value |
| router navigation and `alert` | values the methods return |

Two behaviours of the code are worth knowing:

- **The greedy brace span.** The span runs from the *first* `{` to the *last* `}` of the text. A reply holding two JSON objects therefore hands the parser one span covering both, not the first object alone (`Llm.TwoObjectsGiveOneSpan`). The model follows the code here.
- **The distance phrase.** The daily-goods library reads `request.transport`. The request type has no such field, and the route never forwards one. So the car's "no limit" phrase is always chosen, and the user prompt shows the transport as `undefined` (`DailyGoods.PromptsAssumeCar`). The walking and cycling phrases exist only in `DailyGoods.DistanceLimit`.

## Model

| member | source | states |
|---|---|---|
| Text.JoinAppend | src/lib/dailyGoods.ts:87-90 | `join('\n')` of two non-empty lists puts exactly one separator between their joins |
| Text.BeforeFirst | src/app/api/daily-deals/today/route.ts:13 | `split('T')[0]` is the longest prefix without a `T`, and the character after it, if any, is a `T` |
| Text.IsoDateOfTimestamp | src/app/api/daily-deals/today/route.ts:13 | today's date is the `YYYY-MM-DD` part of an ISO timestamp |
| Text.LexLeReflexive | src/app/api/daily-deals/today/route.ts:20-21 | a date compares `<=` to itself, so the sale window's bounds are inclusive |
| Text.LexLeTotal | src/app/api/daily-deals/today/route.ts:20-21 | any two ISO strings are comparable |
| Text.LexLeTransitive | src/app/api/daily-deals/today/route.ts:20-21 | the string order used for dates and timestamps is transitive |
| Text.LexLeAntisymmetric | src/app/api/daily-deals/today/route.ts:20-21 | two strings each `<=` the other are equal |
| Text.TrimStartSpec | src/app/daily-result/page.tsx:81-89 | the result is a suffix of the input; everything removed is white space; the result starts with a visible character or is empty |
| Text.TrimEndSpec | src/app/daily-result/page.tsx:81-89 | the result is a prefix of the input; everything removed is white space; the result ends with a visible character or is empty |
| Text.TrimKeepsInterior | src/app/daily-result/page.tsx:81-89 | `trim()` of a text with visible characters on both sides of a middle part leaves that middle part as it is |
| Text.TrimStartDropsWhitespace | src/app/daily-result/page.tsx:81-89 | leading white space before a visible character is exactly what is removed at the start |
| Text.TrimEndDropsWhitespace | src/app/daily-result/page.tsx:81-89 | trailing white space after a visible character is exactly what is removed at the end |
| Text.TrimDropsFrame | src/app/daily-result/page.tsx:81-89 | `trim()` of a text framed by white space, with visible characters just inside the frame, is the text without the frame |
| Text.IndexFrom | src/lib/dailyGoods.ts:96 | the first occurrence of a character at or after a position, or none at all |
| Text.LastIndex | src/lib/dailyGoods.ts:96 | the last occurrence of a character, or none at all |
| Js.Or | src/app/api/daily-goods/search/route.ts:22-23 | the default operator gives o when o is a non-empty string, and d when o is undefined, null or `''` |
| Js.Member | src/app/daily-result/page.tsx:80 | a property read throws exactly on undefined or null; on an object it gives the field |
| Js.OptionalMember | src/app/daily-result/page.tsx:84-86 | `?.` never throws, and it agrees with `.` on other values |
| Js.Index | src/app/daily-result/page.tsx:84 | `v[i]` throws exactly on undefined or null; on an array it is the i-th element or undefined past the end; on an object it is the property named by i in decimal; on a boolean or a number it is undefined |
| Js.TextOr | src/app/daily-result/page.tsx:84-86 | a default in a template gives a truthy string's own text and gives d for any falsy value |
| Decimal.IntToDecimal | src/lib/generate-shopping-script.ts:28 | the number a template writes starts with `-` exactly when it is negative |
| Decimal.DecimalRoundTrip | src/lib/generate-shopping-script.ts:26-28 | the decimal text of a price reads back as that price |
| Decimal.DecimalInjective | src/lib/generate-shopping-script.ts:26-28 | different prices and discounts are written differently in the prompt |
| Http.QueryGet | src/app/daily-result/page.tsx:20-21 | `searchParams.get(key)` is present iff some parameter has that key, and it is the first such parameter's value |
| Templates.ConcatAppend | src/lib/dailyGoods.ts:22-71 | joining two lists of piece texts is joining the joins |
| Templates.RenderAppend | src/lib/dailyGoods.ts:22-71 | rendering a template in two parts concatenates the two renderings |
| Templates.RenderContainsSlot | src/lib/dailyGoods.ts:40-71 | every interpolated value appears verbatim in the rendered prompt |
| Templates.RenderDeterminedBySlots | src/lib/dailyGoods.ts:22-71 | a rendered prompt depends on its interpolated values only, so equal values give equal prompts |
| DailyGoodsTypes.ProductsAreDistinct | src/types/dailyGoods.ts:1-16 | there are exactly 15 products, every product is listed, and no two share a label |
| DailyGoodsTypes.PrioritiesAreDistinct | src/types/dailyGoods.ts:18-22 | there are exactly 4 priorities, every priority is listed, and no two share a label |
| Llm.BlockTextsAppend | src/lib/dailyGoods.ts:87-89 | filtering the text blocks keeps their order across a concatenation of replies |
| Llm.ReplyTextIgnoresOtherBlocks | src/lib/dailyGoods.ts:87-90 | a non-text block contributes nothing to the reply text, wherever it stands |
| Llm.ReplyTextConcat | src/lib/claude.ts:84-87 | the text of two replies that both hold text is their texts joined by one newline |
| Llm.ReplyTextWithoutTextBlocks | src/lib/generate-shopping-script.ts:42-47 | a reply with no text block has the empty text |
| Llm.CiteOpenAt | src/lib/dailyGoods.ts:93 | a found opening tag is at least `<cite>` long and lies within the text |
| Llm.CiteOpenAtIsRegexMatch | src/lib/dailyGoods.ts:93 | the opening tag found is exactly the match of `<cite[^>]*>` at that position |
| Llm.CiteTagAt | src/lib/dailyGoods.ts:93 | a tag found at the start of the text is non-empty and lies within the text |
| Llm.StripCites | src/lib/dailyGoods.ts:93 | stripping never makes the text longer |
| Llm.StripCitesOnlyDeletes | src/lib/dailyGoods.ts:93 | the stripped text is a subsequence of the input: characters are only deleted |
| Llm.StripCitesWithoutTags | src/lib/dailyGoods.ts:93 | a text containing neither `<cite` nor `</cite>` is unchanged |
| Llm.StripCitesSkipsPlainPrefix | src/lib/dailyGoods.ts:93 | a prefix without `<` passes through stripping untouched |
| Llm.ClosingTagStrips | src/lib/dailyGoods.ts:93 | a lone `</cite>` is deleted |
| Llm.StripCitesKeepsPlainHead | src/lib/dailyGoods.ts:93 | a text not starting with `<` keeps its first character and the scan moves on by one |
| Llm.StripCitesDropsOpenTag | src/lib/dailyGoods.ts:93 | an opening tag `<cite…>` at the front is deleted whole and the scan resumes after it |
| Llm.CitedObjectIsUnwrapped | src/lib/dailyGoods.ts:93 | for any opening tag and any text without `<`, the text wrapped in the opening and closing tags strips to the text itself |
| Llm.BraceSpan | src/lib/dailyGoods.ts:96 | a span exists iff some `{` precedes some `}`, and it runs from the first `{` to the last `}` |
| Llm.BraceSpanIsRegexMatch | src/lib/claude.ts:90 | the span is what `match` returns for `/\{[\s\S]*\}/`: the leftmost start, then the longest match, and none exists iff no brace-delimited word does |
| Llm.BraceSpanAt | src/lib/dailyGoods.ts:96 | a `{` with none before it and a later `}` with none after it fix the span |
| Llm.SpanBetween | src/lib/dailyGoods.ts:96 | an object preceded by text without `{` and followed by text without `}` is the span |
| Llm.TwoObjectsGiveOneSpan | src/lib/claude.ts:90 | two objects in one text give one span covering both objects and all the text between them |
| Llm.BareObjectIsItsSpan | src/lib/dailyGoods.ts:96 | a text that starts with `{` and ends with `}` is its own span |
| Llm.Stamp | src/lib/dailyGoods.ts:99-102 | the result has every parsed field plus `generatedAt`, which overrides any `generatedAt` the model supplied |
| Llm.ExtractJson | src/lib/dailyGoods.ts:96-105 | no span gives the error 'JSONレスポンスの解析に失敗しました'; a parse error propagates unchanged; success is the stamped parse of the span |
| Llm.EmptyTextHasNoJson | src/lib/dailyGoods.ts:93-105 | the empty text strips to itself, holds no span and so throws 'JSONレスポンスの解析に失敗しました' |
| Llm.CitedBlockExtracts | src/lib/dailyGoods.ts:87-103 | a reply whose one text block is a cited object without `<` goes through join, strip and extract as the bare object, stamped |
| DailyGoods.DistanceLimit | src/lib/dailyGoods.ts:13-20 | the 500m phrase iff walking, the 2-3km phrase iff cycling, the car phrase iff anything else, undefined included |
| DailyGoods.SearchDailyGoods | src/lib/dailyGoods.ts:73-109 | a model error is rethrown unchanged; otherwise the result is the extraction from the cite-stripped reply text, and any success carries `generatedAt` = now |
| DailyGoods.SystemSlots | src/lib/dailyGoods.ts:22-38 | the system prompt interpolates the location, the distance phrase, the age group, the priority and the transport |
| DailyGoods.SystemOmitsProduct | src/lib/dailyGoods.ts:22-38 | the system prompt does not interpolate the product |
| DailyGoods.UserSlots | src/lib/dailyGoods.ts:40-71 | the user prompt interpolates the product, the priority, the location, the transport and the distance phrase |
| DailyGoods.UserOmitsAge | src/lib/dailyGoods.ts:40-71 | the user prompt does not interpolate the age group |
| DailyGoods.SystemPromptCarriesRequest | src/lib/dailyGoods.ts:22-38 | the location, the age group and the priority appear verbatim in the system prompt |
| DailyGoods.UserPromptCarriesRequest | src/lib/dailyGoods.ts:40-71 | the product, the priority and the location appear verbatim in the user prompt |
| DailyGoods.PromptsAssumeCar | src/lib/dailyGoods.ts:18-19 | for every request both prompts contain the car phrase, and the user prompt names the transport 'undefined' |
| DailyGoods.ReplyWithoutTextFails | src/lib/dailyGoods.ts:87-105 | a reply with no text block ends in the parse-failure error |
| DailyGoods.CitedReplyIsUnwrapped | src/lib/dailyGoods.ts:87-103 | an object without `<` that the reply wraps in citation tags is parsed without the tags and stamped |
| Flight.SearchFlightInfo | src/lib/claude.ts:69-103 | a model error is rethrown unchanged; otherwise the result is the extraction from the raw reply text, with no cite stripping, and any success carries `generatedAt` = now |
| Flight.PromptsCarryRequest | src/lib/claude.ts:33-67 | the location and age group appear in the system prompt; the route, timing and time of day appear in the user prompt |
| Flight.UserPromptIgnoresProfile | src/lib/claude.ts:50-67 | the user prompt is determined by the route, timing and time of day alone |
| Flight.ReplyWithoutTextFails | src/lib/claude.ts:84-99 | a reply with no text block ends in the parse-failure error |
| ShoppingScript.UserLabel | src/lib/generate-shopping-script.ts:31 | 'お母様（指宿）' iff the user is 'mother'; '義母様（旭川）' for every other value |
| ShoppingScript.GenerateShoppingScript | src/lib/generate-shopping-script.ts:34-51 | a model error is rethrown unchanged; otherwise the script is the reply text, with no stripping and no extraction |
| ShoppingScript.EveryFieldHasSlot | src/lib/generate-shopping-script.ts:21-32 | each of the eight values has a slot in the user prompt |
| ShoppingScript.PromptShowsEveryField | src/lib/generate-shopping-script.ts:21-32 | each of the eight interpolated values, defaults applied, appears verbatim in the user prompt |
| ShoppingScript.PromptDescribesDeal | src/lib/generate-shopping-script.ts:24-31 | the prompt shows the product, the store, `regular − sale`, '特になし' for a falsy recommendation, '近く' for a falsy distance, and the user's label |
| ShoppingScript.PromptIgnoresUnusedFields | src/lib/generate-shopping-script.ts:21-32 | deals that agree on the seven interpolated fields give the same prompts; the stored discount_amount, id, dates and timestamps never reach them |
| ShoppingScript.NegativeDiscountIsNotClamped | src/lib/generate-shopping-script.ts:28 | a sale price above the regular price puts `-` followed by the digits of the difference into the prompt |
| ShoppingScript.ReplyWithoutTextIsEmpty | src/lib/generate-shopping-script.ts:42-47 | a reply with no text block is the empty script, not an error |
| DealOrder.PrecedesTotal | src/app/api/daily-deals/today/route.ts:22 | any two rows can be ordered by discount and by creation time |
| DealOrder.PrecedesTransitive | src/app/api/daily-deals/today/route.ts:22 | both orders are transitive |
| DealOrder.SortedFront | src/app/api/daily-deals/today/route.ts:22 | a row that may precede the head of a sorted list may go in front of the whole list |
| DealOrder.SortedBehindHead | src/app/api/daily-deals/today/route.ts:22 | when the new row does not go first, the head may precede every row of the rest with the new row inserted |
| DealOrder.Insert | src/app/api/daily-deals/today/route.ts:22 | inserting into a sorted list keeps it sorted and adds exactly that row |
| DealOrder.SortBy | src/app/api/admin/daily-deals/route.ts:9 | the rows come out sorted by the order and as a permutation of the input |
| GoodsSearchRoute.GoodsRequestOf | src/app/api/daily-goods/search/route.ts:8-24 | a request exists iff product and priority are truthy; both are passed unchecked; a falsy location becomes '不明' and a falsy age group '80代', while truthy ones pass through |
| GoodsSearchRoute.Respond | src/app/api/daily-goods/search/route.ts:11-38 | a readable body without a request gets 400 with `{error}` alone; with one, 200 with the search result or 500 with the fixed message |
| GoodsSearchRoute.PostGoodsSearch | src/app/api/daily-goods/search/route.ts:5-40 | 400 with `{error}` alone for missing fields; 200 with `{success: true, data}` for a result; 500 with the fixed message for any failure |
| GoodsSearchRoute.TransportIsIgnored | src/app/api/daily-goods/search/route.ts:8 | the body's transport never changes the reply |
| GoodsSearchRoute.MissingFieldsSkipModel | src/app/api/daily-goods/search/route.ts:10-16 | a rejected body gets the same reply whatever the model would say, and it is an `{error}`-only body |
| GoodsSearchRoute.FailureHidesCause | src/app/api/daily-goods/search/route.ts:30-38 | two different model failures give the same reply |
| GoodsSearchRoute.ListedPicksWithDefaults | src/app/api/daily-goods/search/route.ts:8-24 | any listed product and priority with no location or age group become a request for '不明' and '80代', whatever the transport |
| GoodsSearchRoute.AnyProductAccepted | src/app/api/daily-goods/search/route.ts:11-24 | any non-empty product, priority, location and age group pass into the request unchanged |
| GoodsSearchRoute.UnlistedProductAccepted | src/app/api/daily-goods/search/route.ts:20-21 | example: a product outside the 15 listed ones is accepted as it is |
| FlightSearchRoute.FlightRequestOf | src/app/api/flight/search/route.ts:7-24 | a request exists iff route, timing and time of day are all truthy; they are forwarded verbatim; the location and age group get the '不明'/'80代' defaults |
| FlightSearchRoute.PostFlightSearch | src/app/api/flight/search/route.ts:4-40 | 400 with `{error}` alone; 200 with `{success: true, data}`; 500 with the fixed message for any failure |
| FlightSearchRoute.MissingFieldsSkipModel | src/app/api/flight/search/route.ts:10-16 | a rejected body gets the same reply whatever the model would say |
| FlightSearchRoute.FieldsReachPrompts | src/app/api/flight/search/route.ts:18-24 | the route, timing and time of day sent reach the user prompt verbatim |
| TodayDealsRoute.Matching | src/app/api/daily-deals/today/route.ts:15-21 | every row returned passes the user, active and date-window filters, and every stored row that passes is returned as often as it is stored |
| TodayDealsRoute.SelectToday | src/app/api/daily-deals/today/route.ts:15-22 | the rows returned are exactly those passing the filters, with multiplicity, and `discount_amount` is non-increasing |
| TodayDealsRoute.GetToday | src/app/api/daily-deals/today/route.ts:4-30 | 400 'User ID is required' unless the first `userId` is mother or gibo; 500 with the store's own message on a store error; otherwise 200 with the selection for the date part of now |
| TodayDealsRoute.UnknownUserSkipsStore | src/app/api/daily-deals/today/route.ts:9-11 | an unknown user gets a 400 that does not depend on the store |
| TodayDealsRoute.OneDaySaleIsShown | src/app/api/daily-deals/today/route.ts:13-21 | a sale that starts and ends today is shown today |
| TodayDealsRoute.ExcludedRowsAreAbsent | src/app/api/daily-deals/today/route.ts:18-21 | rows of the other user, inactive rows, and rows outside the window are never returned |
| TodayDealsRoute.FirstUserIdCounts | src/app/api/daily-deals/today/route.ts:7 | a query naming the user twice is answered for the first |
| AdminDealsRoute.RowOf | src/app/api/admin/daily-deals/route.ts:21-25 | the inserted row carries every posted field unchanged; the id, the stored discount and the timestamps come from the store |
| AdminDealsRoute.DealTable.constructor | src/app/api/admin/daily-deals/route.ts:6-9 | the table holds the given rows |
| AdminDealsRoute.DealTable.Listing | src/app/api/admin/daily-deals/route.ts:6-9 | the listing holds every row, inactive ones included, sorted newest first |
| AdminDealsRoute.DealTable.Get | src/app/api/admin/daily-deals/route.ts:4-17 | a store error gives 500 with its message; otherwise 200 with the sorted permutation of the rows |
| AdminDealsRoute.DealTable.Post | src/app/api/admin/daily-deals/route.ts:19-33 | success appends exactly one row built from the body, leaves the old rows unchanged and answers with that row; an unreadable body or a store error leaves the table as it was and answers 500 with the error's message |
| AdminDealsRoute.InsertedRowIsListed | src/app/api/admin/daily-deals/route.ts:22-25 | after an insertion the listing holds the old rows plus the new one |
| AdminDealsRoute.StrictlyNewestIsFirst | src/app/api/admin/daily-deals/route.ts:9 | a row created after every other one is listed first |
| GenerateScriptRoute.PostGenerateScript | src/app/api/admin/generate-script/route.ts:4-20 | 400 'Deal information is required' without a deal; 200 with the script unchanged; 500 with the underlying error's own message |
| GenerateScriptRoute.ModelErrorIsExposed | src/app/api/admin/generate-script/route.ts:16-19 | the model's error message reaches the client |
| GenerateScriptRoute.ScriptIsReplyText | src/app/api/admin/generate-script/route.ts:13-15 | a success carries the joined text blocks unchanged |
| GenerateScriptRoute.MissingDealSkipsModel | src/app/api/admin/generate-script/route.ts:9-11 | without a deal the reply is a 400 that does not depend on the model |
| Settings.SetupSettings | src/app/setup/page.tsx:14-19 | the setup page stores a prefecture, a city and an age group, but no town and no transport |
| Settings.LocationText | src/app/daily-result/page.tsx:37 | `prefecture + ' ' + city + ' ' + (town or '')`: non-empty, its length, the prefecture first, then a space, the city and a space, then nothing without a town or the town with one |
| Settings.SetupLocationEndsInSpace | src/app/result/page.tsx:47 | settings written by the setup page give `prefecture city ` with a trailing space |
| DailyGoodsPage.Wizard.constructor | src/app/daily-goods/page.tsx:11-13 | the wizard starts at the product step with nothing picked |
| DailyGoodsPage.Wizard.CardClick | src/app/daily-goods/page.tsx:22-30 | at product it picks the product and moves to priority; at priority it picks the priority and moves to confirm; at confirm nothing changes; the step invariant is kept |
| DailyGoodsPage.Wizard.Back | src/app/daily-goods/page.tsx:40-48 | priority→product and confirm→priority; at product it navigates to '/'; the picks are never cleared |
| DailyGoodsPage.Wizard.Search | src/app/daily-goods/page.tsx:32-38 | navigates to '/daily-result' with exactly two parameters, `product` and `priority`, both a card's value |
| DailyGoodsPage.BackTwiceKeepsPicks | src/app/daily-goods/page.tsx:22-48 | for any product and priority: the search names both picks, two steps back return to the product step with both picks kept, and a third goes to '/' |
| DailyGoodsPage.CardValuesAreTruthy | src/app/daily-goods/page.tsx:51-75 | every card value is a non-empty string |
| DailyResultPage.GoodsBodyFor | src/app/daily-result/page.tsx:29-52 | without settings: '不明', '自転車' and '80代'; with settings: the location text, the transport or '自転車', and the age group copied without a default |
| DailyResultPage.ErrorText | src/app/daily-result/page.tsx:60 | the server's error when non-empty, else '検索に失敗しました' |
| DailyResultPage.TrimmedMessage | src/app/daily-result/page.tsx:81-89 | trimming removes exactly the template's leading line break and trailing indentation |
| DailyResultPage.ClosingTrims | src/app/daily-result/page.tsx:88-89 | the closing sentence survives the trim and only the indentation after it is removed |
| DailyResultPage.FirstStore | src/app/daily-result/page.tsx:84 | `stores[0]` throws exactly when stores is missing or null; it is the first store of a non-empty array, undefined for an empty one, and the `"0"` property of an object |
| DailyResultPage.StoreText | src/app/daily-result/page.tsx:84-86 | `first?.key` shown as text when truthy, and '情報なし' when it is falsy: a missing store or field, null, `''`, 0 or false |
| DailyResultPage.ComposeMessage | src/app/daily-result/page.tsx:78-89 | composing throws exactly when the recommendation or the store list is missing or null |
| DailyResultPage.FirstStoreMessage | src/app/daily-result/page.tsx:78-89 | with a product name and a non-empty store list, the title is the product name and the message is the name, the first store's name, price and distance lines, each '情報なし' when falsy, and the closing sentence |
| DailyResultPage.FalsyStoreFieldShowsNoInfo | src/app/daily-result/page.tsx:84-86 | a store field that is missing, null, `''`, 0 or false is shown as '情報なし' |
| DailyResultPage.NoStoresMessage | src/app/daily-result/page.tsx:80-89 | with an empty store list the message is the product name, then three '情報なし' lines, then the closing sentence |
| DailyResultPage.PostedBodyIsAccepted | src/app/daily-result/page.tsx:43-53 | what the page posts always passes the route's check; without settings the route searches for '不明' and '80代', and an age group missing from the settings becomes '80代' there |
| DailyResultPage.ResultPage.constructor | src/app/daily-result/page.tsx:11-15 | no result, loading, no error, not sending, nothing sent |
| DailyResultPage.ResultPage.FetchResult | src/app/daily-result/page.tsx:18-68 | missing parameters set '検索条件が不足しています' with no request; unreadable settings set '予期しないエラーが発生しました'; otherwise the body posted, then the result, the server's error or the unexpected-error text; loading ends |
| DailyResultPage.ResultPage.SendToEchoShow | src/app/daily-result/page.tsx:73-99 | nothing without a result; otherwise the composed title and message are sent and the user is recorded, or the failure is alerted; sending ends |
| FlightResultPage.FlightBodyFor | src/app/result/page.tsx:40-61 | the body carries exactly the three query values plus '不明'/'80代' without settings, or the location text and the copied age group with them |
| FlightResultPage.Conditions | src/app/result/page.tsx:30-38 | the query values exist iff route, timing and timeOfDay are all non-empty |
| FlightResultPage.ResultPage.constructor | src/app/result/page.tsx:23-25 | no result, loading, no error |
| FlightResultPage.ResultPage.FetchResult | src/app/result/page.tsx:27-77 | missing conditions set the error with no request; unreadable settings throw before the request; success stores `data.data`; failure stores the server's error or '検索に失敗しました'; loading ends |
| FlightResultPage.PostedBodyIsAccepted | src/app/result/page.tsx:51-62 | what the page posts always passes the flight route's check, with the page's location and defaults |
| AdminDealsPage.DefaultForm | src/app/admin/daily-deals/page.tsx:12-25 | user 'mother', zero prices, both dates today, stock '豊富', active, and empty texts |
| AdminDealsPage.FormOf | src/app/admin/daily-deals/page.tsx:98-111 | the twelve editable fields are copied; an absent distance, recommendation or image becomes '' |
| AdminDealsPage.SubmitRequest | src/app/admin/daily-deals/page.tsx:53-63 | PUT to `/api/admin/daily-deals/{editingId}` iff editingId is truthy, else POST to the collection; the form is the body |
| AdminDealsPage.AdminPage.constructor | src/app/admin/daily-deals/page.tsx:7-27 | no deals, loading, no error, the default form for today, and no deal being edited |
| AdminDealsPage.AdminPage.FetchDeals | src/app/admin/daily-deals/page.tsx:33-48 | success replaces the list; an envelope failure shows its error; a thrown error shows 'データの取得に失敗しました'; the form is untouched and loading ends |
| AdminDealsPage.AdminPage.Edit | src/app/admin/daily-deals/page.tsx:96-113 | editingId becomes the deal's id and the form becomes the deal's editable fields |
| AdminDealsPage.AdminPage.ResetForm | src/app/admin/daily-deals/page.tsx:115-131 | the default form for today, and no deal being edited |
| AdminDealsPage.AdminPage.Submit | src/app/admin/daily-deals/page.tsx:50-77 | sends the PUT-or-POST request; success alerts '更新しました' or '登録しました', clears editingId and resets the form; failure alerts and leaves both unchanged |
| AdminDealsPage.DeleteDeal | src/app/admin/daily-deals/page.tsx:79-94 | nothing unless confirmed; otherwise DELETE of the deal, with the failure alert when it fails |
| AdminDealsPage.EditAfterPostRoundTrip | src/app/admin/daily-deals/page.tsx:98-111 | editing the row that a POST of a form created gives back that very form |
| AdminDealsPage.EditIgnoresStoreFields | src/app/admin/daily-deals/page.tsx:98-111 | the id, the stored discount and the timestamps never reach the form |
| AdminDealsPage.EmptyIdPostsAgain | src/app/admin/daily-deals/page.tsx:53-57 | a deal whose id is empty is saved by POST, since the empty id is falsy |

## Left out

- The language-model SDK call is a function parameter `model`. The reply is the list of content blocks, or the error the call throws. The model name, the token limits and the web-search tool are not modelled.
- `JSON.parse` is a function parameter `parse`. No JSON grammar is modelled, and nothing is claimed about the shape of parsed fields, since the code checks none.
- The fixed wording of the prompts is not modelled: placeholder tags stand in for it. Only the interpolated values and their order are.
- The Supabase table is a sequence of rows, or the error the store answers with. The query-builder chain becomes a filter plus a sort. The tie order among equal keys is the store's and is unspecified, so only sortedness and permutation are stated.
- The id, `discount_amount` and timestamps that the store gives an inserted row are parameters of `AdminDealsRoute.DealTable.Post`. How the store computes them is not visible in this code.
- `AdminDealsRoute.DealTable.Post`: the posted body is modelled as a well-formed deal form. A body with missing, extra or mistyped fields, which the handler passes to the store unvalidated, is not modelled.
- `new Date()` is the parameter `now` (or `nowIso`).
- `fetch` and `response.json()` are server functions given to the page methods. Router navigation is a returned `Navigation`. `alert` is the returned alert text. `confirm` is a boolean parameter.
- `localStorage` is a `StoredSettings` value. A blob whose `location` lacks a prefecture or a city, which the pages would write as 'undefined', is not modelled. Neither are fields of other JSON types.
- Request-body fields and settings fields are optional strings. JSON numbers, booleans or objects in those fields, whose truthiness differs, are not modelled.
- JSON numbers are whole numbers. Fractional prices, and their decimal notation in the script prompt, are not modelled.
- `GenerateScriptRoute.PostGenerateScript`: the `deal` field is either absent or a deal. A falsy non-object value such as `0` or `''` is not modelled.
- `DailyGoodsPage.Wizard.CardClick` requires the value to be one of the current step's cards. The page calls the handler only from those cards.
- Visiting the daily-goods page without settings redirects to '/setup' (src/app/daily-goods/page.tsx:15-20). That redirect is navigation only and is not modelled.
- After a successful submit or delete, the admin page fetches the list again. The model treats that as a separate `AdminDealsPage.AdminPage.FetchDeals` call, not one chained inside `Submit`.
- src/lib/alexa-mock.ts is a one-second timer plus logging that always succeeds. `DailyResultPage.ResultPage.SendToEchoShow` therefore fails only when composing the message throws.
- src/app/api/admin/daily-deals/[id]/route.ts, the per-deal PUT and DELETE handler, is not part of this model. The admin page's requests to it are modelled up to the request sent and the envelope received.
- src/app/page.tsx and src/app/flight/page.tsx are UI routing only; the flight page's search is an alert stub. Of src/app/setup/page.tsx only the shape of the stored settings is used.
- JSX rendering, styling, console logging and the `loading`/`sending` flags' intermediate values between awaits are not modelled.
- `Http.QueryGet` works on the list of query parameters. URL encoding and decoding of the query string are not modelled.
- `Decimal.IntToDecimal` writes every whole number in plain digits. JavaScript writes numbers of magnitude 10^21 or more with an exponent, and its `regular_price - sale_price` is exact only below 2^53. Prices are assumed to stay well below both bounds.
- `Text.LexLe` compares characters by code point, whereas the store compares with its collation. The two orders agree on ISO dates and timestamps, which is all they are used for.
