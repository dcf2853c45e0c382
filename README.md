# Peekly front end: authorization flows and analytics chat, in Dafny

This project models three parts of the Peekly analytics front end and proves
properties about them.

- **`AuthService`** (`auth.dfy`) is the process-wide holder of the OAuth tokens
  for Google Analytics, Google Ads, Search Console and Shopify. Each
  `connect*` call builds an authorization request, opens a popup and
  registers a window `message` listener that is never removed. A listener
  ignores foreign origins and otherwise reacts to the message's `type` tag
  alone. The class keeps the four token fields and the list of listeners it
  registered. `Deliver` runs one message through that list and is proved
  equal to a pure fold, `Dispatch`. The lemmas state what one message can do:
  - foreign and untagged messages change nothing;
  - settled promises stay settled;
  - one Google success completes *every* pending Google flow with the same
    token;
  - a Shopify success rewrites the Shopify token even after its flow settled.
- **`AnalyticsService`** (`analytics_service.dfy`) holds the canned report
  tables, the first-match keyword classifier behind
  `processNaturalLanguageQuery`, and the industry tailoring behind
  `getKeyInsights`.
- **The analytics chat screen** (`analytics_screen.dfy`) covers:
  - the chart `renderChart` picks from the reply text;
  - pie slice colours;
  - `handleSend` as a method of a `ChatSession` class holding the transcript,
    the input box and the loading flag.

  The four suggested prompts are followed end to end. They are recognised as
  the four patterns in order, and their replies are drawn as line, pie, bar
  and bar charts.

`strings.dfy` models the JavaScript string operations the code relies on:
`toLowerCase` (ASCII capitals), `includes`, `trim`, `join` and decimal
rendering. `wrappers.dfy` holds `Option` and `Result`.

`auth.ts` has none of the following, and the model adds none:
- a correlation id carried in a `state` parameter;
- a limit of one pending flow per provider;
- listener deregistration on settlement;
- popup-closed detection;
- a timeout.

The model therefore has no `state` parameter
(proved absent from both requests). It keeps every listener for ever and
routes messages by tag only. `CrossWiredGoogleFlows`,
`GoogleSuccessSettlesAllGoogleFlows` and `ShopifySuccessRewritesToken` state
the consequences.

Every token field stays null until a flow of its provider has been started.
`TokensExplained` is the invariant that says so, and every operation of the
service keeps it. A Google field holding a value is backed by a listener of
that provider fulfilled with exactly that value. A set Shopify token is backed
only by some Shopify listener. The Shopify half cannot be stronger. The Shopify
listener stays registered after `SHOPIFY_AUTH_ERROR` has rejected its promise,
so a later `SHOPIFY_AUTH_SUCCESS` still writes `shopifyAccessToken` through it
(auth.ts:96-101). A token can therefore appear although its own flow failed;
`StaleShopifyListenerStoresToken` exhibits this.

## Model

| member | source | states |
|---|---|---|
| Strings.ToLower | src/services/analytics.ts:131 | the lower-cased string has the same length, holds at each position the lower-cased character of the input (an ASCII capital moves up by 32, anything else is kept), and so holds no ASCII capital |
| Strings.ToLowerIdempotent | src/services/analytics.ts:131 | lower-casing an already lower-cased string changes nothing |
| Strings.TrimStartSpec | src/screens/Analytics.tsx:99 | the result is a suffix of the input, everything dropped is white space, and it does not start with white space |
| Strings.TrimEndSpec | src/screens/Analytics.tsx:99 | the result is a prefix of the input, everything dropped is white space, and it does not end with white space |
| Strings.TrimSpec | src/screens/Analytics.tsx:99 | `message.trim()` is the slice of the message left after dropping leading and trailing white space: everything outside it is white space and it neither starts nor ends with white space |
| Strings.BlankIffAllSpace | src/screens/Analytics.tsx:99 | `!message.trim()` holds exactly when every character of the message is JavaScript white space |
| Strings.Contains | src/services/analytics.ts:131 | `s.includes(sub)` is false whenever `sub` is longer than `s`, and true for the empty `sub` |
| Strings.ContainsInConcat | src/services/analytics.ts:131 | whatever either part of a concatenation includes, the whole includes |
| Strings.NotContainsByMissingChar | src/services/analytics.ts:131 | a string lacking one character of `sub` does not include `sub` |
| Strings.Join | src/services/auth.ts:28 | joining no parts gives the empty string; joining one part gives that part |
| Strings.Decimal | src/services/analytics.ts:27 | the decimal text of a number is non-empty, all digits, and one digit long exactly for numbers below ten |
| Strings.DecimalRoundTrip | src/services/analytics.ts:27 | reading back the decimal text of `n` gives `n` |
| Strings.NotContainsByAnchor | src/services/analytics.ts:131 | a certificate listing every occurrence of one character of `sub` with a mismatch proves that `includes(sub)` is false |
| Auth.Lookup | src/services/auth.ts:24-28 | a parameter lookup finds nothing exactly when the name is absent, and otherwise finds a pair of the query |
| Auth.GoogleRequest | src/services/auth.ts:20-28 | the Google request goes to the fixed endpoint with the parameters client_id, redirect_uri, response_type and scope, in that order, and no state parameter |
| Auth.GoogleRequestValues | src/services/auth.ts:20-28 | the Google parameters carry the client id, origin + "/auth/callback", "token" and the space-joined scope |
| Auth.ShopifyRequest | src/services/auth.ts:87-91 | the Shopify request goes to https://shop/admin/oauth/authorize with the parameters client_id, scope and redirect_uri, in that order, and no state parameter |
| Auth.ShopifyRequestValues | src/services/auth.ts:88-91 | the Shopify parameters carry the client id, the scope "read_products,read_orders" and origin + "/auth/shopify/callback" |
| Auth.GoogleScopes | src/services/auth.ts:53-79 | each Google connect method passes a one-element scope list |
| Auth.GoogleScopesDistinct | src/services/auth.ts:53-79 | the three Google connect methods ask for three different scopes |
| Auth.GoogleScopeParameter | src/services/auth.ts:51-85 | each Google connect method requests exactly its own single fixed scope |
| Auth.WithToken | src/services/auth.ts:56 | storing a token changes that provider's field and no other |
| Auth.Settle | src/services/auth.ts:37-47 | a promise settles once: a pending promise takes the outcome and a settled one keeps its state |
| Auth.Respond | src/services/auth.ts:38-104 | a listener's promise changes only while pending and only on a same-origin message carrying its own provider's success or error tag; a success fulfils it (Google with `access_token`, Shopify with no value) and an error rejects it with the provider's failure text |
| Auth.Dispatch | src/services/auth.ts:38-47 | a delivered message leaves one listener record per registered listener |
| Auth.AuthService.constructor | src/services/auth.ts:3-10 | a new service holds no token and no listener, so every token is trivially explained |
| Auth.AuthService.GetTokens | src/services/auth.ts:109-116 | the snapshot reports each provider's field as it is |
| Auth.AuthService.AuthenticateWithGoogle | src/services/auth.ts:19-49 | returns the Google request, appends one pending listener for the calling provider, changes no token and keeps every token explained by the listeners |
| Auth.AuthService.ConnectGoogleAnalytics | src/services/auth.ts:51-61 | requests the analytics.readonly scope, appends one pending Google Analytics listener, changes no token yet and keeps every token explained by the listeners |
| Auth.AuthService.ConnectGoogleAds | src/services/auth.ts:63-73 | requests the adwords scope, appends one pending Google Ads listener, changes no token yet and keeps every token explained by the listeners |
| Auth.AuthService.ConnectSearchConsole | src/services/auth.ts:75-85 | requests the webmasters scope, appends one pending Search Console listener, changes no token yet and keeps every token explained by the listeners |
| Auth.AuthService.ConnectShopify | src/services/auth.ts:87-107 | returns the Shopify request, appends one pending Shopify listener, changes no token yet and keeps every token explained by the listeners |
| Auth.AuthService.SetToken | src/services/auth.ts:100 | writes one token field and leaves the others and the listeners alone |
| Auth.DispatchStep | src/services/auth.ts:38-47 | delivering to one more listener appends that listener's response and applies its token write to the tokens of the shorter delivery |
| Auth.AuthService.Deliver | src/services/auth.ts:38-47 | delivering a message to every listener in registration order yields exactly the listeners and tokens of `Dispatch`, and keeps every token explained by the listeners |
| Auth.AuthServiceHolder.constructor | src/services/auth.ts:4 | no instance exists before the first `getInstance` |
| Auth.AuthServiceHolder.GetInstance | src/services/auth.ts:12-17 | the first call creates a fresh empty service, and every later call returns that same object |
| Auth.DispatchListeners | src/services/auth.ts:38-47 | every listener reacts to a message on its own, independently of the others |
| Auth.TokenWriteTarget | src/services/auth.ts:41-100 | a listener writes provider `p`'s field exactly when the message is same-origin and, for Google, a success settling its pending flow, or, for Shopify, any success; the value written is that provider's payload field |
| Auth.DispatchTokens | src/services/auth.ts:96-105 | after one message each token field holds that message's payload if some listener rewrites it, and is unchanged otherwise |
| Auth.ForeignOriginIgnored | src/services/auth.ts:39 | a message from another origin changes no listener and no token |
| Auth.UntaggedIgnored | src/services/auth.ts:41-46 | a message whose type is none of the four tags changes nothing |
| Auth.SettledStaysSettled | src/services/auth.ts:37-47 | a settled flow is never changed by a later message |
| Auth.GoogleSuccessSettlesAllGoogleFlows | src/services/auth.ts:41-43 | a same-origin Google success fulfils every pending Google flow with the same access token and stores it in each of their fields, leaving Shopify untouched |
| Auth.GoogleErrorWritesNothing | src/services/auth.ts:44-45 | a same-origin Google error rejects every pending Google flow with "Authentication failed" and writes no token |
| Auth.ShopifyTagsSettleShopifyFlows | src/services/auth.ts:96-104 | a same-origin Shopify success fulfils every pending Shopify flow with no value; a Shopify error rejects it with "Shopify authentication failed" and writes no token |
| Auth.OtherPairIgnored | src/services/auth.ts:38-104 | a listener ignores the other provider's tag pair: Shopify tags leave Google listeners as they were, and Google tags Shopify listeners |
| Auth.NoTokensExplained | src/services/auth.ts:5-8 | with every field null there is no token to explain |
| Auth.RegisterKeepsExplained | src/services/auth.ts:37-38 | registering a listener keeps each Google token backed by a flow of its provider fulfilled with that value, and the Shopify token by a Shopify listener |
| Auth.DispatchKeepsExplained | src/services/auth.ts:38-104 | after any message a Google field holding a value is still backed by a flow of its provider fulfilled with exactly that value, and a set Shopify token by a Shopify listener |
| Auth.StaleShopifyListenerStoresToken | src/services/auth.ts:96-101 | a Shopify flow rejected by an error still stores the token of a later success through its never-removed listener |
| Auth.ShopifySuccessRewritesToken | src/services/auth.ts:99-101 | a same-origin Shopify success overwrites the Shopify token whenever any Shopify listener was ever registered, settled or not, and nothing else |
| Auth.CrossWiredGoogleFlows | src/services/auth.ts:38-68 | with Analytics and Ads connecting at once, one success message completes both flows and fills both fields with the same token |
| AnalyticsService.MockData | src/services/analytics.ts:23-57 | each of the three named report types gets its fixed table, and every other type name, "userEngagement" included, gets the user-engagement table |
| AnalyticsService.FetchAnalytics | src/services/analytics.ts:59-63 | fetching any report type answers with one of the four mock tables, never an empty one |
| AnalyticsService.UserEngagementShape | src/services/analytics.ts:26-29 | the user-engagement table has seven random rows labelled "Day 1" to "Day 7" |
| AnalyticsService.FixedTablesShape | src/services/analytics.ts:31-53 | the traffic, conversion and bounce tables have 4, 3 and 4 rows of fixed values |
| AnalyticsService.FirstMatch | src/services/analytics.ts:130-132 | no pattern is found exactly when no key occurs; a found pattern is the first one whose key occurs |
| AnalyticsService.FirstMatchIs | src/services/analytics.ts:130-132 | when pattern `k` is the first whose key occurs, the search returns exactly pattern `k` |
| AnalyticsService.Classify | src/services/analytics.ts:130-132 | no pattern is selected exactly when no key occurs in the lower-cased query; a selected pattern is the first whose key occurs |
| AnalyticsService.ProcessNaturalLanguageQuery | src/services/analytics.ts:106-146 | fails with "Query pattern not recognized" exactly when no key occurs in the lower-cased query; otherwise returns the first matching pattern's table, title and description |
| AnalyticsService.QueryIgnoresCase | src/services/analytics.ts:131 | a query and its lower-cased form get the same answer |
| AnalyticsService.QueryAnswersFirstMatch | src/services/analytics.ts:130-145 | a query whose first matching key is pattern `k` is answered with pattern `k`'s data |
| AnalyticsService.TailorInsightsByIndustry | src/services/analytics.ts:81-104 | the tables are kept; "E-commerce" and "SaaS" get their three fixed recommendations; any other industry gets the insights back unchanged |
| AnalyticsService.TailoringIdempotent | src/services/analytics.ts:81-104 | tailoring twice for the same industry is tailoring once |
| AnalyticsService.GetKeyInsights | src/services/analytics.ts:12-21 | the insights hold the four tables fetched by type, with recommendations exactly for E-commerce and SaaS |
| AnalyticsScreen.ChartFor | src/screens/Analytics.tsx:50-95 | a line chart exactly when the text contains "trend" or "over time"; otherwise a pie chart exactly when it contains "distribution" or "sources"; otherwise a bar chart |
| AnalyticsScreen.LineTakesPriority | src/screens/Analytics.tsx:50-62 | text asking for both a line and a pie is drawn as a line |
| AnalyticsScreen.SliceColor | src/screens/Analytics.tsx:75-76 | slice `index` is filled with palette entry `index % 4`, always a palette colour |
| AnalyticsScreen.PieCells | src/screens/Analytics.tsx:75-77 | one pie cell per row, keyed by the row's dimension and filled with the slice colour of its index |
| AnalyticsScreen.SliceColorsCycle | src/screens/Analytics.tsx:27 | colours repeat every four slices, and four consecutive slices get four different colours |
| AnalyticsScreen.ReplyTextIncludes | src/screens/Analytics.tsx:117 | every word of the lower-cased title and of the description occurs in the reply text |
| AnalyticsScreen.ReplyTextChart | src/screens/Analytics.tsx:117 | a reply whose lower-cased title or description asks for a line is drawn as a line, and one that asks for a pie is never drawn as bars |
| AnalyticsScreen.ReplyTo | src/screens/Analytics.tsx:112-134 | the assistant's answer carries a chart exactly when the service exists and recognises the query; then it carries that data and its reply text, otherwise the fixed apology |
| AnalyticsScreen.RenderedChart | src/screens/Analytics.tsx:179-183 | a chart is drawn exactly under messages with a visualization, chosen from the message text |
| AnalyticsScreen.Exchange | src/screens/Analytics.tsx:98-138 | a blank send appends nothing; any other send appends the user's message followed by exactly one reply |
| AnalyticsScreen.ExchangeIgnoresWhitespace | src/screens/Analytics.tsx:99 | a send appends nothing exactly when the input consists only of white space |
| AnalyticsScreen.TranscriptEven | src/screens/Analytics.tsx:98-138 | a transcript built by sends has an even number of messages |
| AnalyticsScreen.TranscriptAt | src/screens/Analytics.tsx:98-138 | in a transcript, an even position holds a non-blank user message without chart and an odd position a well-formed reply |
| AnalyticsScreen.TranscriptAlternates | src/screens/Analytics.tsx:98-138 | user and assistant messages alternate throughout a transcript, starting with a user message |
| AnalyticsScreen.TranscriptAppendTurn | src/screens/Analytics.tsx:101-134 | appending a user turn and a well-formed reply keeps a transcript a transcript |
| AnalyticsScreen.TranscriptGrows | src/screens/Analytics.tsx:98-138 | appending the messages of any send keeps a transcript a transcript |
| AnalyticsScreen.SendAppendsTurn | src/screens/Analytics.tsx:99-134 | a non-blank send appends exactly the user's message and then its reply, and keeps the transcript one |
| AnalyticsScreen.ChatSession.constructor | src/screens/Analytics.tsx:37-39 | the screen starts with no messages, an empty input and no loading indicator |
| AnalyticsScreen.ChatSession.SetInput | src/screens/Analytics.tsx:200 | typing replaces the input text and nothing else |
| AnalyticsScreen.ChatSession.HandleSend | src/screens/Analytics.tsx:98-138 | the messages of `Exchange` are appended; when there are none (blank input) the input and loading flag are kept, otherwise the input is cleared and loading ends false; the transcript stays a transcript |
| AnalyticsScreen.ChatSession.Submit | src/screens/Analytics.tsx:201-208 | Enter or the send button sends the current input: its exchange is appended; a blank input stays in the box with the loading flag as it was, any other input is cleared and loading ends false |
| AnalyticsScreen.SuggestedPromptRecognised | src/screens/Analytics.tsx:29-34 | suggested prompt `i` is recognised as pattern `i`, so the four prompts ask four different questions |
| AnalyticsScreen.PatternReplyChart | src/screens/Analytics.tsx:50-95 | the replies for the four patterns select line, pie, bar and bar charts |
| AnalyticsScreen.SuggestedPromptReply | src/screens/Analytics.tsx:112-124 | with the service ready, suggested prompt `i` is answered with pattern `i`'s data and reply text |
| AnalyticsScreen.SuggestedPromptEndToEnd | src/screens/Analytics.tsx:150-153 | with the service ready, clicking suggested prompt `i` appends the prompt and pattern `i`'s reply, drawn with the expected chart |

## Left out

- `window.open`, the popup handles and their features strings are not modelled. The popups are never read again after opening.
- Percent-encoding by `URL.searchParams` and `encodeURIComponent` is not modelled. Requests are kept as base plus ordered parameter pairs.
- The `import.meta.env` client ids and `window.location.origin` become parameters (`Env`).
- Promise scheduling is not modelled. The Google `connect*` continuation that stores the token is folded into the delivery of the message that fulfils its promise. Interleaved `handleSend` calls, whose `setMessages` updates can interleave while a query is awaited, are not modelled: each send is atomic.
- `console.error` logging in the connect methods and the re-thrown error are not modelled. The rejection reason is kept in the flow's `Rejected` status.
- `null` and `undefined` are both `None`. A success message without `access_token` or `token` stores `None`.
- The random metric values of the user-engagement table (`Math.random`, `toFixed(2)`) are not modelled. `parseFloat` on chart values and the `Date.now()` message ids and timestamps are not modelled either.
- `getMockData` on type names such as `toString` that hit `Object.prototype` keys is not modelled: every unknown name falls back to the user-engagement table.
- The analytics hook (`useAnalytics.ts`) is reduced to one flag, `serviceReady`. When no service exists the query throws and the screen shows the apology. The hook starts with a null service and sets it in an effect (useAnalytics.ts:5-18), so readiness can change while the screen is open. The model fixes `serviceReady` for the whole session instead. The hook's own loading and error state are not modelled.
- Strings.ToLower: lower-cases ASCII capitals only, not the full Unicode case mapping of `toLowerCase`. Chat input can hold any character, but the classifier only asks whether one of four ASCII keys occurs. Apart from the ASCII capitals, only U+0130 (to "i" followed by U+0307) and U+212A (to "k") lower-case to ASCII letters. No key contains "k", and no "i" in a key comes last or is followed by U+0307, so neither can complete a key. Characters that lower-case to other non-ASCII characters cannot take part in a key match either way. The titles lower-cased for replies are ASCII constants.
- Strings.Join: states only the zero- and one-part cases; longer joins are fixed by its definition.
- Rendering (JSX, recharts, lucide icons, class names) and the files `App.tsx`, `Onboarding.tsx`, `Insights.tsx`, `AnalyticsContext.tsx` and `tailwind.config.js` are not part of this model.
- No correlation id, per-provider flow limit, listener deregistration, popup-closed detection or timeout is modelled, because `auth.ts` has none of them.
