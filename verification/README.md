# MentorMatch core, modelled in Dafny

MentorMatch is a coaching marketplace. Its server side takes payments for
coaching sessions through pluggable gateways (Stripe, PayPal), registers
and signs in users, and records an onboarding questionnaire. Its React
front end searches a catalogue of mentors, programs and events and drives
a few small stateful widgets. This project models the parts of both that
make decisions:

- the payment service: the gateway registry, the payments and sessions
  tables, and creating, confirming and refunding a payment. The tables are
  maps that the methods of the `PaymentService` class update;
- the two gateway adapters. Stripe's minor-unit amount encoding is modelled
  exactly. PayPal's mock answers are modelled too;
- the payment controller's guards, the webhook gate and the history page;
- the JWT middleware's header parsing and error mapping;
- both user controllers, the users and user-profile tables, and the
  onboarding controller;
- the front end's catalogue search, the `useSearch` hook, the search page,
  the mentors page, the search bar, the hero carousel, the onboarding
  questionnaire, the mentor profile settings, the mock auth context, the
  auth guard, and the route builders.

Calls into code outside the repository are parameters of the model, as
functions whose results the model does not constrain. These are the Stripe
SDK, `jwt.sign`/`jwt.verify`, bcrypt's `hash`/`compare`, `JSON.parse` and
`Date.now()`. The database tables are class fields. Where a table is read
with `LIMIT`/`ORDER BY` or looked up by a non-key column, the table is a
`seq` of rows in insertion order. The payments ledger and the sessions table
are `map`s keyed by id. Money is `real`: a JavaScript number without
rounding error. Stripe's `Math.round` is written out as `floor(x + 1/2)`.

The files follow the source: one Dafny module per source file. `Text` and
`Seqs` hold shared helpers: JavaScript's `trim`, `toLowerCase` restricted to
ASCII letters, `split`, `includes`, `length` in UTF-16 code units, `filter`,
`find` and `Set` de-duplication.

## Model

| member | source | states |
|---|---|---|
| GatewayContract.Reshape | src/services/payment/StripeGateway.js:42-48 | an adapter fails exactly when the vendor call throws, with the error's message and code; nothing escapes |
| StripeGateway.Multiplier | src/services/payment/StripeGateway.js:271-280 | the multiplier is 1 iff the lowercased code is one of the 16 zero-decimal codes, else 100 |
| StripeGateway.Round | src/services/payment/StripeGateway.js:257 | `Math.round` gives the integer within half a unit, with halves rounded up |
| StripeGateway.FormatAmount | src/services/payment/StripeGateway.js:254-258 | the encoded amount is within half a minor unit of amount × multiplier |
| StripeGateway.UnformatFormat | src/services/payment/StripeGateway.js:254-266 | decoding an encoded amount gives the amount back whenever amount × multiplier is whole |
| StripeGateway.FormatUnformat | src/services/payment/StripeGateway.js:254-266 | every integer count of minor units survives decode-then-encode |
| StripeGateway.IntentRequestFor | src/services/payment/StripeGateway.js:18-31 | the intent request's currency is the code lowercased, with the same multiplier; its amount is the payment's amount in that currency's minor units; it carries the caller's description, metadata and customer, and automatic payment methods on |
| StripeGateway.IntentRequestAmount | src/services/payment/StripeGateway.js:22-31 | the intent is created for exactly the requested amount when it is a whole number of minor units |
| StripeGateway.CaptureRequestFor | src/services/payment/StripeGateway.js:83 | a capture sends an amount iff one is truthy, encoded on the 'usd' scale |
| StripeGateway.RefundRequestFor | src/services/payment/StripeGateway.js:105-117 | a refund names the intent, defaults the reason to 'requested_by_customer', and sends an amount iff one is truthy, on the 'usd' scale |
| StripeGateway.CaptureIgnoresCurrency | src/services/payment/StripeGateway.js:81-117 | JPY has multiplier 1, yet an explicit capture or refund of 500 is sent as 50000 units |
| StripeGateway.CreatePaymentIntent | src/services/payment/StripeGateway.js:18-49 | fails iff the SDK's create call throws; on success the reply's id is the intent's id |
| StripeGateway.ConfirmPayment | src/services/payment/StripeGateway.js:54-76 | fails iff the SDK's confirm call throws |
| StripeGateway.CapturePayment | src/services/payment/StripeGateway.js:81-100 | fails iff the SDK's capture call throws |
| StripeGateway.RefundPayment | src/services/payment/StripeGateway.js:105-133 | fails iff the SDK's refund call throws |
| StripeGateway.GetPaymentStatus | src/services/payment/StripeGateway.js:138-158 | fails iff the SDK's retrieve call throws |
| StripeGateway.ValidateWebhook | src/services/payment/StripeGateway.js:216-227 | valid iff the SDK builds the event from payload, signature and secret; the event or the error message is passed on |
| PayPalGateway.CreatePaymentIntent | src/services/payment/PayPalGateway.js:21-56 | always succeeds, echoing amount, currency and metadata, with status 'CREATED', no client secret, and id `paypal_order_<time>` |
| PayPalGateway.ConfirmPayment | src/services/payment/PayPalGateway.js:61-82 | succeeds iff confirmation data is given; the id passes through, status 'COMPLETED', amount, currency and metadata come from the confirmation data; otherwise the failure carries code PAYPAL_ERROR |
| PayPalGateway.CapturePayment | src/services/payment/PayPalGateway.js:87-104 | echoes id and amount, currency always 'USD', status 'COMPLETED' |
| PayPalGateway.RefundPayment | src/services/payment/PayPalGateway.js:109-127 | echoes amount and reason, currency always 'USD', status 'COMPLETED', id `paypal_refund_<time>` |
| PayPalGateway.GetPaymentStatus | src/services/payment/PayPalGateway.js:132-151 | for any id: status 'COMPLETED', amount 1000, currency 'USD' |
| PayPalGateway.ValidateWebhook | src/services/payment/PayPalGateway.js:201-208 | valid iff the payload parses; the event is the parsed payload |
| PayPalGateway.SignatureIgnored | src/services/payment/PayPalGateway.js:201-208 | any two signatures get the same verdict for the same payload |
| PayPalGateway.IdsDistinct | src/services/payment/PayPalGateway.js:42 | distinct timestamps give distinct order ids and distinct refund ids |
| PayPalGateway.CurrenciesMatchStripe | src/services/payment/PayPalGateway.js:213-220 | PayPal's 40 currencies are Stripe's list, uppercased, in the same order |
| Gateways.RecordedNameDerivation | src/services/PaymentService.js:103 | the recorded gateway name is the class name, lowercased, with 'gateway' removed |
| Gateways.RecordedNameInjective | src/services/PaymentService.js:117 | different gateways get different recorded names |
| Payments.InitialRegistry | src/services/PaymentService.js:20-42 | Stripe is registered iff its secret key is set, PayPal iff both its client id and secret are set, each under its recorded name and once |
| Payments.Lookup | src/services/PaymentService.js:49 | a found gateway is registered under that name; none is found only when no entry has the name |
| Payments.GetGateway | src/services/PaymentService.js:47-56 | the gateway under the given name, or under the default when none is given; an unknown name is the error "Payment gateway '<name>' not configured" |
| Payments.RecordedNameFindsGateway | src/services/PaymentService.js:20-56 | in a registry built this way, a registered gateway's recorded name leads back to it |
| Payments.BookingMetadata | src/services/PaymentService.js:81-87 | the caller's metadata plus sessionId, mentorId, userId and type 'session_booking', those four overriding the caller's keys and all other keys kept |
| Payments.SessionPaymentDefaults | src/services/PaymentService.js:61-90 | currency defaults to 'USD', a falsy description to 'Coaching session with mentor', and the amount is the caller's |
| Payments.AsWrittenIgnoresStoredGateway | src/services/PaymentService.js:139-146 | as written, the gateway column read does not exist, so every stored payment goes to the default gateway with an undefined gateway id |
| Payments.AsWrittenMisroutesPayPal | src/services/PaymentService.js:141 | a PayPal payment, with Stripe the default, is confirmed through Stripe as written and through PayPal when read from payment_method |
| Payments.GatewayForRowAsWritten | src/services/PaymentService.js:139-146 | as written, the gateway serving a stored payment depends only on the default name: it is the gateway registered under the default, or an error when none is |
| Payments.GatewayForRow | src/services/PaymentService.js:276-290 | corrected routing: the gateway registered under the row's `payment_method` (the default when that is empty), or an error iff no gateway has that name |
| Payments.GatewayForRowFindsCreator | src/services/PaymentService.js:276-290 | a payment recorded through gateway g is served by g again |
| Payments.InfoFor | src/services/PaymentService.js:370-384 | one entry's info: id = name, display name capitalised, the gateway's currencies and methods, enabled, and a publishable key only for 'stripe' |
| Payments.DisplayNames | src/services/PaymentService.js:373 | the display names are "Stripe" and "Paypal", and PayPal has no publishable key |
| Payments.PaymentService.constructor | src/services/PaymentService.js:11-15 | the registry comes from the configuration, the default gateway is 'stripe' unless configured, and the ledger is empty |
| Payments.PaymentService.CreateSessionPayment | src/services/PaymentService.js:61-127 | on gateway failure (or no default gateway) the error comes back and no row is written; on success exactly one 'pending' row is added under a fresh id, with the caller's amount, the recorded gateway name and the intent id as transaction id |
| Payments.PaymentService.CreatePaymentRecord | src/services/PaymentService.js:263-296 | inserts the row under a fresh id and changes nothing else |
| Payments.PaymentService.UpdatePaymentStatus | src/services/PaymentService.js:310-317 | sets only that row's status, whatever it was; no row, no change |
| Payments.PaymentService.UpdateSessionStatus | src/services/PaymentService.js:322-329 | sets only that session's status; no session, no change |
| Payments.PaymentService.ConfirmPayment | src/services/PaymentService.js:132-177 | with corrected routing (`GatewayForRow`, see Findings): a missing record or a gateway failure changes nothing; success sets the row to 'completed' whatever its prior status and the session to 'confirmed' |
| Payments.PaymentService.ProcessRefund | src/services/PaymentService.js:182-227 | with corrected routing (`GatewayForRow`, see Findings): a missing record or a gateway failure changes nothing; success sets the row to 'refunded', even for a partial amount |
| Payments.PaymentService.GetPaymentStatus | src/services/PaymentService.js:232-258 | with corrected routing (`GatewayForRow`, see Findings): writes nothing; reports success whenever the gateway is found, even when the gateway's own answer is a failure |
| Payments.PaymentService.AvailableGateways | src/services/PaymentService.js:348-350 | the registered names in registration order |
| Payments.PaymentService.GatewayCapabilities | src/services/PaymentService.js:355-362 | succeeds iff getGateway does, with that gateway's currencies and methods and the name asked for |
| Payments.PaymentService.AllGatewayInfo | src/services/PaymentService.js:367-387 | one info record per registered gateway, in registration order |
| PaymentController.AsWrittenRequesterUnknown | src/controllers/paymentController.js:16 | the tokens both user controllers sign carry `userId` and no `id`, so `req.user.id` is never known |
| PaymentController.AsWrittenNeverOwns | src/controllers/paymentController.js:91-97 | as written, no payment belongs to the requester: every confirm, status and refund request gets 404 |
| PaymentController.CreateIntentCheck | src/controllers/paymentController.js:19-32 | accepted iff session id, mentor id and amount are truthy and the amount is positive; the missing-field message takes precedence |
| PaymentController.ZeroAmountIsMissing | src/controllers/paymentController.js:19-24 | an amount of 0 is refused as missing, not as non-positive |
| PaymentController.RefundCheck | src/controllers/paymentController.js:188-202 | passes iff the requester owns the payment and its status is exactly 'completed'; otherwise 404 or 400 respectively |
| PaymentController.NoSecondRefund | src/controllers/paymentController.js:197-202 | a refunded or pending payment of the requester's is refused with 400 |
| PaymentController.CreatePaymentIntent | src/controllers/paymentController.js:13-73 | 201 iff the guards pass and the default gateway is configured and creates the intent (`PaymentService.CreateSucceeds`), else 400; a refused request writes nothing; a 201 adds exactly one pending row owned by the requester for the requested amount, other rows unchanged |
| PaymentController.ConfirmPayment | src/controllers/paymentController.js:78-128 | 400 without an id; 404 unless the requester owns the payment, with no write; 200 iff the requester owns the payment and its gateway (corrected routing, see Findings) confirms it (`PaymentService.ConfirmSucceeds`); a 200 sets that row to 'completed' and its session to 'confirmed', anything else writes nothing |
| PaymentController.GetPaymentStatus | src/controllers/paymentController.js:133-176 | 404 unless the requester owns the payment; otherwise, with corrected routing (see Findings), 200 iff the gateway named by the payment's `payment_method` is registered |
| PaymentController.ProcessRefund | src/controllers/paymentController.js:181-232 | the guards' answer when they refuse; 200 iff the guards pass and the payment's gateway (corrected routing, see Findings) refunds it (`PaymentService.RefundSucceeds`); only a 200 changes the ledger, and only that row, to 'refunded' |
| PaymentController.Classify | src/controllers/paymentController.js:279-291 | the two payment_intent events go to the payment handler, 'charge.refunded' to the refund handler, anything else to none |
| PaymentController.SelectSignature | src/controllers/paymentController.js:263 | the Stripe signature header wins when truthy, else the PayPal one |
| PaymentController.HandleWebhook | src/controllers/paymentController.js:259-301 | unknown gateway 500; failed validation 400 and no dispatch; a valid event is answered 200 iff it has no handler, and 500 otherwise because the handlers do not exist |
| PaymentController.PayPalWebhookUnsigned | src/controllers/paymentController.js:263-274 | a PayPal webhook gets the same answer whatever signature it carries |
| PaymentController.HistoryOffset | src/controllers/paymentController.js:309-311 | page and limit default to 1 and 10 when absent; the first page starts at 0 and each page starts where the previous one ends |
| PaymentController.PaymentHistory | src/controllers/paymentController.js:306-345 | the page is the requester's rows (newest first) from index `offset` on, `min(limit, remaining)` of them in order; `page` and `limit` are the values used and `total` is the page size; a negative offset or limit is a 500 |
| PaymentController.HistoryDefaults | src/controllers/paymentController.js:309-311 | with no parameters the offset is 0, the page is 1, and the rows are the requester's first ten |
| AuthMiddleware.SignedClaims | backend/src/controllers/userController.js:45-46 | the signed payload has exactly the keys userId, email and role |
| AuthMiddleware.BearerToken | src/middleware/auth.js:13-21 | a token is the non-empty second space-separated word of a truthy header |
| AuthMiddleware.BearerTokenOfHeader | src/middleware/auth.js:14 | `<any word> <token>` yields the token: the scheme is not checked |
| AuthMiddleware.NoSpaceNoToken | src/middleware/auth.js:14-21 | a header without a space carries no token |
| AuthMiddleware.VerifyErrorResponse | src/middleware/auth.js:41-60 | JsonWebTokenError gives 401 'Invalid token', TokenExpiredError gives 401 'Token expired', any other error 500 |
| AuthMiddleware.AuthenticateToken | src/middleware/auth.js:10-62 | passes iff a token is present, verifies and names an existing user, with `req.user` the decoded payload; a missing token is 401 'Access token required'; backend/src/middleware/auth.js:4-28 makes the same decisions |
| AuthMiddleware.UnknownUserRejected | src/middleware/auth.js:30-36 | a valid token for a user who no longer exists gets 401 'User not found' |
| AuthMiddleware.AuthorizeRole | src/middleware/auth.js:65-83 | 401 without a user, 403 when the role is not listed, otherwise pass on the same user; backend/src/middleware/auth.js:30-40 makes the same decisions |
| Catalogue.SearchMentors | frontend/src/shared/data/mockData.ts:493-518 | a mentor is kept iff it has the given category and role, when those are set, and matches the lowercased query in name, specialty, a skill or a subcategory, when the query is non-empty |
| Catalogue.SearchPrograms | frontend/src/shared/data/mockData.ts:520-545 | kept iff category and level match when set, and the query matches title, description, a tag or the instructor's name |
| Catalogue.SearchEvents | frontend/src/shared/data/mockData.ts:547-572 | kept iff category and type match when set, and the query matches title, description, a tag or the instructor's name |
| Catalogue.SearchMentorsSubseq | frontend/src/shared/data/mockData.ts:493-518 | the result is an order-preserving subsequence of the mentors |
| Catalogue.SearchProgramsSubseq | frontend/src/shared/data/mockData.ts:520-545 | the result is an order-preserving subsequence of the programs |
| Catalogue.SearchEventsSubseq | frontend/src/shared/data/mockData.ts:547-572 | the result is an order-preserving subsequence of the events |
| Catalogue.SearchMentorsUnfiltered | frontend/src/shared/data/mockData.ts:494-517 | with no query, category or role every mentor is returned, in order |
| Catalogue.GetCategoryBySlug | frontend/src/shared/data/mockData.ts:574-576 | the first category with that slug, or none iff no category has it |
| Catalogue.AllPopularSkillsMembership | frontend/src/shared/data/mockData.ts:583 | a skill is in the flattened list iff some category lists it |
| Catalogue.GetPopularSkills | frontend/src/shared/data/mockData.ts:578-584 | a known slug gives its skills, an unknown one none; no slug gives the first ten of all skills in category order |
| Catalogue.PopularSkillsComeFromCategories | frontend/src/shared/data/mockData.ts:583 | every skill returned without a slug is some category's popular skill |
| UseSearch.Merge | frontend/src/shared/hooks/useSearch.ts:148-150 | each of the nine keys takes the patch's value when supplied and keeps its old one otherwise |
| UseSearch.MergeIdempotent | frontend/src/shared/hooks/useSearch.ts:148-150 | merging a patch twice is merging it once; the empty patch changes nothing |
| UseSearch.NarrowMentors | frontend/src/shared/hooks/useSearch.ts:69-108 | a mentor stays iff its price is in range, its rating reaches a non-zero rating, and online and certified match when set |
| UseSearch.NarrowPrograms | frontend/src/shared/hooks/useSearch.ts:69-91 | a program stays iff its price is in range and its rating reaches a non-zero rating |
| UseSearch.NarrowEvents | frontend/src/shared/hooks/useSearch.ts:69-101 | an event stays iff its price is in range and online matches when set |
| UseSearch.NarrowingKeepsOrder | frontend/src/shared/hooks/useSearch.ts:64-108 | each narrowing keeps an order-preserving subsequence |
| UseSearch.ComputeResults | frontend/src/shared/hooks/useSearch.ts:59-118 | the results are exactly the searched and narrowed items; totalResults is the sum of the three lengths |
| UseSearch.ResultsNarrowSearches | frontend/src/shared/hooks/useSearch.ts:60-108 | each result list is a subsequence of its catalogue query's output |
| UseSearch.FilterScopes | frontend/src/shared/hooks/useSearch.ts:84-108 | rating never changes the events; isCertified changes neither programs nor events |
| UseSearch.Param | frontend/src/shared/hooks/useSearch.ts:124-128 | a parameter is written iff its value is truthy |
| UseSearch.ParamsOfGet | frontend/src/shared/hooks/useSearch.ts:121-131 | the URL holds 'search' iff the query is non-empty, and category, role, level and type iff each is set, with those values, and nothing else |
| UseSearch.NonEmpty | frontend/src/shared/hooks/useSearch.ts:136-140 | `value \|\| undefined` keeps exactly the truthy values |
| UseSearch.UrlRoundTrip | frontend/src/shared/hooks/useSearch.ts:121-146 | writing the filters to the URL and reading them back keeps the five text filters and drops price, rating, online and certified |
| UseSearch.GetFilterOptions | frontend/src/shared/hooks/useSearch.ts:166-179 | roles, levels and types without duplicates, holding exactly the values that occur; the URL category's subcategories |
| UseSearch.FilterOptionsAsWrittenThrows | frontend/src/shared/hooks/useSearch.ts:166-169 | as written, getFilterOptions reads undeclared names and throws a ReferenceError |
| UseSearch.SearchHook.constructor | frontend/src/shared/hooks/useSearch.ts:39-49 | the initial filters are read from the query string |
| UseSearch.SearchHook.UrlCategory | frontend/src/shared/hooks/useSearch.ts:52-56 | the category is the one the URL's slug names, and none without a slug |
| UseSearch.SearchHook.UpdateFilters | frontend/src/shared/hooks/useSearch.ts:148-150 | the filters become the merge of the old filters and the patch |
| UseSearch.SearchHook.ClearFilters | frontend/src/shared/hooks/useSearch.ts:152-164 | query '' and every other filter unset |
| UseSearch.SearchHook.SyncUrl | frontend/src/shared/hooks/useSearch.ts:121-131 | the query string becomes the parameters of the current filters |
| UseSearch.SearchHook.SyncFilters | frontend/src/shared/hooks/useSearch.ts:134-146 | the filters are reloaded from the query string |
| UseSearch.SyncBoth | frontend/src/shared/hooks/useSearch.ts:121-146 | one pass of both effects keeps the URL part of the filters and drops the rest |
| SearchPage.Toggle | frontend/src/features/search/SearchPage.tsx:47-57 | choosing the selected value unsets it; any other value selects it |
| SearchPage.ToggleTwice | frontend/src/features/search/SearchPage.tsx:47-57 | choosing a value twice returns the filter to where it was, from unset or from that value |
| SearchPage.HandleSearch | frontend/src/features/search/SearchPage.tsx:39-41 | only the query changes |
| SearchPage.HandleCategoryClick | frontend/src/features/search/SearchPage.tsx:43-45 | the category is always set, never cleared |
| SearchPage.HandleRoleFilter | frontend/src/features/search/SearchPage.tsx:47-49 | only the role changes, toggled |
| SearchPage.HandleLevelFilter | frontend/src/features/search/SearchPage.tsx:51-53 | only the level changes, toggled |
| SearchPage.HandleTypeFilter | frontend/src/features/search/SearchPage.tsx:55-57 | only the type changes, toggled |
| SearchPage.ShowClear | frontend/src/features/search/SearchPage.tsx:111 | "Clear Filters" is shown iff some category, role, level or type is truthy: hidden when none of the four is truthy (in particular after clearing), shown when any one is |
| SearchPage.ShowClearScope | frontend/src/features/search/SearchPage.tsx:111 | "Clear Filters" ignores the query, price and rating, and is hidden after clearing |
| SearchPage.RoleToggleShowsClear | frontend/src/features/search/SearchPage.tsx:111 | choosing a role shows the button; choosing it again, with nothing else set, hides it |
| SearchPage.RoleLabel | frontend/src/features/search/SearchPage.tsx:166 | the first character uppercased, the rest unchanged |
| SearchPage.RoleLabels | frontend/src/features/search/SearchPage.tsx:166 | 'mentor', 'instructor' and 'coach' are shown as Mentor, Instructor and Coach |
| SearchPage.PopularSearches | frontend/src/features/search/SearchPage.tsx:66 | the first six popular skills |
| SearchPage.SearchSuggestions | frontend/src/features/search/SearchPage.tsx:59-64 | one skill suggestion per popular skill, ids numbered from 1 |
| SearchPage.PageState.constructor | frontend/src/features/search/SearchPage.tsx:34-35 | the filter panel starts closed on the 'all' tab |
| SearchPage.PageState.ToggleFilters | frontend/src/features/search/SearchPage.tsx:106 | flips the filter panel, the tab unchanged |
| SearchPage.PageState.SetActiveTab | frontend/src/features/search/SearchPage.tsx:219 | sets the tab, the panel unchanged |
| MentorsPage.FilteredMentors | frontend/src/features/mentors/Mentors.tsx:134-143 | kept iff the search and category conditions both hold; an order-preserving subsequence |
| MentorsPage.EmptyQueryMatches | frontend/src/features/mentors/Mentors.tsx:135-137 | the empty query matches every mentor |
| MentorsPage.UnfilteredListsAll | frontend/src/features/mentors/Mentors.tsx:139 | with an empty query and "" or "All Categories", every mentor is listed in order |
| MentorsPage.Plural | frontend/src/features/mentors/Mentors.tsx:210 | 's' iff the count is not 1 |
| MentorsPage.CountLabel | frontend/src/features/mentors/Mentors.tsx:210 | "1 mentor found", otherwise "<n> mentors found" |
| SearchBarComponent.FilterSuggestions | frontend/src/shared/components/ui/SearchBar.tsx:39-47 | none for a blank query; otherwise the first `min(8, matches)` suggestions whose text contains the query case-insensitively, in order |
| SearchBarComponent.FewMatchesAllOffered | frontend/src/shared/components/ui/SearchBar.tsx:41-46 | with at most eight matches, every matching suggestion is offered |
| SearchBarComponent.FilterSuggestionsKeepsOrder | frontend/src/shared/components/ui/SearchBar.tsx:41-43 | the offered suggestions keep their original order |
| SearchBarComponent.NextIndex | frontend/src/shared/components/ui/SearchBar.tsx:56-60 | ArrowDown moves to the next index, wrapping from the last to 0 |
| SearchBarComponent.PrevIndex | frontend/src/shared/components/ui/SearchBar.tsx:62-66 | ArrowUp moves to the previous index, wrapping from 0 or -1 to the last |
| SearchBarComponent.ArrowsUndo | frontend/src/shared/components/ui/SearchBar.tsx:55-66 | from a highlighted suggestion, up undoes down and down undoes up |
| SearchBarComponent.SearchBar.constructor | frontend/src/shared/components/ui/SearchBar.tsx:31-34 | empty query, unfocused, no suggestions shown, index -1 |
| SearchBarComponent.SearchBar.Refilter | frontend/src/shared/components/ui/SearchBar.tsx:39-49 | the suggestions are refiltered and the index reset to -1 |
| SearchBarComponent.SearchBar.SetQuery | frontend/src/shared/components/ui/SearchBar.tsx:119 | typing sets the query, refilters, and resets the index |
| SearchBarComponent.SearchBar.SetSuggestions | frontend/src/shared/components/ui/SearchBar.tsx:39-49 | new suggestions are refiltered and the index reset |
| SearchBarComponent.SearchBar.Focus | frontend/src/shared/components/ui/SearchBar.tsx:120 | only the focus flag changes |
| SearchBarComponent.SearchBar.Blur | frontend/src/shared/components/ui/SearchBar.tsx:121-124 | only the focus flag changes |
| SearchBarComponent.SearchBar.HandleSearch | frontend/src/shared/components/ui/SearchBar.tsx:90-94 | searches the trimmed query, and never a blank one |
| SearchBarComponent.SearchBar.HandleSuggestionClick | frontend/src/shared/components/ui/SearchBar.tsx:83-88 | the suggestion's text becomes the query and is searched; unfocused, index -1 |
| SearchBarComponent.SearchBar.HandlePopularSearchClick | frontend/src/shared/components/ui/SearchBar.tsx:96-99 | the text becomes the query and is searched; the highlight is reset only when the query changes, since the filtering effect (:39-49) reruns only then |
| SearchBarComponent.SearchBar.ClearQuery | frontend/src/shared/components/ui/SearchBar.tsx:101-106 | empty query, no suggestions, index -1 |
| SearchBarComponent.SearchBar.HandleKeyDown | frontend/src/shared/components/ui/SearchBar.tsx:52-81 | keys do nothing with no suggestions shown; arrows wrap; Enter searches the highlighted suggestion or the trimmed query; Escape unfocuses; the index stays in -1..len-1 |
| HeroCarousel.Carousel.constructor | frontend/src/shared/components/ui/HeroCarousel.tsx:35-36 | starts on slide 0, unlocked |
| HeroCarousel.Carousel.NextSlide | frontend/src/shared/components/ui/HeroCarousel.tsx:39-45 | while locked nothing changes; otherwise the slide becomes (i+1) mod n and the lock is set |
| HeroCarousel.Carousel.PrevSlide | frontend/src/shared/components/ui/HeroCarousel.tsx:47-53 | while locked nothing changes; otherwise the slide becomes (i-1+n) mod n and the lock is set |
| HeroCarousel.Carousel.GoToSlide | frontend/src/shared/components/ui/HeroCarousel.tsx:55-61 | while locked, or for the current slide, nothing changes; otherwise the slide is k and the lock is set |
| HeroCarousel.Carousel.EndTransition | frontend/src/shared/components/ui/HeroCarousel.tsx:43 | the timer releases the lock and keeps the slide |
| HeroCarousel.Next | frontend/src/shared/components/ui/HeroCarousel.tsx:42 | one slide on, wrapping after the last, always in range |
| HeroCarousel.Prev | frontend/src/shared/components/ui/HeroCarousel.tsx:50 | one slide back, wrapping before the first, always in range |
| HeroCarousel.PrevUndoesNext | frontend/src/shared/components/ui/HeroCarousel.tsx:42-50 | back after forward and forward after back return to the start |
| HeroCarousel.NextThenPrev | frontend/src/shared/components/ui/HeroCarousel.tsx:39-53 | next, timer, prev, timer returns to the starting slide, unlocked |
| OnboardingQuestionnaire.SetField | frontend/src/features/onboarding/OnboardingQuestionnaire.tsx:54-56 | only the named field changes |
| OnboardingQuestionnaire.Toggled | frontend/src/features/onboarding/OnboardingQuestionnaire.tsx:58-65 | an interest is in the result iff exactly one of these holds: it was in the list, or it is the toggled one |
| OnboardingQuestionnaire.ToggledNoDup | frontend/src/features/onboarding/OnboardingQuestionnaire.tsx:58-65 | toggling keeps the interests free of duplicates |
| OnboardingQuestionnaire.ToggleTwice | frontend/src/features/onboarding/OnboardingQuestionnaire.tsx:58-65 | toggling twice restores the list's contents, and the exact list when the interest was unchecked |
| OnboardingQuestionnaire.CanProceed | frontend/src/features/onboarding/OnboardingQuestionnaire.tsx:285-300 | the gate is closed outside 1..5; step 1 needs a non-blank job title after trimming, step 2 an experience level, step 3 an interest, step 4 a non-blank goal after trimming, step 5 industry and company size |
| OnboardingQuestionnaire.BlankAnswersBlock | frontend/src/features/onboarding/OnboardingQuestionnaire.tsx:287-296 | an all-space job title or goal keeps steps 1 and 4 closed |
| OnboardingQuestionnaire.Questionnaire.constructor | frontend/src/features/onboarding/OnboardingQuestionnaire.tsx:24-36 | step 1, empty form, not loading |
| OnboardingQuestionnaire.Questionnaire.NextStep | frontend/src/features/onboarding/OnboardingQuestionnaire.tsx:67-71 | increments only below 5, so the step stays in 1..5 |
| OnboardingQuestionnaire.Questionnaire.PrevStep | frontend/src/features/onboarding/OnboardingQuestionnaire.tsx:73-77 | decrements only above 1, so the step stays in 1..5 |
| OnboardingQuestionnaire.Questionnaire.ClickNext | frontend/src/features/onboarding/OnboardingQuestionnaire.tsx:350-356 | the Next button advances exactly when the step is below 5 and its gate is open |
| OnboardingQuestionnaire.Questionnaire.SubmitEnabled | frontend/src/features/onboarding/OnboardingQuestionnaire.tsx:358-361 | the Submit button is enabled iff on step 5, with industry and company size chosen, and not loading |
| OnboardingQuestionnaire.Questionnaire.HandleInputChange | frontend/src/features/onboarding/OnboardingQuestionnaire.tsx:54-56 | only the named field changes, the step is kept |
| OnboardingQuestionnaire.Questionnaire.HandleInterestToggle | frontend/src/features/onboarding/OnboardingQuestionnaire.tsx:58-65 | only the interests change, toggled |
| MentorProfileSettings.NameParts | frontend/src/features/dashboard/MentorProfileSettings.tsx:28-29 | first and second space-separated words of the name, '' when missing |
| MentorProfileSettings.NamePartsOfTwoWords | frontend/src/features/dashboard/MentorProfileSettings.tsx:28-29 | "First Last" splits into the two names; one word is a first name with an empty last name |
| MentorProfileSettings.InitialProfile | frontend/src/features/dashboard/MentorProfileSettings.tsx:27-44 | names from the user, empty text fields, currency 'USD', all seven days unavailable 09:00-17:00 |
| MentorProfileSettings.SetField | frontend/src/features/dashboard/MentorProfileSettings.tsx:97-99 | only the named top-level field changes |
| MentorProfileSettings.ChangeSlot | frontend/src/features/dashboard/MentorProfileSettings.tsx:106-109 | only the named field of the day's slot changes |
| MentorProfileSettings.ChangeAvailability | frontend/src/features/dashboard/MentorProfileSettings.tsx:101-112 | only availability[day] changes; all other days and all top-level fields are kept |
| MentorProfileSettings.AvailabilityToggleBack | frontend/src/features/dashboard/MentorProfileSettings.tsx:101-112 | turning an unavailable day on and off again restores the profile |
| MentorProfileSettings.CurrencyCodesDistinct | frontend/src/features/dashboard/MentorProfileSettings.tsx:46-55 | the eight currency codes are distinct |
| MentorProfileSettings.CurrencySymbol | frontend/src/features/dashboard/MentorProfileSettings.tsx:274 | a listed code shows its own symbol, an unlisted one nothing |
| MentorProfileSettings.KnownSymbols | frontend/src/features/dashboard/MentorProfileSettings.tsx:46-55 | USD, EUR and SGD show $, € and S$ |
| MentorProfileSettings.UnknownSymbol | frontend/src/features/dashboard/MentorProfileSettings.tsx:274 | an unlisted code shows no symbol |
| MentorProfileSettings.RatePreview | frontend/src/features/dashboard/MentorProfileSettings.tsx:270-276 | shown iff a rate and a currency are set, as symbol, rate and " per hour" |
| MentorProfileSettings.ProfileSettings.constructor | frontend/src/features/dashboard/MentorProfileSettings.tsx:27-44 | the form starts from the initial profile |
| MentorProfileSettings.ProfileSettings.HandleInputChange | frontend/src/features/dashboard/MentorProfileSettings.tsx:97-99 | the profile becomes SetField of the old one; the grid keeps its seven days |
| MentorProfileSettings.ProfileSettings.HandleAvailabilityChange | frontend/src/features/dashboard/MentorProfileSettings.tsx:101-112 | the profile becomes ChangeAvailability of the old one |
| MentorProfileSettings.ProfileSettings.Save | frontend/src/features/dashboard/MentorProfileSettings.tsx:114-131 | the profile is kept, the success message is shown, loading is over |
| AuthContext.DemoUser | frontend/src/features/auth/contexts/AuthContext.tsx:45-64 | only the two demo emails have accounts: mentor@demo.com is id '1' as mentor, user@demo.com is id '2' as user |
| AuthContext.DemoUsersDistinct | frontend/src/features/auth/contexts/AuthContext.tsx:45-61 | the two demo accounts have different ids |
| AuthContext.AuthProvider.constructor | frontend/src/features/auth/contexts/AuthContext.tsx:29-30 | no user, loading |
| AuthContext.AuthProvider.LoadSession | frontend/src/features/auth/contexts/AuthContext.tsx:33-39 | takes the stored session if there is one, then stops loading |
| AuthContext.AuthProvider.Login | frontend/src/features/auth/contexts/AuthContext.tsx:41-72 | succeeds iff the password is 'password123' and the email is a demo email; success sets and stores that user; failure changes nothing |
| AuthContext.AuthProvider.Logout | frontend/src/features/auth/contexts/AuthContext.tsx:74-77 | user and stored session cleared |
| AuthContext.ReloadAfterLogin | frontend/src/features/auth/contexts/AuthContext.tsx:33-72 | after a successful login, a fresh provider over the same storage is signed in as the same user |
| AuthGuard.RedirectTarget | frontend/src/shared/hooks/useAuthGuard.ts:15 | redirectTo defaults to '/login' |
| AuthGuard.IsAuthenticated | frontend/src/shared/hooks/useAuthGuard.ts:45 | true iff there is a user |
| AuthGuard.RoleIrrelevant | frontend/src/shared/hooks/useAuthGuard.ts:45 | a user is authenticated whatever the role |
| AuthGuard.Guard.constructor | frontend/src/shared/hooks/useAuthGuard.ts:13 | no redirect yet |
| AuthGuard.Guard.Run | frontend/src/shared/hooks/useAuthGuard.ts:17-40 | redirects once to the target exactly when loading is over, there was no earlier redirect and there is no user; otherwise nothing changes, and a role mismatch never redirects |
| AuthGuard.RunTwice | frontend/src/shared/hooks/useAuthGuard.ts:13-40 | two runs never navigate twice, and signed-in users are never sent away |
| Routes.MentorProfileRoute | frontend/src/shared/constants/routes.ts:13 | '/mentor/' followed by the id |
| Routes.BookSessionRoute | frontend/src/shared/constants/routes.ts:14 | '/book/' followed by the id |
| Routes.RouteRoundTrip | frontend/src/shared/constants/routes.ts:13-14 | the id can be read back out of a built path |
| Routes.BuildersMatchPatterns | frontend/src/shared/constants/routes.ts:4-14 | the builders given ':id' produce the MENTOR_PROFILE and BOOK_SESSION patterns |
| Routes.BuildersInjective | frontend/src/shared/constants/routes.ts:13-14 | different ids give different paths |
| Routes.ProfileIsNotBooking | frontend/src/shared/constants/routes.ts:13-14 | a profile path is never a booking path |
| UserModel.Public | backend/src/models/userModel.js:55-57 | the returned columns: id, email, names and role, no hash |
| UserModel.PublicIgnoresHash | backend/src/models/userModel.js:53-64 | rows differing only in their hash look alike to callers |
| UserModel.Coalesce | backend/src/models/userModel.js:71-86 | `COALESCE(given, column)` |
| UserModel.Patched | backend/src/models/userModel.js:67-87 | each given field replaces its column, the others keep theirs; id, email, hash and role never change |
| UserModel.PatchedIdempotent | backend/src/models/userModel.js:67-87 | an empty patch changes nothing, and patching twice is patching once |
| UserModel.UpdateWhere | backend/src/models/userModel.js:67-87 | only rows with that id are patched |
| UserModel.UpdateWhereKeepsKeys | backend/src/models/userModel.js:67-87 | the update keeps ids increasing and emails unique |
| UserModel.UserTable.FindByEmail | backend/src/models/userModel.js:39-50 | the row with that email, or none iff no row has it |
| UserModel.UserTable.FindById | backend/src/models/userModel.js:53-64 | the public columns of the row with that id, or none iff no row has it |
| UserModel.UserTable.GetAllUsers | backend/src/models/userModel.js:90-100 | every row's public columns, newest first |
| UserModel.UserTable.CreateUser | backend/src/models/userModel.js:6-36 | a known email is refused with 'User with this email already exists' and nothing inserted; otherwise one row with the password's hash and role 'user' by default, under a fresh id |
| UserModel.UserTable.UpdateProfile | backend/src/models/userModel.js:67-87 | the row with that id is patched and returned; none for an unknown id |
| UserModel.UserTable.DeleteUser | backend/src/models/userModel.js:103-114 | removes the row and returns its id, or none if it was absent |
| UserModel.CreateThenDuplicate | backend/src/models/userModel.js:6-50 | once a user is created, it is found by email and a second registration with that email fails |
| UserProfileModel.Overwrite | backend/src/models/userProfileModel.js:25-36 | the user's row gets all six answers, omitted ones as NULL, and is marked complete |
| UserProfileModel.ProfileTable.GetByUserId | backend/src/models/userProfileModel.js:59-70 | the user's profile, or none iff the user has none |
| UserProfileModel.ProfileTable.IsOnboardingCompleted | backend/src/models/userProfileModel.js:73-84 | the profile's flag, false without a profile |
| UserProfileModel.ProfileTable.CreateOrUpdateProfile | backend/src/models/userProfileModel.js:5-56 | an existing profile is overwritten in place; otherwise one row is inserted; either way the user has one profile, holding the answers, marked complete |
| UserProfileModel.ProfileTable.DeleteProfile | backend/src/models/userProfileModel.js:87-98 | removes the user's profile and returns its id, or none if there was none |
| UserProfileModel.OverwriteFinds | backend/src/models/userProfileModel.js:17-36 | after the overwrite, the lookup finds the same row with the new answers |
| UserProfileModel.SubmitTwice | backend/src/models/userProfileModel.js:17-51 | completing onboarding twice keeps one profile, holding the second answers; an industry left out the second time becomes NULL |
| OnboardingController.SubmitCheck | backend/src/controllers/onboardingController.js:18-31 | passes iff job title, experience level and goals are truthy and the interests are a non-empty list; a missing field gives the first message, otherwise the interests message |
| OnboardingController.EmptyListIsNoInterests | backend/src/controllers/onboardingController.js:26-31 | an empty list, or interests sent as a string, gets the interests message |
| OnboardingController.AnswersOf | backend/src/controllers/onboardingController.js:34-41 | the answers handed to the model are the body's six fields, the interests as the given list |
| OnboardingController.SubmitOnboarding | backend/src/controllers/onboardingController.js:5-67 | a failed check is 400 with no write; otherwise 200 with the upserted profile, which is the user's profile |
| OnboardingController.OnboardingStatus | backend/src/controllers/onboardingController.js:70-101 | the profile, if any, and the completion flag, false without a profile |
| OnboardingController.OnboardingQuestions | backend/src/controllers/onboardingController.js:104-166 | 5 levels, 14 interests, 12 industries and 6 company sizes; levels and interests without duplicates and equal to the frontend's EXPERIENCE_LEVELS and INTEREST_AREAS (frontend/src/shared/constants/mentors.ts:12-35) |
| OnboardingController.InterestAreasDistinct | backend/src/controllers/onboardingController.js:113-128 | the fourteen interests are distinct |
| BackendUserController.ValidEmailIsPattern | backend/src/controllers/userController.js:19 | the computed email check accepts exactly the strings `^[^\s@]+@[^\s@]+\.[^\s@]+$` matches |
| BackendUserController.EmailAccepted | backend/src/controllers/userController.js:19-25 | "a@b.co" is accepted |
| BackendUserController.EmailsRefused | backend/src/controllers/userController.js:19-25 | "a@b", "@b.co" and "a b@c.d" are refused |
| BackendUserController.RegisterCheck | backend/src/controllers/userController.js:11-33 | checks in the order required fields, email, password length of at least 6 UTF-16 units; passes iff all hold |
| BackendUserController.PasswordLengthInUnits | backend/src/controllers/userController.js:28 | the length is `password.length`: three emoji (six units) pass, three letters are refused |
| BackendUserController.Register | backend/src/controllers/userController.js:6-82 | 400 on a failed check and 409 on a known email, both without a write; otherwise 201 with the new row, role 'user' by default, and a token for it |
| BackendUserController.Login | backend/src/controllers/userController.js:85-145 | 400 without both fields; 200 iff the email is known and the password matches, with the user and a token; every other case the same 401 |
| BackendUserController.LoginFailuresIdentical | backend/src/controllers/userController.js:99-113 | an unknown email and a wrong password get identical answers |
| BackendUserController.GetProfile | backend/src/controllers/userController.js:148-172 | 200 with the token's user, or 404 'User not found' |
| BackendUserController.UpdateProfile | backend/src/controllers/userController.js:175-215 | 400 unless some field is given, with no write; otherwise the COALESCE update, 200 iff the user exists and 404 otherwise |
| BackendUserController.GetAllUsers | backend/src/controllers/userController.js:218-242 | 403 unless the token's role is 'admin'; then every user, newest first |
| BackendUserController.RegisterThenLogin | backend/src/controllers/userController.js:6-145 | a newly registered user can log in with the same password and gets the same user back |
| BackendUserController.RegisteredIsFound | backend/src/models/userModel.js:39-50 | the newest row is found by its email, since emails are unique |
| RootUserController.Strip | src/controllers/userController.js:51 | the answer is the row without password_hash |
| RootUserController.StripIgnoresHash | src/controllers/userController.js:51 | rows differing only in their hash answer alike |
| RootUserController.Initials | src/controllers/userController.js:45 | the first letters of first and last name, two characters when both are given |
| RootUserController.Accounts.FindByEmail | src/models/userModel.js:10-18 | the first row with that email, or none iff no row has it |
| RootUserController.Accounts.FindById | src/models/userModel.js:21-29 | the row with that id, or none iff no row has it |
| RootUserController.Accounts.Create | src/models/userModel.js:32-49 | appends the row under a fresh id |
| RootUserController.Register | src/controllers/userController.js:13-67 | 400 without all five fields, role included, and 400 for a known email, both without a write; otherwise 201 with the row minus its hash and a two-letter avatar of initials |
| RootUserController.Login | src/controllers/userController.js:70-131 | 400 without both fields; 200 iff the email is known and the password matches, with the row minus its hash and a token; every other case the same 401 |
| RootUserController.LoginFailuresIdentical | src/controllers/userController.js:83-98 | an unknown email and a wrong password get identical answers |
| RootUserController.GetProfile | src/controllers/userController.js:134-163 | 200 with the token's user minus its hash, or 404 |
| RootUserController.RegisterThenProfile | src/controllers/userController.js:13-163 | after registering, the profile read with a token for the new user gives the registered user back |
| RootUserController.NewestIsFound | src/models/userModel.js:21-29 | the newest row is found by its id, since ids increase |

## Left out

- The Stripe SDK, `jwt.sign`/`jwt.verify`, bcrypt and `JSON.parse` are parameters with no constraints, and so are `fetch`, `Date.now()` and `Math.random`. No cryptography or network is modelled.
- SQL text, timestamps (`NOW()`, `CURRENT_TIMESTAMP`), the joins in the payment history and the pg pool are not modelled. Database errors (the 500 branches of the controllers) are not modelled either, except for the history page's negative OFFSET/LIMIT.
- `updatePaymentStatus`'s `additionalData` (gatewayStatus, confirmedAt) is not written by the code as shown, so it is not modelled.
- `getPaymentRecord` is `Record`, a plain map lookup.
- The history page's query parameters are integers here; JavaScript string-to-number coercion is not modelled.
- `getPaymentGateways` only wraps `getAllGatewayInfo` in a response and is not modelled separately.
- StripeGateway `createCustomer` and `createPaymentMethod` are not modelled: nothing in the service or controller calls them.
- PayPal `formatAmount`/`unformatAmount` use `toFixed(2)`/`parseFloat`. This is floating-point formatting and is not modelled.
- `PaymentService` as a singleton, and `initializeGateways` reading `process.env`, are replaced by a `Config` constructor parameter.
- The `handlePaymentWebhook`/`handleRefundWebhook` handlers do not exist in the service. Only the classification and the resulting 500 are modelled.
- Timers are not modelled. The carousel's 300 ms unlock is the `EndTransition` method. The carousel's autoplay interval and the search bar's 200 ms blur delay are not modelled. React's effect scheduling is replaced by explicit method calls (`Refilter`, `SyncUrl`, `SyncFilters`, `LoadSession`, `Guard.Run`).
- SearchBarComponent.SearchBar.ClearQuery: the DOM `focus()` call, which refocuses the input, is not modelled; the focus flag is left as it was.
- HeroCarousel: that arrows and indicators are drawn only for more than one slide is the predicate `Carousel.ShowsControls`, with no further contract.
- MentorProfileSettings.ProfileSettings.Save: the one-second simulated call is not modelled. The method states the state after it ends.
- OnboardingQuestionnaire `handleSubmit` posts to the backend with `fetch` and navigates; it is not modelled. The backend side is `OnboardingController.SubmitOnboarding`.
- AuthContext: parsing of the stored JSON is not modelled. The stored session is a parsed `Option<User>`.
- The catalogue's constant arrays in `mockData.ts` and the mentor list in `Mentors.tsx` are parameters, not transcribed. Every property holds for any catalogue.
- Ratings and prices are `real`s, not JavaScript floats.
- `Text.Lower` maps only the ASCII letters A-Z; JavaScript's `toLowerCase` maps every Unicode letter (for example 'Á' to 'á'). Full Unicode case mapping is a large table and is not modelled. The case-insensitive matchers below therefore hold as stated only for text whose letters outside ASCII already agree in case.
- SearchMentors: a mentor whose name, specialty, skill or subcategory differs from the query only in the case of a non-ASCII letter is matched by the source and dropped by the model (ASCII-only `Text.Lower`).
- SearchPrograms: the same ASCII-only case mapping applies to title, description, tags and instructor name.
- SearchEvents: the same ASCII-only case mapping applies to title, description, tags and instructor name.
- FilteredMentors: the mentors page's search match uses the same ASCII-only case mapping.
- FilterSuggestions: the search bar's suggestion match uses the same ASCII-only case mapping; the length bound and order are unaffected.
- Strings are sequences of Unicode code points. `Text.Utf16Length` gives JavaScript's `length` where the source compares one (the password check). `charAt(0)` and `slice(1)` in `RootUserController.Initials`, `SearchPage.RoleLabel` and `Payments.InfoFor` take a whole code point, where JavaScript would take half of a surrogate pair for a character outside the Basic Multilingual Plane.
- Concurrency is not modelled. Each request runs to completion before the next one starts. `UserModel.UserTable.CreateUser` and `UserProfileModel.ProfileTable.CreateOrUpdateProfile` look a row up and then insert. Two concurrent requests could both pass the lookup. The database's unique constraint, which the schema may or may not have, would then decide. The sequential model hides this race.
- The users and user-profile tables are sequences of rows in insertion order, not maps. `findByEmail` and `getAllUsers` depend on row order and a non-key column.
- The root server's `getAllUsers` is a plain select with no guard, and is not modelled. `src/models/userModel.js` is modelled only as far as the root controller calls it.
- `UserModel.verifyPassword` is the `compare` parameter.
- The route and server bootstrap files, the presentational components and the type-only files hold no decisions and are not part of this model.

## Findings

| source | as written | input that shows it | evidently intended | confidence | as-written member | corrected member |
|---|---|---|---|---|---|---|
| src/controllers/paymentController.js:16 | the requester is `req.user.id`, but the middleware sets `req.user` to the decoded token, which carries `userId`, `email`, `role` and no `id` | any signed-in user confirming, checking or refunding their own payment gets 404 | the requester is `req.user.userId` | high, not executed | PaymentController.AsWrittenNeverOwns | PaymentController.RefundCheck |
| src/services/PaymentService.js:141 | stored payments are routed by `paymentRecord.gateway` and `paymentRecord.gateway_payment_id`, but the INSERT fills `payment_method` and `transaction_id` | a PayPal payment, with Stripe as default, is confirmed through Stripe with an undefined id | route by `payment_method`, pass `transaction_id` | high, not executed | Payments.AsWrittenMisroutesPayPal | Payments.GatewayForRowFindsCreator |
| frontend/src/shared/hooks/useSearch.ts:167 | `getFilterOptions` reads `mentors`, `programs` and `events`, which the hook's module neither declares nor imports | opening the search page, which calls it on every render | read the catalogue arrays from the data module | high, not executed | UseSearch.FilterOptionsAsWrittenThrows | UseSearch.GetFilterOptions |
