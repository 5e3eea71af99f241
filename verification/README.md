# llmapis core, modelled in Dafny

The system is an Express/Firebase backend that puts a quota and a billing layer in
front of several LLM and image providers. Users chat with models in stored chat
sessions. Bots, which are reached by API key, wrap a model with a system prompt.
Stripe webhooks set a user's subscription tier, and a middleware refuses model calls
once a user's token count reaches their tier's limit. Admins run an approval workflow
over "approval chats".

This project models the sequential logic inside those handlers. It works over
abstract state: Firestore collections become maps and sequences, a provider stream
becomes a sequence of chunk records, and the tokenizer becomes an uninterpreted
`encodeLen`. There is one module per source file:

- `SubscriptionMiddleware`, `AdminMiddleware`, `BotApiKeyMiddleware`: the three gates.
- `TokenUtils`: the token estimate.
- `LangchainServices`: `getModelInstance`.
- `Dispatch`: the `startsWith` chains of the routes, which test some prefixes with a
  colon and some without.
- `StableDiffusionService`: the image request bodies.
- `ChatRoutes`, `BotRoutes`, `ApiRoutes`, `PaymentRoutes`, `AdminRoutes`, `ModelRoutes`: the
  routes.

Three modules are shared:

- `Common`: JavaScript truthiness, `trim`, `startsWith`, `split(":")[1]`, NaN-absorbing
  numbers and reply shapes.
- `Store`: a class holding the `users` map and the message sub-collections. Its methods
  are the Firestore writes, and `FieldValue.increment` is one atomic step.
- `StreamRelay`: the two `for await` relay loops, as methods proved against fold
  functions.

`TierMapping` connects the payment side with the quota gate. The webhook stores the tier
as "free", "pro" or "premium" in lower case. The limit table spells its tiers "Free",
"Pro" and "Premium". A subscribed user's tier is therefore never found in the table, and
that user is never refused.

Providers, Stripe, Firebase Auth, the image mirror and the environment variables are all
parameters. A provider is a function from the prompt to a `ProviderStream` or an invoke
result. Stripe is the outcome of `constructEvent` plus a `retrieve` function. Firebase
Auth is `createUser`. The image mirror is `mirror`. Each environment variable is an
`Option<string>`.

Where the code and its documentation disagree, the model follows the code:

- Only an "openai" model name gets a client that can `stream` or `invoke`. The gemini
  branches receive a placeholder without those methods. The llama, mixtral and anthropic
  names are refused by `getModelInstance` before any branch can use them. As a result,
  only the "openai:" branch of the chat and bot routes can succeed.
- `/get_images` is not idempotent. Every poll that reports success saves one more message.
- Lowercase plan names are never limited, as described above.

## Model

| member | source | states |
|---|---|---|
| SubscriptionMiddleware.CheckSubscription | middleware/subscriptionMiddleware.js:10-38 | a failed read is 500 and a missing document is 404, each in both directions; with a document, the reply is 403 exactly when the effective count reaches the tier's limit; on pass, only the effective tier and count are copied onto the request user |
| SubscriptionMiddleware.MissingTierIsFree | middleware/subscriptionMiddleware.js:21 | a missing or empty tier admits exactly as "Free" does, i.e. exactly when the count is below 1000 |
| SubscriptionMiddleware.MissingCountIsZero | middleware/subscriptionMiddleware.js:22 | a missing count and a NaN count are both judged as 0 |
| SubscriptionMiddleware.FiniteTiersDenyAtTheLimit | middleware/subscriptionMiddleware.js:4-8 | Free admits exactly below 1000 and Pro exactly below 10000, so a user at the limit is denied |
| SubscriptionMiddleware.PremiumNeverDenied | middleware/subscriptionMiddleware.js:4-8 | Premium is admitted at every count |
| SubscriptionMiddleware.UnmappedTierNeverDenied | middleware/subscriptionMiddleware.js:23-25 | a tier the table does not name, such as "pro", has an undefined limit and is admitted at every count |
| SubscriptionMiddleware.DenialMonotone | middleware/subscriptionMiddleware.js:25 | a user denied at count N is denied at every larger count |
| SubscriptionMiddleware.AdmitsIff | middleware/subscriptionMiddleware.js:23-27 | admission holds iff the tier's limit is finite and the count is below it, or the limit is not finite |
| TokenUtils.CalculateTokensUsed | utils/tokenUtils.js:5-30 | the accumulating loop returns, for an "openai" name, the sum over messages of encodeLen+4, plus 2, plus the response's encodeLen; for a "gemini" name it returns 0; otherwise it throws "Model not supported for token calculation."; the result depends on the model's name alone |
| TokenUtils.MessagesCostAppend | utils/tokenUtils.js:13-15 | appending one message raises the cost by exactly its encodeLen plus 4 |
| TokenUtils.MessagesCostLowerBound | utils/tokenUtils.js:13-15 | the per-message cost is at least 4 per message |
| TokenUtils.OpenAIEstimateLowerBound | utils/tokenUtils.js:13-16 | the openai estimate is at least 4·(number of messages) + 2 |
| LangchainServices.GetModelInstance | services/langchainServices.js:5-17 | an "openai" name, and only such a name, gives an OpenAI client for that name; a "gemini" name otherwise gives the name-only placeholder; any other name throws "Model not supported."; the kwargs are not an input |
| LangchainServices.OtherRoutePrefixesUnsupported | services/langchainServices.js:14-16 | names with the llama:, mixtral, anthropic:, imagegen: or dalle: prefix that the routes dispatch on are refused |
| LangchainServices.OnlyOpenAIHasChatMethods | services/langchainServices.js:6-13 | an instance with stream/invoke is obtained iff the name starts with "openai" |
| Dispatch.ColonMatters | routes/chat.js:166-238 | "mixtral" needs no colon; "openai…"/"gemini…" names without the colon are refused by the chat chain but accepted by the api chain (routes/api.js:69-81) |
| Dispatch.OnlyOpenAIBranchGetsAClient | routes/chat.js:166-259 | of the four chat branches, only "openai:" gets a usable client; "gemini:" gets the placeholder and the llama/mixtral/anthropic names throw |
| Common.TrimEmptyIffBlank | routes/chat.js:147 | `trim() === ''` holds exactly when every character is ECMAScript whitespace |
| Common.TrimIdempotent | routes/bot.js:49 | trimming a stored (trimmed) name changes nothing |
| Common.SecondColonField | routes/chat.js:360 | `split(":")[1]` is undefined exactly when there is no colon, and otherwise contains no colon |
| ChatRoutes.PrepareHistoryIsOrderedFilter | routes/chat.js:138-147 | the prepared history is the {role, content} projections of exactly the entries with non-blank string content, at increasing (timestamp-order) positions |
| ChatRoutes.PromptEmptyIff | routes/chat.js:150-157 | the prompt is empty iff no history entry is usable and the message is blank or missing |
| ChatRoutes.MessageAppendedLast | routes/chat.js:150-152 | a non-blank message is the last entry of the prompt; a blank one adds nothing |
| ChatRoutes.Stream | routes/chat.js:115-288 | an empty prompt is the 500 "No valid content to process."; the reply streams iff the prompt is non-empty, the name starts with "openai:" and the provider stream completes; then it carries the concatenated pieces, the user message and the assistant text are saved and tokenCount grows by the usage total; in every other case nothing is written |
| ChatRoutes.StreamPrompt | routes/chat.js:161-281 | for a prepared prompt, the reply streams iff the name starts with "openai:" and the stream completes, with the same save-only-after-completion rule |
| ChatRoutes.Finish | routes/chat.js:261-286 | a failed relay saves nothing; if nothing was written it replies 500, otherwise headers are already sent and the response is left open; a full relay saves the two messages and increments by the tokens |
| ChatRoutes.Message | routes/chat.js:291-393 | a blank message is 500 "No valid content to process."; nothing is saved to the chat; the reply succeeds iff the message is non-blank, the user exists, and either the name is "openai:" and the invocation yields content and usage, or it is "imagegen:" and the submission succeeds; the chat branch adds total_tokens; imagegen adds 1 image, then 0 tokens; every failure leaves users unchanged |
| ChatRoutes.InvokeChat | routes/chat.js:315-358 | the invoke branches reply iff the provider is openai, the invocation on the single user entry yields content and usage, and the user exists; then `total_tokens` is added |
| ChatRoutes.SubmitImage | routes/chat.js:359-369 | replies iff the submission succeeds and the user exists; a failed submission counts nothing; otherwise the image count and then a zero token increment |
| ChatRoutes.Image | routes/chat.js:397-495 | the reply is Reply iff the name is "imagegen:", the submission succeeds and the user exists; then the image count is incremented and the user message and the job id saved; otherwise nothing changes (the dalle branch fails) |
| ChatRoutes.ListChats | routes/chat.js:551-580 | a failed read is 500, no chats is 404; otherwise every chat in order with `name \|\| 'Untitled Chat'` (as registered, the earlier `GET /:chatId` at line 521 answers this path) |
| ChatRoutes.BucketIntervals | routes/chat.js:625-640 | with ordered day boundaries each bucket is exactly its half-open interval |
| ChatRoutes.BucketsPartition | routes/chat.js:616-641 | every chat lands in exactly one bucket: the bucket sizes add up to the number of chats |
| ChatRoutes.GroupChats | routes/chat.js:584-650 | the push loop returns the bucket-by-bucket filter of the chats in order (a missing createdAt goes to older); 404 on none, 500 on a failed read (as registered, shadowed by `GET /:chatId` at line 521) |
| StreamRelay.RelayStandard | routes/chat.js:166-184 | the loop writes the contents of the chunks before the first one with undefined content, in order; the text is their concatenation; it fails iff such a chunk exists or the stream throws; a full run has written every content and summed every total_tokens |
| StreamRelay.RelayGemini | routes/chat.js:185-216 | the Gemini loop writes only contents that are not undefined, "" or "undefined", and adds only non-zero numeric token counts; it fails iff the stream throws |
| StreamRelay.ConcatAppend | routes/chat.js:172 | concatenation of the written pieces distributes over append |
| StreamRelay.PiecesAppend | routes/chat.js:170-180 | the written pieces of two runs of chunks are the pieces of each, in order |
| StreamRelay.UsageTotalAppend | routes/chat.js:175-177 | the token total of two runs is the JavaScript sum of their totals |
| StreamRelay.ChunkWithoutKwargsSkipped | routes/chat.js:171 | a chunk without kwargs changes neither the text nor the token total |
| StreamRelay.UndefinedUsagePoisonsTotal | routes/chat.js:176 | one undefined total_tokens makes the standard total NaN |
| StreamRelay.LoopsAgreeOnWellFormedStreams | routes/chat.js:166-216 | on chunks with shown content and numeric usage the two loops write the same pieces and the same total |
| StreamRelay.GeminiPiecesFiltered | routes/chat.js:192-209 | no Gemini piece is "" or "undefined" |
| StreamRelay.ReadInvocation | routes/chat.js:318-321 | reading `.kwargs.content` and `.kwargs.usage_metadata.total_tokens` succeeds iff both kwargs and usage are present |
| ApiRoutes.ApiPrompt | routes/api.js:51-61 | every history entry is projected in order, unfiltered, and the message is appended last |
| ApiRoutes.ApiPromptWithoutFilter | routes/api.js:55-61 | on an all-usable history with a non-blank message, the api prompt equals the chat route's prompt |
| ApiRoutes.AllUsableKept | routes/chat.js:147 | the filter keeps every entry of an all-usable history |
| ApiRoutes.ApiChat | routes/api.js:33-142 | the pair is saved iff the name starts with "openai" and `call` answers, or it starts with "gemini" and the Gemini chat answers; an unsupported name is 500 with nothing saved; openai tokens are the estimate over the prompt and the answer, gemini tokens the provider's total_token_count; the pair is committed in one batch before the increment, so a failed increment still leaves the pair saved and replies 500; the reply succeeds iff the pair was saved and the user exists |
| BotRoutes.CreateBot | routes/bot.js:29-64 | valid iff the name is non-blank and the context truthy, with the two 400 messages; the name is stored trimmed, the model defaults to "openai:gpt-3.5-turbo" and kwargs to {}; the new key and the owner are stored |
| BotRoutes.UpdateBot | routes/bot.js:67-104 | the same validation, then 404 for a missing bot; every other bot is kept, as are this bot's key and owner |
| BotRoutes.UpdateAgreesWithCreate | routes/bot.js:72-96 | update accepts exactly what create accepts, with the same errors, and writes create's fields with the old key and owner |
| BotRoutes.UpdateIdempotent | routes/bot.js:90-96 | repeating an update changes nothing more |
| BotRoutes.BotIdGuard | routes/bot.js:223-225 | passes iff the URL id is the authenticated bot's id; otherwise 403 "Bot ID mismatch" (the same guard sits at 254, 298, 370, 467, 652, 875) |
| BotRoutes.CheckMessage | routes/bot.js:491-499 | a message is accepted iff its role is truthy and its content is a string with non-blank trim; a truthy non-string content throws |
| BotRoutes.BotPromptShape | routes/bot.js:487-504 | the prompt is the system entry followed by the request messages, in order |
| BotRoutes.BuildBotPrompt | routes/bot.js:487-504 | the push loop accepts iff every message is accepted, and then returns the prompt; otherwise it returns the verdict of the first failing message (`FirstVerdict`) |
| BotRoutes.FirstVerdictAcceptsAll | routes/bot.js:493-501 | the first failing verdict is Accept exactly when every message passes |
| BotRoutes.FirstVerdictIsFirstFailure | routes/bot.js:493-501 | the first failing verdict is that of the first message that fails the check |
| BotRoutes.BotStream | routes/bot.js:452-637 | an empty or missing array is 400 and a mismatch is 403; when the checks before validation pass and the first failing message is rejected, the reply is 400; the reply streams iff the array is non-empty, the id matches, the owner exists, every message is accepted, the model is "openai:" and the stream completes; then the owner's tokenCount is incremented by the total, each request message saved in order, then the assistant text; otherwise nothing is written |
| BotRoutes.RunBotStream | routes/bot.js:506-629 | after validation, the reply streams iff the model is "openai:" and the stream completes; any failure leaves the response open with nothing written; a full stream is saved as in BotStream |
| BotRoutes.SaveBotStream | routes/bot.js:602-629 | the increment, then each request message in order, then the reply |
| BotRoutes.BotMessage | routes/bot.js:360-450 | blank is 400, mismatch 403, missing owner 500; the reply succeeds iff those checks pass, a model is set, and either it is "openai:" and the invocation with [system, user] yields content and usage, or it is "imagegen:" and the submission succeeds; openai adds total_tokens; imagegen counts one image and replies id \|\| imageUrl; a reply saves the user message and the answer to the bot's messages; a failure writes nothing |
| BotRoutes.AnswerBotMessage | routes/bot.js:389-442 | once the checks have passed, the reply succeeds iff the "openai:" invocation yields content and usage or the "imagegen:" submission succeeds; then the usage update and the saved pair |
| BotRoutes.BotImage | routes/bot.js:639-789 | the reply is Reply iff the checks pass, the name is "imagegen:", and the submission succeeds without status "error"; then one image is counted and the user message and a placeholder carrying the request id are saved; otherwise nothing is written |
| BotRoutes.SubmitBotImage | routes/bot.js:668-708 | a transport error or status "error" aborts before any count or save |
| BotRoutes.GetImages | routes/bot.js:791-865 | no chatId is 400; a non-success reply is passed through unchanged with no write; a success with an output that mirrors replies with the mirrored URL, and only such a reply writes: that URL, as one assistant message; users never change |
| BotRoutes.SelectLanguage | routes/bot.js:973-992 | js/javascript, python, curl and php are matched on the lower-cased name, each in both directions |
| BotRoutes.SelectionIgnoresCase | routes/bot.js:973 | a name and its lower-case form select the same snippet |
| BotRoutes.CodeSnippet | routes/bot.js:867-1000 | 403 on mismatch, 400 on an unknown language, else the selected language |
| BotApiKeyMiddleware.PresentedKey | middleware/botApiKeyMiddleware.js:6-10 | the key is the header, else query apiKey, else query api_key; none truthy means no key |
| BotApiKeyMiddleware.AuthenticateBot | middleware/botApiKeyMiddleware.js:4-36 | no key is 401 "API key missing", a failed query 500, no matching bot 401 "Invalid API key"; otherwise req.bot is the first match's id and stored fields with the presented key |
| BotApiKeyMiddleware.HeaderTakesPrecedence | middleware/botApiKeyMiddleware.js:6 | with a header key the query parameters do not matter |
| BotApiKeyMiddleware.FirstMatchWins | middleware/botApiKeyMiddleware.js:21 | of two bots with the same key, the earlier in query order is chosen |
| AdminMiddleware.AdminCheck | middleware/adminMiddleware.js:4-27 | proceeds iff the document exists and its role is exactly "admin"; 500 on a failed read, 404 on a missing document, 403 otherwise |
| AdminMiddleware.MissingRoleIsUser | middleware/adminMiddleware.js:17-21 | a missing role reads as "user" and is refused with 403 |
| StableDiffusionService.RequestOptions | services/stableDiffusionService.js:7-28 | caller options override defaults key by key; every other default is kept |
| StableDiffusionService.GenerateImageBody | services/stableDiffusionService.js:3-45 | the body holds key, model_id (default "sdxlceshi") and prompt, then the merged options, which win on a clash |
| StableDiffusionService.FixedFieldsNotDefaulted | services/stableDiffusionService.js:7-26 | no default shadows key, model_id or prompt |
| StableDiffusionService.DefaultsWithoutOptions | services/stableDiffusionService.js:3-28 | without options the body has model_id "sdxlceshi", 512×512, one sample and 30 steps |
| StableDiffusionService.OptionsOverrideFixedFields | services/stableDiffusionService.js:40-45 | an option named "prompt" replaces the prompt |
| StableDiffusionService.FetchBody | services/stableDiffusionService.js:63-66 | exactly key and request_id |
| StableDiffusionService.GenerateImage | services/stableDiffusionService.js:28-57 | the reply data on success; an HTTP error comes back as the error, never as a value |
| StableDiffusionService.FetchImg | services/stableDiffusionService.js:59-77 | the same for the poll |
| PaymentRoutes.PlanFor | routes/payment.js:24-29 | a mapped price gives its plan; an unknown or null price gives "free"; a price id naming an Object.prototype member gives no plan name (the update then fails); every plan given is "free", "pro" or "premium" |
| PaymentRoutes.PlanRoundTrip | routes/payment.js:13-27 | planMapping[prices[plan]] == plan, and prices[planMapping[id]] == id |
| PaymentRoutes.UnknownPriceIsFree | routes/payment.js:29 | any other price id that Object.prototype does not define gives "free" |
| PaymentRoutes.StripePricesAreNotInherited | routes/payment.js:24-29 | a price id beginning with "price_" is never an Object.prototype name, so it always gives a plan name |
| PaymentRoutes.InheritedPriceThrows | routes/payment.js:29-38 | a price id such as "constructor" makes the update fail instead of storing a plan |
| PaymentRoutes.UpdateUserSubscription | routes/payment.js:20-41 | succeeds iff the user exists and the price gives a plan name; plan and tier are set to the same mapped name; status and id are stored verbatim; everything else is unchanged |
| PaymentRoutes.Webhook | routes/payment.js:81-173 | a bad signature is 400 before anything else; an unhandled type is acknowledged with no change; a handled event without userId throws before any update; the event is acknowledged iff the signature holds and, for a handled type, the subscription is found, has a userId naming an existing user and (unless it is a deletion) a first item whose price gives a plan; a deletion stores free/canceled/""; the other types use the first item's price |
| PaymentRoutes.DeletionDowngrades | routes/payment.js:133-145 | a deletion leaves the user on "free", "canceled", "" |
| PaymentRoutes.WebhookTiersAreLowercase | routes/payment.js:24-38 | whatever the event, a tier the webhook writes is "free", "pro" or "premium" |
| TierMapping.PlanNamesHaveNoLimit | routes/payment.js:24-29 | no plan name the webhook can store has a limit in the quota table (middleware/subscriptionMiddleware.js:4-8) |
| TierMapping.SubscribedUserNeverDenied | routes/payment.js:33-38 | after a webhook that changed a user's tier, the quota gate admits that user at every count |
| TierMapping.NewUserHeldToFreeLimit | middleware/subscriptionMiddleware.js:21-27 | a user with no tier is held to 1000 tokens |
| TierMapping.CancellationLiftsTheLimit | routes/payment.js:133-145 | a user without a tier at 1000 or more is denied, and the same user after a cancellation ("free") is admitted |
| AdminRoutes.SignupAdmin | routes/admin.js:14-40 | 400 iff email or password is falsy; a createUser failure is 500; on success the stored document has exactly the email and role "admin" |
| AdminRoutes.SignedUpAdminIsAdmitted | routes/admin.js:34 | a new admin account passes the admin gate |
| AdminRoutes.RefusedCallerCreatesAdmin | routes/admin.js:10-14 | as registered, a caller the admin gate refuses with 403 still creates an admin account |
| AdminRoutes.GatedSignupAdmin | routes/admin.js:10-40 | with the admin gate the comment calls for, a refused caller gets the gate's reply and only an admin caller reaches account creation |
| AdminRoutes.CreateApprovalChat | routes/admin.js:97-113 | one new document, status "pending", name defaulting to "Untitled Chat"; the others are unchanged |
| AdminRoutes.SetStatus | routes/admin.js:57-94 | a missing chat gives 404 in both directions; otherwise only that chat's status changes, whatever it was |
| AdminRoutes.DecisionsIdempotent | routes/admin.js:68 | repeating an approval or a disapproval changes nothing more (also line 88) |
| AdminRoutes.LastDecisionWins | routes/admin.js:63-68 | the current status is not checked: the last decision overrides any earlier one (also lines 83-88) |
| AdminRoutes.PendingChats | routes/admin.js:42-54 | every entry is a pending document of the collection, and every pending document is listed |
| AdminRoutes.PendingChatsIsOrderedFilter | routes/admin.js:42-54 | the list is exactly the pending documents in query order, each once: entries sit at increasing positions, and a position is listed iff its document is pending |
| AdminRoutes.Analytics | routes/admin.js:116-135 | each count equals the number of documents with exactly that status |
| AdminRoutes.CountsBounded | routes/admin.js:121-129 | the three counts sum to at most the number of documents |
| AdminRoutes.OtherStatusesIgnored | routes/admin.js:124-128 | a document with any other status changes no count |
| AdminRoutes.AnalyticsKeysAsWritten | routes/admin.js:121-129 | as written, the reply's keys are the three counters plus every Object.prototype name used as a status |
| AdminRoutes.InheritedStatusAddsKey | routes/admin.js:126-127 | a chat with status "toString" adds a fourth key to the reply |
| ModelRoutes.GetModels | routes/model.js:16-61 | a falsy model_type is 400 "Model type not specified." (both directions); "chat" gives the chat catalog and "image" the image catalog, unchanged; any other value is 400 "Invalid model type." (both directions) |
| ModelRoutes.TierIgnored | routes/model.js:27-54 | every tier gets the same reply: the pro filtering is commented out |
| Store.Store.AddPair | routes/chat.js:261-275 | two successive writes append exactly those two messages to one thread and change nothing else |
| Store.Store.AddEach | routes/bot.js:616-622 | the save loop appends the messages in order |
| Store.Store.IncrementTokens | routes/chat.js:279-281 | `increment` of tokenCount on an existing document; a missing document fails and is not created |
| Store.IncrementAllClosedForm | routes/chat.js:280 | successive increments add the sum of their operands, or give NaN once any operand is NaN |
| Store.MissingCounterStartsAtZero | routes/chat.js:280 | a missing counter behaves as 0 once it is incremented |
| Store.IncrementOrderIrrelevant | routes/chat.js:280 | the increments of two requests in either order leave the same counter: no update is lost |

## Left out

- Firestore, Firebase Storage and Auth are abstract maps and sequences. Server timestamps are positions in a sequence, and `createdAt` is an integer compared against precomputed day boundaries (`new Date`/`setDate` are not modelled). Interleavings of concurrent requests are not modelled beyond `Store.IncrementOrderIrrelevant`. Firestore's rejection of `undefined` field values is not modelled: such a field is stored as missing.
- Provider SDKs (LangChain, OpenAI, Gemini) and the tiktoken encoder are parameters: a stream is a finite sequence of chunk records, and `encodeLen` is uninterpreted. `ApiRoutes.ApiChat`: `call` stands for the response text of `model.call`. The Gemini SDK session of routes/api.js is a parameter, because the module it imports is not part of this model.
- `StreamRelay.TokenValue`: a `total_tokens` value that is a string is not modelled; only numbers, null and undefined are.
- `BotRoutes.BotStream`: after a failure the `catch` passes an object to `res.write`, which throws. The model leaves the response open. This is the code's behaviour and is not treated as an intended error reply.
- The `dalle:` branches call an image function the image service does not define, so they always fail. The `/image/:chatId` dalle branch also references undefined variables. Neither branch is modelled as working.
- Image download, upload and public-URL creation in `/get_images` are the parameter `mirror`.
- `ChatRoutes.Finish`, `BotRoutes.GetImages`: the text of a provider or HTTP error is a fixed placeholder, and `JSON.stringify` of error details is not modelled.
- `ChatRoutes.Message`, `ChatRoutes.Stream`: request bodies are strings or missing; non-string `message` values are not modelled.
- Stripe API calls and signature verification are the `constructEvent` outcome and a `retrieve` function. The `/create-checkout-session` route (routes/payment.js:51-77) is not modelled: it only passes `prices[plan]` and the user id to Stripe.
- Bot avatar upload and delete, bot deletion, bot chat listing and creation, the embed and widget templates, and the text of the code snippets are not modelled: they are storage and HTML glue. So are the chat create, rename, delete and message-listing handlers of routes/chat.js.
- routes/auth.js, middleware/authMiddleware.js, middleware/apiKeyMiddleware.js, middleware/logger.js, app.js and services/apiKeyGenerator.js are not part of this model. They are thin wrappers over Firebase token checks, wiring and uuid generation; `req.user.uid` and the fresh API key are inputs.
- The model catalogs of data/modelList.js are a type parameter of `ModelRoutes.GetModels`; their contents are not modelled.
- `ChatRoutes.ListChats`, `ChatRoutes.GroupChats`: Express routing is not modelled. As registered, `GET /:chatId` (routes/chat.js:521) comes before `/chats` and `/chats-grouped` and matches both paths, so neither handler is reached. The model states what each handler would do.
- `PaymentRoutes.PlanFor`: for the price id `__proto__`, `planMapping` gives the prototype object, which Firestore may store as an empty map rather than refuse. The model treats it like the other inherited names, as a failed update.
- The base URLs and headers of the image provider requests are not modelled; only the bodies are.

## Findings

| source | as written | input that shows it | evidently intended | confidence | as-written member | corrected member |
|---|---|---|---|---|---|---|
| routes/admin.js:10-14 | the comment says the route is for existing admins, but it is registered without `authMiddleware` or `adminMiddleware`, so anyone can create an admin account | a request from a caller whose role is "user" | put the route behind the admin gate | not executed | AdminRoutes.RefusedCallerCreatesAdmin | AdminRoutes.GatedSignupAdmin |
| routes/admin.js:126-127 | `if (statusCounts[status] !== undefined) statusCounts[status]++` also finds names inherited from Object.prototype, so such a status adds a key holding NaN to the reply | one approval chat with status "toString" | count only pending, approved and disapproved, and return exactly those three keys | not executed | AdminRoutes.InheritedStatusAddsKey | AdminRoutes.Analytics |
