# Fake Chat Generator: billing entitlements and client state, in Dafny

This project models the parts of the Fake Chat Generator that carry logic rather than layout.

- **Server (`server/index.js`).** The Clerk `user.created` webhook links every new user to a new Stripe customer. The Stripe webhook turns a completed checkout into `plan: 'pro'` on the user. It also turns a subscription update or deletion into the `plan` the subscription's status maps to. The checkout endpoint chooses between the linked customer and the e-mail. The billing-portal endpoint refuses users without a linked customer.
- **Repair script (`server/fix_user.js`).** It re-derives `pro` for one fixed user from the subscriptions of that user's customer. It only ever promotes.
- **Client.**
  - The subscription context computes `isPro` and keeps the free tier's daily quota of five exports in local storage.
  - The export button runs its gating chain.
  - The message editor appends, deletes and live-edits messages. It keeps a snapshot that Cancel puts back, and it derives the draft.
  - The chat preview groups bubbles into runs of the same side, appends the draft, shows the watermark, and picks the container background.

The two providers are state. The class `Providers.Providers` holds the Clerk user records, the Stripe customers, and a log of every call in order. Each SDK call is a method that takes `fails`. Each server handler takes `faults`, the set of positions of the calls in this request that reject (0 is the first call). A webhook's signature check is an oracle value `Delivery`: the verified event, or the verifier's message.

The webhook compares a subscription's status with the literal `'trialling'` (`server/index.js:133`). Stripe spells that status `'trialing'`, which is the spelling the repair script tests (`server/fix_user.js:28`). The model keeps both literals as written. `Server.StripeStatusesResolve` and `Repair.TrialingDivergence` state the consequence: a trialing subscription resolves to `free` in the webhook but to `pro` in the repair script.

Modules, one per source file:
- `Common`: options, results, JSON values, JavaScript truthiness and white space.
- `Decimal`: JavaScript's `parseInt`, with radix 10 and with no radix (where a `0x` prefix selects hexadecimal), and integer `toString`.
- `Providers`: the provider stores.
- `Server`: `server/index.js`.
- `Repair`: `server/fix_user.js`.
- `Usage`: `src/context/SubscriptionContext.jsx`.
- `Landing`: `handleExport` and the remaining-exports expression of `src/pages/LandingPage.jsx`.
- `Editor`: `src/components/EditorPanel.jsx`.
- `Preview`: `src/components/ChatPreview.jsx`.

## Model

| member | source | states |
|---|---|---|
| Decimal.IntToString | src/context/SubscriptionContext.jsx:47 | `newCount.toString()` is a non-empty string that starts with a minus sign or a digit |
| Decimal.ParseInt | src/context/SubscriptionContext.jsx:29 | `parseInt(s, 10)` is NaN exactly when no decimal digit follows the leading white space and the optional sign |
| Decimal.NatToStringValue | src/context/SubscriptionContext.jsx:47 | the decimal digits of a natural number have that number as their value |
| Decimal.ParseIntRoundTrip | src/context/SubscriptionContext.jsx:29 | a count stored with `toString` (line 47) parses back to the same integer |
| Decimal.ParseIntNoRadix | src/pages/LandingPage.jsx:261 | `parseInt(s)` with no radix: without a `0x`/`0X` prefix after the white space and sign it agrees with `parseInt(s, 10)`; with the prefix it is NaN exactly when no hexadecimal digit follows |
| Decimal.ParseIntNoRadixRoundTrip | src/pages/LandingPage.jsx:261 | a count written with `toString` is read back unchanged by the radix-less `parseInt` |
| Decimal.HexPrefixReadsAsHex | src/pages/LandingPage.jsx:261 | every `0x` literal with at least one hex digit reads as its hexadecimal value with no radix, but as 0 with radix 10 (as `src/context/SubscriptionContext.jsx:29` reads it) |
| Decimal.HexThreeReadsAsThree | src/pages/LandingPage.jsx:261 | the instance "0x3": 3 with no radix, 0 with radix 10 |
| Providers.Merge | server/index.js:57-61 | a Clerk metadata update keeps every key, takes the patch's value for each patched key, and leaves every unpatched key as it was |
| Providers.MergeIdempotent | server/index.js:138-142 | applying the same metadata patch twice leaves what applying it once leaves |
| Providers.WithUserPatch | server/index.js:113-118 | a user update changes only the named user, and that user's metadata becomes the merge; an unknown id changes nothing |
| Providers.WithCustomerPatch | server/index.js:105 | a customer update changes only the named customer's metadata, by merge; an unknown id changes nothing |
| Providers.Providers.GetUser | server/index.js:184 | `users.getUser` logs one read and returns the stored record, or rejects for an unknown user or a failed call |
| Providers.Providers.UpdateUserMetadata | server/index.js:57-61 | `updateUserMetadata` logs one write and succeeds exactly when the call does not fail and the user exists; then the user store becomes the merge |
| Providers.Providers.CreateCustomer | server/index.js:47-52 | `customers.create` logs one creation; on success a customer with that e-mail, that metadata and no subscriptions exists under the allocated id |
| Providers.Providers.RetrieveCustomer | server/index.js:147 | `customers.retrieve` logs one read and returns the stored customer, or rejects |
| Providers.Providers.UpdateCustomerMetadata | server/index.js:105 | `customers.update` logs one write; on success the customer store becomes the merge |
| Providers.Providers.CreateCheckoutSession | server/index.js:221 | `checkout.sessions.create` logs the configuration it was sent and answers the hosted URL, or rejects |
| Providers.Providers.CreatePortalSession | server/index.js:244-247 | `billingPortal.sessions.create` logs the customer and return URL and answers the portal URL, or rejects |
| Server.PlanForStatus | server/index.js:133 | the plan is pro exactly when the status is 'active' or the literal 'trialling' |
| Server.PlanForStatusFailsSafe | server/index.js:133 | a status grants pro exactly when it is 'active' or the literal 'trialling'; every other status gives free |
| Server.StripeStatusesResolve | server/index.js:133 | over Stripe's status names only 'active' grants pro: 'trialing', 'past_due', 'canceled', 'unpaid', 'incomplete', 'incomplete_expired' and 'paused' give free |
| Server.SubscriptionPatch | server/index.js:133-142 | a subscription event writes the `plan` key and no other, with value 'pro' exactly when the status is 'active' or 'trialling', and 'free' otherwise |
| Server.FirstTruthy | server/index.js:92 | the chain of JavaScript `or` operators yields a value exactly when some candidate is truthy, and then the first truthy candidate in order |
| Server.CheckoutUserId | server/index.js:92 | the checkout's user is `client_reference_id` if truthy, else `subscription_data.metadata.clerkId` if truthy, else `metadata.clerkId` if truthy, else none |
| Server.GrantPatch | server/index.js:113-118 | a completed checkout writes exactly `plan = 'pro'` and `stripeCustomerId` = the session's customer, or null when it has none |
| Server.HandleClerkWebhook | server/index.js:19-73 | a failed signature answers 400 and calls nothing. Other event types answer success and write nothing. `user.created` without an e-mail gets no answer. Otherwise it creates one customer tagged `clerkId` = the user id, then links its id onto the user. A failure of either call answers 500, and a failed creation is followed by no link |
| Server.ReplayUserCreated | server/index.js:39-67 | a duplicate `user.created` delivery creates a second tagged customer and relinks the user to it; both customers stay tagged with the user |
| Server.HandleStripeWebhook | server/index.js:76-169 | a failed signature answers 400 and calls nothing; unhandled types answer `{received: true}` and call nothing. A completed checkout with no user writes nothing. With a user it first backfills the customer's `clerkId` best-effort, only for a truthy customer id, then writes the grant patch whether or not the backfill failed, and answers `{received: true}` even when provisioning failed. Subscription events have the effect `StatusApplied` states, the same one `ApplySubscriptionStatus` promises |
| Server.ApplySubscriptionStatus | server/index.js:128-163 | has the effect `StatusApplied` states: it writes only `plan`, as the status maps. The user is the subscription's `clerkId` when truthy, and a rejected write then leaves the request unanswered. Otherwise it reads the customer and writes to the customer's `clerkId`, and writes nothing when that is missing or the read fails. It never changes a customer |
| Server.ReplaySubscriptionEvent | server/index.js:128-143 | processing the same subscription event twice gives the same answer and the same user store as processing it once |
| Server.SubscriptionOwner | server/index.js:131-148 | the owner is the subscription's own truthy `clerkId`; failing that, the truthy `clerkId` of its customer when the customer exists; otherwise nobody. An owner is never an empty id |
| Server.SubscriptionOwnerPatchIdempotent | server/index.js:137-153 | writing a subscription's plan patch to its owner twice equals writing it once |
| Server.LineItems | server/index.js:194-204 | the session has exactly one line item of quantity 1: the configured price id when it is set, otherwise an inline price of 699 in `usd`, recurring monthly, named "Fake Chat Generator Pro" |
| Server.LinkedCustomer | server/index.js:185 | a user has a linked customer exactly when its `stripeCustomerId` is a non-empty string, and the link is that string |
| Server.CreateCheckoutSession | server/index.js:175-228 | a missing `clerkUserId` answers 400 without any call; a failed user read answers 500. Otherwise the configuration names the linked customer when there is one, else the request's e-mail, never both. It carries the fixed mode, card payment, line items, user id twice, and the success and cancel URLs. Writes neither store |
| Server.CreatePortalSession | server/index.js:231-254 | a missing id or failed user read answers 500; a user without a linked customer answers 400 and opens no session; otherwise a portal session for the linked customer returning to `/pricing` |
| Repair.FindLiveSubscription | server/fix_user.js:28 | finds a subscription exactly when one is 'active' or 'trialing', and then the first such in list order |
| Repair.RepairPatch | server/fix_user.js:34-39 | the repair writes `plan = 'pro'` and the customer id it read, nothing else |
| Repair.Fix | server/fix_user.js:10-50 | a failed or unknown user read, a user without a linked customer, a failed customer read, or no live subscription each stop the run with no write. Otherwise the only write promotes the user, keeping its link. A failed write leaves the store unchanged. No run ever writes 'free' |
| Repair.RepairWriteOnlyPromotes | server/fix_user.js:34-39 | on a user already linked to the customer, the repair write sets `plan` to 'pro' and changes no other key |
| Repair.TrialingDivergence | server/fix_user.js:28 | a 'trialing' subscription is live for the repair script but maps to free in the webhook (`server/index.js:133`) |
| Usage.IsPro | src/context/SubscriptionContext.jsx:14 | pro exactly when auth is loaded, a user is signed in, and its `publicMetadata.plan` is exactly 'pro' |
| Usage.DateKeyIsNotCountKey | src/context/SubscriptionContext.jsx:28-29 | the date key and the count key never collide, whatever the user ids |
| Usage.StoredCount | src/context/SubscriptionContext.jsx:29 | a missing or empty stored count reads as 0; a present one is NaN exactly when it does not parse, and otherwise is the parsed integer |
| Usage.StoredCountReadsBack | src/context/SubscriptionContext.jsx:29 | a count written with `toString` (line 47) is read back as that count |
| Usage.SameDayReloadAdoptsCount | src/context/SubscriptionContext.jsx:28-32 | after a credit is written, a reload on the same day finds today's date and adopts the written count |
| Usage.CreditSurvivesReload | src/context/SubscriptionContext.jsx:24-53 | mount, one press and a same-day reload: the reloaded counter equals the counter the press left; a granted press leaves at most 5, a refused one leaves NaN or at least 5 |
| Usage.IncrementStep | src/context/SubscriptionContext.jsx:40-53 | the answer is yes exactly for pro or a count under 5; the count changes exactly for a free user under the cap, and then by +1 |
| Usage.QuotaIsCapped | src/context/SubscriptionContext.jsx:43-44 | over any number of calls by a free user the count stays a number, never exceeds max(initial count, 5), and rises by exactly the credits granted, at most 5 - initial count |
| Usage.QuotaGrantsWhatIsLeft | src/context/SubscriptionContext.jsx:43-50 | from a count between 0 and 5, k calls grant min(k, 5 - count) credits; a fresh day grants five |
| Usage.NoCreditLeftRefusesAll | src/context/SubscriptionContext.jsx:43-52 | at or past the cap every call is refused and the count does not move |
| Usage.NaNCountRefusesAll | src/context/SubscriptionContext.jsx:43 | a NaN count refuses every call and stays NaN |
| Usage.UsageWritten | src/context/SubscriptionContext.jsx:46-49 | a granted credit stores the new count and today's date under the user's keys and changes no other key |
| Usage.SubscriptionState.constructor | src/context/SubscriptionContext.jsx:19 | the count starts at 0 over the existing storage |
| Usage.SubscriptionState.Rollover | src/context/SubscriptionContext.jsx:24-38 | nothing when signed out. The stored count is adopted when the stored date is today. Otherwise the count becomes 0 and storage gets today's date and '0' |
| Usage.SubscriptionState.IncrementUsage | src/context/SubscriptionContext.jsx:40-53 | answer and new count as `IncrementStep`; storage changes only for a granted credit of a free user with a truthy id, and then as `UsageWritten` |
| Landing.ScaleFor | src/pages/LandingPage.jsx:83 | the scale is 3 exactly for 'hd', otherwise 1.5 |
| Landing.KindFor | src/pages/LandingPage.jsx:87-91 | only 'png' and 'jpg' select an image export, 'png' a PNG |
| Landing.ExportDecision | src/pages/LandingPage.jsx:63-94 | not loaded: ignored. Signed out: sign-in, no credit spent. Refused quota: pricing. A free HD request is sent to pricing after its credit was spent. An export is scheduled only for a signed-in user who is pro or has a credit left and asked for standard, and an HD export only for pro |
| Landing.HandleExport | src/pages/LandingPage.jsx:63-94 | action and new count as `ExportDecision`; storage changes only when a free user's credit was spent and the id is known |
| Landing.ParsedOrZero | src/pages/LandingPage.jsx:261 | `parseInt(x) \|\| 0`, with no radix (a `0x` prefix reads as hexadecimal), is the parsed integer when there is one, else 0 |
| Landing.RemainingExports | src/pages/LandingPage.jsx:261 | remaining = 5 minus the user's stored count when that is set; otherwise 5 minus the legacy `dailyCount` key's count; 5 when neither key holds a value |
| Landing.RemainingReadsHexCount | src/pages/LandingPage.jsx:261 | for every stored count written as a `0x` literal, the counter reads 0 on a same-day reload (`src/context/SubscriptionContext.jsx:29`), while the page subtracts the hexadecimal value from 5 |
| Landing.RemainingShowsHexThree | src/pages/LandingPage.jsx:261 | a stored count of "0x3" shows 2 exports left |
| Landing.RemainingAfterCredit | src/pages/LandingPage.jsx:394 | after a credit is stored with count n, the page shows 5 - n exports left |
| Landing.RemainingAfterRollover | src/pages/LandingPage.jsx:394 | after a day rollover the page shows 5 exports left |
| Landing.RemainingTracksCounter | src/pages/LandingPage.jsx:394 | after a free user's granted press the figure shown is 5 minus the counter's new value |
| Editor.DraftPreviewsAdd | src/components/EditorPanel.jsx:40-57 | there is a draft exactly when text or image is not blank; it has id 'draft' and is, apart from its id, the message Add would append |
| Editor.ApplyEdit | src/components/EditorPanel.jsx:88 | a field update keeps the message's id |
| Editor.EditChangesOneField | src/components/EditorPanel.jsx:88 | a field update changes its own field and leaves every other field as it was |
| Editor.LiveUpdated | src/components/EditorPanel.jsx:85-92 | same length and ids; only messages with the edited id change, and by that one field |
| Editor.LiveUpdatedAllSnoc | src/components/EditorPanel.jsx:85-92 | a run of live updates followed by one more is that update applied to the run's result |
| Editor.LiveUpdatesKeepOthers | src/components/EditorPanel.jsx:85-92 | any run of live updates keeps the length and ids and leaves every other message untouched |
| Editor.Restored | src/components/EditorPanel.jsx:105-111 | Cancel puts the snapshot in place of each message with the edited id and leaves the others |
| Editor.CancelRestoresOriginal | src/components/EditorPanel.jsx:105-111 | edit, any live updates, Cancel: the list is exactly the original, given unique ids |
| Editor.WithoutId | src/components/EditorPanel.jsx:119 | a message survives delete exactly when it was present and has another id |
| Editor.WithoutIdOverConcat | src/components/EditorPanel.jsx:119 | delete distributes over concatenation, so survivors keep their order |
| Editor.WithoutAbsentId | src/components/EditorPanel.jsx:119 | deleting an id no message has leaves the list as it was |
| Editor.EditorPanel.constructor | src/components/EditorPanel.jsx:29-37 | the form starts at its defaults with no edit in progress |
| Editor.EditorPanel.ResetForm | src/components/EditorPanel.jsx:123-132 | empty text, image and time, receiver side, status 'read', no edit id, no snapshot, no draft; the list is unchanged |
| Editor.EditorPanel.AddMessage | src/components/EditorPanel.jsx:59-72 | a blank form changes nothing; otherwise exactly one message built from the form is appended after the unchanged list and the form is reset |
| Editor.EditorPanel.EditMessage | src/components/EditorPanel.jsx:74-83 | enters edit mode on the message with a copy as snapshot, loads its fields into the form and clears the draft |
| Editor.EditorPanel.UpdateLiveMessage | src/components/EditorPanel.jsx:85-92 | the list becomes the live update for the edited id |
| Editor.EditorPanel.InputChange | src/components/EditorPanel.jsx:95-103 | sets the named form field; the list changes, by the live update, only while an edit id is truthy |
| Editor.EditorPanel.ChooseSender | src/components/EditorPanel.jsx:195-208 | sets the side; while editing, the edited message's side changes live |
| Editor.EditorPanel.ChooseStatus | src/components/EditorPanel.jsx:229-233 | sets the status; while editing, the edited message's status changes live |
| Editor.EditorPanel.CancelEdit | src/components/EditorPanel.jsx:105-111 | the snapshot replaces the edited message and the form is reset |
| Editor.EditorPanel.DoneEditing | src/components/EditorPanel.jsx:113-116 | the live edits stay and the form is reset |
| Editor.EditorPanel.DeleteMessage | src/components/EditorPanel.jsx:118-121 | the list loses every message with the id; the edit state is cleared exactly when that message was being edited |
| Editor.EditorPanel.RefreshDraft | src/components/EditorPanel.jsx:40-57 | while editing the draft is left alone; otherwise it becomes the form's draft, none for a blank form |
| Editor.EditorPanel.EditThenCancel | src/components/EditorPanel.jsx:74-111 | edit a message, make any sequence of live changes through the inputs, cancel: the list is back to what it was |
| Preview.Bubbles | src/components/ChatPreview.jsx:168-183 | one bubble per message in order; a bubble is first exactly when it is at index 0 or its predecessor is on the other side, last exactly when it is the final one or its successor is on the other side |
| Preview.PreviewBubbles | src/components/ChatPreview.jsx:168-194 | the message bubbles, then a present draft as the last bubble, both first and last |
| Preview.FirstsAreRunStarts | src/components/ChatPreview.jsx:172 | among the first k bubbles the first-of-run marks number one more than the side changes |
| Preview.LastsCountChanges | src/components/ChatPreview.jsx:173 | before index k the last-of-run marks number the side changes up to k |
| Preview.RunsHaveOneFirstAndOneLast | src/components/ChatPreview.jsx:168-173 | first marks and last marks each number exactly the maximal same-side runs |
| Preview.LastThenFirst | src/components/ChatPreview.jsx:172-173 | a bubble ends its run exactly when the next one starts a run |
| Preview.ShowsWatermark | src/components/ChatPreview.jsx:83-89 | the watermark shows exactly when the context does not say pro, a missing context (line 17) counting as not pro |
| Preview.ContainerStyleFor | src/components/ChatPreview.jsx:19-37 | an unknown theme gets background '#fff' and no image; only WhatsApp sets a background image, the custom one when given |

## Left out

- The Clerk and Stripe SDKs and the network are the `Providers` stores plus a `fails` flag per call. Timeouts, retries and the SDK's own error texts are not modelled, and an error answer carries `ProviderError` in place of `e.message`.
- Clerk's `updateUserMetadata` is assumed to merge `publicMetadata` key by key (`Providers.Merge`). That is library behaviour the source does not show.
- Providers.Providers.CreateCustomer: requires the customer id Stripe allocates to be fresh. Stripe guarantees this; it is not something the server checks.
- Signature checking (`svix` `Webhook.verify`, `stripe.webhooks.constructEvent`) is the `Delivery` oracle; the cryptography is not modelled.
- Express routing, CORS, body parsing, dotenv, `app.listen` and every `console` log are not modelled.
- Concurrent or reordered webhook deliveries are not modelled. Each handler runs alone, one event at a time. Stripe's redelivery after an unanswered request is not modelled either.
- An uncaught rejection is a request that gets no answer (`NoReply`). This covers the direct plan update at `server/index.js:138` and the missing e-mail at `server/index.js:40`. This is Express 4's behaviour, which the model assumes: the files here do not show the Express version, and Express 5 would answer 500 instead. What Node does with the process afterwards is not modelled.
- Repair.Fix: treats the customer's listed subscriptions as all of them. Stripe's list is paginated, and only its first page reaches the script.
- Server.FirstTruthy: returns none where JavaScript's `a || b || c` yields its last falsy operand. Only the value's truthiness is read afterwards.
- Clocks and timers are parameters:
  - `Date.now()` message ids are `now`.
  - `toLocaleTimeString` is `clock`.
  - `toDateString` is `today`.
  - The 100 ms `setTimeout` of an export is the `ExportScheduled` action.
- The export itself is not modelled: `src/utils/exportUtils.js` (canvas rasterisation, JPEG quality, PDF) and its file names.
- Landing.HandleExport: takes `format` and `quality` as explicit arguments. The defaults 'png' and 'standard' are not modelled.
- React's asynchronous, batched state updates are modelled as immediate sequential writes. In particular, `incrementUsage` reads the count of the current render, and two presses within one render are not modelled.
- `src/components/MessageBubble.jsx`, `src/pages/PricingPage.jsx` and `src/App.jsx` are not part of this model. They are presentation, a fetch-and-redirect, and routing.
- The rest of `src/pages/LandingPage.jsx` is not modelled: JSX, animations, the FAQ toggle and the payment-success reload effect.
- `getHeaderStyle` in `src/components/ChatPreview.jsx` is not modelled. It is presentation only and answers nothing for an unknown theme.
- Preview.ContainerStyleFor: represents `backgroundSize: 'cover'` and `backgroundPosition: 'center'` as one flag.
- Messages keep their image as a string, with a missing image as "", which is what `msg.image || ''` (`src/components/EditorPanel.jsx:78`) reads it as.
- Decimal.ParseIntRoundTrip: integers are unbounded, while JavaScript counts are doubles. Past 2^53 they lose precision, and from 10^21 on `toString` writes exponent form ("1e+21"), which `parseInt` reads back as 1. The round trip and the lemmas built on it hold only for integers, not for that range. `incrementUsage` (`src/context/SubscriptionContext.jsx:44`) only reaches such counts from a stored count that large.
- JSON values in metadata are only strings and null. No other JSON value can equal 'pro', so the plan checks lose nothing. The server code only writes strings to `stripeCustomerId`. A truthy non-string value placed there by other means would still be taken as a link by `server/index.js:215`, `server/index.js:239` and `server/fix_user.js:18`; the model does not capture that case.
- `OtherClerkEvent` and `OtherStripeEvent` stand for every event type the handlers do not act on. The handlers require (`WellTaggedClerk`, `WellTaggedStripe`) that they never carry a handled type string.
