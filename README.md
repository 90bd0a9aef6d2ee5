# drape — a verified model of the try-on service core

This project models, in Dafny, the server and client core of drape, a virtual
try-on service. Users upload a photo of themselves and one of a garment. An
external generator (Pixazo) produces the composite image. Free users get two
try-ons; premium subscribers get 100 a day. Stripe webhooks drive the
subscription. An admin console grants credits, bans users, moderates jobs,
edits system settings and exports CSV reports.

The modules follow the source files:

| module | models |
|---|---|
| `Records` | the database tables (users, try-ons, payments, usage events, settings, admin logs) as a class whose fields are maps and sequences, with one small mutator per write |
| `Quota` | `lib/quota.ts`: the quota check with its lazy writes, the decrement, the read-only view |
| `RateLimit` | the in-memory fallback of `lib/rate-limit.ts` as a class over its cache map |
| `Storage` | `lib/supabase/storage.ts`: object paths, public URLs, and deletion by URL |
| `Pixazo` | `lib/ai/pixazo-vton.ts`: task creation, the 60-attempt poll loop, error wrapping |
| `TryOnRoute` | `app/api/tryon/route.ts`: the guard chain, job creation, and the detached background task |
| `StripeWebhook` | `app/api/webhook/stripe/route.ts`: the five event handlers |
| `AdminCredits`, `AdminBan`, `AdminUnban`, `AdminModerationDelete`, `AdminSettings` | the admin API routes, each with its admin-log entry |
| `SettingsPage` | `app/admin/settings/page.tsx`: default-setting initialisation, value decoding and display fallbacks |
| `UseTryOn` | `hooks/useTryOn.ts`: the client hook with its state cells and its one-second poll |
| `UsersTable`, `ModerationContent` | the client-side filters of the two admin tables |
| `AdminLogsExport`, `FinancialExport` | the two CSV export routes |
| `UserRoute` | `app/api/user/route.ts`: GET with first-visit creation, and PATCH |
| `Base`, `Text`, `Json`, `Lists` | shared helpers: options and results, JavaScript string operations, `JSON.stringify`/`JSON.parse` on the values used, and `Array.filter` |

Conventions:

- Time is an integer count of milliseconds (`Date.now()`).
- Money is an integer count of cents.
- Anything the code gets from outside is a parameter. That covers the clock, the network, the storage service, Stripe, the random name parts and the ids the database assigns. For these external calls, the parameter is the outcome the call produces: a response, an error, or a returned value.
- Every method that writes the database is proved against a specification function of the state before the call, and the lemmas state the source's promises about those functions.

## Model

| member | source | states |
|---|---|---|
| Quota.AfterCheck | lib/quota.ts:11-62 | The row the check leaves behind. A banned or non-premium row is untouched. A premium row whose period has ended is downgraded to FREE with both counters cleared. A live premium row keeps its plan and free counter. |
| Quota.CheckAnswer | lib/quota.ts:11-92 | The verdict for each branch. Banned: refused, 0 remaining, with the ban reason. Expired premium: allowed, 2 remaining, FREE, "subscription expired". Live premium: unlimited. Free: the remaining count is 2 minus the used count. |
| Quota.CheckQuota | lib/quota.ts:11-93 | A missing user gives "User not found" and writes nothing. Otherwise the answer is `CheckAnswer` of the stored row, and the row becomes `AfterCheck` of it. |
| Quota.DecrementQuota | lib/quota.ts:95-116 | A missing user is an error with no write. Otherwise exactly one counter of the row grows by one: the daily counter for premium, the free counter otherwise. |
| Quota.Consume | lib/quota.ts:103-115 | One try-on used: exactly one counter grows by one, the daily counter for premium and the free counter otherwise. Nothing else changes. |
| Quota.GetUserQuota | lib/quota.ts:118-148 | A read-only view. Premium shows its daily use against 100; free shows its free use against 2; a missing user is an error. |
| Quota.View | lib/quota.ts:133-147 | Premium rows show their daily use against 100 with plan PREMIUM; the others show their free use against 2 with plan FREE. |
| Quota.DailyResetFromNow | lib/quota.ts:53-62 | A stale premium window is reset to zero used, with the next reset one day after `now`, and the request is allowed. |
| Quota.NoPeriodEndNoDowngrade | lib/quota.ts:32 | A premium row with no period end is never downgraded. |
| Quota.CheckIdempotent | lib/quota.ts:11-93 | A second check at the same instant writes nothing new and gives the same allow/deny verdict. |
| Quota.ConsumeCountsOne | lib/quota.ts:103-115 | A decrement shows up as exactly one more unit used in the quota view. The limit, the plan and all other fields are unchanged. |
| Quota.LastFreeUnit | lib/quota.ts:84-92 | A free user with one try-on used may use one more, and after it is consumed is refused with "free quota exhausted". |
| Quota.PremiumAtCeiling | lib/quota.ts:65-80 | A live premium user at 100 within the window is refused with the reset time and the daily-limit message, and nothing is written. |
| RateLimit.EffectiveInterval | lib/rate-limit.ts:40 | An absent or zero interval falls back to 30000 ms; any other value is used as given. |
| RateLimit.RateLimiter.Limit | lib/rate-limit.ts:39-61 | Admits exactly when there is no truthy stored time, or the interval has elapsed since it. An admitted request records `now`; a refused one changes nothing. |
| RateLimit.RateLimiter.Expire | lib/rate-limit.ts:53-56 | The scheduled cleanup removes only that identifier's entry. |
| RateLimit.AdmittedAfterInterval | lib/rate-limit.ts:44-51 | After an admitted request at t, the same identifier is admitted again from t + interval on. |
| RateLimit.RefusedWithinInterval | lib/rate-limit.ts:44-49 | Within the interval after a request at a nonzero time t, the same identifier is refused. |
| RateLimit.OtherIdentifiersUnaffected | lib/rate-limit.ts:42-51 | Recording one identifier never changes the verdict for another. |
| RateLimit.AdmittedAfterExpiry | lib/rate-limit.ts:53-56 | Once the entry is cleaned up, the identifier is admitted. |
| Storage.Extension | lib/supabase/storage.ts:29 | The extension of a URL upload is "jpg". For a file it is the dot-free suffix after the last dot, or the whole name when there is no dot. |
| Storage.Upload | lib/supabase/storage.ts:19-61 | A failed fetch of a URL source is rethrown. A storage error becomes "Failed to upload file: ...". Otherwise the result is the public URL of `userId/kind/timestamp-random.ext`. |
| Storage.ObjectPathShape | lib/supabase/storage.ts:30 | An object path lies under the owner's folder and kind, and ends in "." plus the extension. |
| Storage.ExtractPath | lib/supabase/storage.ts:67-73 | The path extracted is non-empty. It contains no bucket marker and sits right after an occurrence of the marker. With no marker, nothing is extracted. `ExtractPathPiece` says which occurrence is used. |
| Storage.ExtractPathPiece | lib/supabase/storage.ts:67-73 | The piece is the text after the first occurrence of the marker, up to the next occurrence or the end. It is refused exactly when that text is empty. |
| Storage.Delete | lib/supabase/storage.ts:63-83 | Takes the URL's pathname (the `new URL` parse is not modelled). A pathname with no usable path gives "Invalid file URL" with no remove call. A remove error gives "Failed to delete file: ...". Otherwise the extracted path is removed. |
| Storage.ExtractPublicPath | lib/supabase/storage.ts:56-69 | Extraction inverts the public-URL construction for any non-empty path that does not contain the marker. |
| Storage.UploadThenDelete | lib/supabase/storage.ts:19-83 | The object an upload stores is the one a delete removes when given the pathname of the returned URL. |
| Storage.MarkerOnlyRefused | lib/supabase/storage.ts:71-73 | Every pathname without the marker, and every pathname whose first marker is followed directly by the end or by another marker, is refused with "Invalid file URL". |
| Pixazo.AttemptStep | lib/ai/pixazo-vton.ts:99-114 | An attempt finishes only on "succeed" with a non-empty first image URL. "failed" and non-OK statuses throw; anything else waits. |
| Pixazo.FirstDone | lib/ai/pixazo-vton.ts:86-129 | The first attempt that finds the image; every earlier attempt did not. |
| Pixazo.PollFromCharacterised | lib/ai/pixazo-vton.ts:82-132 | The loop's outcome in closed form. The first image found wins. With no image, the last attempt's error is rethrown, and only a last attempt without an error gives the timeout. |
| Pixazo.PollTaskResult | lib/ai/pixazo-vton.ts:82-132 | The loop returns that outcome after making `PollsMade` requests, never more than 60. |
| Pixazo.PollFrom | lib/ai/pixazo-vton.ts:82-132 | A found image is a non-empty URL that some attempt returned as done. An error other than the timeout is the one the last attempt threw. |
| Pixazo.RoundedSeconds | lib/ai/pixazo-vton.ts:67 | Elapsed milliseconds rounded to the nearest second, halves up. |
| Pixazo.Wrapped | lib/ai/pixazo-vton.ts:75 | Every error leaving the gateway starts with "Virtual try-on generation failed: ". |
| Pixazo.CreateTask | lib/ai/pixazo-vton.ts:33-60 | A task id is returned only for a 2xx response carrying a non-empty id. |
| Pixazo.Generation | lib/ai/pixazo-vton.ts:22-77 | A failed creation gives `Wrapped` of its error. After a created task, a failed poll loop gives `Wrapped` of the loop's error, and a found image gives `Generated` of that URL with the rounded processing time. Every failure has the prefix. |
| Pixazo.GenerateVirtualTryOn | lib/ai/pixazo-vton.ts:22-77 | Computes `Generation`. No status request is made when creation fails. |
| Pixazo.AllPendingTimesOut | lib/ai/pixazo-vton.ts:131 | If all 60 attempts report a pending task, the generation fails with the wrapped timeout after 60 requests. |
| TryOnRoute.NewJob | app/api/tryon/route.ts:80-99 | A new job is PROCESSING with both photos and the provider name. A non-premium (or absent) owner snapshot gives 768x768 with a watermark; a premium one gives 1024x1024 without. |
| TryOnRoute.UploadPhotos | app/api/tryon/route.ts:74-77 | Both uploads succeed exactly when neither reports an error, and the URLs are those the two uploads return. |
| TryOnRoute.RespondToImages | app/api/tryon/route.ts:53-99 | A missing image gives 400 "Both images are required". An image over 10 MB gives 400 "Images must be under 10MB". A failed upload gives 500 with its message. Two images within the size limit, both uploaded, give `Started` with the new job's id, and only then is a job started. |
| TryOnRoute.Respond | app/api/tryon/route.ts:12-195 | 401 exactly without a session. 429 exactly when the cooldown refuses. A missing user row gives 500 "User not found". A quota refusal gives 403 carrying the check's reason, remaining count and plan. Otherwise the answer is `RespondToImages`. A started job implies the session, cooldown and quota checks all passed. |
| TryOnRoute.UsersAfterPost | app/api/tryon/route.ts:26-39 | Only the requester's row can change, and only through the quota check once the session and cooldown pass. No row is added or removed. |
| TryOnRoute.StartJob | app/api/tryon/route.ts:53-99 | Creates the job of `NewJob` exactly when the answer is "started", and otherwise creates nothing. |
| TryOnRoute.Post | app/api/tryon/route.ts:12-195 | The answer is `Respond` of the prior state. The only user write is the quota check's, and the limiter records the request only when admitted. |
| TryOnRoute.StoreResult | app/api/tryon/route.ts:110-123 | A watermarked job uploads the watermarked file "watermarked.jpg". Otherwise the provider's URL is fetched and re-uploaded. |
| TryOnRoute.FinalImage | app/api/tryon/route.ts:105-123 | A generation error passes through. A stored result carries the generator's processing time and the stored URL. |
| TryOnRoute.MarkFailed | app/api/tryon/route.ts:168-174 | The catch block sets FAILED and the message (or "AI generation failed"), and changes nothing else on the job. |
| TryOnRoute.ProduceResult | app/api/tryon/route.ts:102-123 | Computes `FinalImage` of the generation. |
| TryOnRoute.RecordOutcome | app/api/tryon/route.ts:125-186 | The database writes equal those of `CompletionEffect`: the SUCCESS write, the decrement, the event and the expiry, or the FAILED write and failure event. |
| TryOnRoute.CompletionEffect | app/api/tryon/route.ts:125-186 | The background task touches only its own job and its owner's row, adds or removes no row, leaves its job SUCCESS or FAILED, and logs at most one event. |
| TryOnRoute.Complete | app/api/tryon/route.ts:101-187 | The background task's writes equal those of `CompletionEffect` applied to the generation's result. |
| TryOnRoute.OtherJobsUntouched | app/api/tryon/route.ts:126-174 | The task never touches a job other than its own. |
| TryOnRoute.QuotaConsumedOnlyOnSuccess | app/api/tryon/route.ts:125-137 | Quota is consumed only alongside a SUCCESS write of the stored result, by exactly one unit on the owner. |
| TryOnRoute.SuccessRecorded | app/api/tryon/route.ts:126-162 | For a job and owner that both exist, a finished generation writes the SUCCESS row with the result URL, the processing time, the 5-cent cost, and a seven-day expiry for a non-premium snapshot. It consumes exactly one unit of the owner's quota and logs one "tryon_success" event with the plan, resolution and time. |
| TryOnRoute.FailureRecorded | app/api/tryon/route.ts:164-185 | A failure marks the job FAILED with its message, stores no result, and logs one failure event. |
| TryOnRoute.ExpiryOnlyForFreeSnapshot | app/api/tryon/route.ts:153-162 | A successful job gets an expiry exactly when the creation-time snapshot was not premium, and the expiry is seven days after completion. |
| TryOnRoute.LateFailureOverwritesSuccess | app/api/tryon/route.ts:126-174 | When the decrement after the SUCCESS write finds no owner row, the job becomes FAILED with "User not found" but keeps its result image, and the user table is unchanged. |
| TryOnRoute.DeletedJobNoEffect | app/api/tryon/route.ts:126-174 | A job deleted before its task finishes is not recreated, and nothing is written. |
| TryOnRoute.WatermarkedResultPath | app/api/tryon/route.ts:113-119 | The watermarked result is stored as a .jpg under the owner's result folder. |
| TryOnRoute.SecondRequestWithinCooldown | app/api/tryon/route.ts:25-36 | A second request within 30 s of an admitted one is answered 429, whatever it carries. |
| TryOnRoute.QuotaCheckedBeforeImages | app/api/tryon/route.ts:38-63 | A request with a missing image still passes through the quota check's writes before its 400 answer. |
| TryOnRoute.ExpiredPremiumJobIsWatermarked | app/api/tryon/route.ts:39-86 | An expired premium user is downgraded by the same request's check, so the job gets the free resolution and a watermark. |
| StripeWebhook.Upgrade | app/api/webhook/stripe/route.ts:52-64 | Checkout makes the row PREMIUM and premium, with its Stripe ids, period end (seconds × 1000), premiumSince = now and dailyUsed 0. Every other field is kept. |
| StripeWebhook.Renew | app/api/webhook/stripe/route.ts:109-116 | A renewal sets premium, the period end and dailyUsed 0, and leaves `plan` and everything else alone. |
| StripeWebhook.Cancel | app/api/webhook/stripe/route.ts:167-176 | A cancellation returns the row to FREE, not premium, with no subscription and both counters at 0; nothing else changes. |
| StripeWebhook.Refresh | app/api/webhook/stripe/route.ts:200-206 | An update sets premium exactly for "active" or "trialing", and sets the period end; `plan` is never touched. |
| StripeWebhook.CheckoutOutcome | app/api/webhook/stripe/route.ts:36-93 | A non-subscription session, or one without a user id, changes nothing. A failed lookup, a subscription without a price or a missing user fails with no write. Otherwise the user becomes `Upgrade` with the first price, and exactly one "succeeded" 999-cent "subscription_create" payment and one "subscription_started" event are appended. Any write implies these conditions. |
| StripeWebhook.InvoicePaidOutcome | app/api/webhook/stripe/route.ts:96-133 | Manual invoices and invoices without a subscription are ignored. A failed lookup or a missing user fails with no write; a subscription without a user id is ignored. Otherwise the user becomes `Renew`, and one "succeeded" payment of the amount paid, with the billing reason or "subscription_cycle", is appended. No usage event. |
| StripeWebhook.InvoiceFailedOutcome | app/api/webhook/stripe/route.ts:136-159 | Never a user or a payment write. An invoice without a subscription, or a subscription without a user id, is ignored, and a failed lookup fails. Otherwise exactly one "payment_failed" event with the invoice id and amount due is appended. |
| StripeWebhook.DeletedOutcome | app/api/webhook/stripe/route.ts:162-192 | No user id: ignored. A missing user: fails with no write. Otherwise the user becomes `Cancel` and one "subscription_cancelled" event with the subscription id is appended. Never a payment. |
| StripeWebhook.UpdatedOutcome | app/api/webhook/stripe/route.ts:195-211 | No user id: ignored. A missing user: fails with no write. Otherwise the user becomes `Refresh` with the period end and status. Never a payment or an event. |
| StripeWebhook.Dispatch | app/api/webhook/stripe/route.ts:33-225 | An event that fails (answered 500) writes nothing. Unknown event types are acknowledged with no write. |
| StripeWebhook.HandleCheckout | app/api/webhook/stripe/route.ts:36-93 | The database writes equal `CheckoutOutcome`. |
| StripeWebhook.HandleInvoicePaid | app/api/webhook/stripe/route.ts:96-133 | The database writes equal `InvoicePaidOutcome`. |
| StripeWebhook.HandleInvoiceFailed | app/api/webhook/stripe/route.ts:136-159 | The usage writes equal `InvoiceFailedOutcome`. |
| StripeWebhook.HandleDeleted | app/api/webhook/stripe/route.ts:162-192 | The database writes equal `DeletedOutcome`. |
| StripeWebhook.HandleUpdated | app/api/webhook/stripe/route.ts:195-211 | The database writes equal `UpdatedOutcome`. |
| StripeWebhook.HandleWebhook | app/api/webhook/stripe/route.ts:12-226 | A bad signature is answered 400 with no write. Otherwise the writes and the answer follow `Dispatch`. |
| StripeWebhook.CancelIdempotent | app/api/webhook/stripe/route.ts:167-176 | Cancelling twice equals cancelling once. |
| StripeWebhook.RenewalRedelivery | app/api/webhook/stripe/route.ts:109-206 | Redelivered renewal and update events reproduce the same user row. |
| StripeWebhook.CheckoutRedelivery | app/api/webhook/stripe/route.ts:52-64 | A redelivered checkout reproduces the row, except that premiumSince takes the later time. |
| StripeWebhook.CheckoutPaymentPerDelivery | app/api/webhook/stripe/route.ts:67-76 | Each delivery of a checkout appends its own 999-cent payment, so a redelivery is recorded twice. |
| StripeWebhook.PlanAndFlagDiverge | app/api/webhook/stripe/route.ts:200-206 | A non-entitled update leaves plan PREMIUM but isPremium false, and the quota check follows the flag (FREE). |
| StripeWebhook.RenewalAfterDowngrade | app/api/webhook/stripe/route.ts:109-116 | A renewal after the quota check's lazy downgrade restores the premium flag but not the plan. |
| StripeWebhook.CancelRestoresFreeQuota | app/api/webhook/stripe/route.ts:167-176 | After cancellation, a non-banned user has both free try-ons again. |
| StripeWebhook.UpgradeGrantsAccess | app/api/webhook/stripe/route.ts:52-64 | After checkout, a non-banned user has unlimited access until the period end. |
| StripeWebhook.PaymentFailureWritesOnlyUsage | app/api/webhook/stripe/route.ts:136-159 | A failed payment never touches a user row or the payment table. |
| AdminCredits.WithCredits | app/api/admin/users/credits/route.ts:41-46 | Granting credits lowers freeUsed by that amount, never below 0; nothing else changes. |
| AdminCredits.GiveCredits | app/api/admin/users/credits/route.ts:14-65 | A missing user id or credit count gives 400 and a missing user 404, both with no write. Otherwise the row becomes `WithCredits` and one "gave_credits" log is appended. |
| AdminCredits.CreditsSign | app/api/admin/users/credits/route.ts:44 | Positive grants never increase freeUsed. A negative "grant" increases it. |
| AdminCredits.GrantRestoresFreeQuota | app/api/admin/users/credits/route.ts:41-46 | A grant of at least freeUsed gives a non-banned free user both free try-ons again. |
| AdminCredits.GrantLeavesDailyCounter | app/api/admin/users/credits/route.ts:41-46 | Credits never change the daily counter or a premium user's quota verdict. |
| AdminBan.Ban | app/api/admin/users/ban/route.ts:26-32 | Banning sets the flag and the reason and changes nothing else. |
| AdminBan.BanUser | app/api/admin/users/ban/route.ts:14-51 | Missing fields give 400 and a missing user 500, both with no write. Otherwise the row becomes `Ban` and a "banned_user" log with the reason is appended. |
| AdminBan.BanIdempotent | app/api/admin/users/ban/route.ts:26-32 | Banning twice with the same reason equals banning once. |
| AdminBan.BannedCannotUse | app/api/admin/users/ban/route.ts:26-32 | A banned user is refused by the quota check with the ban reason and 0 remaining, and the check writes nothing. |
| AdminUnban.Unban | app/api/admin/users/unban/route.ts:26-32 | Unbanning clears the flag and the reason and changes nothing else. |
| AdminUnban.UnbanUser | app/api/admin/users/unban/route.ts:14-50 | A missing id gives 400 and a missing user 500, both with no write. Otherwise the row becomes `Unban` and an "unbanned_user" log is appended. |
| AdminUnban.UnbanUndoesBan | app/api/admin/users/unban/route.ts:26-32 | Unban is idempotent and undoes any ban. It restores a row that had no ban. |
| AdminUnban.UnbannedFollowsPlan | app/api/admin/users/unban/route.ts:26-32 | After an unban, a non-premium user may try on again exactly when fewer than 2 free try-ons are used. |
| AdminModerationDelete.DeleteTryOn | app/api/admin/moderation/delete/route.ts:14-48 | A missing id gives 400 and a missing job 500, both with no write. Otherwise only that job is removed and one "deleted_tryon" log is appended. |
| AdminModerationDelete.OthersKept | app/api/admin/moderation/delete/route.ts:28-30 | Deleting one job leaves every other job as it was. |
| AdminSettings.Upserted | app/api/admin/settings/route.ts:22-31 | The upserted row holds the stringified value and the admin as updater. An update keeps the description; a creation has none. |
| AdminSettings.ApplyEntries | app/api/admin/settings/route.ts:19-31 | No setting is removed, and a setting the body creates has no description. |
| AdminSettings.UpdateSettings | app/api/admin/settings/route.ts:14-51 | An unreadable body gives 500 with no write. Otherwise every entry is upserted, and one log per entry is appended in body order. |
| AdminSettings.EntriesStored | app/api/admin/settings/route.ts:19-31 | Every key of the body ends up holding its stringified value, updated by the admin. |
| AdminSettings.OtherKeysUnchanged | app/api/admin/settings/route.ts:19-31 | Keys not in the body are neither added, removed nor changed. |
| AdminSettings.OnlyBodyKeysAdded | app/api/admin/settings/route.ts:19-31 | The keys afterwards are exactly the old keys plus the body's keys. |
| AdminSettings.OneLogPerKey | app/api/admin/settings/route.ts:34-40 | One "updated_setting" log per entry, in order, carrying that entry's key and value. |
| AdminSettings.EmptyBodyWritesNothing | app/api/admin/settings/route.ts:19-40 | An empty body writes no setting and no log. |
| AdminSettings.LoggedValueSurvives | lib/admin.ts:112 | The log's `JSON.parse(JSON.stringify(value))` gives back the value itself. |
| Json.ParseStringify | app/admin/settings/page.tsx:24 | `JSON.parse` inverts `JSON.stringify` on these values. |
| SettingsPage.InitializeDefaultSettings | app/admin/settings/page.tsx:36-91 | The table afterwards is `InsertMissing` of the old table and the eight defaults. |
| SettingsPage.InsertMissing | app/admin/settings/page.tsx:80-90 | No stored key is lost, and every added key holds a default row with that key. |
| SettingsPage.DefaultsPresent | app/admin/settings/page.tsx:80-90 | Every default key is present afterwards. |
| SettingsPage.ExistingKept | app/admin/settings/page.tsx:85 | Existing rows are never overwritten. No key outside the defaults is added. |
| SettingsPage.MissingGetsDefault | app/admin/settings/page.tsx:85-89 | A missing key gets exactly its default row. |
| SettingsPage.NothingMissingNoWrite | app/admin/settings/page.tsx:80-90 | With every default present, the table is unchanged. |
| SettingsPage.InitializeIdempotent | app/admin/settings/page.tsx:80-90 | Initialising twice equals initialising once. |
| SettingsPage.Decode | app/admin/settings/page.tsx:23-27 | A value is parsed when it is valid JSON. Otherwise it is kept as raw text. |
| SettingsPage.DecodeStringify | app/admin/settings/page.tsx:23-27 | A value stored by the admin route decodes back to that value. |
| SettingsPage.TableObject | app/admin/settings/page.tsx:21-28 | The settings object has exactly the table's keys. |
| SettingsPage.GetSettings | app/admin/settings/page.tsx:13-31 | The object built by the loop equals `SettingsObject` of the rows. |
| SettingsPage.SettingsObject | app/admin/settings/page.tsx:21-30 | The last row read sets its key to its decoded value, whatever earlier rows held. |
| SettingsPage.ObjectOfListedRows | app/admin/settings/page.tsx:13-31 | Reading every row of the table once gives each key its decoded value. |
| SettingsPage.ObjectOfRows | app/admin/settings/page.tsx:22-28 | The object has a key exactly when some row has it. |
| SettingsPage.RowDecoded | app/admin/settings/page.tsx:22-28 | With distinct keys, each row's key maps to that row's decoded value. |
| SettingsPage.OrDefault | app/admin/settings/page.tsx:126 | `settings[key] \|\| fallback` differs from the fallback only by being the stored value. |
| SettingsPage.Display | app/admin/settings/page.tsx:120-226 | The five fields with a fallback always show a truthy value; registration shows disabled exactly for a stored JSON false. |
| SettingsPage.OrDefaultCharacterised | app/admin/settings/page.tsx:126-202 | With a truthy fallback the shown value is truthy. It equals the fallback exactly when the stored value is absent, falsy, or equal to the fallback. |
| SettingsPage.OnlyFalseDisablesRegistration | app/admin/settings/page.tsx:225 | Registration shows disabled exactly when the stored value parses to JSON `false`. |
| SettingsPage.ZeroQuotaShowsFallback | app/admin/settings/page.tsx:126 | A stored free quota of 0 is displayed as 2. |
| SettingsPage.DefaultKeysDistinct | app/admin/settings/page.tsx:37-78 | The eight default keys are distinct. |
| SettingsPage.FreshTableEnablesRegistration | app/admin/settings/page.tsx:53-225 | After initialising a table without the key, registration shows enabled. |
| SettingsPage.FreshTableShowsFreeQuota | app/admin/settings/page.tsx:38-126 | After initialising a table without the key, the free quota shows 2. |
| UseTryOn.TickOf | hooks/useTryOn.ts:53-83 | A tick resolves exactly on a SUCCESS job and keeps waiting exactly on a job that is neither SUCCESS nor FAILED. |
| UseTryOn.FirstSettling | hooks/useTryOn.ts:50-84 | The first tick that settles; every earlier tick was pending. |
| UseTryOn.PollFrom | hooks/useTryOn.ts:50-84 | A resolved job is a SUCCESS job that some poll observed. |
| UseTryOn.PollFromCharacterised | hooks/useTryOn.ts:45-86 | The poll's outcome is decided by the first settling tick. It is a timeout when none of the 60 ticks settles. |
| UseTryOn.NoRetry | hooks/useTryOn.ts:57-83 | A failed fetch ends polling at once with its error; no later tick is made. |
| UseTryOn.LastSeenStep | hooks/useTryOn.ts:64 | A poll that shows a job record makes it the one the hook holds; any other poll leaves the held record as it was. |
| UseTryOn.TryOnHook.PollTryOnResult | hooks/useTryOn.ts:45-86 | Returns the characterised outcome after `PollsMade` ticks (1 to 60). The `tryOn` cell holds the last job seen. |
| UseTryOn.TryOnHook.GenerateTryOn | hooks/useTryOn.ts:9-43 | Loading is false afterwards. Failure sets `error` to the message; success clears it. A failed start makes no poll. |
| UseTryOn.StartId | hooks/useTryOn.ts:20-32 | The start yields an id exactly for an OK response. |
| UseTryOn.Generate | hooks/useTryOn.ts:9-43 | Success means a started job whose polling resolved; the result is the started id. |
| UseTryOn.SucceedsIffFinishedFirst | hooks/useTryOn.ts:45-86 | Generation succeeds exactly when some tick among the first 60 shows SUCCESS and all earlier ticks were pending. |
| UsersTable.ShownCount | app/admin/users/UsersTable.tsx:269 | The count shown never exceeds the number of users. |
| UsersTable.MatchesSearch | app/admin/users/UsersTable.tsx:53-54 | Under the modelled lower-casing, a search occurring as written in the email or the name matches, and an empty search matches every user. |
| UsersTable.MatchesFilter | app/admin/users/UsersTable.tsx:56-60 | "all" accepts every user; "premium" and "free" accept exactly the premium and the non-premium users. |
| UsersTable.FilteredUsers | app/admin/users/UsersTable.tsx:52-61 | No more rows than the list, each matching both the search and the filter. |
| UsersTable.SearchIgnoresCase | app/admin/users/UsersTable.tsx:53-54 | A search and its lower-cased form select the same users; "É" finds a user named "é". |
| UsersTable.FilteredIsSelection | app/admin/users/UsersTable.tsx:52-61 | The shown users are a subsequence of all users. A user is shown exactly when they match the search (in the email or the name, ignoring the case of the letters `Text.LowerChar` folds) and the plan filter. |
| UsersTable.EmptySearchShowsAll | app/admin/users/UsersTable.tsx:53-57 | An empty search with the "all" filter shows every user, in order. |
| UsersTable.PremiumFreePartition | app/admin/users/UsersTable.tsx:58-59 | The premium and free filters split the matching users exactly. |
| ModerationContent.AllShowsEverything | app/admin/moderation/ModerationContent.tsx:36 | The "all" filter shows every job. |
| ModerationContent.Shows | app/admin/moderation/ModerationContent.tsx:35-38 | "all" shows every job; a filter other than the four lower-cased status names shows none. |
| ModerationContent.FilteredTryOns | app/admin/moderation/ModerationContent.tsx:35-38 | No more jobs than listed, each shown by the filter. |
| ModerationContent.OnlyMatchingStatus | app/admin/moderation/ModerationContent.tsx:35-38 | A status filter shows, in order, exactly the jobs whose lower-cased status equals it. |
| ModerationContent.ButtonsSelectTheirStatus | app/admin/moderation/ModerationContent.tsx:74-89 | The success, failed and pending buttons select exactly the SUCCESS, FAILED and PENDING jobs. |
| ModerationContent.LowerStatusNames | app/admin/moderation/ModerationContent.tsx:37 | The lower-cased status names are "pending", "processing", "success" and "failed". |
| ModerationContent.ProcessingOnlyUnderAll | app/admin/moderation/ModerationContent.tsx:33-38 | A PROCESSING job appears only under "all". |
| AdminLogsExport.DoubleQuotes | app/api/admin/export/admin-logs/route.ts:44 | Doubling quotes never shortens a cell. |
| AdminLogsExport.Quote | app/api/admin/export/admin-logs/route.ts:44 | A quoted cell starts and ends with a quote and is at least two characters longer than the cell. |
| AdminLogsExport.MetadataText | app/api/admin/export/admin-logs/route.ts:38 | The metadata cell is always the text of a JSON object: it starts with `{` and ends with `}`. |
| AdminLogsExport.LogCells | app/api/admin/export/admin-logs/route.ts:32-40 | Seven cells: missing target fields become "", and missing metadata becomes "{}". |
| AdminLogsExport.Newest | app/api/admin/export/admin-logs/route.ts:16-19 | At most 1000 logs, newest first. |
| AdminLogsExport.Cells | app/api/admin/export/admin-logs/route.ts:32-40 | One row of cells per log, in order. |
| AdminLogsExport.ReadCellBody | app/api/admin/export/admin-logs/route.ts:44 | A reader of one quoted cell; it always consumes input. |
| AdminLogsExport.ReadRow | app/api/admin/export/admin-logs/route.ts:44 | A reader of one row; it always consumes input. |
| AdminLogsExport.ReadDoubled | app/api/admin/export/admin-logs/route.ts:44 | Reading a quote-doubled cell gives back the cell. |
| AdminLogsExport.QuoteRoundTrip | app/api/admin/export/admin-logs/route.ts:44 | A quoted cell reads back as itself. |
| AdminLogsExport.ReadRowHead | app/api/admin/export/admin-logs/route.ts:44 | One quoted cell followed by a separator or line end reads back. |
| AdminLogsExport.ReadQuotedRow | app/api/admin/export/admin-logs/route.ts:44 | Any row of quoted cells reads back as those cells. |
| AdminLogsExport.ReadDataLines | app/api/admin/export/admin-logs/route.ts:42-45 | Any sequence of rows, each with at least one cell, joined by newlines, reads back as those rows. |
| AdminLogsExport.ExportReadsBack | app/api/admin/export/admin-logs/route.ts:16-45 | The CSV starts with the header line, and its data lines read back as the cells of the newest 1000 logs: no cell content is lost or merged. |
| AdminLogsExport.Csv | app/api/admin/export/admin-logs/route.ts:42-45 | The export starts with the header line, and an empty log gives the header line alone. |
| FinancialExport.MonthlyTotals | app/api/admin/export/financial/route.ts:29-50 | The months are exactly those of some payment or try-on. Each month holds the sum of its payments, the sum of its try-on costs (absent counts 0), and its try-on count. The order of first sight lists each month exactly once. |
| FinancialExport.Revenue | app/api/admin/export/financial/route.ts:35-41 | With no negative payment amount, a month's revenue is never negative. |
| FinancialExport.Cost | app/api/admin/export/financial/route.ts:43-50 | With no negative try-on cost, a month's cost is never negative. |
| FinancialExport.Count | app/api/admin/export/financial/route.ts:49 | A month counts at most as many try-ons as there are. |
| FinancialExport.AddPayments | app/api/admin/export/financial/route.ts:35-41 | After the payment pass, the months are those of the payments. Each holds its revenue, with zero cost and count, and the order lists each month once. |
| FinancialExport.PaymentTotalsStep | app/api/admin/export/financial/route.ts:35-41 | Adding one payment to its month, created at zero on first sight, keeps the payment totals. |
| FinancialExport.AddTryOns | app/api/admin/export/financial/route.ts:43-50 | After the try-on pass, the months are those of the payments and try-ons. Each holds its revenue, cost and count, and the order still lists each month once. |
| FinancialExport.TryOnTotalsStep | app/api/admin/export/financial/route.ts:43-50 | Adding one try-on's cost and one to the count of its month keeps the totals. |
| FinancialExport.TryOnStep | app/api/admin/export/financial/route.ts:48-49 | One more try-on adds its cost and one to the count of its own month only. |
| FinancialExport.ListsOnceGrows | app/api/admin/export/financial/route.ts:37-39 | Appending a month seen for the first time keeps the order listing each month once. |
| FinancialExport.PaymentMonthsStep | app/api/admin/export/financial/route.ts:35-41 | Each payment adds its own month to the set of months. |
| FinancialExport.TryOnMonthsStep | app/api/admin/export/financial/route.ts:43-50 | Each try-on adds its own month to the set of months. |
| FinancialExport.NoPaymentsNoRevenue | app/api/admin/export/financial/route.ts:35-41 | A month with no payment has revenue 0. |
| FinancialExport.NoTryOnsNoCost | app/api/admin/export/financial/route.ts:43-50 | A month with no try-on has cost 0 and count 0. |
| FinancialExport.CountIsFilterLength | app/api/admin/export/financial/route.ts:49 | A month's try-on count is the number of try-ons in that month. |
| FinancialExport.FilterAppend | app/api/admin/export/financial/route.ts:17-26 | Filtering distributes over concatenation. |
| FinancialExport.BeforeAsymmetric | app/api/admin/export/financial/route.ts:63 | The month order is asymmetric. |
| FinancialExport.Insert | app/api/admin/export/financial/route.ts:62-63 | Insertion adds exactly one element. |
| FinancialExport.SortDescending | app/api/admin/export/financial/route.ts:62-63 | The sort is a permutation. |
| FinancialExport.InsertKeepsDescending | app/api/admin/export/financial/route.ts:62-63 | Insertion keeps a descending list descending. |
| FinancialExport.SortIsDescending | app/api/admin/export/financial/route.ts:62-63 | The sorted months are in descending order. |
| FinancialExport.RowOf | app/api/admin/export/financial/route.ts:64-76 | Net profit is revenue minus cost. The margin is net × 100 / revenue when revenue is positive, and 0 otherwise. |
| FinancialExport.Months | app/api/admin/export/financial/route.ts:68-69 | The month column of the rows. |
| FinancialExport.RowsFor | app/api/admin/export/financial/route.ts:64-76 | One row per month, in the given order, with that month's totals. |
| FinancialExport.SortedKeysOnce | app/api/admin/export/financial/route.ts:62-63 | Sorting an order that lists each month once lists each month exactly once and nothing else. |
| FinancialExport.Report | app/api/admin/export/financial/route.ts:16-76 | The report has exactly one row per month with a succeeded payment or a successful try-on. The months are in descending order, and each row carries its month's revenue, cost, count, net profit and margin. |
| UserRoute.DisplayName | app/api/user/route.ts:35 | The full name when truthy. Otherwise the part of the email before the first "@". |
| UserRoute.NewUser | app/api/user/route.ts:31-37 | A first-visit row has the session's id, email, display name and avatar, and is FREE, unbanned, with counters at 0. |
| UserRoute.Get | app/api/user/route.ts:5-66 | 401 without a session. An existing row is returned unchanged. A missing row is created from the session, or gives 500 without an email. The table changes only by that one insertion. |
| UserRoute.GetUser | app/api/user/route.ts:5-66 | The answer and the new user table are those of `Get`. |
| UserRoute.SecondGetCreatesNothing | app/api/user/route.ts:17-57 | A second GET returns the same row and writes nothing. |
| UserRoute.ExistingUserUntouched | app/api/user/route.ts:17-57 | GET for an existing user returns its row and changes nothing. |
| UserRoute.Patch | app/api/user/route.ts:83-89 | Only a truthy name or image is written; every other field is kept. |
| UserRoute.PatchIdempotent | app/api/user/route.ts:83-89 | Patching twice equals patching once. An empty patch changes nothing. |
| UserRoute.PatchUser | app/api/user/route.ts:68-103 | 401 without a session. An unreadable body or a missing row gives 500 with no write. Otherwise the row becomes `Patch` of it. |

## Left out

- The Upstash Redis branch of `lib/rate-limit.ts`: it calls a remote sliding-window service whose behaviour is not visible here. Only the in-memory fallback is modelled.
- Concurrency:
  - Requests, the detached background task, the scheduled cache cleanup and overlapping client poll ticks are modelled as atomic steps run in sequence.
  - Interleavings inside one request are not modelled, for example two checks racing on the same counter.
  - Delays and timers (`setTimeout`, `setInterval`) are not modelled.
- Watermark rendering (`lib/watermark.ts`), base64 decoding and image bytes: the watermark step is an outcome parameter, either the error it throws or success.
- `testPixazoConnection`, `getSignedUrl` and the `replicate` provider: they are not called by the modelled operations.
- Floating point:
  - Amounts are integer cents and margins exact fractions.
  - `amount / 100`, `toFixed` and the text of the financial CSV are not modelled. `FinancialExport.Report` produces the rows, not their text.
  - `JSON.parse` covers null, booleans, integers and strings, so a stored "9.99" or "0.10" decodes as raw text.
  - The display fallbacks of the two price fields (`|| 9.99`, `|| 0.10`) are not modelled.
- Dates: `format(date, 'yyyy-MM')` and `toISOString()` are function parameters. `new Date()` inside one handler is the single `now` of that request. The try-on expiry is `now` plus seven days of 24 hours. The source adds seven calendar days in the server's time zone (`setDate(getDate() + 7)`), which differs by the shift when a daylight-saving change falls within the week.
- The users, payments and try-ons CSV exports, the admin dashboard pages, the charts and the other client hooks: they are not part of this model.
- The authentication wrappers of `lib/admin.ts` (`requireAdmin`, `getCurrentUser`): every admin operation takes the admin id as already established.
- `UserRoute.NewUser`: the schema is not part of the model, so the column defaults of a new row (FREE, counters 0, reset time `now`) are assumed. The `_count` includes of the GET answer are not modelled.
- The admin log export reads logs newest first by `createdAt`. The model takes the append order of the log table as creation order.
- The settings table is not read by the quota code. The quota code uses its own constants (2 free, 100 a day), and the model follows the code. The settings page's own fallback of 50 for the daily limit is display only.
- UsersTable.MatchesSearch: `toLowerCase` is modelled for the capitals of basic Latin, Latin-1, Greek and basic Cyrillic only (`Text.CaseOffset`). Other capitals are kept as they are. The one-to-two character mappings (such as U+0130) are not modelled. Nor is the final-sigma rule, which lowers a Σ that ends a word to ς (U+03C2) rather than σ. So such a search can hide a user the page shows: "ΑΣ" against the name "ας". It can also show a user the page hides: "Σ" against the name "ΑΣ".
- TryOnRoute.Complete: the only database failure modelled in the background task is the decrement finding no owner row. A failure of the analytics insert or the expiry update after the decrement, which would mark a job FAILED after its quota was consumed, is not modelled.
- Reading a JSON body that throws (500) is not modelled in the credits, ban, unban and moderation-delete routes: their fields are given as already parsed, and a missing field is modelled.
- AdminSettings.UpdateSettings: the body's values are null, booleans, integers and strings. Non-integer numbers, such as the 9.99 and 0.1 the pricing card posts (`parseFloat`), and arrays and objects are not modelled. Saving the pricing card is therefore not covered.
- AdminSettings.UpdateSettings: a JSON `null` body, for which `Object.entries(null)` throws, is not modelled; the body is a sequence of entries, and an unreadable body is the only failure.
- AdminCredits.GiveCredits: the amount is an integer; a fractional amount that `Number(prompt)` can give is not modelled.
- TryOnRoute.UploadPhotos: when both uploads fail, `Promise.all` reports whichever rejects first; the model always reports the person photo's error.
- Storage.UploadThenDelete: the pathname is taken as written, without percent-encoding, so object names that `new URL` would encode are not covered.
- Json.Parse: a `\u` escape naming a surrogate, lone or as half of a pair, is rejected by the model, whereas `JSON.parse` accepts it; such a stored value decodes as raw text.
- `StripeWebhook.Dispatch`: a database call that throws after an earlier write of the same event is modelled as throwing before any write, so a failed event writes nothing. A missing user row is the only failure modelled.
- `AdminSettings.UpdateSettings`: the keys of a parsed JSON object are distinct, so the body is required to have distinct keys.
- Log ids, job ids and the random name parts of uploads are given as parameters, as the database or `Math.random` would produce them.
