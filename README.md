# Rate-limited REST scheduling, messages and channels

A Dafny model of the request scheduler of a Discord API library and of two
entity classes it serves.

The model has the following parts:

- **Route keys** (`Routes`): `getRoute`, which turns a request path into the rate-limit bucket key.
  - Snowflake IDs collapse to `:id`, except after `channels`, `guilds` and `webhooks`.
  - Reactions, reaction users and webhook tokens become placeholders.
  - A message DELETE is bucketed by the message's age (`DELETE_OLD`, `DELETE_NEW` or plain `DELETE`).
  - The list of a guild's channels shares one key.
  - PUT and DELETE on reactions share a `MODIFY` key.
  - A path is modelled as its sequence of segments; `Split` and `Join` are proved to be inverses.
  - The regexes match within slash-delimited segments, so they are modelled exactly on segments. A digit run longer than 21 keeps its excess digits after ":id", as the regex leaves them.
- **Latency and clock offset** (`Latency`): the handler's `latencyRef`.
  - It keeps two rolling windows of ten samples each: round trips, and the offset of the server's `Date` header.
  - Each running value is kept up to date by subtracting the oldest sample's `~~(x / 10)` and adding the newest one's.
  - The model proves that each running value always equals a fixed bias plus the sum of its window.
  - JavaScript's `~~` is modelled exactly (`JsNum`): truncating division, then 32-bit wrap-around, with NaN read as 0.
- **Bucket state** (`RateLimits`): how one response's rate-limit headers set a bucket's `limit`, `remaining` and `reset`, and when they request the global lock.
- **Responses** (`Responses`): what one attempt does once its response is in, as an ordered list of effects.
  - The effects are releasing the bucket slot, resubmitting (now or after a timer) and settling the caller's promise.
  - 429 (RFC 6585 section 4) and 502 are both modelled, as is a 204 (RFC 9110 section 15.3.5) with a null body.
- **The handler** (`Dispatch`): the `RequestHandler` class with its global lock, ready queue, bucket map and latency reference.
  - Admitting a request validates and upper-cases the method, makes the path absolute, picks the route key and creates the bucket. While the lock is set, it holds authenticated requests on the ready queue, at the front for priority requests and at the back otherwise.
  - `globalUnblock` drains the queue in order.
  - Handling a response updates the estimates, applies the headers and classifies the status.
- **Channels** (`Channels`): `Channel.from` dispatches on the channel type; `mention` formats `<#id>`.
- **Messages** (`Messages`):
  - The `Message` class with its partial `update`: absent keys leave their field alone.
  - Channel-mention extraction from the content, proved to invert `Channel.mention`.
  - Attachment reconciliation: stale ids are dropped, listed ones are upserted, and the process is idempotent.
  - The webhook delete and edit guards.

Several behaviours of the handler are modelled as the code has them, and the lemmas state them:

- A 429 schedules a resubmission (RequestHandler.ts:227-235): after the delay when it is truthy, at once otherwise. The code then falls through to the generic error path (:244-254), so the caller is also rejected at once and the bucket slot is released twice (`Responses.TooManyRequestsRejectsAndReleasesTwice`). The rejection is the TypeError of reading `retry_after` of a null body under a shared scope, and the 429's own error otherwise. The model follows the code.
- The 502 retry counter is local to each `request` call, and every retry is a fresh call. Each attempt is therefore classified with the counter at 0, and `++attempts < 4` always holds for it. The four-attempt cap never fires, and a chain of 502 responses is retried forever (`Responses.BadGatewayChainNeverSettles`, and the 502 clause of `Dispatch.RequestHandler.HandleResponse`).
- A transport exception other than an abort neither releases the slot nor settles the promise (`Responses.ClassifyException`).
- The delay defaults to 0, so `x-ratelimit-reset` is consulted only when the delay is negative or NaN (`RateLimits.ResetHeaderIgnoredWithDelay`). That branch scales the header by 100, as written.
- With no delay header, the bucket resets at `now + 1`, not at `now` (`RateLimits.NoDelayHeadersResetAfterOneMillisecond`). The last branch at RequestHandler.ts:214 would set the reset to `now`, but the default 0 at :204 sends absent headers to the `(retryAfter || 1) + now` branch at :209 instead.
- The `retry-after` and `x-ratelimit-reset-after` values are used as milliseconds, as written.
- `getRoute` and the `x-ratelimit-reset` branch take the latency as a JavaScript number. A NaN latency makes every message DELETE a plain DELETE (`Routes.NaNLatencyDeletesArePlain`) and every reset from that branch NaN (`RateLimits.ApplyHeaders`).
- `toUpperCase` is modelled as far as it can produce ASCII. Besides a-z, sharp s, dotless i, long s and the Latin ligatures U+FB00-U+FB06 upper-case to ASCII letters, so "po\u017Ft" is accepted as POST (`Dispatch.LongSPostIsPost`).

Clocks, randomness and the creation time of a snowflake are parameters:

- `now` stands for `Date.now()`.
- A `Jitter` in [100, 1999] stands for the random 502 delay.
- `createdAt` stands for `Base.getCreatedAt`.

Timers are returned as effects (`ResubmitAfter`, `unblockAfter`) rather than run.

## Model

| member | source | states |
|---|---|---|
| Routes.GetRoute | lib/rest/RequestHandler.ts:56-74 | the key of a path has no more segments than the path; its prefix is one of "", DELETE, DELETE_OLD, DELETE_NEW, MODIFY, MODIFYDELETE, and it is "" for every method but PUT and DELETE |
| Routes.RouteOf | lib/rest/RequestHandler.ts:60-73 | the same bounds on the key once the replace passes have run |
| Routes.CollapseIds | lib/rest/RequestHandler.ts:57-58 | the ID pass keeps the number of segments; what it replaces is stated by CollapseForgetsId, CollapseKeepsId and CollapseAppend |
| Routes.ReactionIds | lib/rest/RequestHandler.ts:59 | the reaction-id pass keeps the number of segments; what it leaves alone is stated by NoReactionsUnchanged and PlainPrefixReactions |
| Routes.ReactionUserIds | lib/rest/RequestHandler.ts:59 | the reaction-user pass keeps the number of segments; what it leaves alone is stated by NoReactionsUnchanged and PlainPrefixReactions |
| Routes.Normalise | lib/rest/RequestHandler.ts:57-59 | the chain of replace passes keeps the number of segments |
| Routes.PlainPrefixReactions | lib/rest/RequestHandler.ts:59 | segments other than "reactions" in front of a path pass through both reaction passes unchanged, and the passes carry on after them |
| Routes.CollapseForgetsId | lib/rest/RequestHandler.ts:57-58 | a 15-21 digit ID after any word other than channels, guilds or webhooks becomes ":id", wherever it occurs in the path |
| Routes.CollapseKeepsId | lib/rest/RequestHandler.ts:57-58 | after channels, guilds or webhooks the matched ID is kept literally |
| Routes.CollapseAppend | lib/rest/RequestHandler.ts:57 | the ID pass works left to right without overlap: it distributes over a split point that does not start an ID |
| Routes.SameRouteForCollapsedIds | lib/rest/RequestHandler.ts:56-74 | paths differing only in such a collapsed ID get the same key, for every method, except a DELETE whose path ends in a message ID after `messages`, which is keyed by the message's age instead |
| Routes.NormaliseKeepsOrMarks | lib/rest/RequestHandler.ts:56-59 | after the ID pass, the reaction, reaction-user and webhook-token passes keep each segment or replace it by a `:` placeholder, so a segment that is not `messages` cannot become `messages` |
| Routes.MessagesOfOneChannelShareKey | lib/rest/RequestHandler.ts:56-74 | every message of a channel has the key "/channels/<channel id>/messages/:id" for every method but DELETE |
| Routes.ChannelMessagePath | lib/rest/RequestHandler.ts:57-59 | the replace passes turn "/channels/c/messages/m" into "/channels/c/messages/:id" |
| Routes.WebhookTokensCollapse | lib/rest/RequestHandler.ts:56-74 | for every method and every suffix after the token, two webhook tokens of 64 or more token characters give the same key; the path normalises to "/webhooks/<id>/:token" followed by the other passes' result on the suffix (unless a token made only of lower-case letters and hyphens, which the ID pass takes for a collection name, is followed by a 15-digit segment) |
| Routes.WebhookKey | lib/rest/RequestHandler.ts:56-74 | with nothing after the token, every method gets the key "/webhooks/<id>/:token" |
| Routes.WebhookToken | lib/rest/RequestHandler.ts:59 | the webhook-token pass changes only the third segment of a "/webhooks/<digits>/<token>" path, to ":token" + the rest, and leaves every other path alone |
| Routes.NoReactionsUnchanged | lib/rest/RequestHandler.ts:59 | the reaction passes leave a path without a "reactions" segment unchanged |
| Routes.DeleteMethod | lib/rest/RequestHandler.ts:63-64 | exactly one of DELETE_OLD (age at least 14 days), DELETE_NEW (age at most 10 s) or DELETE (between the two, or a NaN age), each in both directions |
| Routes.DeleteMessageAge | lib/rest/RequestHandler.ts:60-65 | a DELETE on a route ending "/messages/:id" is keyed by DELETE_OLD, DELETE_NEW or plain DELETE + the route according to the message age; a NaN age gives plain DELETE |
| Routes.FreshAndOldDeletesDiffer | lib/rest/RequestHandler.ts:60-65 | deleting a fresh and a 14-day-old message of one channel uses different buckets |
| Routes.NaNLatencyDeletesArePlain | lib/rest/RequestHandler.ts:60-65 | with a NaN latency every message DELETE of a channel is keyed "DELETE/channels/<channel id>/messages/:id", whatever the message's age |
| Routes.FirstReactions | lib/rest/RequestHandler.ts:70 | the index of the first segment starting with "reactions", or the length when there is none |
| Routes.ModifyReactionKey | lib/rest/RequestHandler.ts:69-72 | PUT or DELETE on a route with a reactions segment is keyed "MODIFY" + the route cut just after "/reactions" |
| Routes.ReactionRoutesShareModifyKey | lib/rest/RequestHandler.ts:69-72 | whatever follows "/reactions", and whether it is PUT or DELETE, the key is the same |
| Routes.GuildChannelListKey | lib/rest/RequestHandler.ts:66-67 | GET on "/guilds/<digits>/channels" is keyed "/guilds/:id/channels" for every guild |
| Routes.JoinSplit | lib/rest/RequestHandler.ts:56-59 | a path is spelled again by its segments, so segment-wise passes see the whole path |
| Routes.SplitJoin | lib/rest/RequestHandler.ts:56-59 | slash-free segments are recovered from the path they spell |
| JsNum.Tenth | lib/rest/RequestHandler.ts:158 | `~~(x / 10)` is a 32-bit integer; it is 0 for NaN and the quotient truncated toward zero for every value whose quotient fits 32 bits |
| Latency.SumTenths | lib/rest/RequestHandler.ts:158 | the sum of the tenths of a window lies within the window's length times the 32-bit range |
| Latency.Roll | lib/rest/RequestHandler.ts:157-158 | a rolling step keeps the window's length, drops the oldest sample and puts the new one last |
| Latency.LatencyRef.constructor | lib/rest/RequestHandler.ts:45-52 | the estimate starts at the offset option (0 when absent) with a window of ten copies of it; the offset windows hold ten zeros; both running values equal bias + window sum |
| Latency.SumTenthsConstant | lib/rest/RequestHandler.ts:49-50 | a window of n copies of x sums to n times `~~(x / 10)` |
| Latency.RepeatHolds | lib/rest/RequestHandler.ts:49-50 | `new Array(n).fill(x)` holds x at every index |
| Latency.LatencyRef.RecordLatency | lib/rest/RequestHandler.ts:157-158 | the round trip joins the window, the oldest leaves, the latency moves by the difference of their tenths, and the invariant running = bias + window sum is kept |
| Latency.RollKeepsBias | lib/rest/RequestHandler.ts:158 | subtracting the oldest tenth and adding the newest keeps running value minus window sum unchanged |
| Latency.WindowHoldsLatestSamples | lib/rest/RequestHandler.ts:157-158 | after any run of samples the window holds exactly the latest ten values |
| Latency.OffsetSample | lib/rest/RequestHandler.ts:186 | the offset sample is `headerNow + 500 - now`, NaN when the Date header does not parse |
| Latency.LatencyRef.CheckTimeOffset | lib/rest/RequestHandler.ts:185-192 | a sample is taken iff the last check is more than 5000 ms old; it then sets the check time to now and rolls the offset window keeping the invariant, and otherwise nothing changes |
| Latency.InitialLatencyAsWritten | lib/rest/RequestHandler.ts:48 | the latency as written is NaN exactly when the offset option is absent |
| Latency.UndefinedOffsetNeverRecovers | lib/rest/RequestHandler.ts:48 | with the option absent, the latency as written stays NaN after any round trips |
| RateLimits.RetryAfter | lib/rest/RequestHandler.ts:204 | the delay is x-ratelimit-reset-after when present, else retry-after when present, else 0 |
| RateLimits.ApplyHeaders | lib/rest/RequestHandler.ts:193-214 | limit changes only with x-ratelimit-limit; remaining is 1 without the header, else its value, with NaN read as 0; a global header with a usable delay locks globally, leaves reset alone and asks for an unblock after at least 1 ms; a non-global usable delay sets reset to `(delay or 1) + now`, after now; otherwise x-ratelimit-reset gives a reset of at least now (NaN for a NaN header or a NaN latency), and without it reset is now |
| RateLimits.MaxWithNaN | lib/rest/RequestHandler.ts:213 | `Math.max(x, now)`: NaN iff x is, otherwise the larger of the two |
| RateLimits.ResetHeaderIgnoredWithDelay | lib/rest/RequestHandler.ts:204-214 | with a non-negative delay the outcome does not depend on x-ratelimit-reset |
| RateLimits.NoDelayHeadersResetAfterOneMillisecond | lib/rest/RequestHandler.ts:204-209 | without delay headers the bucket resets at now + 1 and the global lock is untouched |
| Responses.ResponseBody | lib/rest/RequestHandler.ts:160-172 | 204 gives null; otherwise the parsed JSON when the content type is application/json and parsing succeeds, else the text |
| Responses.ErrorFor | lib/rest/RequestHandler.ts:247-252 | a REST error iff the body is an object with a code key, else an HTTP error, carrying the status and the body |
| Responses.TooManyDelay | lib/rest/RequestHandler.ts:218-225 | the 429 delay is the header delay unless the scope is shared, where it is the body's retry_after (the header delay if the body is null) |
| Responses.Thrown | lib/rest/RequestHandler.ts:219-224 | the caller is rejected with the TypeError exactly when the body is null under a shared scope; otherwise nothing settles; it never releases or resubmits |
| Responses.Retry | lib/rest/RequestHandler.ts:227-236 | the 429 retry releases the slot once and does not settle; with a truthy delay a timer releases and resubmits after that delay (no immediate resubmission); otherwise the request is resubmitted at once (no timer) |
| Responses.Classify | lib/rest/RequestHandler.ts:216-258 | a status of at most 300 releases and resolves with the body; a 502 under the cap retries after the jitter and releases; any other status above 300 but 429 releases and rejects with ErrorFor |
| Responses.ClassifyException | lib/rest/RequestHandler.ts:259-265 | an abort releases once and rejects with the timeout; any other exception does nothing |
| Responses.SuccessResolves | lib/rest/RequestHandler.ts:257-258 | a status of at most 300 resolves with the body, releases once and is not resubmitted |
| Responses.NoContentResolvesNull | lib/rest/RequestHandler.ts:161 | a 204 resolves with null whatever its headers and text |
| Responses.TooManyRequestsRejectsAndReleasesTwice | lib/rest/RequestHandler.ts:216-254 | a 429 releases the slot twice and rejects the caller at once: with the TypeError for a null body under a shared scope, with ErrorFor(429, body) otherwise; it resubmits from a timer after the delay when the delay is truthy and immediately otherwise |
| Responses.BadGatewayRetried | lib/rest/RequestHandler.ts:237-243 | a 502 under the cap schedules a retry after 100-1999 ms, releases once and does not settle |
| Responses.OtherErrorsRejected | lib/rest/RequestHandler.ts:244-254 | any other status above 300 rejects with ErrorFor, releases once and is not resubmitted |
| Responses.BadGatewayChainNeverSettles | lib/rest/RequestHandler.ts:237-243 | a run of 502 responses of any length never settles the caller, because each retry starts a fresh counter |
| Responses.FourthBadGatewayRejected | lib/rest/RequestHandler.ts:237-254 | the guard itself: a counter of 3 would reject a 502 and one of 2 would retry it; no attempt reaches either value, since each starts at 0 |
| Dispatch.UpperChar | lib/rest/RequestHandler.ts:106 | one character upper-cases to one to three characters, none a lower-case ASCII letter; either the character is kept or the result is ASCII capitals; a-z map to A-Z and other ASCII characters are kept |
| Dispatch.ToUpper | lib/rest/RequestHandler.ts:106 | the upper-cased method is one to three times as long and holds no lower-case ASCII letter |
| Dispatch.ToUpperAscii | lib/rest/RequestHandler.ts:106 | on ASCII text upper-casing keeps the length and maps each character on its own |
| Dispatch.ToUpperIdempotent | lib/rest/RequestHandler.ts:106 | upper-casing twice gives what upper-casing once gives |
| Dispatch.LongSPostIsPost | lib/rest/RequestHandler.ts:106-107 | "po" + long s + "t" upper-cases to "POST" and is accepted |
| Dispatch.Normalised | lib/rest/RequestHandler.ts:106-110 | the method is upper-cased; the path is made absolute (unchanged when it starts with "/", "/" prepended otherwise); the other options are kept |
| Dispatch.RouteFor | lib/rest/RequestHandler.ts:111 | a non-empty explicit route wins over getRoute |
| Dispatch.RequestHandler.constructor | lib/rest/RequestHandler.ts:20-53 | no lock, an empty queue and no buckets; the latency reference starts at the offset option |
| Dispatch.RequestHandler.Request | lib/rest/RequestHandler.ts:105-271 | rejected iff the upper-cased method is not a REST method, with nothing changed; otherwise the route is RouteFor of the normalised request and has a bucket, a fresh one with limit 1 if it was new; held on the ready queue iff the lock is set and the request is authenticated, at the front for priority and at the back otherwise; sent to the bucket with the queue unchanged otherwise |
| Dispatch.RequestHandler.AddBucket | lib/rest/RequestHandler.ts:112 | a route seen for the first time gets a fresh bucket, a known one keeps its bucket |
| Dispatch.RequestHandler.Hold | lib/rest/RequestHandler.ts:268 | a priority request is queued at the front, any other at the back |
| Dispatch.RequestHandler.GlobalUnblock | lib/rest/RequestHandler.ts:76-79 | the lock is cleared, the queue is left empty and every held request is handed on in queue order, each to an existing bucket |
| Dispatch.RequestHandler.HandleResponse | lib/rest/RequestHandler.ts:113-258 | the latency window rolls unless compensation is disabled; the offset window rolls only when the last check is over 5 s old; the route's bucket and the lock become what ApplyHeaders gives; the queue is untouched; the effects are Classify of the status and body with the attempt counter at 0, so a 502 always resubmits after the jitter and releases, without settling |
| Channels.From | lib/structures/Channel.ts:22-40 | the channel carries the raw id and type; each of the ten specific types gets its own class, any other type the base class |
| Channels.TypeOf | lib/structures/Channel.ts:29-38 | every specific class has a specific type, the base class none |
| Channels.ClassForInvertsTypeOf | lib/structures/Channel.ts:28-40 | the dispatch picks a specific class exactly for that class's own type |
| Channels.FromIsInjectiveOnSpecificTypes | lib/structures/Channel.ts:29-38 | distinct specific types give distinct classes |
| Channels.Mention | lib/structures/Channel.ts:47-49 | the mention is "<#", the id and ">" |
| Messages.MentionAt | lib/structures/Message.ts:150 | a channel mention at the start of the text has 17-21 digits and fits |
| Messages.ChannelMentions | lib/structures/Message.ts:150 | every extracted mention takes at least 20 characters of the content, so there are at most a twentieth as many ids as characters |
| Messages.MentionAtShape | lib/structures/Message.ts:150 | a match is "<#", only digits and ">" |
| Messages.ChannelMentionsAreIds | lib/structures/Message.ts:150 | every extracted channel id is 17-21 digits |
| Messages.ChannelMentionsOccur | lib/structures/Message.ts:150 | every extracted id appears in the content as `<#` + id + `>` |
| Messages.MentionRoundTrip | lib/structures/Message.ts:150 | extracting the channel mentions of `Channel.mention` of a 17-21 digit id gives back exactly that id |
| Messages.MentionAllRoundTrip | lib/structures/Message.ts:150 | content made of channel mentions yields exactly their ids, in order |
| Messages.KeepOnly | lib/structures/Message.ts:142-144 | the kept keys are the old keys that are listed, with their old values |
| Messages.Upsert | lib/structures/Message.ts:145 | the keys after upserting are the old keys plus the listed ids |
| Messages.UpsertLastWins | lib/structures/Message.ts:145 | a listed id maps to the last attachment listed with it |
| Messages.UpsertKeepsOthers | lib/structures/Message.ts:145 | an unlisted id keeps its old value |
| Messages.UpsertListedIgnoresStart | lib/structures/Message.ts:145 | the value of a listed id does not depend on the map before the upsert |
| Messages.Reconcile | lib/structures/Message.ts:141-146 | after reconciling, the attachment keys are exactly the listed ids |
| Messages.ReconcileValues | lib/structures/Message.ts:141-146 | after reconciling, each listed id holds its last listed attachment |
| Messages.ReconcileIdempotent | lib/structures/Message.ts:141-146 | delivering the same attachment list twice leaves the attachments as delivering it once |
| Messages.DropStale | lib/structures/Message.ts:142-144 | the deleting loop leaves exactly the old attachments whose id is listed |
| Messages.UpsertAll | lib/structures/Message.ts:145 | the upserting loop gives the upsert of every listed attachment in order |
| Messages.EditedTimestamp | lib/structures/Message.ts:152 | a non-empty timestamp is kept, null or "" clear the field |
| Messages.ReferenceTo | lib/structures/Message.ts:180-186 | an explicit null gives a null reference, a message gives a reference to it |
| Messages.Message.constructor | lib/structures/Message.ts:102-127 | identity fields are copied; mentions start empty with everyone false and then take the data's values and the content's channel mentions; attachments are exactly the listed ones, reconciled from an upsert of the list, so each id holds its last listed attachment; every other field is the data's value |
| Messages.Message.Update | lib/structures/Message.ts:129-192 | every field whose key is present takes the new value, every other field is unchanged; content and the channel mentions change together and only with new content; attachments are reconciled only when listed; edited_timestamp null and referenced_message null clear their fields |
| Messages.Message.UpdateMentionsAndContent | lib/structures/Message.ts:130-151 | the same, for mentions, activity, attachments, components and content |
| Messages.Message.UpdateRest | lib/structures/Message.ts:152-187 | the same, for the remaining fields |
| Messages.Message.UpdateMentions | lib/structures/Message.ts:130-140 | mention flags, roles, users and activity take present values only |
| Messages.Message.UpdateAttachments | lib/structures/Message.ts:141-147 | listed attachments are reconciled, components take a present value |
| Messages.Message.UpdateContent | lib/structures/Message.ts:148-151 | new content replaces the content and the channel mentions, nothing else |
| Messages.Message.UpdateEdits | lib/structures/Message.ts:152-154 | edited timestamp, embeds and flags take present values only |
| Messages.Message.UpdateReferences | lib/structures/Message.ts:169-178 | message reference, nonce and pinned take present values only |
| Messages.Message.UpdateThreadFields | lib/structures/Message.ts:179-187 | position, referenced message and sticker items take present values only |
| Messages.Message.DeleteWebhook | lib/structures/Message.ts:201-204 | fails iff the message has no webhook id; otherwise deletes this message through its webhook |
| Messages.Message.EditWebhook | lib/structures/Message.ts:224-227 | fails iff the message has no webhook id; otherwise edits this message through its webhook |

## Left out

- The transport (`fetch`, the abort timer, request headers and body building with `FormData`, files and `JSON.stringify`) is I/O. The model starts from a response that has arrived (status, parsed headers, parsed `Date`, text and parsed JSON).
- Timers (`setTimeout` for retries and for `globalUnblock`) are returned as effects with their delay, not run.
- Events (`debug`, `warn`, `error`, `request`) only observe and are not modelled; this includes the clock-skew warning and the missing-headers debug message.
- `Error.captureStackTrace` and the stack trimming of errors are runtime facilities; errors carry only their status and body.
- `Math.random` is a parameter: the 502 delay is a `Jitter` in [100, 1999].
- `Date.now()` is one `now` per response; the source reads the clock several times within microseconds.
- SequentialBucket is not part of this model. The handler only writes `limit`, `remaining` and `reset`; a bucket's own queueing rule and its initial `remaining` and `reset` are left out (`None`).
- `Base.getCreatedAt` is not part of this model; the creation time of a message id is the parameter `createdAt`.
- lib/Constants.ts is not part of this model. `RESTMethods` is taken as GET, POST, PUT, PATCH and DELETE, and the channel types as Discord's numbers 0-5 and 10-13.
- The constructor's other options (base URL, host, user agent, agent, timeouts, latency threshold) are not read by the modelled decisions.
- Rate-limit header values are integers or NaN. Fractional values (Discord sends fractional `x-ratelimit-reset-after`) and a header present with an empty string are not modelled.
- Responses.TooManyDelay: the body's `retry_after` is an integer or NaN. Discord sends it in fractional seconds; a value in (0, 1) is truthy, so RequestHandler.ts:227 arms a timer of under 1 ms, which the integer model cannot express.
- dist/lib/routes/Guilds.js and the REST wrappers of other structures are thin calls into `authRequest`.
- The message's cache side effects are not modelled: `users.update`, `members.update`, the author, application, channel lookup, interaction and thread, and `Channel.from` for threads. Mentioned users, roles and referenced messages are held by id.
- `Collection.update` of an existing attachment is modelled as a replacement by the new attachment; a merge of old and new fields is not captured, nor is insertion order.
- Channel construction is modelled as a value (its class, id and type); the subclasses' own fields are left out.
- Dispatch.ToUpper, Dispatch.UpperChar: a non-ASCII character whose upper-case form is not ASCII (é to É, Greek, Cyrillic) is kept unchanged rather than mapped. Any such result contains a non-ASCII character either way, so whether a method is accepted is decided as in the source; only the text of an invalid method's error can differ.
- Dispatch.RequestHandler.constructor: the handler starts its latency at the corrected value (0 when the offset option is absent), so the handler's own requests never see a NaN latency. The as-written consequences of a NaN latency are stated on the functions themselves: Routes.NaNLatencyDeletesArePlain for `getRoute`, and RateLimits.ApplyHeaders for the reset at RequestHandler.ts:213.
- RateLimits.ApplyHeaders: for the x-ratelimit-reset branch it states that the reset is at least now (or NaN), not the exact value `max(100 * reset - latency, now)`, nor the 250 ms case for `/reactions/:id` routes.
- Responses.Classify: its own contract does not describe the 429 case; `Responses.TooManyRequestsRejectsAndReleasesTwice` states that case's settlement, its two releases and how the request is resubmitted.

## Findings

| source | as written | input that shows it | evidently intended | confidence | as-written member | corrected member |
|---|---|---|---|---|---|---|
| lib/rest/RequestHandler.ts:48 | `latencyRef.latency` (and the `raw` window) start from the raw `options.ratelimiterOffset`, which is `undefined` when the option is not given, although the handler's own options default it to 0 at :41 | a handler created without `ratelimiterOffset`: the latency is NaN and stays NaN after any round trips; every message DELETE is then a plain DELETE whatever its age (Routes.NaNLatencyDeletesArePlain), and every reset from x-ratelimit-reset is NaN | start from the defaulted option, 0 | high; not executed | Latency.UndefinedOffsetNeverRecovers | Latency.LatencyRef.constructor |
