# Tor Weather: subscriptions and notification state

Tor Weather lets a relay operator subscribe a Tor relay, by fingerprint, to
e-mail notifications about the relay's health. Two kinds of notification
exist: NODE_DOWN (the relay has been unreachable for longer than a chosen
number of hours) and OUTDATED_VER (the relay runs a version the directory
authorities no longer recommend). Every subscription is a document in the
"subscribers" collection. It holds the fingerprint, the operator's e-mail and
one sub-document per kind, with a `sent` flag and, for NODE_DOWN, the duration
in hours. Scheduled jobs walk the documents whose flag is unset, fetch a fresh
snapshot of each relay, send the notification when its condition holds, and
only then set the flag. Two web forms put documents into the collection and
take them out.

The model has six modules:

- `Schemas` (schemas.dfy): the `Notif` enumeration and the `RelayData`
  snapshot.
- `Utils` (utils.dfy): the whole hours a relay has been down.
- `Store` (relay.dfy): the collection, as a `Collection` class whose `docs`
  field maps fingerprints to documents. Also the `Relay` handle, whose methods
  subscribe, unsubscribe, remove one kind, set a flag and read the getters.
  Each method is tied to a pure step function on the map, and the properties
  are proved about those step functions.
- `Checks` (check.dfy): the hourly, daily and monthly jobs, as a `Check`
  class. A job has a loop over its kinds, and inside it a loop over the cursor
  of pending relays. The walk over one cursor is specified by `RunCursor`, and
  a whole job is specified in terms of it.
- `SubscribeRoute` (subscribe.dfy) and `UnsubscribeRoute` (unsubscribe.dfy):
  the two form handlers. Each is a method that calls the `Relay` methods and
  is tied to a pure `Respond` function from request and collection to page and
  new collection.

Outside effects are parameters:

- the relay lookup is a function from fingerprint to an optional snapshot;
- the e-mail validator is a predicate on strings;
- the notifier is a predicate on deliveries (true when sending returns,
  false when it raises);
- the label shown for an option of the unsubscribe page is a function from
  option value to an optional label;
- the current time is an integer number of seconds.

An exception that nothing catches is modelled as an error value. In a job it
stops the job, because nothing in the job's loops catches it. In a route it
gives a server-error page.

## Model

| member | source | states |
|---|---|---|
| Schemas.NotifNamed | torweather/schemas.py:12-28 | Looking a kind up by name gives a member with exactly that name. A name no member has gives None, where `getattr` raises AttributeError. |
| Schemas.NameRoundTrip | torweather/schemas.py:12-28 | Looking a member up by its own name gives the member back, so member names identify kinds. |
| Schemas.OnlyAssignedNamesAreMembers | torweather/schemas.py:15-28 | Twelve names are declared. Exactly NODE_DOWN and OUTDATED_VER, the two with values, resolve to members. |
| Schemas.RequestedFieldsDistinct | torweather/relay.py:41-52 | The details request asks for ten distinct fields, one per field of the snapshot record (torweather/schemas.py:31-43). |
| Schemas.ValuesIdentifyKinds | torweather/schemas.py:15-20 | The values of the two members (`Notif.Subject`, `Notif.Template`) are distinct: no two kinds share a subject ("Node down", "Node out of date") or a template file, and every template is a `.txt` file. |
| Utils.NodeDownDuration | torweather/utils.py:17-20 | The result is the elapsed seconds floored to whole hours: h hours means at least 3600h and less than 3600(h+1) seconds have passed. |
| Utils.UnderAnHourIsZero | torweather/utils.py:19-20 | Less than an hour down counts as zero hours. |
| Utils.NonNegative | torweather/utils.py:18-20 | The result is never negative once `now` is at or after `lastSeen`. |
| Utils.Monotone | torweather/utils.py:17-19 | For a fixed `lastSeen` the result never decreases as time passes. |
| Utils.WholeHours | torweather/utils.py:19-20 | Exactly h hours plus less than one more hour gives h. |
| Store.FreshKindsShape | torweather/relay.py:167-170 | A new subscription has one sub-document per requested kind, each unsent. Only NODE_DOWN carries the duration. |
| Store.SubscribeAddsOneDocument | torweather/relay.py:160-176 | A successful subscribe returns true and adds exactly one document, for this fingerprint, holding the e-mail and the requested kinds. Every other document is kept. |
| Store.SubscribeKeepsWellFormed | torweather/relay.py:160-171 | Subscribing with at least one kind keeps every document well formed: it keeps its fingerprint, has a kind, and has a duration only on NODE_DOWN. |
| Store.SubscribeWithoutKindsStoresEmptyDocument | torweather/relay.py:167-171 | Without a kind, subscribe stores a document with no kinds. The caller's non-empty guard is what prevents this. |
| Store.ResubscribeRejected | torweather/relay.py:152-159 | Subscribing an already subscribed relay changes nothing. It fails with InvalidEmail when the e-mail is invalid, because the e-mail is checked first, and otherwise with RelaySubscribed. |
| Store.GettersAfterSubscribe | torweather/relay.py:91-107 | After subscribing, the e-mail getter returns the stored e-mail. The duration getter returns the stored duration, or a missing-key error when NODE_DOWN was not requested. |
| Store.UnsubscribeDeletesOnlyThat | torweather/relay.py:192-198 | For a subscribed relay, unsubscribe returns true and deletes its document and no other. |
| Store.UnsubscribeSingleKeepsWellFormed | torweather/relay.py:225-233 | Removing one kind never leaves a document without kinds. |
| Store.UnsubscribeSingleEffect | torweather/relay.py:213-234 | Removing a subscribed kind drops only that key, or deletes the whole document when it was the only kind. The e-mail, the other kinds and the other documents are kept. |
| Store.RemoveKindsOneByOne | torweather/relay.py:200-234 | After subscribing both kinds, removing one leaves only the other. Removing that one too restores the collection as it was before the subscription. |
| Store.UpdateNotifStatusFrame | torweather/relay.py:236-262 | Setting a flag changes only that kind's `sent`. The duration, the e-mail, the other kinds and the other documents are kept, and well-formedness is preserved. |
| Store.UpdateNotifStatusIdempotent | torweather/relay.py:259-262 | Setting a flag twice gives the same result and collection as setting it once. |
| Store.Collection.Find | torweather/check.py:46 | The cursor lists each relay whose kind is pending exactly once, and lists no other relay. |
| Store.BuildDocument | torweather/relay.py:160-170 | The loop that builds the document produces the fingerprint, the e-mail and one fresh sub-document per requested kind. |
| Store.Relay.Duration | torweather/relay.py:91-98 | Returns the stored NODE_DOWN duration, as `DurationOf` gives it on the map. Fails with RelayNotSubscribed when there is no document, and with a missing-key error when the document has no NODE_DOWN duration. |
| Store.Relay.Email | torweather/relay.py:100-107 | Returns the stored e-mail, as `EmailOf` gives it on the map, or RelayNotSubscribed when there is no document. |
| Store.Relay.Subscribe | torweather/relay.py:129-176 | Its result and new collection are those of `SubscribeStep`: validate the e-mail, then reject a duplicate, then insert the document. Failures leave the collection unchanged. A non-empty kind list keeps the collection well formed. |
| Store.Relay.Unsubscribe | torweather/relay.py:178-198 | Its result and new collection are those of `UnsubscribeStep`: fail with RelayNotSubscribed and no change, or delete this relay's document. |
| Store.Relay.UnsubscribeSingle | torweather/relay.py:200-234 | Its result and new collection are those of `UnsubscribeSingleStep`: check the relay, then the kind, failing with no change. Then remove the kind, or the whole document when it is the last kind. Well-formedness is kept. |
| Store.Relay.UpdateNotifStatus | torweather/relay.py:236-262 | Its result and new collection are those of `UpdateNotifStatusStep`: check the relay, then the kind, failing with no change. Then set `<kind>.sent` to the status, true by default. |
| Checks.CadenceKinds | torweather/check.py:37-44 | The job lists, also at lines 65-69 and 89-93: no job lists a kind twice, and only the monthly job lists none. |
| Checks.Decide | torweather/check.py:49-57 | Deciding fails only for a NODE_DOWN sub-document without a duration, and then with a missing-key error (line 50). NODE_DOWN is due exactly when the relay has been down for at least the stored hours plus one whole hour, the strict `>` on floored hours. The daily job is due exactly for OUTDATED_VER with version status "unrecommended" (lines 74-77). The monthly job never decides anything due. |
| Checks.VisitRelay | torweather/check.py:48-57 | One relay of the cursor notifies exactly when the relay resolves, its document and sub-document exist, the kind is due and the notifier accepts, and then the notification carries the stored e-mail and the snapshot. It skips exactly when the relay resolves and the kind is not due. It stops on a failed send only after the kind was decided due. |
| Checks.RunCursor | torweather/check.py:45-57 | The collection after a walk is the one before it with the flag set for exactly the notifications sent. Every notification is for the walked kind and goes to a relay on the cursor. |
| Checks.OncePerTargetCount | torweather/check.py:45-57 | When no pair is notified twice, a job sends exactly as many notifications as the pairs it notifies. |
| Checks.MarkAllMeaning | torweather/relay.py:259-262 | Setting the flags of a list of notifications one after another (`MarkAll`, by `MarkSent`, which is `update_notif_status` on the map) sets exactly those flags and changes nothing else. |
| Checks.MarkAllAppend | torweather/check.py:45-57 | Setting the flags of two lists one after the other equals setting the flags of their concatenation. |
| Checks.MarkAllSettles | torweather/check.py:53-57 | After the flags are set, no notified (relay, kind) pair is pending, and well-formed documents stay well formed. |
| Checks.PassDeliveries | torweather/check.py:45-57 | Every notification of a walk goes to a distinct relay whose kind was pending. It carries that relay's stored e-mail and snapshot, its condition held, and the notifier accepted it. |
| Checks.PassDecidesEveryRelay | torweather/check.py:47-57 | A walk that reaches the end of its cursor has notified each pending relay exactly when the kind's condition held for it. |
| Checks.PassHalt | torweather/check.py:48-54 | A walk that stops early stops at a relay of the cursor that was not notified and whose document is unchanged, so its flag is still unset. It stops only because visiting that relay raised. Either the lookup failed, or the NODE_DOWN duration was missing (line 50), or the condition held and the notifier refused the delivery (line 53). |
| Checks.PassFinishes | torweather/check.py:46-57 | A walk runs to the end of its cursor unless visiting some relay of the cursor raises. |
| Checks.PassOnlySetsFlags | torweather/check.py:50-57 | A walk changes only the flag of the walked kind on the notified relays. A relay whose condition was false keeps its document unchanged. |
| Checks.NoRedelivery | torweather/check.py:45-57 | At most once: a later walk over the relays still pending notifies none of the pairs an earlier walk notified, whatever the time, snapshots and notifier. |
| Checks.TickStep | torweather/check.py:45-47 | One more walk, for a kind not walked before, keeps the job's properties: the collection is the marked start, no pair is notified twice, and every notification is justified by the start of the job. |
| Checks.TickDecided | torweather/check.py:45-57 | A walk that finishes decides every pending pair of its kind, and what earlier walks decided stays decided. |
| Checks.TickAborted | torweather/check.py:45-57 | A walk that stops early ends the job at a pair of the job's kinds that was pending at the start of the job and was not notified, and visiting that pair raised the cause the job ends with. |
| Checks.NodeDownThreshold | torweather/check.py:50 | With the default 48 hours, a relay down for 49 hours is due. A relay down for 48 or 47 hours is not. |
| Checks.DecideConditions | torweather/check.py:49-57 | NODE_DOWN is due exactly when the down hours are strictly greater than the stored duration. A missing duration is a missing-key error. OUTDATED_VER is due exactly when the version status is "unrecommended". The monthly job decides nothing. |
| Checks.JobsPartitionKinds | torweather/check.py:37-44 | The hourly job walks only NODE_DOWN, the daily job only OUTDATED_VER (lines 65-69), and the monthly job nothing (lines 89-93). |
| Checks.Check.Visit | torweather/check.py:48-57 | One relay of a walk: resolve it, read its sub-document, decide, and send when due. The result is the visit the walk specification prescribes. |
| Checks.Check.RunKind | torweather/check.py:46-57 | The inner loop over the cursor gives exactly the collection, notifications and stop that `RunCursor` prescribes for that cursor. |
| Checks.Check.Tick | torweather/check.py:45-57 | A job's collection is the start with exactly the notified flags set. No pair is notified twice, and every notification was pending, due and accepted. A finished job decided every pending pair of its kinds. A job that ends early ends at a pending, unnotified pair whose visit raised. When no pending pair of its kinds raises, the job finishes. A job without kinds does nothing. Well-formedness is kept. |
| Checks.Check.Hourly | torweather/check.py:31-57 | Sends only NODE_DOWN notifications, each to the stored e-mail with the relay's snapshot and accepted by the notifier (lines 53-54), for relays whose flag was unset and whose down hours exceed the stored duration, and sets their flags. It ends early only at a pending relay whose lookup failed, whose duration was missing, or whose due delivery the notifier refused. When no pending relay raises, it finishes and notifies exactly the relays that are due. |
| Checks.Check.Daily | torweather/check.py:59-81 | Sends only OUTDATED_VER notifications, each to the stored e-mail with the relay's snapshot and accepted by the notifier (lines 76-77), for relays whose flag was unset and whose version status is "unrecommended", and sets their flags. It ends early only at a pending relay whose lookup failed or whose due delivery the notifier refused. When no pending relay raises, it finishes and notifies exactly the "unrecommended" relays. |
| Checks.Check.Monthly | torweather/check.py:83-93 | Sends nothing and changes nothing. |
| Checks.NodeDownScenario | torweather/check.py:45-54 | A relay subscribed to NODE_DOWN with the default 48 hours, last seen 50 hours ago, that resolves, with an accepting notifier: the hourly job finishes and sends exactly one notification, to the subscribed address with that snapshot. |
| SubscribeRoute.UnitHours | torweather/routes/subscribe.py:34-39 | A unit is a positive number of hours. |
| SubscribeRoute.ReadSelection | torweather/routes/subscribe.py:21-41 | The imperative form reading gives the selected kinds and the selected hours. |
| SubscribeRoute.SelectedKinds | torweather/routes/subscribe.py:31-41 | The kind list contains NODE_DOWN exactly when its box says "on" and OUTDATED_VER exactly when its box does. It lists them in that order, with no duplicates, and is empty exactly when neither box is ticked. |
| SubscribeRoute.SelectedHours | torweather/routes/subscribe.py:25-39 | Reading the duration fails exactly when `int()` rejects the field, with a not-an-integer error. A non-negative number of units never gives fewer hours than the number, and an empty field gives at least the default 48. |
| SubscribeRoute.SelectedHoursConversion | torweather/routes/subscribe.py:25-39 | Days, weeks and months multiply by 24, 168 and 720, and any other unit leaves the number as is. Without the node-down box the number is not converted. |
| SubscribeRoute.BlankDurationDefaults | torweather/routes/subscribe.py:25-39 | An empty duration field reads exactly as the number 48, so the unit then applies to 48 as to any number (with `SelectedHoursConversion`: 1152 for days, 8064 for weeks, 34560 for months). Without the node-down box, or with the unit "hours", it is 48. |
| SubscribeRoute.Respond | torweather/routes/subscribe.py:17-70 | A GET shows the bare form and changes nothing. A POST never changes or removes a stored document, and adds at most the document of the posted fingerprint. |
| SubscribeRoute.RespondMeaning | torweather/routes/subscribe.py:42-63 | The subscribed page appears exactly when the number parses, a kind is ticked, the relay resolves, the e-mail is valid and the relay was not subscribed. In that case the one new document holds the selection. The "not subscribed" outcome never appears, and every other page leaves the store unchanged. |
| SubscribeRoute.RespondErrors | torweather/routes/subscribe.py:25-69 | The error pages, in order: a malformed number is a server error, then "Choose at least one notification to subscribe.", then "Not a valid relay fingerprint.", then "Not a valid email address.". A duplicate subscription is an uncaught error. |
| SubscribeRoute.RespondKeepsWellFormed | torweather/routes/subscribe.py:43-49 | Because the route refuses an empty selection, the store stays well formed. |
| SubscribeRoute.Handle | torweather/routes/subscribe.py:17-70 | The handler gives the page and the collection that `Respond` prescribes, and keeps the store well formed. |
| UnsubscribeRoute.KindName | torweather/routes/unsubscribe.py:43 | The mapped name has the value's length, no dash and no lower-case letter, and keeps every character that is neither. |
| UnsubscribeRoute.FormValueResolves | torweather/routes/unsubscribe.py:43 | "node-down" maps to NODE_DOWN and "outdated-ver" to OUTDATED_VER, and each resolves to its kind. |
| UnsubscribeRoute.KindNameNormal | torweather/routes/unsubscribe.py:43 | A mapped name has no dash and no lower-case letter, and mapping it again changes nothing. |
| UnsubscribeRoute.KindNameIgnoresCaseAndDashes | torweather/routes/unsubscribe.py:43 | Upper-casing a value first, or replacing its dashes first, gives the same name. |
| UnsubscribeRoute.KindNameSpellings | torweather/routes/unsubscribe.py:43 | "NODE_DOWN", "node_down" and "Outdated-Ver" resolve to kinds as well. |
| UnsubscribeRoute.AllIsNoKind | torweather/routes/unsubscribe.py:33-43 | "all" is no kind name, so it is handled by its own branch. |
| UnsubscribeRoute.Respond | torweather/routes/unsubscribe.py:20-82 | A GET shows the bare form and changes nothing. The route never adds a document and never touches a document other than the posted fingerprint's. The store changes only when the posted e-mail is the one stored for that relay. |
| UnsubscribeRoute.EmailGuard | torweather/routes/unsubscribe.py:28-32 | A request for a relay that does not resolve, has no document, or whose e-mail is not the stored one leaves the store unchanged. A subscribed relay with the wrong e-mail gets "Email not subscribed by relay.". |
| UnsubscribeRoute.RespondAfterGuard | torweather/routes/unsubscribe.py:33-62 | Once the e-mail matches: "all" deletes the document and nothing else. A subscribed kind is removed as `unsubscribe_single` does, with its option label shown. A kind the relay lacks shows "Chosen notification not subscribed." with no change (lines 78-81). An unknown name or a missing value is an uncaught error with no change. |
| UnsubscribeRoute.NotSubscribedOutcome | torweather/routes/unsubscribe.py:71-77 | A relay without a document gets the "not unsubscribed" outcome, and nothing changes. |
| UnsubscribeRoute.RespondKeepsWellFormed | torweather/routes/unsubscribe.py:33-44 | Unsubscribing never leaves a document without kinds. |
| UnsubscribeRoute.Handle | torweather/routes/unsubscribe.py:20-82 | The handler gives the page and the collection that `Respond` prescribes, and keeps the store well formed. |

## Left out

- The relay lookup is an oracle. The details calls over HTTP (torweather/relay.py:72-89, 109-127) are not modelled: headers, URLs, status codes and JSON. A non-200 answer or an empty list is the lookup's None. Every snapshot read within one visit or request is taken to be the same snapshot.
- `Checks.Check.Tick`, `Checks.Check.Hourly`, `Checks.Check.Daily`: the clock and the relay lookup are fixed for a whole job. The source reads the current time anew for each relay it visits (torweather/utils.py:17, reached from torweather/check.py:50) and queries the details endpoint anew for each relay. The model does not capture a relay's details, or the time, changing during one job.
- The MongoDB client, the database switch for tests and the `_id` field are not modelled. The "more than four fields" test (torweather/relay.py:225) is modelled as "at least two kinds".
- E-mail validation (syntax and DNS) is an uninterpreted predicate.
- Composing and sending the e-mail (torweather/email.py) is not modelled. The notifier is a predicate on (fingerprint, address, kind, snapshot) that says whether sending returned.
- Scheduling (APScheduler, the cron cadences) and concurrency between jobs and requests are not modelled. Jobs run as sequential method calls, and the cursor is a snapshot of the pending relays at the start of the walk, in an unspecified order.
- Logging, configuration, exception classes, torweather/main.py (an older evaluator), torweather/app.py and the static script are not part of this model.
- Flask rendering, the template file read and the HTML parsing are not modelled. A route's result is a page value. The label of the unsubscribed kind is an oracle on the option value; when the page has no such option, the page is a server error.
- Nicknames inside exception messages are not modelled. The nickname is only shown on outcome pages.
- Converting form text to an integer is a three-way field value: empty, an integer, or text `int()` rejects. A missing field counts as the last.
- `Upper` models `str.upper()` on ASCII letters only. Other characters are kept as they are.
- Timestamps are integer seconds and the current time is a parameter, instead of `datetime.utcnow()` with floating-point seconds. Floor division by 3600 on integers agrees with the source's floored float division for whole seconds.
- The stored fingerprint (`self.data.fingerprint`, torweather/relay.py:161) is taken to be the fingerprint the caller queries by.
- The revision mismatches between check.py and email.py, and between exceptions.py and relay.py, are not reconciled. The calls are modelled by their evident meaning.
- The daily job's END_OF_LIFE_VER branch (torweather/check.py:78-81) is not a separate case, because no member has that name and the job's list does not contain it. `Decide` gives false for any kind other than OUTDATED_VER on the daily job.
- When a lookup, a missing key or a failed send raises inside a job, the whole job ends at that relay. The relays after it stay pending until the next run. The model follows the code, which catches nothing there, and does not skip the failing relay and go on.
- The unsubscribe route catches InvalidEmailError, but nothing on its path raises it. `Caught` keeps that mapping anyway.
