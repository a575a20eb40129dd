# Graph change-notification relay: a Dafny model

This project models the two pieces of the msgraph-subscriptions sample that
make decisions:

- **The notification endpoint** (`routes/listen.js`, `POST /listen`). Microsoft
  Graph calls it to deliver change notifications. It answers the endpoint
  validation handshake by echoing `validationToken` as `text/plain`. Otherwise it
  checks the batch's `validationTokens` (all must validate). Then it walks
  `value` in array order. It drops an item whose `clientState` is not the
  configured secret, and an item whose `subscriptionId` the registry does not
  know. For the rest it takes one of two paths. The encrypted path unwraps the
  symmetric key, verifies the signature, and only then decrypts, parses and
  emits a `chatMessage` event. The plain path fetches `/me/messages/{id}`
  (fields `subject,id`) for the owning account and emits a `message` event; a
  failed fetch is logged and dropped. Events go to the socket room named by the
  item's subscription id. The handler ends with `202` and an empty body.
- **The subscription registry** (`helpers/dbHelper.js`). This is a module-level
  `Map` from subscription id to owning account id, with get, scan-by-owner, add
  (overwrite) and delete.

Files:

- `wrappers.dfy`: `Option` and `Result`.
- `db_helper.dfy`: module `DbHelper`. Class `SubscriptionDb` holds the map
  (`storage`) and its iteration order (`order`), because a JavaScript `Map`
  iterates in insertion order. Filtering lemmas back the scan.
- `listen.dfy`: module `Listen`. It holds the request and notification data,
  the collaborators as an `Oracles` value, and specification functions
  (`EncryptedOutcome`, `PlainOutcome`, `ItemOutcome`, `RunBatch`/`BatchOutcome`,
  `Handle`). It also holds the imperative handler (`HandleListen`, `ProcessBatch`,
  `ProcessItem`, `ProcessEncryptedNotification`, `ProcessNotification`), each
  proved equal to its specification function.
- `listen_properties.dfy`: module `ListenProperties`. It holds the lemmas about
  whole requests.

How effects are modelled:

- `emitNotification` appends an `Emission(room, "notification_received", event)`
  to the emission log.
- Every invocation of a collaborator is appended to a call trace. These are
  token validation, key unwrap, signature check, payload decryption and the
  Graph fetch. The trace makes "decrypt only after a valid signature" a
  checkable statement.
- An exception that leaves the async handler ends the loop. The response is then
  `Unhandled(e)`: the promise rejects and no response is written. The
  emissions made before it stay in the log.
- The handler method has no `modifies` clause, so it cannot change the registry.
- Loose equality `notification.clientState == process.env.SUBSCRIPTION_CLIENT_STATE`
  is modelled on `Option<string>`, where `None` stands for an absent or null
  value. Two strings compare equal when they are the same string. An absent
  clientState matches an unset secret, as `undefined == undefined` does in
  JavaScript.

Failure paths, as the code behaves:

- A body without `value` throws when the loop reads `req.body.value.length`.
- An empty `validationTokens` array makes `reduce` throw.
- On the encrypted path, a failure of key unwrap, decryption or `JSON.parse` is
  not caught. It escapes the handler and stops the batch.
- A notification with neither `resourceData` nor `encryptedContent` throws at
  `notification.resourceData.id`, before the `try` block.
- `app.js` mounts only the index router (`app.js:77`), so as shipped the listen
  router cannot be reached. The model describes the router itself.

## Model

| member | source | states |
|---|---|---|
| DbHelper.SubscriptionDb.constructor | helpers/dbHelper.js:4 | the registry starts empty, with no ids in its iteration order |
| DbHelper.SubscriptionDb.GetSubscription | helpers/dbHelper.js:12-21 | returns `{subscriptionId, userAccountId}` exactly when the id is stored with a truthy (non-empty) owner; otherwise null, including for an id stored with `''` |
| DbHelper.SubscriptionDb.GetSubscriptionsByUserAccountId | helpers/dbHelper.js:27-31 | returns exactly the ids whose stored owner is `=== userAccountId`, each once, as a subsequence of the map's insertion order; reads the registry only |
| DbHelper.SubscriptionDb.AddSubscription | helpers/dbHelper.js:37-39 | sets the owner (overwriting, one entry per id); a new id goes last in iteration order, an existing id keeps its place; a later get returns the record when the owner is non-empty; no other id's get changes |
| DbHelper.SubscriptionDb.DeleteSubscription | helpers/dbHelper.js:44-46 | removes the id from map and order; a later get returns null; every other id's get is unchanged; deleting an absent id changes nothing |
| DbHelper.FilterProperties | helpers/dbHelper.js:28-30 | `filter` keeps exactly the elements satisfying the predicate, keeps distinct elements distinct, and keeps their order |
| DbHelper.ScanAfterAddingNew | helpers/dbHelper.js:27-39 | after adding a new id, the scan for an owner is the previous scan with the new id appended exactly when it has that owner (insertion order) |
| Listen.EncryptedOutcome | routes/listen.js:79-106 | a failed key unwrap throws `KeyUnwrapError` with only the unwrap call made; after a valid signature, a failed decryption throws `PayloadDecryptError` and a failed parse `JsonSyntaxError`, emitting nothing; when all succeed it emits exactly one `chatMessage` carrying the parsed decrypted payload to room `subscriptionId`; nothing is emitted and nothing thrown exactly when the signature is invalid; a decryption only ever directly follows a successful signature check of the same data and key |
| Listen.PlainOutcome | routes/listen.js:114-136 | without `resourceData` it throws before any fetch; otherwise it makes exactly one fetch of `/me/messages/{id}` selecting `subject,id` for the owning account and never throws; it emits exactly one `message` event with the fetched resource to room `subscriptionId` iff the fetch succeeds |
| Listen.ItemOutcome | routes/listen.js:45-69 | a clientState mismatch or an unknown subscription has no effect at all; an admitted item with `encryptedContent` takes the encrypted path; any other admitted item takes the plain path for the subscription's `userAccountId`, and a successful fetch emits exactly one `message` with the fetched resource; at most one emission, addressed to the item's own subscription id |
| Listen.ThrownPrefixPersists | routes/listen.js:45-69 | once an item throws, the items after it are not processed: the batch's effects are those of the prefix |
| Listen.ProcessEncryptedNotification | routes/listen.js:79-106 | the straight-line procedure yields exactly the effects of `EncryptedOutcome` |
| Listen.ProcessNotification | routes/listen.js:114-136 | the procedure yields exactly the effects of `PlainOutcome` |
| Listen.ProcessItem | routes/listen.js:46-67 | one loop iteration yields exactly the effects of `ItemOutcome` |
| Listen.ProcessBatch | routes/listen.js:45-69 | the index loop yields exactly the effects of `BatchOutcome`, leaving at the first exception |
| Listen.HandleListen | routes/listen.js:14-73 | the handler's response, emissions and calls are exactly `Handle` of the request, the secret and the registry's map (which it does not modify) |
| ListenProperties.ReduceAndIsConjunction | routes/listen.js:35-41 | `reduce((x, y) => x && y)` over a non-empty array is true iff every element is |
| ListenProperties.BatchAppend | routes/listen.js:45-69 | processing `a + b` is processing `a`, then, unless `a` threw, processing `b` |
| ListenProperties.QuietItemIsInvisible | routes/listen.js:45-69 | an item with no effects can be removed from any batch without changing its outcome |
| ListenProperties.SilentItemKeepsSiblings | routes/listen.js:45-69 | an item that emits nothing and does not throw leaves the batch's emissions and exception as without it |
| ListenProperties.ClientStateMismatchSkipped | routes/listen.js:48-49 | an item whose clientState differs from the secret changes nothing; items before and after it are processed as if it were absent |
| ListenProperties.UnknownSubscriptionSkipped | routes/listen.js:50-54 | an item whose subscription the registry does not return changes nothing; its siblings are processed as without it |
| ListenProperties.InvalidSignatureSkipped | routes/listen.js:86-105 | an accepted encrypted item with an invalid signature is never decrypted, emits nothing, and its siblings' emissions and the batch's exception are as without it |
| ListenProperties.FetchFailureSkipped | routes/listen.js:120-135 | an accepted plain item whose fetch fails emits nothing and does not stop the loop |
| ListenProperties.BatchThrowsIffSomeItemThrows | routes/listen.js:45-69 | the loop throws iff some item, processed alone, throws |
| ListenProperties.EmissionsFollowItems | routes/listen.js:45-69 | when each item emits at most once, each emission comes from a distinct item, in item order; if nothing threw, every emitting item is represented |
| ListenProperties.BatchEmissionsFollowItems | routes/listen.js:45-69 | in the handler's loop, each emission is the single emission of a distinct item whose clientState matched and whose subscription is registered; emissions are in item order and go to the room named by their own item's subscriptionId; without an exception none is missing |
| ListenProperties.EmittingItemReachesBatchLog | routes/listen.js:45-69 | when the loop does not throw, the emission of every item that emits is in the log |
| ListenProperties.PassingGateRunsBatch | routes/listen.js:31-72 | a request that is answered 202 without a failed token has `value`, its loop did not throw, and the handler's emissions are the loop's |
| ListenProperties.FetchedMessageIsEmitted | routes/listen.js:45-69 | in a request answered 202 whose tokens did not fail, each admitted plain notification whose fetch of `/me/messages/{id}` succeeds puts one `message` event with the fetched resource, addressed to its subscription's room, in the log |
| ListenProperties.DecryptedMessageIsEmitted | routes/listen.js:58-104 | in a request answered 202 whose tokens did not fail, each admitted encrypted notification that unwraps, verifies, decrypts and parses puts one `chatMessage` event with the parsed payload, addressed to its subscription's room, in the log |
| ListenProperties.BatchDecryptsOnlyAfterValidSignature | routes/listen.js:45-69 | if each item's calls decrypt only after valid signatures, so do the loop's calls |
| ListenProperties.HandlerDecryptsOnlyAfterValidSignature | routes/listen.js:81-98 | over a whole request, every `decryptPayload` call directly follows a `verifySignature` call on the same data and key that returned true |
| ListenProperties.HandshakeEchoesToken | routes/listen.js:22-26 | a truthy `validationToken` gets status 200, `text/plain`, the token verbatim, with no calls and no emissions |
| ListenProperties.TokenRejectionEmitsNothing | routes/listen.js:31-44 | if any validation token fails, every token is still checked, nothing is emitted and the response is 202 with an empty body |
| ListenProperties.TokenAcceptanceProcessesBatch | routes/listen.js:31-45 | if every token validates, response and emissions are those of the same request without tokens, and the calls are the token checks followed by that request's calls |
| ListenProperties.EmptyTokenListThrows | routes/listen.js:41 | an empty `validationTokens` array escapes as the `reduce` TypeError, with nothing processed |
| ListenProperties.CompletionIs202 | routes/listen.js:31-72 | outside the handshake the response is 202 with an empty body or an escaping exception; it is 202 iff the token list is not empty and either a token failed or `value` is present and no item throws |

## Left out

- The cryptography of `certHelper` (RSA-OAEP unwrap, HMAC-SHA256 check, AES-CBC decryption, certificates) is not part of this model. Each step is an oracle that may fail.
- `tokenHelper.isTokenValid` (JWT checks) is an oracle returning a boolean. A rejected promise from it (which would make `Promise.all` reject) is not modelled.
- `Promise.all` runs the token checks concurrently. The model checks them one after another, in array order; the conjunction does not depend on the order.
- The Graph client is not part of this model. `getGraphClientForUser` is assumed not to throw; the fetch `client.api(path).select(fields).get()` is an oracle taking account, path and fields. Tokens, MSAL and HTTP are not modelled.
- `JSON.parse` is an oracle that may fail. JSON numbers are modelled as integers.
- socket.io (`helpers/socketHelper.js`) is not modelled: no rooms, joins, CORS or delivery. An emission is an entry in the log.
- `console.log`/`console.error` output is not modelled.
- Request fields are typed: a string `subscriptionId`, `resourceData` with a string `id`, `value` as an array when present, `validationToken` as a single string. JSON bodies whose fields have other JavaScript types are not modelled.
- What Express does with an unhandled rejection is not modelled beyond "no response is written" (`Unhandled`).
- The `charset` parameter Express adds to `text/plain` is not modelled.
- Timing of the clientState comparison is not modelled.
- DbHelper.SubscriptionDb.GetSubscription: owners are strings, so the only falsy owner modelled is `''`. `undefined` or `null` owners (for example from a session without `userAccountId`) are not modelled.
- routes/delegated.js, routes/apponly.js, routes/index.js, app.js and public/javascript/watch-client.js (sign-in, subscription creation, sessions, templates, browser UI) are not part of this model. routes/delegated.js calls `AddSubscription` (routes/delegated.js:77) and `DeleteSubscription` (routes/delegated.js:92). routes/apponly.js never reaches the registry: its import of the registry is commented out (routes/apponly.js:9), so the add at routes/apponly.js:88 throws a ReferenceError that routes/apponly.js:92 catches, and its delete is commented out (routes/apponly.js:108).
- The registry is fixed for the whole of one request: every lookup reads the same map. In the source each `await` (the token checks, each plain-path fetch) lets other requests run, including subscription adds and deletes, so a later item's lookup can see a different registry. Interleaving with other requests, in the registry and in the emission log, is not modelled.
