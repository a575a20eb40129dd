/**
 * The Microsoft Graph change-notification endpoint of routes/listen.js
 * (POST /listen): the validation handshake, the validation-token gate, and the
 * per-item pipeline that filters on client state and on the subscription
 * registry, then either unwraps, verifies and decrypts an encrypted payload or
 * fetches the message from Graph, and emits one event per delivered item into
 * the socket room named by the item's subscription id.
 *
 * The collaborators whose code is not part of this model (token validation,
 * the three certificate operations, JSON.parse and the Graph fetch) are the
 * fields of `Oracles`. Every invocation of a validation, certificate or Graph
 * collaborator is recorded in a call trace, and every emission in an emission
 * log, so the order in which the handler does things can be stated.
 */
module Listen {
  import opened Wrappers
  import opened DbHelper

  type Bytes = seq<bv8>

  /** A parsed JSON value, as JSON.parse or the Graph client produce it. */
  datatype Json =
    | JNull
    | JBool(b: bool)
    | JNumber(n: int)
    | JString(s: string)
    | JArray(elements: seq<Json>)
    | JObject(members: seq<(string, Json)>)

  /** `notification.encryptedContent`: three base64 strings. */
  datatype EncryptedContent = EncryptedContent(dataKey: string, dataSignature: string, data: string)

  /** `notification.resourceData`: the reference to the changed message. */
  datatype ResourceData = ResourceData(id: string)

  /** One element of `req.body.value`; `None` stands for a field that is absent (or null). */
  datatype Notification = Notification(
    subscriptionId: string,
    clientState: Option<string>,
    resourceData: Option<ResourceData>,
    encryptedContent: Option<EncryptedContent>)

  /** What the handler reads from a request: `req.query.validationToken`, `req.body.validationTokens`, `req.body.value`. */
  datatype Request = Request(
    validationToken: Option<string>,
    validationTokens: Option<seq<string>>,
    value: Option<seq<Notification>>)

  datatype EventType = Message | ChatMessage

  /** The object `{type, resource}` sent to a room. */
  datatype Event = Event(eventType: EventType, resource: Json)

  /** One event sent to every socket in a room, under an event name. */
  datatype Emission = Emission(room: string, name: string, data: Event)

  const NotificationReceived: string := "notification_received"
  const MessagesPath: string := "/me/messages/"
  const MessageFields: string := "subject,id"
  const TextPlain: string := "text/plain"

  /** An exception that escapes the async handler (its promise rejects and no response is written). */
  datatype Exception =
    | ReduceOfEmptyArray              // `[].reduce(f)` with no initial value
    | ValueUndefined                  // reading `length` of an absent `req.body.value`
    | ResourceDataUndefined           // reading `id` of an absent `notification.resourceData`
    | KeyUnwrapError(reason: string)  // certHelper.decryptSymmetricKey threw
    | PayloadDecryptError(reason: string) // certHelper.decryptPayload threw
    | JsonSyntaxError(reason: string) // JSON.parse threw

  datatype Response =
    | Sent(status: nat, contentType: Option<string>, body: string)
    | Unhandled(exception: Exception)

  /** Status 202 with an empty body. */
  const Accepted: Response := Sent(202, None, "")

  /** An invocation of a collaborator, with the arguments it received. */
  datatype Call =
    | ValidateToken(token: string)
    | UnwrapKey(dataKey: string)
    | VerifySignature(signature: string, signedData: string, signingKey: Bytes)
    | DecryptPayload(encryptedData: string, decryptionKey: Bytes)
    | FetchMessage(account: string, path: string, select: string)

  /**
   * The collaborators. The app id, tenant id and private key path they are
   * given in the source are configuration and are folded into each function.
   */
  datatype Oracles = Oracles(
    isTokenValid: string -> bool,
    decryptSymmetricKey: string -> Result<Bytes, string>,
    verifySignature: (string, string, Bytes) -> bool,
    decryptPayload: (string, Bytes) -> Result<string, string>,
    parseJson: string -> Result<Json, string>,
    fetchMessage: (string, string, string) -> Result<Json, string>)

  /** The effects of processing part of a batch: emissions, calls, and the exception that ended it, if any. */
  datatype Step = Step(emitted: seq<Emission>, calls: seq<Call>, thrown: Option<Exception>)

  /** The effects of one request. */
  datatype Outcome = Outcome(response: Response, emitted: seq<Emission>, calls: seq<Call>)

  const Quiet: Step := Step([], [], None)

  /** s followed by t (s must not have thrown). */
  function Then(s: Step, t: Step): Step {
    Step(s.emitted + t.emitted, s.calls + t.calls, t.thrown)
  }

  /** Every payload decryption immediately follows a signature check of the same data under the same key that succeeded. */
  predicate DecryptsFollowValidSignatures(calls: seq<Call>, o: Oracles) {
    forall i :: 0 <= i < |calls| && calls[i].DecryptPayload? ==>
      && 0 < i
      && calls[i - 1].VerifySignature?
      && calls[i - 1].signedData == calls[i].encryptedData
      && calls[i - 1].signingKey == calls[i].decryptionKey
      && o.verifySignature(calls[i - 1].signature, calls[i - 1].signedData, calls[i - 1].signingKey)
  }

  /** The symmetric key unwraps, but the signature over the data does not verify under it. */
  predicate SignatureRejected(ec: EncryptedContent, o: Oracles) {
    var key := o.decryptSymmetricKey(ec.dataKey);
    key.Success? && !o.verifySignature(ec.dataSignature, ec.data, key.value)
  }

  /** processEncryptedNotification: unwrap the key, verify the signature, and only then decrypt, parse and emit. */
  function EncryptedOutcome(n: Notification, o: Oracles): (s: Step)
    requires n.encryptedContent.Some?
    ensures |s.emitted| <= 1
    ensures s.emitted != [] ==> s.thrown.None?
    ensures s.emitted != [] ==> s.emitted[0].room == n.subscriptionId && s.emitted[0].data.eventType == ChatMessage
    ensures DecryptsFollowValidSignatures(s.calls, o)
    ensures s.calls != [] && s.calls[0] == UnwrapKey(n.encryptedContent.value.dataKey)
    ensures s.emitted == [] && s.thrown.None? <==> SignatureRejected(n.encryptedContent.value, o)
    // a failed key unwrap escapes before anything else is done
    ensures var ec := n.encryptedContent.value;
            var key := o.decryptSymmetricKey(ec.dataKey);
            key.Failure? ==> s == Step([], [UnwrapKey(ec.dataKey)], Some(KeyUnwrapError(key.error)))
    // after a valid signature: a failed decryption or parse escapes, otherwise the parsed payload is emitted once
    ensures var ec := n.encryptedContent.value;
            var key := o.decryptSymmetricKey(ec.dataKey);
            key.Success? && o.verifySignature(ec.dataSignature, ec.data, key.value) ==>
              var decrypted := o.decryptPayload(ec.data, key.value);
              && (decrypted.Failure? ==> s.emitted == [] && s.thrown == Some(PayloadDecryptError(decrypted.error)))
              && (decrypted.Success? ==>
                    var parsed := o.parseJson(decrypted.value);
                    && (parsed.Failure? ==> s.emitted == [] && s.thrown == Some(JsonSyntaxError(parsed.error)))
                    && (parsed.Success? ==>
                          && s.emitted == [Emission(n.subscriptionId, NotificationReceived, Event(ChatMessage, parsed.value))]
                          && s.thrown.None?))
  {
    var ec := n.encryptedContent.value;
    var unwrapped := o.decryptSymmetricKey(ec.dataKey);
    var unwrapCalls := [UnwrapKey(ec.dataKey)];
    if unwrapped.Failure? then Step([], unwrapCalls, Some(KeyUnwrapError(unwrapped.error)))
    else
      var key := unwrapped.value;
      var verifyCalls := unwrapCalls + [VerifySignature(ec.dataSignature, ec.data, key)];
      if !o.verifySignature(ec.dataSignature, ec.data, key) then Step([], verifyCalls, None)
      else
        var decrypted := o.decryptPayload(ec.data, key);
        var decryptCalls := verifyCalls + [DecryptPayload(ec.data, key)];
        if decrypted.Failure? then Step([], decryptCalls, Some(PayloadDecryptError(decrypted.error)))
        else
          var parsed := o.parseJson(decrypted.value);
          if parsed.Failure? then Step([], decryptCalls, Some(JsonSyntaxError(parsed.error)))
          else Step([Emission(n.subscriptionId, NotificationReceived, Event(ChatMessage, parsed.value))], decryptCalls, None)
  }

  /** processNotification: fetch `/me/messages/{id}` for the owning account and emit it; a failed fetch is logged and dropped. */
  function PlainOutcome(n: Notification, account: string, o: Oracles): (s: Step)
    ensures n.resourceData.None? ==> s == Step([], [], Some(ResourceDataUndefined))
    ensures n.resourceData.Some? ==>
      && s.thrown.None?
      && s.calls == [FetchMessage(account, MessagesPath + n.resourceData.value.id, MessageFields)]
    ensures s.emitted != [] <==>
      n.resourceData.Some? && o.fetchMessage(account, MessagesPath + n.resourceData.value.id, MessageFields).Success?
    ensures s.emitted != [] ==>
      s.emitted == [Emission(n.subscriptionId, NotificationReceived,
                             Event(Message, o.fetchMessage(account, MessagesPath + n.resourceData.value.id, MessageFields).value))]
  {
    if n.resourceData.None? then Step([], [], Some(ResourceDataUndefined))
    else
      var path := MessagesPath + n.resourceData.value.id;
      var fetched := o.fetchMessage(account, path, MessageFields);
      var calls := [FetchMessage(account, path, MessageFields)];
      if fetched.Failure? then Step([], calls, None)
      else Step([Emission(n.subscriptionId, NotificationReceived, Event(Message, fetched.value))], calls, None)
  }

  /** The notification passes both filters: its clientState is the configured secret and the registry returns its subscription. */
  predicate Admitted(n: Notification, secret: Option<string>, storage: map<string, string>) {
    n.clientState == secret && Lookup(storage, n.subscriptionId).Some?
  }

  /** The body of the `for` loop for one notification. */
  function ItemOutcome(n: Notification, secret: Option<string>, storage: map<string, string>, o: Oracles): (s: Step)
    ensures n.clientState != secret ==> s == Quiet
    ensures Lookup(storage, n.subscriptionId).None? ==> s == Quiet
    ensures |s.emitted| <= 1
    ensures forall e :: e in s.emitted ==> e.room == n.subscriptionId && e.name == NotificationReceived
    ensures DecryptsFollowValidSignatures(s.calls, o)
    // an admitted item takes the encrypted path when it carries encryptedContent ...
    ensures Admitted(n, secret, storage) && n.encryptedContent.Some? ==> s == EncryptedOutcome(n, o)
    // ... and otherwise the plain path, on behalf of the subscription's owner
    ensures Admitted(n, secret, storage) && n.encryptedContent.None? ==>
              s == PlainOutcome(n, Lookup(storage, n.subscriptionId).value.userAccountId, o)
    ensures Admitted(n, secret, storage) && n.encryptedContent.None? && n.resourceData.Some? ==>
              var fetched := o.fetchMessage(Lookup(storage, n.subscriptionId).value.userAccountId,
                                            MessagesPath + n.resourceData.value.id, MessageFields);
              fetched.Success? ==>
                s.emitted == [Emission(n.subscriptionId, NotificationReceived, Event(Message, fetched.value))]
  {
    if n.clientState != secret then Quiet
    else match Lookup(storage, n.subscriptionId)
      case None => Quiet
      case Some(subscription) =>
        if n.encryptedContent.Some? then EncryptedOutcome(n, o)
        else PlainOutcome(n, subscription.userAccountId, o)
  }

  /** The loop over a batch, item by item in array order, stopping at the first exception. */
  function RunBatch(items: seq<Notification>, process: Notification -> Step): Step
    decreases |items|
  {
    if items == [] then Quiet
    else
      var prev := RunBatch(items[..|items| - 1], process);
      if prev.thrown.Some? then prev
      else Then(prev, process(items[|items| - 1]))
  }

  /** The loop body the handler runs for each notification. */
  function Processor(secret: Option<string>, storage: map<string, string>, o: Oracles): Notification -> Step
  {
    n => ItemOutcome(n, secret, storage, o)
  }

  function BatchOutcome(items: seq<Notification>, secret: Option<string>, storage: map<string, string>, o: Oracles): Step
  {
    RunBatch(items, Processor(secret, storage, o))
  }

  /** Once a prefix of the batch has thrown, the items after it are never looked at. */
  lemma {:induction false} ThrownPrefixPersists(items: seq<Notification>, k: nat, process: Notification -> Step)
    requires k <= |items|
    requires RunBatch(items[..k], process).thrown.Some?
    ensures RunBatch(items, process) == RunBatch(items[..k], process)
    decreases |items| - k
  {
    if k < |items| {
      var longer := items[..k + 1];
      assert longer[..|longer| - 1] == items[..k];
      ThrownPrefixPersists(items, k + 1, process);
    } else {
      assert items[..k] == items;
    }
  }

  /** The validity of each token, in array order, as the token validator reports it for the configured app and tenant. */
  function ValidationResults(tokens: seq<string>, o: Oracles): (results: seq<bool>)
  {
    seq(|tokens|, i requires 0 <= i < |tokens| => o.isTokenValid(tokens[i]))
  }

  /** The calls that `Promise.all` makes, one per token, in array order. */
  function TokenCalls(tokens: seq<string>): seq<Call>
  {
    seq(|tokens|, i requires 0 <= i < |tokens| => ValidateToken(tokens[i]))
  }

  /** Reducing the results with logical and and no initial value: a left fold seeded with the first element. */
  function ReduceAnd(results: seq<bool>): bool
    requires |results| > 0
    decreases |results|
  {
    if |results| == 1 then results[0]
    else ReduceAnd(results[..|results| - 1]) && results[|results| - 1]
  }

  /** `req.query.validationToken` is truthy: present and not the empty string. */
  predicate IsHandshake(req: Request) {
    req.validationToken.Some? && req.validationToken.value != ""
  }

  /** The whole route handler as a function of the request, the configured client state, the registry and the collaborators. */
  function Handle(req: Request, secret: Option<string>, storage: map<string, string>, o: Oracles): Outcome
  {
    if IsHandshake(req) then Outcome(Sent(200, Some(TextPlain), req.validationToken.value), [], [])
    else
      var tokenCalls := if req.validationTokens.Some? then TokenCalls(req.validationTokens.value) else [];
      if req.validationTokens.Some? && req.validationTokens.value == [] then
        Outcome(Unhandled(ReduceOfEmptyArray), [], tokenCalls)
      else if req.validationTokens.Some? && !ReduceAnd(ValidationResults(req.validationTokens.value, o)) then
        Outcome(Accepted, [], tokenCalls)
      else if req.value.None? then
        Outcome(Unhandled(ValueUndefined), [], tokenCalls)
      else
        var batch := BatchOutcome(req.value.value, secret, storage, o);
        Outcome(if batch.thrown.Some? then Unhandled(batch.thrown.value) else Accepted, batch.emitted, tokenCalls + batch.calls)
  }

  /** processEncryptedNotification, step by step. */
  method ProcessEncryptedNotification(notification: Notification, o: Oracles) returns (step: Step)
    requires notification.encryptedContent.Some?
    ensures step == EncryptedOutcome(notification, o)
  {
    var content := notification.encryptedContent.value;
    var symmetricKey := o.decryptSymmetricKey(content.dataKey);
    step := Step([], [UnwrapKey(content.dataKey)], None);
    if symmetricKey.Failure? {
      step := step.(thrown := Some(KeyUnwrapError(symmetricKey.error)));
      return;
    }
    var isSignatureValid := o.verifySignature(content.dataSignature, content.data, symmetricKey.value);
    step := step.(calls := step.calls + [VerifySignature(content.dataSignature, content.data, symmetricKey.value)]);
    if isSignatureValid {
      var decryptedPayload := o.decryptPayload(content.data, symmetricKey.value);
      step := step.(calls := step.calls + [DecryptPayload(content.data, symmetricKey.value)]);
      if decryptedPayload.Failure? {
        step := step.(thrown := Some(PayloadDecryptError(decryptedPayload.error)));
        return;
      }
      var resource := o.parseJson(decryptedPayload.value);
      if resource.Failure? {
        step := step.(thrown := Some(JsonSyntaxError(resource.error)));
        return;
      }
      step := step.(emitted := step.emitted + [Emission(notification.subscriptionId, NotificationReceived, Event(ChatMessage, resource.value))]);
    }
  }

  /** processNotification, step by step; the try/catch covers the fetch and the emission only. */
  method ProcessNotification(notification: Notification, userAccountId: string, o: Oracles) returns (step: Step)
    ensures step == PlainOutcome(notification, userAccountId, o)
  {
    if notification.resourceData.None? {
      step := Step([], [], Some(ResourceDataUndefined));
      return;
    }
    var messageId := notification.resourceData.value.id;
    var path := MessagesPath + messageId;
    var message := o.fetchMessage(userAccountId, path, MessageFields);
    step := Step([], [FetchMessage(userAccountId, path, MessageFields)], None);
    if message.Success? {
      step := step.(emitted := step.emitted + [Emission(notification.subscriptionId, NotificationReceived, Event(Message, message.value))]);
    }
  }

  /** One iteration of the handler's loop: the client-state check, the registry lookup and the dispatch. */
  method ProcessItem(notification: Notification, secret: Option<string>, db: SubscriptionDb, o: Oracles)
    returns (step: Step)
    ensures step == ItemOutcome(notification, secret, db.storage, o)
  {
    step := Quiet;
    if notification.clientState == secret {
      var subscription := db.GetSubscription(notification.subscriptionId);
      if subscription.Some? {
        if notification.encryptedContent.Some? {
          step := ProcessEncryptedNotification(notification, o);
        } else {
          step := ProcessNotification(notification, subscription.value.userAccountId, o);
        }
      }
    }
  }

  /** The handler's `for` loop over `req.body.value`, in array order, left by the first exception. */
  method ProcessBatch(items: seq<Notification>, secret: Option<string>, db: SubscriptionDb, o: Oracles)
    returns (batch: Step)
    ensures batch == BatchOutcome(items, secret, db.storage, o)
  {
    ghost var process := Processor(secret, db.storage, o);
    var emitted, calls := [], [];
    for i := 0 to |items|
      invariant RunBatch(items[..i], process).thrown.None?
      invariant emitted == RunBatch(items[..i], process).emitted
      invariant calls == RunBatch(items[..i], process).calls
    {
      ghost var before := RunBatch(items[..i], process);
      var step := ProcessItem(items[i], secret, db, o);
      assert items[..i + 1][..i] == items[..i];
      assert step == process(items[i]);
      assert RunBatch(items[..i + 1], process) == Then(before, step);
      emitted, calls := emitted + step.emitted, calls + step.calls;
      if step.thrown.Some? {
        ThrownPrefixPersists(items, i + 1, process);
        return Step(emitted, calls, step.thrown);
      }
    }
    assert items[..|items|] == items;
    batch := Step(emitted, calls, None);
  }

  /**
   * The POST handler. It reads the registry and never changes it (it has no
   * modifies clause); its effects are the response, the emissions and the calls.
   */
  method HandleListen(req: Request, secret: Option<string>, db: SubscriptionDb, o: Oracles)
    returns (response: Response, emitted: seq<Emission>, calls: seq<Call>)
    ensures Outcome(response, emitted, calls) == Handle(req, secret, db.storage, o)
  {
    emitted, calls := [], [];
    if IsHandshake(req) {
      response := Sent(200, Some(TextPlain), req.validationToken.value);
      return;
    }

    var areTokensValid := true;
    if req.validationTokens.Some? {
      var tokens := req.validationTokens.value;
      var validationResults := ValidationResults(tokens, o);
      calls := TokenCalls(tokens);
      if |validationResults| == 0 {
        response := Unhandled(ReduceOfEmptyArray);
        return;
      }
      areTokensValid := ReduceAnd(validationResults);
    }

    if areTokensValid {
      if req.value.None? {
        response := Unhandled(ValueUndefined);
        return;
      }
      var batch := ProcessBatch(req.value.value, secret, db, o);
      emitted, calls := batch.emitted, calls + batch.calls;
      if batch.thrown.Some? {
        response := Unhandled(batch.thrown.value);
        return;
      }
    }

    response := Accepted;
  }
}
