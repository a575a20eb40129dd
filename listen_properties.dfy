/**
 * What routes/listen.js promises about a whole request, stated over the
 * functions of module Listen and proved for all requests, registries and
 * collaborator behaviours.
 */
module ListenProperties {
  import opened Wrappers
  import opened DbHelper
  import opened Listen

  /** `reduce((x, y) => x && y)` over a non-empty array is true exactly when every element is. */
  lemma {:induction false} ReduceAndIsConjunction(results: seq<bool>)
    requires |results| > 0
    ensures ReduceAnd(results) <==> forall i :: 0 <= i < |results| ==> results[i]
    decreases |results|
  {
    if |results| > 1 {
      var init := results[..|results| - 1];
      ReduceAndIsConjunction(init);
      assert forall i :: 0 <= i < |init| ==> init[i] == results[i];
    }
  }

  /** Processing `a + b` is processing `a`, and then, unless `a` threw, processing `b`. */
  lemma {:induction false} BatchAppend(a: seq<Notification>, b: seq<Notification>, process: Notification -> Step)
    ensures RunBatch(a + b, process)
         == (var first := RunBatch(a, process);
             if first.thrown.Some? then first else Then(first, RunBatch(b, process)))
    decreases |b|
  {
    if b == [] {
      assert a + b == a;
    } else {
      var init := b[..|b| - 1];
      assert (a + b)[..|a + b| - 1] == a + init;
      assert (a + b)[|a + b| - 1] == b[|b| - 1];
      BatchAppend(a, init, process);
    }
  }

  lemma SingletonBatch(n: Notification, process: Notification -> Step)
    ensures RunBatch([n], process) == Then(Quiet, process(n))
  {
  }

  /** An item with no effect at all can be removed from its batch without changing anything. */
  lemma QuietItemIsInvisible(a: seq<Notification>, n: Notification, b: seq<Notification>, process: Notification -> Step)
    requires process(n) == Quiet
    ensures RunBatch(a + [n] + b, process) == RunBatch(a + b, process)
  {
    SingletonBatch(n, process);
    BatchAppend(a, [n], process);
    BatchAppend(a + [n], b, process);
    BatchAppend(a, b, process);
  }

  /** An item that emits nothing and does not throw leaves its siblings' emissions and the batch's exception as they were. */
  lemma SilentItemKeepsSiblings(a: seq<Notification>, n: Notification, b: seq<Notification>, process: Notification -> Step)
    requires process(n).emitted == [] && process(n).thrown.None?
    ensures RunBatch(a + [n] + b, process).emitted == RunBatch(a + b, process).emitted
    ensures RunBatch(a + [n] + b, process).thrown == RunBatch(a + b, process).thrown
  {
    SingletonBatch(n, process);
    BatchAppend(a, [n], process);
    BatchAppend(a + [n], b, process);
    BatchAppend(a, b, process);
  }

  /** Client-state filter: a notification whose clientState is not the configured secret changes nothing, wherever it sits. */
  lemma ClientStateMismatchSkipped(a: seq<Notification>, n: Notification, b: seq<Notification>,
                                   secret: Option<string>, storage: map<string, string>, o: Oracles)
    requires n.clientState != secret
    ensures BatchOutcome(a + [n] + b, secret, storage, o) == BatchOutcome(a + b, secret, storage, o)
  {
    QuietItemIsInvisible(a, n, b, Processor(secret, storage, o));
  }

  /** Registry filter: a notification for a subscription the registry does not hold (or holds with an empty owner) changes nothing. */
  lemma UnknownSubscriptionSkipped(a: seq<Notification>, n: Notification, b: seq<Notification>,
                                   secret: Option<string>, storage: map<string, string>, o: Oracles)
    requires Lookup(storage, n.subscriptionId).None?
    ensures BatchOutcome(a + [n] + b, secret, storage, o) == BatchOutcome(a + b, secret, storage, o)
  {
    QuietItemIsInvisible(a, n, b, Processor(secret, storage, o));
  }

  /**
   * An encrypted notification whose signature does not verify is never
   * decrypted, emits nothing, and leaves the rest of the batch as it was.
   */
  lemma InvalidSignatureSkipped(a: seq<Notification>, n: Notification, b: seq<Notification>,
                                secret: Option<string>, storage: map<string, string>, o: Oracles)
    requires n.clientState == secret && Lookup(storage, n.subscriptionId).Some?
    requires n.encryptedContent.Some? && SignatureRejected(n.encryptedContent.value, o)
    ensures forall c :: c in ItemOutcome(n, secret, storage, o).calls ==> !c.DecryptPayload?
    ensures BatchOutcome(a + [n] + b, secret, storage, o).emitted == BatchOutcome(a + b, secret, storage, o).emitted
    ensures BatchOutcome(a + [n] + b, secret, storage, o).thrown == BatchOutcome(a + b, secret, storage, o).thrown
  {
    SilentItemKeepsSiblings(a, n, b, Processor(secret, storage, o));
  }

  /** Plain path: a failed Graph fetch emits nothing, throws nothing, and the loop goes on. */
  lemma FetchFailureSkipped(a: seq<Notification>, n: Notification, b: seq<Notification>,
                            secret: Option<string>, storage: map<string, string>, o: Oracles)
    requires n.clientState == secret && Lookup(storage, n.subscriptionId).Some?
    requires n.encryptedContent.None? && n.resourceData.Some?
    requires o.fetchMessage(Lookup(storage, n.subscriptionId).value.userAccountId,
                            MessagesPath + n.resourceData.value.id, MessageFields).Failure?
    ensures BatchOutcome(a + [n] + b, secret, storage, o).emitted == BatchOutcome(a + b, secret, storage, o).emitted
    ensures BatchOutcome(a + [n] + b, secret, storage, o).thrown == BatchOutcome(a + b, secret, storage, o).thrown
  {
    SilentItemKeepsSiblings(a, n, b, Processor(secret, storage, o));
  }

  /** A batch throws exactly when one of its items does when processed on its own. */
  lemma {:induction false} BatchThrowsIffSomeItemThrows(items: seq<Notification>, process: Notification -> Step)
    ensures RunBatch(items, process).thrown.Some?
        <==> exists i :: 0 <= i < |items| && process(items[i]).thrown.Some?
    decreases |items|
  {
    if items != [] {
      var init := items[..|items| - 1];
      BatchThrowsIffSomeItemThrows(init, process);
      assert forall i :: 0 <= i < |init| ==> init[i] == items[i];
      if exists i :: 0 <= i < |items| && process(items[i]).thrown.Some? {
        var i :| 0 <= i < |items| && process(items[i]).thrown.Some?;
        if i < |init| {
          assert process(init[i]).thrown.Some?;
        }
      }
    }
  }

  /** For each emission of a batch, the index of the item that produced it. */
  ghost function Origins(items: seq<Notification>, process: Notification -> Step): seq<nat>
    decreases |items|
  {
    if items == [] then []
    else
      var init := items[..|items| - 1];
      var previous := Origins(init, process);
      if RunBatch(init, process).thrown.Some? then previous
      else if process(items[|items| - 1]).emitted == [] then previous
      else previous + [|items| - 1]
  }

  /**
   * When each item emits at most once: every emission of a batch is the one
   * emission of a distinct item, emissions appear in the order of their items,
   * and, when the batch did not throw, no emitting item is missing.
   */
  lemma {:induction false} EmissionsFollowItems(items: seq<Notification>, process: Notification -> Step)
    requires forall n :: n in items ==> |process(n).emitted| <= 1
    ensures var batch := RunBatch(items, process);
            var src := Origins(items, process);
            && |src| == |batch.emitted|
            && (forall k :: 0 <= k < |src| ==> src[k] < |items|)
            && (forall k, l :: 0 <= k < l < |src| ==> src[k] < src[l])
            && (forall k :: 0 <= k < |src| ==> process(items[src[k]]).emitted == [batch.emitted[k]])
            && (batch.thrown.None? ==>
                  forall i :: 0 <= i < |items| && process(items[i]).emitted != [] ==> i in src)
    decreases |items|
  {
    if items != [] {
      var init := items[..|items| - 1];
      var last := items[|items| - 1];
      assert forall n :: n in init ==> n in items;
      EmissionsFollowItems(init, process);
      assert forall i :: 0 <= i < |init| ==> init[i] == items[i];
      var item := process(last);
      if RunBatch(init, process).thrown.None? && item.emitted != [] {
        assert last in items;
        assert item.emitted == [item.emitted[0]];
      }
    }
  }

  /**
   * Ordering, count and routing for the handler's loop: every emission is the
   * one emission of a distinct notification whose clientState matched and
   * whose subscription is registered; emissions appear in the order of their
   * notifications; each goes to the room named by its own notification's
   * subscriptionId; and, when nothing threw, no emitting notification is missing.
   */
  lemma {:induction false} BatchEmissionsFollowItems(items: seq<Notification>, secret: Option<string>,
                                  storage: map<string, string>, o: Oracles)
    ensures var batch := BatchOutcome(items, secret, storage, o);
            var src := Origins(items, Processor(secret, storage, o));
            && |src| == |batch.emitted|
            && (forall k :: 0 <= k < |src| ==> src[k] < |items|)
            && (forall k, l :: 0 <= k < l < |src| ==> src[k] < src[l])
            && (forall k :: 0 <= k < |src| ==>
                  && ItemOutcome(items[src[k]], secret, storage, o).emitted == [batch.emitted[k]]
                  && batch.emitted[k].room == items[src[k]].subscriptionId
                  && items[src[k]].clientState == secret
                  && Lookup(storage, items[src[k]].subscriptionId).Some?)
            && (batch.thrown.None? ==>
                  forall i :: 0 <= i < |items| && ItemOutcome(items[i], secret, storage, o).emitted != [] ==> i in src)
  {
    var process := Processor(secret, storage, o);
    EmissionsFollowItems(items, process);
    var batch := BatchOutcome(items, secret, storage, o);
    var src := Origins(items, process);
    forall k | 0 <= k < |src|
      ensures batch.emitted[k].room == items[src[k]].subscriptionId
      ensures items[src[k]].clientState == secret && Lookup(storage, items[src[k]].subscriptionId).Some?
    {
      var item := ItemOutcome(items[src[k]], secret, storage, o);
      assert item.emitted == [batch.emitted[k]];
      assert batch.emitted[k] in item.emitted;
    }
  }

  /** When the loop does not throw, the emission of every item that emits is in the batch's log. */
  lemma EmittingItemReachesBatchLog(items: seq<Notification>, i: nat, secret: Option<string>,
                                    storage: map<string, string>, o: Oracles)
    requires i < |items|
    requires BatchOutcome(items, secret, storage, o).thrown.None?
    requires ItemOutcome(items[i], secret, storage, o).emitted != []
    ensures ItemOutcome(items[i], secret, storage, o).emitted[0] in BatchOutcome(items, secret, storage, o).emitted
  {
    BatchEmissionsFollowItems(items, secret, storage, o);
    var src := Origins(items, Processor(secret, storage, o));
    assert i in src;
    var k :| 0 <= k < |src| && src[k] == i;
    assert BatchOutcome(items, secret, storage, o).emitted[k] in BatchOutcome(items, secret, storage, o).emitted;
  }

  /** The request gets past the token gate and runs its items: either it has no tokens, or it has some and all validate. */
  lemma PassingGateRunsBatch(req: Request, secret: Option<string>, storage: map<string, string>, o: Oracles)
    requires !IsHandshake(req) && !TokensRejected(req, o)
    requires Handle(req, secret, storage, o).response == Accepted
    ensures req.value.Some?
    ensures BatchOutcome(req.value.value, secret, storage, o).thrown.None?
    ensures Handle(req, secret, storage, o).emitted == BatchOutcome(req.value.value, secret, storage, o).emitted
  {
    if req.validationTokens.Some? && req.validationTokens.value != [] {
      ReduceAndIsConjunction(ValidationResults(req.validationTokens.value, o));
    }
  }

  /**
   * Plain path, end to end: a request that completes with 202 and whose tokens
   * did not fail emits, for each admitted notification without encrypted
   * content whose message fetch succeeds, one `message` event carrying the
   * fetched resource to the room of its subscription.
   */
  lemma FetchedMessageIsEmitted(req: Request, i: nat, secret: Option<string>, storage: map<string, string>, o: Oracles)
    requires !IsHandshake(req) && !TokensRejected(req, o)
    requires Handle(req, secret, storage, o).response == Accepted
    requires req.value.Some? && i < |req.value.value|
    requires Admitted(req.value.value[i], secret, storage)
    requires req.value.value[i].encryptedContent.None? && req.value.value[i].resourceData.Some?
    requires o.fetchMessage(Lookup(storage, req.value.value[i].subscriptionId).value.userAccountId,
                            MessagesPath + req.value.value[i].resourceData.value.id, MessageFields).Success?
    ensures Emission(req.value.value[i].subscriptionId, NotificationReceived,
                     Event(Message, o.fetchMessage(Lookup(storage, req.value.value[i].subscriptionId).value.userAccountId,
                                                   MessagesPath + req.value.value[i].resourceData.value.id,
                                                   MessageFields).value))
            in Handle(req, secret, storage, o).emitted
  {
    PassingGateRunsBatch(req, secret, storage, o);
    EmittingItemReachesBatchLog(req.value.value, i, secret, storage, o);
  }

  /** The key unwraps, the signature verifies, the payload decrypts and parses. */
  predicate DecryptionSucceeds(ec: EncryptedContent, o: Oracles) {
    var key := o.decryptSymmetricKey(ec.dataKey);
    && key.Success?
    && o.verifySignature(ec.dataSignature, ec.data, key.value)
    && o.decryptPayload(ec.data, key.value).Success?
    && o.parseJson(o.decryptPayload(ec.data, key.value).value).Success?
  }

  /** The resource a successfully decrypted notification carries: the parsed plaintext. */
  function DecryptedResource(ec: EncryptedContent, o: Oracles): Json
    requires DecryptionSucceeds(ec, o)
  {
    var key := o.decryptSymmetricKey(ec.dataKey).value;
    o.parseJson(o.decryptPayload(ec.data, key).value).value
  }

  /**
   * Encrypted path, end to end: in a request that completes with 202 and whose
   * tokens did not fail, each admitted encrypted notification that unwraps,
   * verifies, decrypts and parses emits one `chatMessage` event carrying the
   * parsed payload to the room of its subscription.
   */
  lemma DecryptedMessageIsEmitted(req: Request, i: nat, secret: Option<string>, storage: map<string, string>, o: Oracles)
    requires !IsHandshake(req) && !TokensRejected(req, o)
    requires Handle(req, secret, storage, o).response == Accepted
    requires req.value.Some? && i < |req.value.value|
    requires Admitted(req.value.value[i], secret, storage)
    requires req.value.value[i].encryptedContent.Some?
    requires DecryptionSucceeds(req.value.value[i].encryptedContent.value, o)
    ensures Emission(req.value.value[i].subscriptionId, NotificationReceived,
                     Event(ChatMessage, DecryptedResource(req.value.value[i].encryptedContent.value, o)))
            in Handle(req, secret, storage, o).emitted
  {
    PassingGateRunsBatch(req, secret, storage, o);
    EmittingItemReachesBatchLog(req.value.value, i, secret, storage, o);
  }

  /** Concatenating two traces that each decrypt only after a valid signature keeps that property. */
  lemma DecryptsAppend(a: seq<Call>, b: seq<Call>, o: Oracles)
    requires DecryptsFollowValidSignatures(a, o) && DecryptsFollowValidSignatures(b, o)
    ensures DecryptsFollowValidSignatures(a + b, o)
  {
  }

  lemma {:induction false} BatchDecryptsOnlyAfterValidSignature(items: seq<Notification>, process: Notification -> Step,
                                                                o: Oracles)
    requires forall n :: n in items ==> DecryptsFollowValidSignatures(process(n).calls, o)
    ensures DecryptsFollowValidSignatures(RunBatch(items, process).calls, o)
    decreases |items|
  {
    if items != [] {
      var init := items[..|items| - 1];
      assert forall n :: n in init ==> n in items;
      BatchDecryptsOnlyAfterValidSignature(init, process, o);
      assert items[|items| - 1] in items;
      DecryptsAppend(RunBatch(init, process).calls, process(items[|items| - 1]).calls, o);
    }
  }

  /** Over a whole request, decryptPayload is only ever invoked right after verifySignature returned true for the same data and key. */
  lemma HandlerDecryptsOnlyAfterValidSignature(req: Request, secret: Option<string>,
                                               storage: map<string, string>, o: Oracles)
    ensures DecryptsFollowValidSignatures(Handle(req, secret, storage, o).calls, o)
  {
    if !IsHandshake(req) && req.validationTokens.Some? {
      var tokenCalls := TokenCalls(req.validationTokens.value);
      assert DecryptsFollowValidSignatures(tokenCalls, o);
      if req.value.Some? {
        BatchDecryptsOnlyAfterValidSignature(req.value.value, Processor(secret, storage, o), o);
        DecryptsAppend(tokenCalls, BatchOutcome(req.value.value, secret, storage, o).calls, o);
      }
    } else if !IsHandshake(req) && req.value.Some? {
      BatchDecryptsOnlyAfterValidSignature(req.value.value, Processor(secret, storage, o), o);
    }
  }

  /** Handshake: a truthy validationToken is echoed as text/plain with status 200; nothing is validated, examined or emitted. */
  lemma HandshakeEchoesToken(req: Request, secret: Option<string>, storage: map<string, string>, o: Oracles)
    requires IsHandshake(req)
    ensures Handle(req, secret, storage, o) == Outcome(Sent(200, Some(TextPlain), req.validationToken.value), [], [])
  {
  }

  /** The batch carries validation tokens and at least one of them does not validate. */
  predicate TokensRejected(req: Request, o: Oracles) {
    && req.validationTokens.Some?
    && exists i :: 0 <= i < |req.validationTokens.value| && !o.isTokenValid(req.validationTokens.value[i])
  }

  /** Token gate, failing side: every token is still checked, nothing is emitted, and the status is 202. */
  lemma TokenRejectionEmitsNothing(req: Request, secret: Option<string>, storage: map<string, string>, o: Oracles)
    requires !IsHandshake(req) && TokensRejected(req, o)
    ensures Handle(req, secret, storage, o) == Outcome(Accepted, [], TokenCalls(req.validationTokens.value))
  {
    var tokens := req.validationTokens.value;
    var i :| 0 <= i < |tokens| && !o.isTokenValid(tokens[i]);
    ReduceAndIsConjunction(ValidationResults(tokens, o));
    assert !ValidationResults(tokens, o)[i];
  }

  /** Token gate, passing side: when every token validates, the items are processed exactly as if no tokens had been sent. */
  lemma TokenAcceptanceProcessesBatch(req: Request, secret: Option<string>, storage: map<string, string>, o: Oracles)
    requires !IsHandshake(req) && req.validationTokens.Some? && req.validationTokens.value != []
    requires forall i :: 0 <= i < |req.validationTokens.value| ==> o.isTokenValid(req.validationTokens.value[i])
    ensures var withTokens := Handle(req, secret, storage, o);
            var without := Handle(req.(validationTokens := None), secret, storage, o);
            && withTokens.response == without.response
            && withTokens.emitted == without.emitted
            && withTokens.calls == TokenCalls(req.validationTokens.value) + without.calls
  {
    ReduceAndIsConjunction(ValidationResults(req.validationTokens.value, o));
  }

  /** An empty validationTokens array is not a pass: reduce throws before any item is looked at. */
  lemma EmptyTokenListThrows(req: Request, secret: Option<string>, storage: map<string, string>, o: Oracles)
    requires !IsHandshake(req) && req.validationTokens == Some([])
    ensures Handle(req, secret, storage, o) == Outcome(Unhandled(ReduceOfEmptyArray), [], [])
  {
  }

  /**
   * Completion: outside the handshake the handler either answers 202 with an
   * empty body or lets an exception escape; it answers 202 exactly when the
   * token list is not empty and either a token failed or `value` is present
   * and no accepted item throws.
   */
  lemma CompletionIs202(req: Request, secret: Option<string>, storage: map<string, string>, o: Oracles)
    requires !IsHandshake(req)
    ensures Handle(req, secret, storage, o).response == Accepted || Handle(req, secret, storage, o).response.Unhandled?
    ensures Handle(req, secret, storage, o).response == Accepted <==>
      && req.validationTokens != Some([])
      && (|| TokensRejected(req, o)
          || (&& req.value.Some?
              && forall i :: 0 <= i < |req.value.value| ==> ItemOutcome(req.value.value[i], secret, storage, o).thrown.None?))
  {
    if req.validationTokens.Some? && req.validationTokens.value != [] {
      ReduceAndIsConjunction(ValidationResults(req.validationTokens.value, o));
      if TokensRejected(req, o) {
        TokenRejectionEmitsNothing(req, secret, storage, o);
      }
    }
    if req.value.Some? {
      BatchThrowsIffSomeItemThrows(req.value.value, Processor(secret, storage, o));
    }
  }
}
