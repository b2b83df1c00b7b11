# Retry / dead-letter policy of the grok Pub/Sub subscriber

This project models the message-consumption core of the grok subscriber (`subscriber.go`): a
subscriber that receives messages from a topic, decodes each body, hands it to a handler, and on
failure either republishes the message to the same topic with an incremented `"retries"` attribute
or, once the retry budget is spent, publishes the raw bytes to the dead-letter topic
`<topic>_dlq` with an `"error"` attribute. Every delivery ends with an acknowledgment, except in the
case described below. The model also covers the constructor's defaults and functional options, and
the "create the subscription if it does not exist" provisioning step.

Layout:

- `decimal.dfy` (`Decimal`): `strconv.Atoi` and `strconv.Itoa` on unbounded integers.
- `transport.dfy` (`Transport`): the external pub/sub service and handler. It defines the message
  record (`Message`: id, data bytes, and a mutable attribute map that may be nil) and the
  `Environment` class that holds topics, subscriptions and a log of observable events
  (`Invoke`, `Publish`, `Ack`). Each remote call takes its success or failure from a script of
  outcomes, consumed in order; calls past the end of the script succeed.
- `policy.dfy` (`Policy`): the pure policy. It covers the retry count as `getRetries` reads it,
  the attributes a retry republishes with, the dead-letter topic name, and what `retry` and `dlq`
  do to the environment.
- `delivery.dfy` (`Delivery`): one delivery through the receive callback as a function
  (`Deliver`), the intended variant (`DeliverIntended`), and lemmas about the events a delivery
  produces.
- `options.dfy` (`Options`): defaults and options of `NewPubSubSubscriber`.
- `provisioning.dfy` (`Provisioning`): `createSubscriptionIfNotExists`.
- `subscriber.dfy` (`Subscriber`): the `PubSubSubscriber` class. Its constructor, `GetRetries`,
  `Retry`, `Dlq` and the receive callback `OnMessage` are imperative methods, each proved equal
  to the policy function that specifies it.

Behaviour of the code that the model keeps as it is:

- The deferred block tests the handler's returned error, not the value of `recover()`
  (subscriber.go:133). A handler panic is swallowed: nothing is published and the message is never
  acknowledged. A returned error takes the normal retry/dead-letter branch and is acknowledged.
  The deferred block then dead-letters it again and acknowledges it a second time. The block's own
  log message, "consumer panicked ... sending to dlq" (subscriber.go:134-135), shows it was meant
  to dead-letter a panicking message; see "## Findings".
- `retry` writes the incremented count into the delivered message's own attribute map and then
  republishes with that map (subscriber.go:211-213).
- The handler receives a pointer to the decoded body (subscriber.go:119, 147), and `retry`
  re-encodes that same body (subscriber.go:161, 213). A handler that changes its argument and then
  returns an error therefore changes what is republished. `Failure` carries the body as the
  handler left it, and the retry publishes that.
- A message whose retry count already reached the maximum is still decoded and handed to the
  handler. The count is compared only after the handler returns an error (subscriber.go:153).
- Negative counts are accepted as they parse. A failed existence check returns a non-nil
  subscription handle together with the error (subscriber.go:182-183).

## Model

| member | source | states |
|---|---|---|
| `Decimal.ItoaRoundTrip` | subscriber.go:211 | reading back the count that `retry` writes with Itoa gives the same integer, negative ones included |
| `Decimal.AtoiDefinedIffNumeral` | subscriber.go:242 | Atoi succeeds exactly on an optional sign followed by one or more decimal digits |
| `Decimal.Atoi` | subscriber.go:242 | a successful read comes from a non-empty string, and only a leading '-' gives a negative value |
| `Decimal.AtoiReadsNumeral` | subscriber.go:242 | every numeral reads as its integer, canonical or not: an optional '+' or '-', any leading zeros, then the digits of n ("+5", "007", "-0" give 5, 7, 0) |
| `Decimal.Itoa` | subscriber.go:211 | the written count is a numeral Atoi accepts, with a '-' sign exactly when the count is negative |
| `Policy.DlqTopic` | subscriber.go:217 | the dead-letter topic is the topic name followed by exactly `_dlq`, and always differs from the topic |
| `Policy.DlqTopicInjective` | subscriber.go:217 | distinct topics have distinct dead-letter topics |
| `Policy.RetryCount` | subscriber.go:233-246 | the count is 0 when the map is nil or lacks the `retries` key |
| `Policy.RetryCountReadsItoa` | subscriber.go:239-243 | a `retries` value that is the decimal string of n reads as n |
| `Policy.RetryCountMalformedIsZero` | subscriber.go:241-243 | a `retries` value that is not a numeral reads as 0 |
| `Policy.RetryCountReadsNumeral` | subscriber.go:239-243 | any numeral in the `retries` attribute reads as its integer, including a '+' sign, leading zeros and "-0" |
| `Policy.RetryCountAcceptsNegative` | subscriber.go:242 | nothing enforces a non-negative count: `"-3"` reads as -3 |
| `Policy.Exhausted` | subscriber.go:153 | the threshold test `count >= maxRetries`; a message without a `retries` attribute is exhausted only when the maximum is 0 or less |
| `Policy.RetriedAttributes` | subscriber.go:208-211 | after a retry the map has the `retries` key, and every other key is present with its old value exactly when it was before |
| `Policy.RetriedCountIncrements` | subscriber.go:208-211 | the republished map's count is the delivered count plus one |
| `Policy.DlqEvents` | subscriber.go:227-230 | a dead-letter call adds at most one publish: the raw data to `<topic>_dlq` with only the `error` attribute, present exactly when both remote calls succeed |
| `Policy.DlqStep` | subscriber.go:216-231 | `dlq` publishes the raw data to `<topic>_dlq` with a map whose only key is `error`, only when both the topic creation and the publish succeed; if topic creation fails it returns that error and publishes nothing; it creates the dead-letter topic and touches no subscription |
| `Policy.RetryStep` | subscriber.go:207-214 | `retry` publishes the body it is given (the handler's, as the handler left it) with the incremented map to the topic itself; a failed publish is returned and publishes nothing |
| `Delivery.AcksPerDelivery` | subscriber.go:118-174 | whatever the transport answers, a delivery acks once on a decode failure or handler success, twice on a returned handler error, never on a panic |
| `Delivery.Deliver` | subscriber.go:118-174 | a delivery only appends to the log (at least one event), never touches subscriptions, and changes the attribute map only on a returned handler error |
| `Delivery.HandleFailure` | subscriber.go:149-167 | the failure branch leaves a non-nil attribute map, only appends to the log and never touches subscriptions |
| `Delivery.DeliverIntended` | subscriber.go:132-141 | the corrected callback only appends to the log, never touches subscriptions, and changes the attribute map only on a returned handler error |
| `Delivery.FailureAcksTwice` | subscriber.go:132-173 | a returned handler error is acknowledged twice, on the normal path and in the deferred block, whatever the transport answers |
| `Delivery.HandleFailureEvents` | subscriber.go:149-167 | the failure branch adds only publishes: the dead-letter publish once the count reaches the maximum (with the map normalised), otherwise the republish to the topic with the incremented map; never an ack or a handler call |
| `Delivery.UndecodableIsDeadLettered` | subscriber.go:119-130 | a decode failure never calls the handler: the raw data is dead-lettered with the decoding error, then one ack, and the attributes are untouched |
| `Delivery.SuccessOnlyAcknowledges` | subscriber.go:132-173 | a successful handler call is followed by exactly one ack and nothing else changes |
| `Delivery.PanicIsSwallowed` | subscriber.go:132-147 | a panicking handler leaves no publish and no ack; nothing else changes |
| `Delivery.FailureRetriesOnlyWhileBudgetRemains` | subscriber.go:149-173 | on a returned error, for any transport answers, the topic itself gets one republish exactly when the count is below the maximum and the publish succeeds; the final map is the normalised one or, when retrying, the incremented one |
| `Delivery.FailureWithBudgetLog` | subscriber.go:132-173 | with every call succeeding and retries left: handler, republish of the body as the handler left it to the topic, ack, deferred dead-letter, second ack |
| `Delivery.FailureExhaustedLog` | subscriber.go:132-173 | with every call succeeding and retries exhausted: handler, dead-letter, ack, deferred dead-letter, second ack, no republish |
| `Delivery.OrdersWorkedExample` | subscriber.go:118-174 | topic `orders`, at most 2 retries, no `retries` attribute, the handler fails: publish to `orders` with `retries` = `"1"`, ack, publish to `orders_dlq` with the error, ack |
| `Delivery.OrdersRetryChain` | subscriber.go:118-174 | three failing deliveries on `orders` with at most 2 retries, each on the environment the previous one left and receiving the previous republish: counts "1", then "2"; the third republishes nothing to `orders` and dead-letters to `orders_dlq` |
| `Delivery.DeferredBlockDiscrepancy` | subscriber.go:132-141 | for every panic reason and every returned error: as written a panic is never acked and a returned error is acked twice, where the intended block acks each once |
| `Delivery.IntendedAcksOnce` | subscriber.go:132-141 | with the deferred block testing `recover()`, every delivery is acked exactly once |
| `Delivery.IntendedPanicDeadLetters` | subscriber.go:132-141 | with the deferred block testing `recover()`, a panic dead-letters the raw data with the panic's description and then acks |
| `Options.Configured` | subscriber.go:34-48 | the retry attribute key is `retries`, set after the options run, so no option changes it |
| `Options.NoOptionsGiveDefaults` | subscriber.go:35-38 | without options: 5 retries, a 10-second ack deadline, the transport's default outstanding-message limit, no client |
| `Options.Defaults` | subscriber.go:35-38 | before the options run: 5 retries, a 10-second ack deadline, and no retry attribute key yet |
| `Options.Apply` | subscriber.go:50-104 | `WithMaxRetries`, `WithAckDeadline` and `WithTopicID` each set their own field, every other option leaves those three fields alone, and no option sets the attribute key |
| `Options.ApplyAll` | subscriber.go:40-42 | running the options in order never changes the attribute key, and without `WithTopicID` the topic stays as it was |
| `Options.MaxRetriesFromLastOption` | subscriber.go:40-42 | the last `WithMaxRetries` option decides the maximum |
| `Options.MaxRetriesDefaultsToFive` | subscriber.go:36-42 | without `WithMaxRetries` the maximum stays 5 |
| `Options.AckDeadlineFromLastOption` | subscriber.go:40-42 | the last `WithAckDeadline` option decides the ack deadline |
| `Options.AckDeadlineDefaultsToTenSeconds` | subscriber.go:38-42 | without `WithAckDeadline` the ack deadline stays 10 seconds |
| `Provisioning.CreateSubscriptionIfNotExists` | subscriber.go:177-205 | the method's handle, error and new environment are those of the provisioning specification |
| `Provisioning.ExistingSubscriptionCreatesNothing` | subscriber.go:180-184 | an existing subscription is returned with no error and nothing is created |
| `Provisioning.FailedCheckCreatesNothing` | subscriber.go:180-184 | a failed existence check is returned with a non-nil handle, and nothing is created |
| `Provisioning.ProvisionOutcome` | subscriber.go:177-205 | on success the subscription exists; when it was absent, it is now bound to the topic with the ack deadline and the topic exists; existing bindings never change; the handle is nil exactly when a creation failed |
| `Provisioning.Provision` | subscriber.go:177-205 | provisioning logs nothing, removes no topic, creates no subscription other than the requested one, and on success returns the handle of an existing subscription |
| `Provisioning.CreationFailureReturnsError` | subscriber.go:186-203 | once the check passes on an absent subscription, a failed topic creation, or else a failed subscription creation, is returned as the error with a nil handle and no subscription created |
| `Provisioning.ProvisionIdempotent` | subscriber.go:177-205 | after a successful provisioning, a second call whose existence check succeeds creates nothing and succeeds |
| `Subscriber.PubSubSubscriber.constructor` | subscriber.go:34-48 | the fields are the defaults overwritten by the options in order, with the `retries` key set last |
| `Subscriber.PubSubSubscriber.Set` | subscriber.go:50-104 | each option overwrites exactly its own field |
| `Subscriber.PubSubSubscriber.GetRetries` | subscriber.go:233-246 | returns the retry count; a nil map is replaced by an empty one and that is the only change |
| `Subscriber.PubSubSubscriber.Retry` | subscriber.go:207-214 | writes the incremented count into the message's own map in place, then publishes the given body with that map to the topic |
| `Subscriber.PubSubSubscriber.Dlq` | subscriber.go:216-231 | ensures the dead-letter topic exists, then publishes the raw data with a fresh `error` map |
| `Subscriber.PubSubSubscriber.OnMessage` | subscriber.go:118-174 | the attribute map and environment after one delivery are those of the delivery function as written, including the deferred block |
| `Transport.Environment.SubscriptionExists` | subscriber.go:178-180 | the existence check consumes one outcome and answers false with the error when it fails |
| `Transport.Environment.EnsureTopic` | subscriber.go:221 | topic creation succeeds or fails as scripted, and the topic exists after a success |
| `Transport.Environment.CreateSubscription` | subscriber.go:194-197 | on success the subscription is bound to the given topic and ack deadline |
| `Transport.Environment.Publish` | subscriber.go:213 | an accepted publish is logged with its topic, payload and attributes verbatim; a failed one leaves no trace |
| `Transport.Environment.Ack` | subscriber.go:173 | each `Ack` call is logged |
| `Transport.Environment.Invoke` | subscriber.go:147 | each handler call is logged with the body it received |

## Findings

| source | as written | input that shows it | evidently intended | confidence | as-written member | corrected member |
|---|---|---|---|---|---|---|
| subscriber.go:133 | `if recover(); err != nil` discards the recovered value and tests the handler's returned error | a handler that panics is never dead-lettered or acknowledged; a handler that returns an error is dead-lettered and acknowledged a second time | test the recovered value, so that a panicking message is dead-lettered with its description and acknowledged once | high, not executed | `Delivery.DeferredBlockDiscrepancy` | `Delivery.IntendedAcksOnce` |

`Subscriber.PubSubSubscriber.OnMessage` follows the code as written. `Delivery.DeliverIntended`
is the corrected callback, and `Delivery.IntendedAcksOnce` and `Delivery.IntendedPanicDeadLetters`
are proved about it.

## Left out

- `Run`'s startup (subscriber.go:107-117) is not modelled. It sets `MaxOutstandingMessages` on
  the handle before checking the error. When a topic or subscription creation fails, that handle
  is nil and line 109 dereferences it. `Provisioning.ProvisionOutcome` states exactly when the
  handle is nil.
- The receive loop, its concurrent workers, the outstanding-message limit and the ack deadline
  are the transport's business. The model covers one delivery at a time.
- JSON decoding (`reflect.New` and `json.Unmarshal`) is not modelled. Each delivery takes the
  decoding outcome as an input. The handler's outcome (nil, an error, or a panic) is an input too.
- `createTopicIfNotExists`, `NewPubSubProducer`, `PublishWihAttribrutes`, and the client's
  `Exists` and `CreateSubscription` are not part of this model. Their bodies are not in
  subscriber.go. Each is an abstract call whose success or failure is scripted. The JSON
  re-encoding of a republished body is not modelled: the publish records the body as the handler
  left it, not its bytes.
- Logging (`logrus`) and timing (`time.Now`, `time.Since`) have no effect on any decision and
  are left out.
- `Decimal.Atoi`: the clamping of out-of-range numerals by `strconv.Atoi` is not modelled, because
  integers are unbounded here.
- Go's map aliasing is not modelled. The publish receives the message's map as a value; nothing
  changes that map afterwards in a delivery, so no behaviour is lost.
- The transport treats a second `Ack` of the same message as a no-op. The log records every
  `Ack` call.
- `server.go` is HTTP wiring and is not part of this model.
