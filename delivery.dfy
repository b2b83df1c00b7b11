/**
 * What one delivery does, as the receive callback of `Run` is written: decode, hand the body to
 * the handler, retry or dead-letter on a returned error, acknowledge, and then run the deferred
 * block. The deferred block tests the handler's returned error, not the value of `recover()`:
 * a returned error is dead-lettered and acknowledged a second time, and a panic is swallowed
 * with nothing published and nothing acknowledged. `DeliverIntended` is the behaviour the
 * recover-and-dead-letter block was evidently meant to have.
 */
module Delivery {
  import opened Wrappers
  import opened Transport
  import opened Policy

  /** The outcome of decoding the message data into the configured type. */
  datatype Decoding = Decoded(body: Body) | Undecodable(error: string)

  /**
   * What the handler does with the body: returns nil, returns an error, or panics. The handler
   * receives a pointer to the decoded body and may change it; `left` is the body as the handler
   * left it, which is what a retry re-encodes.
   */
  datatype HandlerOutcome =
    | Success
    | Failure(error: string, left: Body)
    | Panic(reason: string)

  /** The message's attribute map and the environment after a delivery (or a part of one). */
  datatype Delivered = Delivered(attributes: Option<Attributes>, env: EnvState)

  /** The failure branch: dead-letter once retries are exhausted, otherwise republish with the count incremented. */
  function HandleFailure(topicID: string, maxRetries: int, data: seq<byte>, attributes: Option<Attributes>,
                         body: Body, e: string, w: EnvState): (h: Delivered)
    ensures h.attributes.Some?
    ensures |h.env.log| >= |w.log| && h.env.log[..|w.log|] == w.log
    ensures h.env.subscriptions == w.subscriptions
    ensures w.script == [] ==> h.env.script == []
  {
    if Exhausted(attributes, maxRetries) then
      Delivered(Some(AttributesOf(attributes)), DlqStep(w, topicID, data, e).env)
    else
      Delivered(Some(RetriedAttributes(attributes)), RetryStep(w, topicID, attributes, body).env)
  }

  /** The receive callback as written. */
  function Deliver(topicID: string, maxRetries: int, id: string, data: seq<byte>, attributes: Option<Attributes>,
                   decoding: Decoding, handler: HandlerOutcome, w: EnvState): (d: Delivered)
    ensures |d.env.log| > |w.log| && d.env.log[..|w.log|] == w.log
    ensures d.env.subscriptions == w.subscriptions
    ensures w.script == [] ==> d.env.script == []
    ensures !(decoding.Decoded? && handler.Failure?) ==> d.attributes == attributes
  {
    match decoding
    case Undecodable(e) =>
      Delivered(attributes, AckStep(DlqStep(w, topicID, data, e).env, id))
    case Decoded(body) =>
      var invoked := InvokeStep(w, body);
      match handler
      case Panic(_) => Delivered(attributes, invoked)
      case Success => Delivered(attributes, AckStep(invoked, id))
      case Failure(e, left) =>
        var handled := HandleFailure(topicID, maxRetries, data, attributes, left, e, invoked);
        var deferred := DlqStep(AckStep(handled.env, id), topicID, data, e).env;
        Delivered(handled.attributes, AckStep(deferred, id))
  }

  /** The receive callback with the deferred block testing `recover()`'s result, as its log message describes. */
  function DeliverIntended(topicID: string, maxRetries: int, id: string, data: seq<byte>, attributes: Option<Attributes>,
                           decoding: Decoding, handler: HandlerOutcome, w: EnvState): (d: Delivered)
    ensures |d.env.log| > |w.log| && d.env.log[..|w.log|] == w.log
    ensures d.env.subscriptions == w.subscriptions
    ensures !(decoding.Decoded? && handler.Failure?) ==> d.attributes == attributes
  {
    match decoding
    case Undecodable(e) =>
      Delivered(attributes, AckStep(DlqStep(w, topicID, data, e).env, id))
    case Decoded(body) =>
      var invoked := InvokeStep(w, body);
      match handler
      case Panic(reason) => Delivered(attributes, AckStep(DlqStep(invoked, topicID, data, reason).env, id))
      case Success => Delivered(attributes, AckStep(invoked, id))
      case Failure(e, left) =>
        var handled := HandleFailure(topicID, maxRetries, data, attributes, left, e, invoked);
        Delivered(handled.attributes, AckStep(handled.env, id))
  }

  // Counting events in a log

  function Tally(log: seq<Event>, counted: Event -> bool): nat {
    if log == [] then 0
    else Tally(log[..|log| - 1], counted) + if counted(log[|log| - 1]) then 1 else 0
  }

  lemma {:induction false} TallyAppend(a: seq<Event>, b: seq<Event>, counted: Event -> bool)
    ensures Tally(a + b, counted) == Tally(a, counted) + Tally(b, counted)
    decreases |b|
  {
    if b == [] {
      assert a + b == a;
    } else {
      var b' := b[..|b| - 1];
      assert (a + b)[..|a + b| - 1] == a + b';
      assert (a + b)[|a + b| - 1] == b[|b| - 1];
      TallyAppend(a, b', counted);
    }
  }

  lemma TallySingleton(x: Event, counted: Event -> bool)
    ensures Tally([x], counted) == if counted(x) then 1 else 0
  {
  }

  predicate IsAck(e: Event) { e.Ack? }
  predicate IsInvoke(e: Event) { e.Invoke? }

  function Acks(log: seq<Event>): nat { Tally(log, IsAck) }
  function Invocations(log: seq<Event>): nat { Tally(log, IsInvoke) }
  function IsPublishTo(topic: string): Event -> bool { (e: Event) => e.Publish? && e.topic == topic }
  function PublishesTo(log: seq<Event>, topic: string): nat { Tally(log, IsPublishTo(topic)) }

  /** How many times a delivery acknowledges its message, as written. */
  function AcksAsWritten(decoding: Decoding, handler: HandlerOutcome): nat {
    if decoding.Undecodable? then 1
    else match handler
      case Success => 1
      case Failure(_, _) => 2
      case Panic(_) => 0
  }

  lemma DlqEventsTally(script: seq<Status>, topicID: string, data: seq<byte>, e: string)
    ensures Acks(DlqEvents(script, topicID, data, e)) == 0
    ensures Invocations(DlqEvents(script, topicID, data, e)) == 0
    ensures PublishesTo(DlqEvents(script, topicID, data, e), topicID) == 0
    ensures PublishesTo(DlqEvents(script, topicID, data, e), DlqTopic(topicID)) == |DlqEvents(script, topicID, data, e)| <= 1
  {
    var d := DlqEvents(script, topicID, data, e);
    if d != [] {
      TallySingleton(d[0], IsAck);
      TallySingleton(d[0], IsInvoke);
      TallySingleton(d[0], IsPublishTo(topicID));
      TallySingleton(d[0], IsPublishTo(DlqTopic(topicID)));
    }
  }

  /** The failure branch adds only publishes: one to the topic, or one to its dead-letter topic, or none if the call failed. */
  lemma HandleFailureEvents(topicID: string, maxRetries: int, data: seq<byte>, attributes: Option<Attributes>,
                            body: Body, e: string, w: EnvState)
    ensures var h := HandleFailure(topicID, maxRetries, data, attributes, body, e, w);
      && |h.env.log| >= |w.log| && h.env.log[..|w.log|] == w.log
      && var added := h.env.log[|w.log|..];
      && Acks(added) == 0 && Invocations(added) == 0
      && (Exhausted(attributes, maxRetries) ==>
            added == DlqEvents(w.script, topicID, data, e) && PublishesTo(added, topicID) == 0
            && h.attributes == Some(AttributesOf(attributes)))
      && (!Exhausted(attributes, maxRetries) ==>
            added == (if Outcome(w.script).Ok? then [Publish(topicID, Encoded(body), RetriedAttributes(attributes))] else [])
            && PublishesTo(added, DlqTopic(topicID)) == 0
            && h.attributes == Some(RetriedAttributes(attributes)))
  {
    var h := HandleFailure(topicID, maxRetries, data, attributes, body, e, w);
    var added := h.env.log[|w.log|..];
    if Exhausted(attributes, maxRetries) {
      assert added == DlqEvents(w.script, topicID, data, e);
      DlqEventsTally(w.script, topicID, data, e);
    } else if added != [] {
      TallySingleton(added[0], IsAck);
      TallySingleton(added[0], IsInvoke);
      TallySingleton(added[0], IsPublishTo(DlqTopic(topicID)));
    }
  }

  /**
   * Every delivery, whatever the transport answers, acknowledges its message once — except
   * that a returned handler error is acknowledged twice and a panic not at all.
   */
  lemma AcksPerDelivery(topicID: string, maxRetries: int, id: string, data: seq<byte>, attributes: Option<Attributes>,
                        decoding: Decoding, handler: HandlerOutcome, w: EnvState)
    ensures var d := Deliver(topicID, maxRetries, id, data, attributes, decoding, handler, w);
      Acks(d.env.log) == Acks(w.log) + AcksAsWritten(decoding, handler)
  {
    match decoding
    case Undecodable(e) =>
      DlqEventsTally(w.script, topicID, data, e);
      TallyAppend(w.log, DlqEvents(w.script, topicID, data, e), IsAck);
      TallyAppend(w.log + DlqEvents(w.script, topicID, data, e), [Ack(id)], IsAck);
    case Decoded(body) =>
      match handler
      case Panic(_) =>
        TallyAppend(w.log, [Invoke(body)], IsAck);
      case Success =>
        TallyAppend(w.log, [Invoke(body)], IsAck);
        TallyAppend(w.log + [Invoke(body)], [Ack(id)], IsAck);
      case Failure(e, left) =>
        FailureAcksTwice(topicID, maxRetries, id, data, attributes, body, left, e, w);
  }

  lemma FailureAcksTwice(topicID: string, maxRetries: int, id: string, data: seq<byte>,
                         attributes: Option<Attributes>, body: Body, left: Body, e: string, w: EnvState)
    ensures var d := Deliver(topicID, maxRetries, id, data, attributes, Decoded(body), Failure(e, left), w);
      Acks(d.env.log) == Acks(w.log) + 2
  {
    var invoked := InvokeStep(w, body);
    var h := HandleFailure(topicID, maxRetries, data, attributes, left, e, invoked);
    HandleFailureEvents(topicID, maxRetries, data, attributes, left, e, invoked);
    var first := h.env.log[|invoked.log|..];
    var later := DlqEvents(AckStep(h.env, id).script, topicID, data, e);
    FailureLogShape(topicID, maxRetries, id, data, attributes, body, left, e, w);
    DlqEventsTally(AckStep(h.env, id).script, topicID, data, e);
    TallyFailureShape(body, first, id, later, IsAck);
    TallySingleton(Invoke(body), IsAck);
    TallySingleton(Ack(id), IsAck);
    var d := Deliver(topicID, maxRetries, id, data, attributes, Decoded(body), Failure(e, left), w);
    assert d.env.log == w.log + d.env.log[|w.log|..];
    TallyAppend(w.log, d.env.log[|w.log|..], IsAck);
  }

  /**
   * Undecodable data: the handler is never invoked; the raw data goes to the dead-letter topic
   * with the decoding error (when both remote calls succeed), then the message is acknowledged
   * once, and its attributes are left alone.
   */
  lemma UndecodableIsDeadLettered(topicID: string, maxRetries: int, id: string, data: seq<byte>, attributes: Option<Attributes>,
                                  e: string, handler: HandlerOutcome, w: EnvState)
    ensures var d := Deliver(topicID, maxRetries, id, data, attributes, Undecodable(e), handler, w);
      && d.env.log == w.log + DlqEvents(w.script, topicID, data, e) + [Ack(id)]
      && d.attributes == attributes
      && Invocations(d.env.log) == Invocations(w.log)
  {
    DlqEventsTally(w.script, topicID, data, e);
    TallyAppend(w.log, DlqEvents(w.script, topicID, data, e), IsInvoke);
    TallyAppend(w.log + DlqEvents(w.script, topicID, data, e), [Ack(id)], IsInvoke);
    TallySingleton(Ack(id), IsInvoke);
  }

  /** A handler that returns nil: nothing is published, the message is acknowledged once, nothing else changes. */
  lemma SuccessOnlyAcknowledges(topicID: string, maxRetries: int, id: string, data: seq<byte>, attributes: Option<Attributes>,
                                body: Body, w: EnvState)
    ensures var d := Deliver(topicID, maxRetries, id, data, attributes, Decoded(body), Success, w);
      d == Delivered(attributes, w.(log := w.log + [Invoke(body), Ack(id)]))
  {
  }

  /** A handler that panics: the panic is swallowed; nothing is published and the message is never acknowledged. */
  lemma PanicIsSwallowed(topicID: string, maxRetries: int, id: string, data: seq<byte>, attributes: Option<Attributes>,
                         body: Body, reason: string, w: EnvState)
    ensures var d := Deliver(topicID, maxRetries, id, data, attributes, Decoded(body), Panic(reason), w);
      d == Delivered(attributes, w.(log := w.log + [Invoke(body)]))
  {
  }

  /**
   * A handler that returns an error, whatever the transport answers: on the normal path the
   * message is republished to its own topic (at most once) only while retries remain, and the
   * deferred block's dead-lettering never targets the topic itself; the attribute map is
   * normalised, and incremented when retrying.
   */
  lemma FailureRetriesOnlyWhileBudgetRemains(topicID: string, maxRetries: int, id: string, data: seq<byte>,
                                             attributes: Option<Attributes>, body: Body, left: Body, e: string, w: EnvState)
    ensures var d := Deliver(topicID, maxRetries, id, data, attributes, Decoded(body), Failure(e, left), w);
      && |d.env.log| >= |w.log|
      && PublishesTo(d.env.log[|w.log|..], topicID)
         == (if !Exhausted(attributes, maxRetries) && Outcome(w.script).Ok? then 1 else 0)
      && d.attributes == Some(if Exhausted(attributes, maxRetries) then AttributesOf(attributes) else RetriedAttributes(attributes))
  {
    var invoked := InvokeStep(w, body);
    var h := HandleFailure(topicID, maxRetries, data, attributes, left, e, invoked);
    HandleFailureEvents(topicID, maxRetries, data, attributes, left, e, invoked);
    var first := h.env.log[|invoked.log|..];
    var later := DlqEvents(AckStep(h.env, id).script, topicID, data, e);
    FailureLogShape(topicID, maxRetries, id, data, attributes, body, left, e, w);
    DlqEventsTally(AckStep(h.env, id).script, topicID, data, e);
    TallyFailureShape(body, first, id, later, IsPublishTo(topicID));
    TallySingleton(Invoke(body), IsPublishTo(topicID));
    TallySingleton(Ack(id), IsPublishTo(topicID));
    if !Exhausted(attributes, maxRetries) && Outcome(w.script).Ok? {
      TallySingleton(first[0], IsPublishTo(topicID));
    }
  }

  /** The events a returned handler error adds, piece by piece. */
  lemma FailureLogShape(topicID: string, maxRetries: int, id: string, data: seq<byte>,
                        attributes: Option<Attributes>, body: Body, left: Body, e: string, w: EnvState)
    ensures var invoked := InvokeStep(w, body);
      var h := HandleFailure(topicID, maxRetries, data, attributes, left, e, invoked);
      var d := Deliver(topicID, maxRetries, id, data, attributes, Decoded(body), Failure(e, left), w);
      && |h.env.log| >= |invoked.log|
      && |d.env.log| >= |w.log|
      && d.env.log[|w.log|..] == [Invoke(body)] + h.env.log[|invoked.log|..] + [Ack(id)]
                                 + DlqEvents(AckStep(h.env, id).script, topicID, data, e) + [Ack(id)]
  {
    var invoked := InvokeStep(w, body);
    var h := HandleFailure(topicID, maxRetries, data, attributes, left, e, invoked);
    var first := h.env.log[|invoked.log|..];
    var acked := AckStep(h.env, id);
    var later := DlqEvents(acked.script, topicID, data, e);
    FailureBranchLog(topicID, maxRetries, data, attributes, body, left, e, w);
    var d := Deliver(topicID, maxRetries, id, data, attributes, Decoded(body), Failure(e, left), w);
    assert d.env.log == h.env.log + [Ack(id)] + later + [Ack(id)];
    SuffixAfterPrefix(w.log, [Invoke(body)] + first, h.env.log, [Ack(id)] + later + [Ack(id)], d.env.log);
  }

  /** The failure branch keeps the log up to the handler call and appends to it. */
  lemma FailureBranchLog(topicID: string, maxRetries: int, data: seq<byte>, attributes: Option<Attributes>,
                         body: Body, left: Body, e: string, w: EnvState)
    ensures var invoked := InvokeStep(w, body);
      var h := HandleFailure(topicID, maxRetries, data, attributes, left, e, invoked);
      |h.env.log| >= |invoked.log| && h.env.log == w.log + [Invoke(body)] + h.env.log[|invoked.log|..]
  {
    var invoked := InvokeStep(w, body);
    var h := HandleFailure(topicID, maxRetries, data, attributes, left, e, invoked);
    assert h.env.log == invoked.log + h.env.log[|invoked.log|..];
  }

  lemma SuffixAfterPrefix(prefix: seq<Event>, first: seq<Event>, mid: seq<Event>, rest: seq<Event>, all: seq<Event>)
    requires mid == prefix + first && all == mid + rest
    ensures |all| >= |prefix| && all[|prefix|..] == first + rest
  {
    assert all == prefix + (first + rest);
  }

  lemma TallyFailureShape(body: Body, first: seq<Event>, id: string, later: seq<Event>, counted: Event -> bool)
    ensures Tally([Invoke(body)] + first + [Ack(id)] + later + [Ack(id)], counted)
      == Tally([Invoke(body)], counted) + Tally(first, counted) + 2 * Tally([Ack(id)], counted) + Tally(later, counted)
  {
    TallyAppend([Invoke(body)], first, counted);
    TallyAppend([Invoke(body)] + first, [Ack(id)], counted);
    TallyAppend([Invoke(body)] + first + [Ack(id)], later, counted);
    TallyAppend([Invoke(body)] + first + [Ack(id)] + later, [Ack(id)], counted);
  }

  /** With every remote call succeeding, a returned error whose retries remain: republish, ack, then the deferred dead-letter and a second ack. */
  lemma FailureWithBudgetLog(topicID: string, maxRetries: int, id: string, data: seq<byte>,
                             attributes: Option<Attributes>, body: Body, left: Body, e: string, w: EnvState)
    requires w.script == [] && !Exhausted(attributes, maxRetries)
    ensures Deliver(topicID, maxRetries, id, data, attributes, Decoded(body), Failure(e, left), w).env.log
      == w.log + [Invoke(body), Publish(topicID, Encoded(left), RetriedAttributes(attributes)), Ack(id),
                  Publish(DlqTopic(topicID), Raw(data), map[ErrorKey := e]), Ack(id)]
  {
  }

  /** With every remote call succeeding, a returned error with retries exhausted: two dead-letter publishes, two acks, no republish. */
  lemma FailureExhaustedLog(topicID: string, maxRetries: int, id: string, data: seq<byte>,
                            attributes: Option<Attributes>, body: Body, left: Body, e: string, w: EnvState)
    requires w.script == [] && Exhausted(attributes, maxRetries)
    ensures Deliver(topicID, maxRetries, id, data, attributes, Decoded(body), Failure(e, left), w).env.log
      == w.log + [Invoke(body), Publish(DlqTopic(topicID), Raw(data), map[ErrorKey := e]), Ack(id),
                  Publish(DlqTopic(topicID), Raw(data), map[ErrorKey := e]), Ack(id)]
  {
  }

  /**
   * The worked example: topic "orders", at most 2 retries, no "retries" attribute, the handler
   * fails (leaving the body as `left`) and every remote call succeeds.
   */
  lemma OrdersWorkedExample(id: string, data: seq<byte>, body: Body, left: Body, e: string, w: EnvState)
    requires w.script == []
    ensures Deliver("orders", 2, id, data, None, Decoded(body), Failure(e, left), w).env.log
      == w.log + [Invoke(body), Publish("orders", Encoded(left), map["retries" := "1"]), Ack(id),
                  Publish("orders_dlq", Raw(data), map["error" := e]), Ack(id)]
  {
    assert RetriedAttributes(None) == map["retries" := "1"];
    assert DlqTopic("orders") == "orders_dlq";
    FailureWithBudgetLog("orders", 2, id, data, None, body, left, e, w);
  }

  /**
   * The retry chain of one logical unit on topic "orders" with at most 2 retries, every remote
   * call succeeding and the handler failing each time. Each delivery runs on the environment the
   * previous one left and receives the message the previous one republished (`republished` is
   * the data the producer encoded `left` to). The counts go "1", then "2"; the delivery at
   * count 2 republishes nothing to "orders" and dead-letters the message to "orders_dlq".
   */
  lemma OrdersRetryChain(id: string, data: seq<byte>, republished: seq<byte>, body: Body, left: Body, e: string,
                         w: EnvState)
    requires w.script == []
    ensures var first := Deliver("orders", 2, id, data, None, Decoded(body), Failure(e, left), w);
      && first.attributes == Some(map["retries" := "1"])
      && var second := Deliver("orders", 2, id, republished, first.attributes, Decoded(left), Failure(e, left), first.env);
      && second.attributes == Some(map["retries" := "2"])
      && second.env.log[|first.env.log|..] == [Invoke(left), Publish("orders", Encoded(left), map["retries" := "2"]), Ack(id),
                                             Publish("orders_dlq", Raw(republished), map["error" := e]), Ack(id)]
      && var third := Deliver("orders", 2, id, republished, second.attributes, Decoded(left), Failure(e, left), second.env);
      && third.attributes == second.attributes
      && third.env.log[|second.env.log|..] == [Invoke(left), Publish("orders_dlq", Raw(republished), map["error" := e]), Ack(id),
                                              Publish("orders_dlq", Raw(republished), map["error" := e]), Ack(id)]
      && PublishesTo(third.env.log[|second.env.log|..], "orders") == 0
  {
    var one: Attributes := map["retries" := "1"];
    var two: Attributes := map["retries" := "2"];
    RetryCountReadsItoa(Some(one), 1);
    RetryCountReadsItoa(Some(two), 2);
    assert RetriedAttributes(None) == one;
    assert RetriedAttributes(Some(one)) == two;
    assert DlqTopic("orders") == "orders_dlq";
    var first := Deliver("orders", 2, id, data, None, Decoded(body), Failure(e, left), w);
    var second := Deliver("orders", 2, id, republished, first.attributes, Decoded(left), Failure(e, left), first.env);
    FailureWithBudgetLog("orders", 2, id, republished, first.attributes, left, left, e, first.env);
    FailureExhaustedLog("orders", 2, id, republished, second.attributes, left, left, e, second.env);
    FailureRetriesOnlyWhileBudgetRemains("orders", 2, id, republished, second.attributes, left, left, e, second.env);
  }

  /** Intended behaviour: every decoded or undecodable delivery is acknowledged exactly once. */
  lemma IntendedAcksOnce(topicID: string, maxRetries: int, id: string, data: seq<byte>, attributes: Option<Attributes>,
                         decoding: Decoding, handler: HandlerOutcome, w: EnvState)
    ensures var d := DeliverIntended(topicID, maxRetries, id, data, attributes, decoding, handler, w);
      Acks(d.env.log) == Acks(w.log) + 1
  {
    match decoding
    case Undecodable(e) =>
      DlqEventsTally(w.script, topicID, data, e);
      TallyAppend(w.log, DlqEvents(w.script, topicID, data, e), IsAck);
      TallyAppend(w.log + DlqEvents(w.script, topicID, data, e), [Ack(id)], IsAck);
    case Decoded(body) =>
      var invoked := InvokeStep(w, body);
      TallyAppend(w.log, [Invoke(body)], IsAck);
      match handler
      case Panic(reason) =>
        DlqEventsTally(invoked.script, topicID, data, reason);
        TallyAppend(invoked.log, DlqEvents(invoked.script, topicID, data, reason), IsAck);
        var dead := DlqStep(invoked, topicID, data, reason).env;
        TallyAppend(dead.log, [Ack(id)], IsAck);
      case Success =>
        TallyAppend(invoked.log, [Ack(id)], IsAck);
      case Failure(e, left) =>
        var h := HandleFailure(topicID, maxRetries, data, attributes, left, e, invoked);
        HandleFailureEvents(topicID, maxRetries, data, attributes, left, e, invoked);
        assert h.env.log == invoked.log + h.env.log[|invoked.log|..];
        TallyAppend(invoked.log, h.env.log[|invoked.log|..], IsAck);
        TallyAppend(h.env.log, [Ack(id)], IsAck);
  }

  /** Intended behaviour: a panicking handler's message is dead-lettered with the panic's description, then acknowledged. */
  lemma IntendedPanicDeadLetters(topicID: string, maxRetries: int, id: string, data: seq<byte>, attributes: Option<Attributes>,
                                 body: Body, reason: string, w: EnvState)
    ensures DeliverIntended(topicID, maxRetries, id, data, attributes, Decoded(body), Panic(reason), w).env.log
      == w.log + [Invoke(body)] + DlqEvents(w.script, topicID, data, reason) + [Ack(id)]
  {
  }

  /**
   * As written, the deferred block departs from the intended one on both kinds of handler
   * failure, for every panic reason and every returned error: a panic leaves the message
   * unacknowledged where it should be acknowledged once, and a returned error acknowledges it
   * twice where it should be acknowledged once.
   */
  lemma DeferredBlockDiscrepancy(topicID: string, maxRetries: int, id: string, data: seq<byte>,
                                 attributes: Option<Attributes>, body: Body, reason: string, e: string, left: Body,
                                 w: EnvState)
    ensures Acks(Deliver(topicID, maxRetries, id, data, attributes, Decoded(body), Panic(reason), w).env.log) == Acks(w.log)
    ensures Acks(DeliverIntended(topicID, maxRetries, id, data, attributes, Decoded(body), Panic(reason), w).env.log) == Acks(w.log) + 1
    ensures Acks(Deliver(topicID, maxRetries, id, data, attributes, Decoded(body), Failure(e, left), w).env.log) == Acks(w.log) + 2
    ensures Acks(DeliverIntended(topicID, maxRetries, id, data, attributes, Decoded(body), Failure(e, left), w).env.log) == Acks(w.log) + 1
  {
    AcksPerDelivery(topicID, maxRetries, id, data, attributes, Decoded(body), Panic(reason), w);
    AcksPerDelivery(topicID, maxRetries, id, data, attributes, Decoded(body), Failure(e, left), w);
    IntendedAcksOnce(topicID, maxRetries, id, data, attributes, Decoded(body), Panic(reason), w);
    IntendedAcksOnce(topicID, maxRetries, id, data, attributes, Decoded(body), Failure(e, left), w);
  }
}
