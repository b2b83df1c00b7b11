/**
 * `PubSubSubscriber`: its constructor and the per-message operations it runs inside the receive
 * callback, in imperative form. The message's attribute map and the environment change in place;
 * each operation is tied to the policy function that specifies it.
 */
module Subscriber {
  import opened Wrappers
  import opened Decimal
  import opened Transport
  import opened Policy
  import opened Delivery
  import opened Options

  class PubSubSubscriber {
    var client: Environment?
    var handler: string
    var subscriberID: string
    var topicID: string
    var handleType: string
    var maxRetries: int
    var maxOutstandingMessages: int
    var ackDeadline: Duration
    var maxRetriesAttribute: string

    function Settings(): Settings
      reads this
    {
      Options.Settings(client, handler, subscriberID, topicID, handleType, maxRetries,
               maxOutstandingMessages, ackDeadline, maxRetriesAttribute)
    }

    /** The retry attribute key is the fixed "retries". */
    ghost predicate Valid()
      reads this
    {
      maxRetriesAttribute == RetriesKey
    }

    /** `NewPubSubSubscriber`: defaults, then every option in order, then the fixed attribute key. */
    constructor (opts: seq<SubscriberOption>)
      ensures Valid()
      ensures Settings() == Configured(opts)
    {
      client := null;
      handler := "";
      subscriberID := "";
      topicID := "";
      handleType := "";
      maxRetries := DefaultMaxRetries;
      maxOutstandingMessages := TransportDefaultMaxOutstanding;
      ackDeadline := DefaultAckDeadline;
      maxRetriesAttribute := "";
      new;
      var i := 0;
      while i < |opts|
        invariant 0 <= i <= |opts|
        invariant Settings() == ApplyAll(Defaults(), opts[..i])
      {
        assert opts[..i + 1][..i] == opts[..i];
        Set(opts[i]);
        i := i + 1;
      }
      assert opts[..|opts|] == opts;
      maxRetriesAttribute := RetriesKey;
    }

    /** Runs one option closure on the subscriber. */
    method Set(o: SubscriberOption)
      modifies this
      ensures Settings() == Apply(old(Settings()), o)
    {
      match o
      case WithClient(c) => client := c;
      case WithHandler(h) => handler := h;
      case WithPubSubSubscriberID(id) => subscriberID := id;
      case WithTopicID(t) => topicID := t;
      case WithType(t) => handleType := t;
      case WithMaxRetries(n) => maxRetries := n;
      case WithMaxOutstandingMessages(n) => maxOutstandingMessages := n;
      case WithAckDeadline(d) => ackDeadline := d;
    }

    /** `getRetries`: replaces a nil attribute map by an empty one, then reads the count. */
    method GetRetries(m: Message) returns (retries: int)
      requires Valid()
      modifies m`attributes
      ensures m.attributes == Some(AttributesOf(old(m.attributes)))
      ensures retries == RetryCount(old(m.attributes))
    {
      if m.attributes.None? {
        m.attributes := Some(map[]);
      }
      retries := 0;
      var attributes := m.attributes.value;
      if maxRetriesAttribute in attributes {
        retries := Atoi(attributes[maxRetriesAttribute]).GetOr(0);
      }
    }

    /** `retry`: writes the incremented count into the message's own map, then republishes the body with that map. */
    method Retry(m: Message, body: Body) returns (err: Status)
      requires Valid() && client != null
      modifies m`attributes, client
      ensures m.attributes == Some(RetriedAttributes(old(m.attributes)))
      ensures Step(err, client.State()) == RetryStep(old(client.State()), topicID, old(m.attributes), body)
    {
      var retries := GetRetries(m);
      retries := retries + 1;
      m.attributes := Some(m.attributes.value[maxRetriesAttribute := Itoa(retries)]);
      err := client.Publish(topicID, Encoded(body), m.attributes.value);
    }

    /** `dlq`: makes sure the dead-letter topic exists, then publishes the raw data with only the error attribute. */
    method Dlq(m: Message, e: string) returns (err: Status)
      requires client != null
      modifies client
      ensures Step(err, client.State()) == DlqStep(old(client.State()), topicID, m.data, e)
    {
      var dlq := topicID + "_dlq";
      err := client.EnsureTopic(dlq);
      if err.Err? {
        return;
      }
      var attributes := map[ErrorKey := e];
      err := client.Publish(dlq, Raw(m.data), attributes);
    }

    /**
     * The receive callback of `Run` for one delivery. `err` is the variable the deferred block
     * captures: it is nil after a successful decode and only the handler's returned error sets it,
     * so the deferred block acts on a returned error and does nothing after a panic.
     */
    method OnMessage(m: Message, decoding: Decoding, outcome: HandlerOutcome)
      requires Valid() && client != null
      modifies m`attributes, client
      ensures Delivered(m.attributes, client.State())
        == Deliver(topicID, maxRetries, m.id, m.data, old(m.attributes), decoding, outcome, old(client.State()))
    {
      match decoding
      case Undecodable(e) =>
        var _ := Dlq(m, e);
        client.Ack(m.id);
      case Decoded(body) =>
        var err: Status := Ok;
        client.Invoke(body);
        ghost var invoked := client.State();
        if !outcome.Panic? {
          err := if outcome.Failure? then Err(outcome.error) else Ok;
          if err.Err? {
            var retries := GetRetries(m);
            if retries >= maxRetries {
              var _ := Dlq(m, err.message);
            } else {
              // the handler got a pointer to the body: the retry re-encodes it as the handler left it
              var _ := Retry(m, outcome.left);
            }
            assert Delivered(m.attributes, client.State())
              == HandleFailure(topicID, maxRetries, m.data, old(m.attributes), outcome.left, outcome.error, invoked);
          }
          client.Ack(m.id);
        }
        // the deferred block: recover() ends a panic, but the test is on err
        if err.Err? {
          var _ := Dlq(m, err.message);
          client.Ack(m.id);
        }
    }
  }
}
