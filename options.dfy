/**
 * The subscriber's configuration: the defaults `NewPubSubSubscriber` starts from, the functional
 * options that overwrite them one after another, and the retry attribute key that is set after
 * the options have run.
 */
module Options {
  import opened Transport
  import opened Policy

  const Second: Duration := 1_000_000_000

  const DefaultMaxRetries := 5

  const DefaultAckDeadline: Duration := 10 * Second

  /** `pubsub.DefaultReceiveSettings.MaxOutstandingMessages` of the transport library. */
  const TransportDefaultMaxOutstanding := 1000

  /**
   * The fields of `PubSubSubscriber` that the options set. The handler and the target type are
   * kept as names: what the handler does and what decoding yields are inputs of each delivery.
   */
  datatype Settings = Settings(
    client: Environment?,
    handler: string,
    subscriberID: string,
    topicID: string,
    handleType: string,
    maxRetries: int,
    maxOutstandingMessages: int,
    ackDeadline: Duration,
    maxRetriesAttribute: string)

  datatype SubscriberOption =
    | WithClient(client: Environment?)
    | WithHandler(handler: string)
    | WithPubSubSubscriberID(id: string)
    | WithTopicID(topic: string)
    | WithType(typeName: string)
    | WithMaxRetries(maxRetries: int)
    | WithMaxOutstandingMessages(maxOutstandingMessages: int)
    | WithAckDeadline(ackDeadline: Duration)

  /** The fields before the options run: zero values, except for the three defaults. */
  function Defaults(): (s: Settings)
    ensures s.maxRetries == 5 && s.ackDeadline == 10 * Second && s.maxRetriesAttribute == ""
  {
    Settings(null, "", "", "", "", DefaultMaxRetries, TransportDefaultMaxOutstanding, DefaultAckDeadline, "")
  }

  /** One option overwrites one field. */
  function Apply(s: Settings, o: SubscriberOption): (r: Settings)
    ensures r.maxRetriesAttribute == s.maxRetriesAttribute
    ensures r.maxRetries == if o.WithMaxRetries? then o.maxRetries else s.maxRetries
    ensures r.ackDeadline == if o.WithAckDeadline? then o.ackDeadline else s.ackDeadline
    ensures r.topicID == if o.WithTopicID? then o.topic else s.topicID
  {
    match o
    case WithClient(c) => s.(client := c)
    case WithHandler(h) => s.(handler := h)
    case WithPubSubSubscriberID(id) => s.(subscriberID := id)
    case WithTopicID(t) => s.(topicID := t)
    case WithType(t) => s.(handleType := t)
    case WithMaxRetries(n) => s.(maxRetries := n)
    case WithMaxOutstandingMessages(n) => s.(maxOutstandingMessages := n)
    case WithAckDeadline(d) => s.(ackDeadline := d)
  }

  /** The options applied in order. */
  function ApplyAll(s: Settings, opts: seq<SubscriberOption>): (r: Settings)
    ensures r.maxRetriesAttribute == s.maxRetriesAttribute
    ensures (forall j | 0 <= j < |opts| :: !opts[j].WithTopicID?) ==> r.topicID == s.topicID
  {
    if opts == [] then s else Apply(ApplyAll(s, opts[..|opts| - 1]), opts[|opts| - 1])
  }

  /** What `NewPubSubSubscriber(opts...)` configures; no option can change the retry attribute key. */
  function Configured(opts: seq<SubscriberOption>): (s: Settings)
    ensures s.maxRetriesAttribute == RetriesKey
  {
    ApplyAll(Defaults(), opts).(maxRetriesAttribute := RetriesKey)
  }

  /** With no option, the defaults: 5 retries and a 10-second ack deadline. */
  lemma NoOptionsGiveDefaults()
    ensures Configured([]).maxRetries == 5
    ensures Configured([]).ackDeadline == 10 * Second
    ensures Configured([]).maxOutstandingMessages == TransportDefaultMaxOutstanding
    ensures Configured([]).client == null
  {
  }

  /** The last WithMaxRetries option decides the maximum. */
  lemma {:induction false} MaxRetriesFromLastOption(opts: seq<SubscriberOption>, i: nat)
    requires i < |opts| && opts[i].WithMaxRetries?
    requires forall j | i < j < |opts| :: !opts[j].WithMaxRetries?
    ensures Configured(opts).maxRetries == opts[i].maxRetries
    decreases |opts|
  {
    if i < |opts| - 1 {
      MaxRetriesFromLastOption(opts[..|opts| - 1], i);
    }
  }

  /** Without a WithMaxRetries option the maximum stays 5. */
  lemma {:induction false} MaxRetriesDefaultsToFive(opts: seq<SubscriberOption>)
    requires forall j | 0 <= j < |opts| :: !opts[j].WithMaxRetries?
    ensures Configured(opts).maxRetries == DefaultMaxRetries
    decreases |opts|
  {
    if opts != [] {
      MaxRetriesDefaultsToFive(opts[..|opts| - 1]);
    }
  }

  /** The last WithAckDeadline option decides the ack deadline. */
  lemma {:induction false} AckDeadlineFromLastOption(opts: seq<SubscriberOption>, i: nat)
    requires i < |opts| && opts[i].WithAckDeadline?
    requires forall j | i < j < |opts| :: !opts[j].WithAckDeadline?
    ensures Configured(opts).ackDeadline == opts[i].ackDeadline
    decreases |opts|
  {
    if i < |opts| - 1 {
      AckDeadlineFromLastOption(opts[..|opts| - 1], i);
    }
  }

  /** Without a WithAckDeadline option the ack deadline stays 10 seconds. */
  lemma {:induction false} AckDeadlineDefaultsToTenSeconds(opts: seq<SubscriberOption>)
    requires forall j | 0 <= j < |opts| :: !opts[j].WithAckDeadline?
    ensures Configured(opts).ackDeadline == DefaultAckDeadline
    decreases |opts|
  {
    if opts != [] {
      AckDeadlineDefaultsToTenSeconds(opts[..|opts| - 1]);
    }
  }
}
