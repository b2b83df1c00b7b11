/**
 * The pub/sub transport as the subscriber sees it. The transport itself is an external
 * collaborator: whether each remote call succeeds is an input, given as a script of outcomes
 * that the calls consume in order (calls beyond the end of the script succeed).
 * What the subscriber observably does is recorded in a log: the call into the handler,
 * every publish the transport accepted, and every Ack.
 */
module Transport {
  import opened Wrappers

  newtype byte = x: int | 0 <= x < 256

  /** A Go `time.Duration`: a count of nanoseconds. */
  type Duration = int

  type Attributes = map<string, string>

  /**
   * The body a message decoded to, as the handler receives it. Decoding is not modelled;
   * the body is kept abstract (its re-encoding by the producer is left to the transport).
   */
  type Body = string

  /** A Go `error` result: nil (Ok) or an error with its text. */
  datatype Status = Ok | Err(message: string)

  /** What a publish carries: raw bytes as received, or a decoded body that the producer re-encodes. */
  datatype Payload = Raw(bytes: seq<byte>) | Encoded(body: Body)

  datatype Event =
    | Invoke(body: Body)
    | Publish(topic: string, payload: Payload, attributes: Attributes)
    | Ack(messageID: string)

  datatype SubscriptionConfig = SubscriptionConfig(topic: string, ackDeadline: Duration)

  /** The observable state of the environment: existing resources, pending call outcomes, and the log. */
  datatype EnvState = EnvState(
    topics: set<string>,
    subscriptions: map<string, SubscriptionConfig>,
    script: seq<Status>,
    log: seq<Event>)

  /** The result of a remote call together with the environment after it. */
  datatype Step = Step(status: Status, env: EnvState)

  /** The outcome of the next remote call. */
  function Outcome(script: seq<Status>): Status {
    if script == [] then Ok else script[0]
  }

  /** The outcomes left once the next remote call's outcome has been used. */
  function Rest(script: seq<Status>): (rest: seq<Status>)
    ensures script != [] ==> [script[0]] + rest == script
    ensures script == [] ==> rest == []
  {
    if script == [] then [] else script[1..]
  }

  /** The environment once the next remote call's outcome has been used; nothing else changes. */
  function Consume(w: EnvState): EnvState {
    w.(script := Rest(w.script))
  }

  /** `createTopicIfNotExists`: on success the topic exists afterwards (whether or not it existed before). */
  function EnsureTopicStep(w: EnvState, id: string): Step {
    var st := Outcome(w.script);
    var w1 := Consume(w);
    Step(st, if st.Ok? then w1.(topics := w1.topics + {id}) else w1)
  }

  /** Creating a subscription bound to a topic: on success the binding is recorded. */
  function CreateSubscriptionStep(w: EnvState, id: string, config: SubscriptionConfig): Step {
    var st := Outcome(w.script);
    var w1 := Consume(w);
    Step(st, if st.Ok? then w1.(subscriptions := w1.subscriptions[id := config]) else w1)
  }

  /** `PublishWihAttribrutes`: on success the message is logged as published, with its attributes verbatim. */
  function PublishStep(w: EnvState, topic: string, payload: Payload, attributes: Attributes): Step {
    var st := Outcome(w.script);
    var w1 := Consume(w);
    Step(st, if st.Ok? then w1.(log := w1.log + [Publish(topic, payload, attributes)]) else w1)
  }

  function AckStep(w: EnvState, id: string): EnvState {
    w.(log := w.log + [Ack(id)])
  }

  function InvokeStep(w: EnvState, body: Body): EnvState {
    w.(log := w.log + [Invoke(body)])
  }

  /** A delivered `pubsub.Message`: identifier and data are fixed, the attribute map is mutable and may be nil (None). */
  class Message {
    const id: string
    const data: seq<byte>
    var attributes: Option<Attributes>

    constructor (id: string, data: seq<byte>, attributes: Option<Attributes>)
      ensures this.id == id && this.data == data && this.attributes == attributes
    {
      this.id := id;
      this.data := data;
      this.attributes := attributes;
    }
  }

  /** The client of the transport (and the handler behind it), with the state the subscriber changes. */
  class Environment {
    var topics: set<string>
    var subscriptions: map<string, SubscriptionConfig>
    var script: seq<Status>
    var log: seq<Event>

    function State(): EnvState
      reads this
    {
      EnvState(topics, subscriptions, script, log)
    }

    constructor (topics: set<string>, subscriptions: map<string, SubscriptionConfig>, script: seq<Status>)
      ensures State() == EnvState(topics, subscriptions, script, [])
    {
      this.topics := topics;
      this.subscriptions := subscriptions;
      this.script := script;
      this.log := [];
    }

    /** Takes the outcome of the next remote call from the script. */
    method NextOutcome() returns (st: Status)
      modifies this`script
      ensures st == Outcome(old(script))
      ensures State() == Consume(old(State()))
    {
      st := Ok;
      if script != [] {
        st := script[0];
        script := script[1..];
      }
    }

    /** `Subscription(id).Exists`: false together with the error when the call fails. */
    method SubscriptionExists(id: string) returns (present: bool, st: Status)
      modifies this`script
      ensures st == Outcome(old(script))
      ensures present <==> st.Ok? && id in subscriptions
      ensures State() == Consume(old(State()))
    {
      st := NextOutcome();
      present := st.Ok? && id in subscriptions;
    }

    method EnsureTopic(id: string) returns (st: Status)
      modifies this`script, this`topics
      ensures Step(st, State()) == EnsureTopicStep(old(State()), id)
    {
      st := NextOutcome();
      if st.Ok? {
        topics := topics + {id};
      }
    }

    method CreateSubscription(id: string, config: SubscriptionConfig) returns (st: Status)
      modifies this`script, this`subscriptions
      ensures Step(st, State()) == CreateSubscriptionStep(old(State()), id, config)
    {
      st := NextOutcome();
      if st.Ok? {
        subscriptions := subscriptions[id := config];
      }
    }

    method Publish(topic: string, payload: Payload, attributes: Attributes) returns (st: Status)
      modifies this`script, this`log
      ensures Step(st, State()) == PublishStep(old(State()), topic, payload, attributes)
    {
      st := NextOutcome();
      if st.Ok? {
        log := log + [Event.Publish(topic, payload, attributes)];
      }
    }

    method Ack(id: string)
      modifies this`log
      ensures State() == AckStep(old(State()), id)
    {
      log := log + [Event.Ack(id)];
    }

    /** Hands a decoded body to the handler; what the handler then does is an input of the delivery. */
    method Invoke(body: Body)
      modifies this`log
      ensures State() == InvokeStep(old(State()), body)
    {
      log := log + [Event.Invoke(body)];
    }
  }
}
