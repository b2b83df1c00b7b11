/**
 * The pure parts of the subscriber's retry / dead-letter policy: reading the retry count from a
 * message's attributes, the attributes a retry republishes with, the dead-letter topic's name,
 * and the effect of the `retry` and `dlq` operations on the environment.
 */
module Policy {
  import opened Wrappers
  import opened Decimal
  import opened Transport

  /** The attribute that carries the retry count; fixed by the constructor. */
  const RetriesKey := "retries"

  /** The only attribute of a dead-lettered message. */
  const ErrorKey := "error"

  /** The dead-letter topic of a topic: its name followed by "_dlq". */
  function DlqTopic(topicID: string): (dlq: string)
    ensures |dlq| == |topicID| + 4 && dlq[..|topicID|] == topicID && dlq[|topicID|..] == "_dlq"
    ensures dlq != topicID
  {
    topicID + "_dlq"
  }

  /** Different topics have different dead-letter topics. */
  lemma DlqTopicInjective(a: string, b: string)
    requires DlqTopic(a) == DlqTopic(b)
    ensures a == b
  {
  }

  /** The attribute map, with a nil map read as empty. */
  function AttributesOf(attributes: Option<Attributes>): Attributes {
    attributes.GetOr(map[])
  }

  /**
   * `getRetries`: the value of the "retries" attribute as Atoi reads it, and 0 when the map is nil,
   * the key is absent or the value is not a numeral. Negative numerals are accepted as they are.
   */
  function RetryCount(attributes: Option<Attributes>): (n: int)
    ensures RetriesKey !in AttributesOf(attributes) ==> n == 0
  {
    var m := AttributesOf(attributes);
    if RetriesKey in m then Atoi(m[RetriesKey]).GetOr(0) else 0
  }

  /** A count written by `retry` is read back exactly. */
  lemma RetryCountReadsItoa(attributes: Option<Attributes>, n: int)
    requires RetriesKey in AttributesOf(attributes) && AttributesOf(attributes)[RetriesKey] == Itoa(n)
    ensures RetryCount(attributes) == n
  {
    ItoaRoundTrip(n);
  }

  /** Any numeral is read as its integer: a '+' sign, leading zeros and "-0" are accepted. */
  lemma RetryCountReadsNumeral(attributes: Option<Attributes>, sign: string, k: nat, n: nat)
    requires sign == "" || sign == "+" || sign == "-"
    requires RetriesKey in AttributesOf(attributes) && AttributesOf(attributes)[RetriesKey] == sign + Zeros(k) + NatDigits(n)
    ensures RetryCount(attributes) == if sign == "-" then 0 - n as int else n
  {
    AtoiReadsNumeral(sign, k, n);
  }

  /** A value that is not a numeral (empty, a lone sign, any other character) reads as 0. */
  lemma RetryCountMalformedIsZero(attributes: Option<Attributes>)
    requires RetriesKey in AttributesOf(attributes) && !IsNumeral(AttributesOf(attributes)[RetriesKey])
    ensures RetryCount(attributes) == 0
  {
    AtoiDefinedIffNumeral(AttributesOf(attributes)[RetriesKey]);
  }

  /** Nothing enforces a non-negative count: "-3" reads as -3. */
  lemma RetryCountAcceptsNegative()
    ensures RetryCount(Some(map[RetriesKey := "-3"])) == -3
  {
  }

  /** The threshold test of the failure branch: retries are exhausted once the count reaches the maximum. */
  predicate Exhausted(attributes: Option<Attributes>, maxRetries: int)
    ensures RetriesKey !in AttributesOf(attributes) ==> (Exhausted(attributes, maxRetries) <==> maxRetries <= 0)
  {
    RetryCount(attributes) >= maxRetries
  }

  /** The attribute map after `retry`: the count one higher, written in decimal. */
  function RetriedAttributes(attributes: Option<Attributes>): (m: Attributes)
    ensures RetriesKey in m
    ensures forall k | k != RetriesKey :: (k in m <==> k in AttributesOf(attributes))
    ensures forall k | k != RetriesKey && k in m :: m[k] == AttributesOf(attributes)[k]
  {
    AttributesOf(attributes)[RetriesKey := Itoa(RetryCount(attributes) + 1)]
  }

  /** The republished message carries a retry count exactly one higher than the delivered one. */
  lemma RetriedCountIncrements(attributes: Option<Attributes>)
    ensures RetryCount(Some(RetriedAttributes(attributes))) == RetryCount(attributes) + 1
  {
    RetryCountReadsItoa(Some(RetriedAttributes(attributes)), RetryCount(attributes) + 1);
  }

  /** What a successful `dlq` adds to the log, given the outcomes of its two remote calls. */
  function DlqEvents(script: seq<Status>, topicID: string, data: seq<byte>, e: string): (events: seq<Event>)
    ensures |events| <= 1
    ensures forall ev | ev in events :: ev == Publish(DlqTopic(topicID), Raw(data), map[ErrorKey := e])
    ensures events != [] <==> Outcome(script).Ok? && Outcome(Rest(script)).Ok?
  {
    if Outcome(script).Ok? && Outcome(Rest(script)).Ok? then
      [Publish(DlqTopic(topicID), Raw(data), map[ErrorKey := e])]
    else
      []
  }

  /**
   * `dlq`: makes sure the dead-letter topic exists, then publishes the raw data with a fresh map
   * holding only the error text. If the topic cannot be made to exist, that error is returned
   * and nothing is published.
   */
  function DlqStep(w: EnvState, topicID: string, data: seq<byte>, e: string): (s: Step)
    ensures s.env.log == w.log + DlqEvents(w.script, topicID, data, e)
    ensures Outcome(w.script).Err? ==> s.status == Outcome(w.script) && s.env == Consume(w)
    ensures Outcome(w.script).Ok? ==> s.status == Outcome(Rest(w.script)) && s.env.script == Rest(Rest(w.script))
    ensures s.env.topics == if Outcome(w.script).Ok? then w.topics + {DlqTopic(topicID)} else w.topics
    ensures s.env.subscriptions == w.subscriptions
  {
    var created := EnsureTopicStep(w, DlqTopic(topicID));
    if created.status.Err? then created
    else PublishStep(created.env, DlqTopic(topicID), Raw(data), map[ErrorKey := e])
  }

  /**
   * `retry`: republishes the decoded body to the same topic (never to the dead-letter topic)
   * with the incremented attribute map; a failed publish is returned and logs nothing.
   */
  function RetryStep(w: EnvState, topicID: string, attributes: Option<Attributes>, body: Body): (s: Step)
    ensures s.env.log == w.log + if Outcome(w.script).Ok? then [Publish(topicID, Encoded(body), RetriedAttributes(attributes))] else []
    ensures s.status == Outcome(w.script) && s.env == Consume(w).(log := s.env.log)
  {
    PublishStep(w, topicID, Encoded(body), RetriedAttributes(attributes))
  }
}
