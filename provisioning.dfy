/**
 * `createSubscriptionIfNotExists`: if the subscription exists (or the existence check fails) it is
 * returned as it is; otherwise the topic is made to exist and the subscription is created,
 * bound to it with the ack deadline. A failure in either creation returns a nil subscription.
 */
module Provisioning {
  import opened Wrappers
  import opened Transport

  /** The subscription handle (None for nil), the error, and the environment afterwards. */
  datatype Provisioned = Provisioned(handle: Option<string>, status: Status, env: EnvState)

  function Provision(w: EnvState, subscriberID: string, topicID: string, ackDeadline: Duration): (p: Provisioned)
    ensures p.env.log == w.log && w.topics <= p.env.topics
    ensures p.status.Ok? ==> p.handle == Some(subscriberID) && subscriberID in p.env.subscriptions
    ensures p.env.subscriptions.Keys <= w.subscriptions.Keys + {subscriberID}
  {
    var checked := Outcome(w.script);
    var w1 := Consume(w);
    if checked.Err? || subscriberID in w.subscriptions then
      Provisioned(Some(subscriberID), checked, w1)
    else
      var topic := EnsureTopicStep(w1, topicID);
      if topic.status.Err? then Provisioned(None, topic.status, topic.env)
      else
        var created := CreateSubscriptionStep(topic.env, subscriberID, SubscriptionConfig(topicID, ackDeadline));
        if created.status.Err? then Provisioned(None, created.status, created.env)
        else Provisioned(Some(subscriberID), Ok, created.env)
  }

  method CreateSubscriptionIfNotExists(client: Environment, subscriberID: string, topicID: string, ackDeadline: Duration)
    returns (handle: Option<string>, err: Status)
    modifies client
    ensures Provisioned(handle, err, client.State()) == Provision(old(client.State()), subscriberID, topicID, ackDeadline)
  {
    var present, checked := client.SubscriptionExists(subscriberID);
    if checked.Err? || present {
      return Some(subscriberID), checked;
    }
    var topicStatus := client.EnsureTopic(topicID);
    if topicStatus.Err? {
      return None, topicStatus;
    }
    var created := client.CreateSubscription(subscriberID, SubscriptionConfig(topicID, ackDeadline));
    if created.Err? {
      return None, created;
    }
    return Some(subscriberID), Ok;
  }

  /** An existing subscription is returned without creating anything. */
  lemma ExistingSubscriptionCreatesNothing(w: EnvState, subscriberID: string, topicID: string, ackDeadline: Duration)
    requires subscriberID in w.subscriptions && Outcome(w.script).Ok?
    ensures Provision(w, subscriberID, topicID, ackDeadline) == Provisioned(Some(subscriberID), Ok, Consume(w))
  {
  }

  /** A failed existence check is returned together with a (non-nil) handle, and nothing is created. */
  lemma FailedCheckCreatesNothing(w: EnvState, subscriberID: string, topicID: string, ackDeadline: Duration)
    requires Outcome(w.script).Err?
    ensures Provision(w, subscriberID, topicID, ackDeadline) == Provisioned(Some(subscriberID), Outcome(w.script), Consume(w))
  {
  }

  /**
   * On success the subscription exists; if it did not before, it is now bound to the topic with
   * the ack deadline and the topic exists. Existing bindings are never changed, and the handle is
   * nil exactly when a creation failed.
   */
  lemma ProvisionOutcome(w: EnvState, subscriberID: string, topicID: string, ackDeadline: Duration)
    ensures var p := Provision(w, subscriberID, topicID, ackDeadline);
      && (p.status.Ok? ==> p.handle == Some(subscriberID) && subscriberID in p.env.subscriptions)
      && (p.status.Ok? && subscriberID !in w.subscriptions ==>
            p.env.subscriptions[subscriberID] == SubscriptionConfig(topicID, ackDeadline) && topicID in p.env.topics)
      && (forall k | k in w.subscriptions :: k in p.env.subscriptions && p.env.subscriptions[k] == w.subscriptions[k])
      && w.topics <= p.env.topics
      && p.env.log == w.log
      && (p.handle.None? <==> p.status.Err? && Outcome(w.script).Ok? && subscriberID !in w.subscriptions)
  {
  }

  /**
   * When the check passes and the subscription is absent, a failure to create the topic, or else
   * to create the subscription, is returned as this call's error with a nil handle, and no
   * subscription is created.
   */
  lemma CreationFailureReturnsError(w: EnvState, subscriberID: string, topicID: string, ackDeadline: Duration)
    requires Outcome(w.script).Ok? && subscriberID !in w.subscriptions
    ensures var p := Provision(w, subscriberID, topicID, ackDeadline);
      var topicStatus := Outcome(Rest(w.script));
      var subscriptionStatus := Outcome(Rest(Rest(w.script)));
      && (topicStatus.Err? ==> p.handle.None? && p.status == topicStatus && p.env.subscriptions == w.subscriptions
                               && p.env.topics == w.topics)
      && (topicStatus.Ok? && subscriptionStatus.Err? ==>
            p.handle.None? && p.status == subscriptionStatus && p.env.subscriptions == w.subscriptions
            && p.env.topics == w.topics + {topicID})
  {
  }

  /** Provisioning twice: once the first call succeeds, a second call with a working existence check creates nothing and succeeds. */
  lemma ProvisionIdempotent(w: EnvState, subscriberID: string, topicID: string, ackDeadline: Duration)
    requires Provision(w, subscriberID, topicID, ackDeadline).status.Ok?
    requires Outcome(Provision(w, subscriberID, topicID, ackDeadline).env.script).Ok?
    ensures var first := Provision(w, subscriberID, topicID, ackDeadline);
      var second := Provision(first.env, subscriberID, topicID, ackDeadline);
      && second.status.Ok? && second.handle == Some(subscriberID)
      && second.env.topics == first.env.topics && second.env.subscriptions == first.env.subscriptions
  {
  }
}
