/**
 * How src/job.js and src/worker.js meet: the topic a Job publishes on is the
 * topic a Worker derives for the same job name, and the envelope a Job
 * publishes, delivered as a message body, becomes the callback's job data.
 */
module Delivery {
  import opened Common
  import Jobs
  import Workers

  /** Producer and consumer derive the same topic name from a job name and a suffix. */
  lemma ProducerAndConsumerAgree(name: string, topicSuffix: Option<string>)
    ensures Jobs.JobTopicName(name, topicSuffix) == Workers.TopicName(name, topicSuffix)
    ensures Workers.TopicName(name, topicSuffix)[..|name|] == name
  {
  }

  /**
   * A saved envelope that reaches the worker as the body of message `id`
   * gives callback data whose jobId is the message id, whose topicName and
   * createdAt are the ones `save` set, and which holds every other payload
   * field unchanged (a payload field named jobId is replaced by the id).
   */
  lemma {:induction false} EnvelopeReachesCallback(
    data: Payload, name: string, topicSuffix: Option<string>, createdAt: Value,
    id: string, attributes: map<string, string>)
    ensures var topicName := Jobs.JobTopicName(name, topicSuffix);
      var envelope := Jobs.Envelope(data, topicName, createdAt);
      var job := Workers.CallbackData(Workers.PubsubMessage(id, attributes, Some(envelope)), envelope);
      && job["jobId"] == Str(id)
      && job["topicName"] == Str(Workers.TopicName(name, topicSuffix))
      && job["createdAt"] == createdAt
      && (forall k :: k in data && k !in {"topicName", "createdAt", "jobId"} ==> job[k] == data[k])
      && job.Keys == attributes.Keys + data.Keys + {"topicName", "createdAt", "jobId"}
  {
    var topicName := Jobs.JobTopicName(name, topicSuffix);
    var envelope := Jobs.Envelope(data, topicName, createdAt);
    var job := Workers.CallbackData(Workers.PubsubMessage(id, attributes, Some(envelope)), envelope);
    ProducerAndConsumerAgree(name, topicSuffix);
    assert job.Keys == attributes.Keys + envelope.Keys + {"jobId"};
  }

  /**
   * With a window of one, a tick that delivers a message holds the window, so
   * the next tick pulls nothing; once the done callback resolves, the
   * following tick pulls again.
   */
  method WindowOfOne(m: Workers.ReceivedMessage, later: Workers.PullResponse, broker: nat -> Workers.CallOutcome)
    returns (first: Option<Workers.SubscriberRequest>, second: Option<Workers.SubscriberRequest>,
             third: Option<Workers.SubscriberRequest>)
    requires m.message.body.Some?
    requires broker(0).Resolved?
    ensures first.Some? && second.None? && third.Some?
  {
    var c := new Workers.Consumer("job-suffix", "subscription", 1, None);
    var delivered, ignored;
    first, delivered := c.Tick(Workers.Pulled([m]));
    second, ignored := c.Tick(later);
    var calls, r := c.Done(delivered[0], broker);
    third, ignored := c.Tick(later);
  }
}
