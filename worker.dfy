/**
 * src/worker.js: the job consumer. `process` derives the topic and
 * subscription names and starts a poll tick that admits one pull at a time
 * while fewer than `maxInProgress` jobs are in progress; every delivered
 * message gets a done callback (acknowledge) and a failed callback (reset
 * the ack deadline), each retried by its own counting loop. The counter
 * lives in the closure of one `process` call, modelled by class Consumer;
 * each tick and each callback completion is one sequential event.
 */
module Workers {
  import opened Common

  const DefaultMaxRetries := 200
  /** The deadline the failed callback asks for. */
  const NackDeadlineSeconds := 10
  /** The pull request asks for one message. */
  const PullBatchSize := 1

  /** The TypeErrors `options.flowControl.maxMessages` raises when `options`, or its `flowControl`, is undefined. */
  const UndefinedOptionsMessage := "Cannot read properties of undefined (reading 'flowControl')"
  const UndefinedFlowControlMessage := "Cannot read properties of undefined (reading 'maxMessages')"
  const UndefinedSubscriptionsMessage := "Cannot convert undefined or null to object"

  datatype WorkerConfig = WorkerConfig(
    credentials: Option<Credentials>,
    projectId: Option<string>,
    topicSuffix: Option<string>,
    subscriptionName: Option<string>,
    maxRetries: Option<int>)

  /** A message as pulled: its id, its attributes and the fields of its parsed body (None when the body is not JSON). */
  datatype PubsubMessage = PubsubMessage(id: string, attributes: map<string, string>, body: Option<Payload>)

  datatype ReceivedMessage = ReceivedMessage(ackId: string, message: PubsubMessage)

  /** What the broker answers to a pull. */
  datatype PullResponse = Pulled(receivedMessages: seq<ReceivedMessage>) | PullFailed(error: Error)

  /** One invocation of the user callback: the job data and the ack id its two callbacks settle. */
  datatype Delivery = Delivery(data: Payload, ackId: string)

  /** The requests the worker sends to the subscriber client. */
  datatype SubscriberRequest =
    | PullRequest(subscription: string, maxMessages: nat)
    | AcknowledgeRequest(subscription: string, ackIds: seq<string>)
    | ModifyAckDeadlineRequest(subscription: string, ackIds: seq<string>, ackDeadlineSeconds: int)

  /** The outcome of one broker call. */
  datatype CallOutcome = Resolved | Rejected(error: Error)

  /** `_.defaults(config, { maxRetries: 200 })`: only an undefined maxRetries is filled in. */
  function WithDefaults(c: WorkerConfig): (r: WorkerConfig)
    ensures r.maxRetries.Some?
    ensures c.maxRetries.Some? ==> r == c
    ensures c.maxRetries.None? ==> r == c.(maxRetries := Some(DefaultMaxRetries))
  {
    if c.maxRetries.None? then c.(maxRetries := Some(DefaultMaxRetries)) else c
  }

  /** `this.config.maxRetries || 200`: undefined and 0 both give the default. */
  function EffectiveMaxRetries(configured: Option<int>): (m: int)
    ensures m != 0
    ensures configured.None? || configured == Some(0) ==> m == DefaultMaxRetries
    ensures configured.Some? && configured.value != 0 ==> m == configured.value
  {
    if configured.None? || configured.value == 0 then DefaultMaxRetries else configured.value
  }

  /**
   * The number of broker calls a retry loop makes when every call fails:
   * `retry` starts at -1, counts failures, and the loop stops once it
   * exceeds `maxRetries`, which happens on call `maxRetries + 2`, or on the
   * first call when `maxRetries` is below -1.
   */
  function AttemptLimit(maxRetries: int): nat
  {
    if maxRetries >= -1 then maxRetries + 2 else 1
  }

  /** The index of the first resolved call among the first `n`, if any. */
  function FirstSuccess(broker: nat -> CallOutcome, n: nat): (r: Option<nat>)
    ensures r.Some? ==> r.value < n && broker(r.value).Resolved?
    ensures r.Some? ==> forall j: nat :: j < r.value ==> broker(j).Rejected?
    ensures r.None? ==> forall j: nat :: j < n ==> broker(j).Rejected?
  {
    if n == 0 then None
    else match FirstSuccess(broker, n - 1)
      case Some(k) => Some(k)
      case None => if broker(n - 1).Resolved? then Some(n - 1) else None
  }

  /**
   * The run of a retry loop allowed `limit` calls: how many calls it makes,
   * and whether it returns or throws the last error.
   */
  function Settle(broker: nat -> CallOutcome, limit: nat): (r: (nat, Result<(), Error>))
    requires limit >= 1
    ensures 1 <= r.0 <= limit
    ensures forall j: nat :: j < r.0 - 1 ==> broker(j).Rejected?
    ensures r.1.Success? <==> broker(r.0 - 1).Resolved?
    ensures r.1.Failure? ==> r.0 == limit && r.1 == Failure(broker(limit - 1).error)
  {
    match FirstSuccess(broker, limit)
    case Some(k) => (k + 1, Success(()))
    case None => (limit, Failure(broker(limit - 1).error))
  }

  /** The in-progress counter after a settled callback: one less, but never below zero. */
  function Release(inProgress: int): int
  {
    if inProgress > 0 then inProgress - 1 else 0
  }

  /**
   * The hand-written do/while of the done and failed callbacks: send
   * `request` until one call resolves, counting failures in `retry` from -1;
   * once `retry` exceeds the limit, reset it to -1, leave the loop and throw
   * the latest error. `broker(i)` is the outcome of the i-th call.
   */
  method Retry(request: SubscriberRequest, configured: Option<int>, broker: nat -> CallOutcome)
    returns (calls: seq<SubscriberRequest>, r: Result<(), Error>)
    ensures forall i :: 0 <= i < |calls| ==> calls[i] == request
    ensures (|calls|, r) == Settle(broker, AttemptLimit(EffectiveMaxRetries(configured)))
  {
    var latestError: Option<Error> := None;
    var retry := -1;
    var maxRetries := EffectiveMaxRetries(configured);
    calls := [];
    while true
      invariant retry == |calls| - 1
      invariant |calls| < AttemptLimit(maxRetries)
      invariant forall i :: 0 <= i < |calls| ==> calls[i] == request
      invariant FirstSuccess(broker, |calls|).None?
      invariant |calls| > 0 ==> latestError == Some(broker(|calls| - 1).error)
      decreases AttemptLimit(maxRetries) - |calls|
    {
      calls := calls + [request];
      var outcome := broker(|calls| - 1);
      if outcome.Resolved? {
        return calls, Success(());
      }
      latestError := Some(outcome.error);
      retry := retry + 1;
      if retry > maxRetries {
        retry := -1;
      }
      if retry == -1 {
        break;
      }
    }
    return calls, Failure(latestError.value);
  }

  /** The merged job data `{ ...attributes, ...body, jobId: message.id }`. */
  function CallbackData(m: PubsubMessage, body: Payload): (r: Payload)
    ensures r.Keys == m.attributes.Keys + body.Keys + {"jobId"}
    ensures r["jobId"] == Str(m.id)
    ensures forall k :: k in body && k != "jobId" ==> r[k] == body[k]
    ensures forall k :: k in m.attributes && k !in body && k != "jobId" ==> r[k] == Str(m.attributes[k])
  {
    var attributes := map k | k in m.attributes :: Str(m.attributes[k]);
    attributes + body + map["jobId" := Str(m.id)]
  }

  function DeliveryOf(received: ReceivedMessage): Delivery
    requires received.message.body.Some?
  {
    Delivery(CallbackData(received.message, received.message.body.value), received.ackId)
  }

  /**
   * The callbacks a batch yields: one per message in order, up to the first
   * message whose body does not parse, where the forEach throws.
   */
  predicate Dispatched(messages: seq<ReceivedMessage>, deliveries: seq<Delivery>)
  {
    && |deliveries| <= |messages|
    && (forall i :: 0 <= i < |deliveries| ==>
          messages[i].message.body.Some? && deliveries[i] == DeliveryOf(messages[i]))
    && (|deliveries| < |messages| ==> messages[|deliveries|].message.body.None?)
  }

  /** The derived topic name `${jobName}-${topicSuffix}`. */
  function TopicName(jobName: string, topicSuffix: Option<string>): string
  {
    jobName + "-" + Interpolate(topicSuffix)
  }

  /** The subscription name `${topicName}-${subscriptionName}`. */
  function SubscriptionName(topicName: string, subscriptionName: Option<string>): string
  {
    topicName + "-" + Interpolate(subscriptionName)
  }

  /** With an effective limit M, a run whose calls all fail makes M + 2 calls and throws the last error. */
  lemma GiveUpAfterAllFail(broker: nat -> CallOutcome, configured: Option<int>)
    requires forall j: nat :: j < AttemptLimit(EffectiveMaxRetries(configured)) ==> broker(j).Rejected?
    ensures var m := EffectiveMaxRetries(configured);
      && (m >= -1 ==> AttemptLimit(m) == m + 2)
      && Settle(broker, AttemptLimit(m)) == (AttemptLimit(m), Failure(broker(AttemptLimit(m) - 1).error))
  {
  }

  /** If the first k calls fail and the next one resolves, within the limit, the run makes k + 1 calls and returns. */
  lemma EventualSuccess(broker: nat -> CallOutcome, configured: Option<int>, k: nat)
    requires k < AttemptLimit(EffectiveMaxRetries(configured))
    requires forall j: nat :: j < k ==> broker(j).Rejected?
    requires broker(k).Resolved?
    ensures Settle(broker, AttemptLimit(EffectiveMaxRetries(configured))) == (k + 1, Success(()))
  {
  }

  /** A maxRetries of 0 or undefined gives 200, so an all-failing run makes 202 calls. */
  lemma ZeroMeansDefault(c: WorkerConfig)
    requires c.maxRetries.None? || c.maxRetries == Some(0)
    ensures AttemptLimit(EffectiveMaxRetries(WithDefaults(c).maxRetries)) == DefaultMaxRetries + 2
  {
  }

  /** An ack that fails three times and then resolves, with maxRetries 5, is sent four times and succeeds. */
  lemma AckFailsThreeTimes(broker: nat -> CallOutcome)
    requires forall j: nat :: j < 3 ==> broker(j).Rejected?
    requires broker(3).Resolved?
    ensures Settle(broker, AttemptLimit(EffectiveMaxRetries(Some(5)))) == (4, Success(()))
  {
    EventualSuccess(broker, Some(5), 3);
  }

  /** The closure state of one `process` call: its names, its window and its in-progress counter. */
  class Consumer {
    const topicName: string
    const subscription: string
    const maxInProgress: int
    const maxRetries: Option<int>
    var inProgress: int

    /** The counter is never negative and stays within the window once it has left zero. */
    ghost predicate Valid()
      reads this
    {
      0 <= inProgress && (inProgress <= maxInProgress || inProgress == 0)
    }

    constructor (topicName: string, subscription: string, maxInProgress: int, maxRetries: Option<int>)
      ensures Valid() && inProgress == 0
      ensures this.topicName == topicName && this.subscription == subscription
      ensures this.maxInProgress == maxInProgress && this.maxRetries == maxRetries
    {
      this.topicName := topicName;
      this.subscription := subscription;
      this.maxInProgress := maxInProgress;
      this.maxRetries := maxRetries;
      inProgress := 0;
    }

    /**
     * One poll tick. Below the window it counts one pull in progress, pulls
     * (`response` is the broker's answer) and invokes the callback per
     * message; a failing pull, or a body that does not parse, takes the count
     * back without the clamp. At or above the window nothing happens.
     */
    method Tick(response: PullResponse) returns (pull: Option<SubscriberRequest>, deliveries: seq<Delivery>)
      requires Valid()
      modifies this
      ensures Valid()
      ensures old(inProgress) >= maxInProgress ==>
        pull == None && deliveries == [] && inProgress == old(inProgress)
      ensures old(inProgress) < maxInProgress ==> pull == Some(PullRequest(subscription, PullBatchSize))
      ensures old(inProgress) < maxInProgress && response.PullFailed? ==>
        deliveries == [] && inProgress == old(inProgress)
      ensures old(inProgress) < maxInProgress && response.Pulled? ==>
        && Dispatched(response.receivedMessages, deliveries)
        && inProgress == old(inProgress) + (if |deliveries| == |response.receivedMessages| then 1 else 0)
    {
      if inProgress >= maxInProgress {
        return None, [];
      }
      inProgress := inProgress + 1;
      pull := Some(PullRequest(subscription, PullBatchSize));
      deliveries := [];
      match response
      case PullFailed(_) =>
        inProgress := inProgress - 1;
      case Pulled(messages) =>
        var i := 0;
        while i < |messages|
          invariant 0 <= i <= |messages| && |deliveries| == i
          invariant forall j :: 0 <= j < i ==>
            messages[j].message.body.Some? && deliveries[j] == DeliveryOf(messages[j])
          invariant inProgress == old(inProgress) + 1
        {
          if messages[i].message.body.None? {
            inProgress := inProgress - 1;
            break;
          }
          deliveries := deliveries + [DeliveryOf(messages[i])];
          i := i + 1;
        }
    }

    /**
     * The done callback: acknowledge with retries; the counter is released
     * only when a call resolves. The source releases it inside the loop just
     * before returning; as events are sequential here, releasing it once
     * Retry returns leaves the same state.
     */
    method Done(d: Delivery, broker: nat -> CallOutcome) returns (calls: seq<SubscriberRequest>, r: Result<(), Error>)
      requires Valid()
      modifies this
      ensures Valid()
      ensures forall i :: 0 <= i < |calls| ==> calls[i] == AcknowledgeRequest(subscription, [d.ackId])
      ensures (|calls|, r) == Settle(broker, AttemptLimit(EffectiveMaxRetries(maxRetries)))
      ensures inProgress == if r.Success? then Release(old(inProgress)) else old(inProgress)
    {
      calls, r := Retry(AcknowledgeRequest(subscription, [d.ackId]), maxRetries, broker);
      if r.Success? {
        inProgress := Release(inProgress);
      }
    }

    /** The failed callback: reset the ack deadline to ten seconds with retries, released like Done. */
    method Failed(d: Delivery, broker: nat -> CallOutcome) returns (calls: seq<SubscriberRequest>, r: Result<(), Error>)
      requires Valid()
      modifies this
      ensures Valid()
      ensures forall i :: 0 <= i < |calls| ==>
        calls[i] == ModifyAckDeadlineRequest(subscription, [d.ackId], NackDeadlineSeconds)
      ensures (|calls|, r) == Settle(broker, AttemptLimit(EffectiveMaxRetries(maxRetries)))
      ensures inProgress == if r.Success? then Release(old(inProgress)) else old(inProgress)
    {
      calls, r := Retry(ModifyAckDeadlineRequest(subscription, [d.ackId], NackDeadlineSeconds), maxRetries, broker);
      if r.Success? {
        inProgress := Release(inProgress);
      }
    }
  }

  class Worker {
    const config: WorkerConfig
    /** `this.subscriptions`, which the source never assigns before shutdown: None is undefined. */
    var subscriptions: Option<map<string, string>>

    constructor Init(config: WorkerConfig)
      ensures this.config == config && subscriptions == None
    {
      this.config := config;
      subscriptions := None;
    }

    /** `new Worker(config)`: throws without credentials, otherwise keeps the config with its default filled in. */
    static method New(config: WorkerConfig) returns (r: Result<Worker, Error>)
      ensures config.credentials.None? ==> r == Failure(MissingCredentials)
      ensures config.credentials.Some? ==>
        r.Success? && fresh(r.value) && r.value.config == WithDefaults(config) && r.value.subscriptions == None
    {
      if config.credentials.None? {
        return Failure(MissingCredentials);
      }
      var w := new Worker.Init(WithDefaults(config));
      return Success(w);
    }

    /**
     * `process(jobName, callback, options)`: the topic name, the subscription
     * path and a fresh counter for this call. `options` is None when
     * undefined, and Some(None) when its `flowControl` is undefined;
     * otherwise it carries `flowControl.maxMessages`.
     */
    method Process(jobName: string, options: Option<Option<int>>) returns (r: Result<Consumer, Error>)
      ensures options.None? ==> r == Failure(TypeError(UndefinedOptionsMessage))
      ensures options == Some(None) ==> r == Failure(TypeError(UndefinedFlowControlMessage))
      ensures options.Some? && options.value.Some? ==>
        && r.Success? && fresh(r.value) && r.value.Valid() && r.value.inProgress == 0
        && r.value.topicName == jobName + "-" + Interpolate(config.topicSuffix)
        && r.value.subscription ==
             SubscriptionPath(Interpolate(config.projectId), r.value.topicName + "-" + Interpolate(config.subscriptionName))
        && r.value.maxInProgress == options.value.value
        && r.value.maxRetries == config.maxRetries
    {
      var topicName := TopicName(jobName, config.topicSuffix);
      if options.None? {
        return Failure(TypeError(UndefinedOptionsMessage));
      }
      if options.value.None? {
        return Failure(TypeError(UndefinedFlowControlMessage));
      }
      var maxInProgress := options.value.value;
      var subscription := SubscriptionPath(Interpolate(config.projectId), SubscriptionName(topicName, config.subscriptionName));
      var consumer := new Consumer(topicName, subscription, maxInProgress, config.maxRetries);
      return Success(consumer);
    }

    /**
     * `shutdown`: Object.values of the never-assigned subscriptions throws;
     * with a map present, the map is emptied (removing a fresh listener has no effect).
     */
    method Shutdown() returns (r: Result<(), Error>)
      modifies this
      ensures old(subscriptions).None? ==>
        r == Failure(TypeError(UndefinedSubscriptionsMessage)) && subscriptions == old(subscriptions)
      ensures old(subscriptions).Some? ==> r == Success(()) && subscriptions == Some(map[])
    {
      if subscriptions.None? {
        return Failure(TypeError(UndefinedSubscriptionsMessage));
      }
      subscriptions := Some(map[]);
      return Success(());
    }
  }

  /** Shutdown on any worker New returns throws, since nothing assigns `subscriptions`. */
  method ShutdownAfterNewThrows(config: WorkerConfig) returns (r: Result<(), Error>)
    requires config.credentials.Some?
    ensures r == Failure(TypeError(UndefinedSubscriptionsMessage))
  {
    var w := Worker.New(config);
    r := w.value.Shutdown();
  }
}
