# A job queue over Google Cloud Pub/Sub, modelled in Dafny

The system is a small job-queue layer over Google Cloud Pub/Sub. A **Job**
(src/job.js) publishes a named job's data, wrapped in an envelope, on the
topic `<name>-<topicSuffix>`. A **Worker** (src/worker.js) polls the
subscription `<name>-<topicSuffix>-<subscriptionName>`. It admits one pull per
tick while fewer than `maxInProgress` jobs are in progress. It hands each
message to a callback together with a *done* callback (acknowledge) and a
*failed* callback (reset the ack deadline to 10 seconds). Each of the two
callbacks retries its broker call in a counting loop. **ExtendedPubSub**
(utils/pubsub.js) adds create-or-get helpers for topics and subscriptions,
which look up existing resources by name suffix.

The model has five modules:

- `Common` (common.dfy): options, results, errors, JSON values, resource
  paths, `endsWith`.
- `PubSubUtils` (pubsub.dfy): the broker is its state, meaning the listed
  topics and the subscriptions bound to them. Pure functions describe
  `createOrGetTopic` and `createSubscriptionIfNotExists`. Methods of class
  `ExtendedPubSub` change that state.
- `Jobs` (job.dfy): the two module-level caches are a class whose `map`
  fields `Job.New` updates with insert-if-absent. The envelope is a map
  merge. `save` is one publish call to a broker oracle.
- `Workers` (worker.dfy): class `Consumer` is the closure state of one
  `process` call: the names, the window and the mutable `inProgress`
  counter. Each poll tick and each callback completion is one sequential
  event. The retry loop is a method with the source's `do/while`, proved
  against the function `Settle`. `Worker` holds the configuration and the
  never-assigned `subscriptions`.
- `Delivery` (delivery.dfy): how producer and consumer meet. They use the
  same topic name, an envelope becomes callback data, and a window of one
  defers the next pull.

Broker calls (`pull`, `acknowledge`, `modifyAckDeadline`, `publish`) are
parameters. A pull is answered by a `PullResponse`. The outcome of the i-th
acknowledge or deadline call is `broker(i)`. A publish is answered by a
function of the call.

## Observed behaviour

The model follows the code, which behaves as follows:

- An all-failing retry loop makes `maxRetries + 2` calls, not
  `maxRetries + 1`. `retry` starts at -1 and the loop stops only once
  `retry > maxRetries`. A negative limit below -1 still makes one call.
- `maxRetries` of 0 means 200, because the code uses `maxRetries || 200`.
- There is no single-fire guard. Calling done and failed on the same
  message settles it twice and releases the counter twice (clamped at 0).
- `publish` in `save` is called once, with no retry. A publish failure
  reaches the caller unchanged.
- A pull that returns no messages keeps the counter raised. Only a failed
  pull, or a body that does not parse, takes it back. That decrement is
  unclamped, unlike the one on settling.
- `shutdown` reads `this.subscriptions`, which nothing assigns, so it always
  throws a TypeError.
- `createSubscriptionIfNotExists` rejects a Topic object with
  `topicName must be string.`, although its tests pass one.
  `createTopicIfNotExists` does not exist.
- Suffix matching can pick another topic that happens to end with the
  requested name. The subscription is then looked up on that topic, so it is
  never found there, and `createSubscription` is called again on every call.
  With a broker that refuses a taken subscription name or a missing topic,
  this fails when the exact topic does not exist (`SuffixMatchMissesTopic`),
  and otherwise every call after the first fails (`WrongMatchRefusesSecondCall`).
- The client cache is a plain object, so a project id such as `constructor`
  reads an inherited member. Nothing is cached for it, and building the topic
  handle throws a TypeError unless the topic cache already holds that key.

## Model

| member | source | states |
|---|---|---|
| `Common.EndsWithConcat` | utils/pubsub.js:13 | a name ends with any suffix it was built with, so a created topic matches its own lookup |
| `PubSubUtils.FirstMatch` | utils/pubsub.js:13 | `find` with `endsWith`: the index of the first listed name ending with the suffix, with no earlier name ending with it; None exactly when no listed name does |
| `PubSubUtils.ExtendedPubSub.GetTopicMatchName` | utils/pubsub.js:10-19 | returns a topic exactly when some listed topic ends with the name, and then the first such topic; null otherwise |
| `PubSubUtils.EnsureTopic` | utils/pubsub.js:43-53 | the result ends with the requested name; with a match, the broker is unchanged and the first match is returned; without one, exactly one topic `projects/<id>/topics/<name>` is appended and returned; subscriptions untouched |
| `PubSubUtils.ExtendedPubSub.CreateOrGetTopic` | utils/pubsub.js:43-53 | the new broker state and the returned topic are those of `EnsureTopic` on the old state |
| `PubSubUtils.FirstMatchAppend` | utils/pubsub.js:13 | listing a new name after the others keeps an existing first match, and makes the new name the match when there was none |
| `PubSubUtils.EnsureTopicIdempotent` | utils/pubsub.js:43-53 | afterwards a topic ending with the name is listed, and a second call with the same name creates nothing and returns the same topic |
| `PubSubUtils.EnsureTopicCreatesAtMostOnce` | utils/pubsub.js:43-53 | the listing grows by at most one topic, keeps the old topics as a prefix, and grows exactly when no topic matched |
| `PubSubUtils.EnsureTopicKeepsNamesDistinct` | utils/pubsub.js:43-53 | a listing without duplicate topic names keeps none after the call |
| `PubSubUtils.EnsureTopicKeepsWellFormed` | utils/pubsub.js:43-53 | a well-formed broker (unique topic and subscription names, every subscription on a listed topic) stays well formed |
| `PubSubUtils.SubscriptionsOf` | utils/pubsub.js:29 | `topic.getSubscriptions()`: a name is listed exactly when some subscription record binds it to the topic |
| `PubSubUtils.SubscriptionsOfAppend` | utils/pubsub.js:29 | a subscription added to the broker appears last among its topic's subscriptions and among no other topic's |
| `PubSubUtils.EnsureSubscriptionSpec` | utils/pubsub.js:21-36 | the topic is ensured first; when a subscription of the ensured topic ends with `name` nothing else changes; otherwise `createSubscription(topicName, name)` is sent, and it fails with ALREADY_EXISTS when the full name is taken, fails with NOT_FOUND when the topic `topicName` is not listed, and otherwise appends one subscription bound to `topicName` |
| `PubSubUtils.EnsureSubscriptionKeepsWellFormed` | utils/pubsub.js:21-36 | a well-formed broker stays well formed, whether the create succeeds or is refused |
| `PubSubUtils.EnsureSubscriptionEstablishes` | utils/pubsub.js:21-36 | when the ensured topic is the one called `topicName`, a successful call leaves a subscription ending with `name` bound to it, and the only possible refusal is ALREADY_EXISTS for a name already taken |
| `PubSubUtils.EnsureSubscriptionIdempotent` | utils/pubsub.js:21-36 | under the same condition, a second call changes nothing: after a success it reports the existing subscription, after a refusal it is refused the same way |
| `PubSubUtils.SuffixMatchMissesTopic` | utils/pubsub.js:29-35 | with only `a-test` listed, asking for `test` matches `a-test`, finds no subscription there, and the create on the missing topic `test` is refused with NOT_FOUND, leaving the broker unchanged |
| `PubSubUtils.WrongMatchRefusesSecondCall` | utils/pubsub.js:29-35 | when another topic matches first but `topicName` is listed, the first call creates the subscription on `topicName`, and the second call sends the create again and is refused with ALREADY_EXISTS |
| `PubSubUtils.ExtendedPubSub.CreateSubscriptionIfNotExists` | utils/pubsub.js:21-36 | a non-string topic argument fails with `TopicNameNotString` before any broker change; otherwise the broker moves as `EnsureSubscription` says, and the result is the created subscription, none, or the broker's refusal |
| `PubSubUtils.ExtendedPubSub.CreateOrGetSubscription` | utils/pubsub.js:55-59 | the same ensure step and failures, then the handle `projects/<id>/subscriptions/<name>`, which ends with `name` |
| `Jobs.InsertIfAbsent` | src/job.js:34-45 | the key is present afterwards, no other key is added, an existing entry is kept and never overwritten, and the given value is stored only when the key was absent |
| `Jobs.LookupClient` | src/job.js:34 | reading the client cache gives its own entry, else the Object.prototype member of that name, and is undefined exactly when the key is neither |
| `Jobs.TopicCacheKeyNotInherited` | src/job.js:41 | a topic cache key contains a dash, so it never names an Object.prototype member |
| `Jobs.Envelope` | src/job.js:50-56 | the envelope holds every data key plus `topicName` and `createdAt`, which carry the job's topic name and creation time even when the data has keys of those names; every other data field is unchanged |
| `Jobs.TopicCacheKeyCollides` | src/job.js:41 | the topic cache key is plain concatenation, so `(p-m, t)` and `(p, m-t)` share a slot |
| `Jobs.DistinctPairsShareASlot` | src/job.js:41-45 | the distinct pairs `(a-b, c)` and `(a, b-c)` map to the same topic cache slot |
| `Jobs.ProducerCaches.constructor` | src/job.js:19-20 | both caches start empty, and no entry shadows an inherited name |
| `Jobs.Job.New` | src/job.js:23-47 | without credentials it fails and leaves both caches unchanged; otherwise a client for the project is cached only when the key reads as falsy; when the topic cache lacks `projectId-topicName` and the client read is an inherited member it throws the TypeError with the topic cache unchanged; otherwise the topic cache gains a handle only if absent, the topic name is `name-topicSuffix`, data defaults to the empty map, and the Job takes its client and topic from the caches |
| `Jobs.Job.Save` | src/job.js:49-59 | exactly one publish call, on the cached topic handle, carrying the envelope of the job's data, topic name and creation time; its answer is returned unchanged |
| `Jobs.SameKeySharesTopic` | src/job.js:34-45 | two Jobs built with the same project and name both fail, only for an inherited project id, or share one client and one topic handle, with the topic cache gaining at most that one key |
| `Jobs.InheritedProjectThrows` | src/job.js:34-42 | on empty caches, a Job of project `constructor` throws `this.pubsub.topic is not a function` and caches nothing |
| `Workers.WithDefaults` | src/worker.js:28 | after the defaults are applied `maxRetries` is defined; a defined value is kept, an undefined one becomes 200, and nothing else changes |
| `Workers.EffectiveMaxRetries` | src/worker.js:78 | the limit is never 0: undefined and 0 give 200, any other value is kept |
| `Workers.FirstSuccess` | src/worker.js:80-101 | the first resolved call among the first n, with every earlier call rejected; None when all n were rejected |
| `Workers.Settle` | src/worker.js:80-103 | a loop allowed `limit` calls makes between 1 and `limit` calls, all but the last rejected; it returns exactly when the last call resolved, and otherwise has made all `limit` calls and throws the last call's error |
| `Workers.Retry` | src/worker.js:76-103 | the do/while loop sends the same request each time, and the number of calls and the outcome are those of `Settle` with the limit `AttemptLimit` of `maxRetries`, or 200 when that is 0 or undefined |
| `Workers.GiveUpAfterAllFail` | src/worker.js:77-103 | when every call fails, the loop makes M + 2 calls for an effective limit M >= -1, and throws the last error |
| `Workers.EventualSuccess` | src/worker.js:80-101 | when the first k calls fail and call k resolves, with k < M + 2, the loop makes exactly k + 1 calls and returns |
| `Workers.ZeroMeansDefault` | src/worker.js:78 | a `maxRetries` of 0 or undefined lets an all-failing loop make 202 calls |
| `Workers.AckFailsThreeTimes` | src/worker.js:80-101 | with maxRetries 5, an ack that fails three times and then resolves is sent four times and succeeds |
| `Workers.CallbackData` | src/worker.js:145-149 | the job data holds the attribute keys, the body keys and `jobId`; `jobId` is the message id; body fields win over attributes, which appear as strings |
| `Workers.Consumer.constructor` | src/worker.js:46-47 | the counter starts at 0 with the given window, and the invariant holds |
| `Workers.Consumer.Tick` | src/worker.js:61-156 | at or above the window nothing is pulled or delivered and the counter is unchanged; below it, one pull of one message is made; a failed pull delivers nothing and restores the counter; otherwise the messages are delivered in order up to the first unparsable body, which restores the counter; the counter stays within 0 and the window |
| `Workers.Consumer.Done` | src/worker.js:73-104 | every call acknowledges the delivery's ack id on the subscription; the calls and the outcome are those of `Settle`; the counter drops by one, clamped at 0, only when a call resolved |
| `Workers.Consumer.Failed` | src/worker.js:106-143 | the same as done, with every call a deadline reset to 10 seconds |
| `Workers.Worker.New` | src/worker.js:19-34 | without credentials it fails with the credentials error; otherwise the worker keeps the config with `maxRetries` defaulted, and `subscriptions` is undefined |
| `Workers.Worker.Process` | src/worker.js:36-59 | undefined `options` and undefined `options.flowControl` each throw their TypeError; otherwise the topic is `jobName-topicSuffix`, the subscription path names `topicName-subscriptionName` in the project, the window is `maxMessages`, and the counter starts at 0 |
| `Workers.Worker.Shutdown` | src/worker.js:159-169 | with `subscriptions` undefined it throws a TypeError and changes nothing; with a map it empties it |
| `Workers.ShutdownAfterNewThrows` | src/worker.js:159-160 | shutdown on any successfully constructed worker throws the TypeError |
| `Delivery.ProducerAndConsumerAgree` | src/worker.js:44 | the Worker's topic name for a job name equals the Job's, and starts with the job name |
| `Delivery.EnvelopeReachesCallback` | src/worker.js:145-149 | a saved envelope delivered as a message body gives job data with the message id as `jobId`, the Job's topic name and creation time, and every other payload field unchanged |
| `Delivery.WindowOfOne` | src/worker.js:61-90 | with a window of one, the tick after a delivery pulls nothing, and once done resolves the next tick pulls again |

## Left out

- Network calls to Google Cloud are not modelled. This covers `pull`, `acknowledge`, `modifyAckDeadline`,
  `publish`, `getTopics`, `getSubscriptions`, `createTopic` and `createSubscription`.
  Their answers are parameters or the broker state. The broker refuses a
  subscription whose name is taken (ALREADY_EXISTS) or whose topic is not
  listed (NOT_FOUND). Its other errors (permissions, quotas, the network) are
  not modelled, and `createTopic` is assumed to succeed.
- `PubSubUtils.EnsureTopic`: a created topic is assumed to be listed after the existing ones.
  The broker's listing order decides which topic a later suffix lookup finds, and the code
  does not fix that order.
- `setInterval` and async interleaving are not modelled. Ticks and callback completions are sequential
  events, so callbacks that overlap ticks are not modelled.
- `moment().utc()` becomes the `createdAt` parameter. `JSON.stringify`, `JSON.parse` and `Buffer`
  become maps: a body is modelled by the fields it parses to, or by None when it is not JSON.
  Spreading a parsed array by index is not modelled.
- The `Logger` and its console output are left out. So are config/pubsub.js (dotenv and the random
  suffixes) and src/index.js (factory wiring).
- A callback that throws synchronously is not modelled. The source catches it in the same handler
  as a failed pull.
- A non-numeric `maxMessages` is not modelled. In the source it becomes NaN and admits nothing.
  The model takes the window as an integer.
- `Workers.Worker.Process`: the subscriber client and its `subscriptionPath` are replaced by the
  path `projects/<id>/subscriptions/<name>`. The callback itself is not a parameter: each
  delivery is returned instead.
- `Jobs.Job.New`: `this.config` and `this.logger` are not kept. The client is a value of its
  credentials and project, not an object identity.
- `PubSubUtils.ExtendedPubSub.CreateSubscriptionIfNotExists`: subscription `options` are not
  modelled. Names that are already fully qualified are formatted like any other name.
- `Workers.Consumer`: changes to the config object after the Worker is built are not modelled.
  `_.defaults` fills in the caller's own object, and the callbacks re-read `maxRetries` on
  every call. The model fixes `maxRetries` when `process` runs.
- `Workers.PubsubMessage`: `id` stands for whatever `message.id` holds in a pulled message.
  The subscriber client library that shapes that message is not part of this model, so the
  model does not decide whether the field is defined.
