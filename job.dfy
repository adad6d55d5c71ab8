/**
 * src/job.js: the job producer. A Job is built from a name and its data; on
 * construction it fills two process-wide caches (pubsub clients by project,
 * topic handles by project and topic name) only where no entry exists, and
 * `save` publishes one envelope on the cached topic handle.
 */
module Jobs {
  import opened Common

  /** The configuration object a Job receives; absent fields are undefined in the source. */
  datatype JobConfig = JobConfig(
    credentials: Option<Credentials>,
    projectId: Option<string>,
    topicSuffix: Option<string>,
    batching: Option<Payload>)

  /**
   * What the client cache holds at a key: a pubsub client, as created for a
   * project with the credentials of the Job that created it, or the member a
   * plain object inherits under that key (Object, or a method of
   * Object.prototype), which has no `topic` method.
   */
  datatype Client = Client(credentials: Credentials, projectId: Option<string>) | Inherited(key: string)

  /** The names every plain object inherits from Object.prototype; each reads as a truthy value. */
  const InheritedKeys: set<string> := {
    "constructor", "__proto__", "hasOwnProperty", "isPrototypeOf", "propertyIsEnumerable",
    "toLocaleString", "toString", "valueOf",
    "__defineGetter__", "__defineSetter__", "__lookupGetter__", "__lookupSetter__"}

  /** The TypeError job.js:42 raises when the cached client is an inherited member. */
  const TopicNotAFunctionMessage := "this.pubsub.topic is not a function"

  /** A local topic handle, as `client.topic(name, { batching })` returns it (no broker call). */
  datatype TopicHandle = TopicHandle(client: Client, name: string, batching: Payload)

  /** One call of `publish` on a topic handle, with the envelope it carries. */
  datatype PublishCall = PublishCall(topic: TopicHandle, envelope: Payload)

  /** The topic a job is published on: `${name}-${topicSuffix}`. */
  function JobTopicName(name: string, topicSuffix: Option<string>): string
  {
    name + "-" + Interpolate(topicSuffix)
  }

  /** The key of the client cache: the projectId used as an object key. */
  function ClientCacheKey(projectId: Option<string>): string
  {
    Interpolate(projectId)
  }

  /** The key of the topic cache: `${projectId}-${topicName}`. */
  function TopicCacheKey(projectId: Option<string>, topicName: string): string
  {
    Interpolate(projectId) + "-" + topicName
  }

  /**
   * `cachedPubsubClient[k]`: an own entry, else the inherited member of that
   * name, else undefined (None).
   */
  function LookupClient(clients: map<string, Client>, k: string): (r: Option<Client>)
    ensures k in clients ==> r == Some(clients[k])
    ensures k !in clients && k in InheritedKeys ==> r == Some(Inherited(k))
    ensures r.None? <==> k !in clients && k !in InheritedKeys
  {
    if k in clients then Some(clients[k])
    else if k in InheritedKeys then Some(Inherited(k))
    else None
  }

  /**
   * A topic cache key always holds a dash, and no inherited name does, so
   * reading the topic cache never finds an inherited member.
   */
  lemma TopicCacheKeyNotInherited(projectId: Option<string>, topicName: string)
    ensures TopicCacheKey(projectId, topicName) !in InheritedKeys
  {
    var k := TopicCacheKey(projectId, topicName);
    assert k[|Interpolate(projectId)|] == '-';
    forall x | x in InheritedKeys
      ensures '-' !in x
    {
    }
  }

  /**
   * `if (!cache[k]) cache[k] = v`: the key is present afterwards, an existing
   * entry is never overwritten, and no other key changes.
   */
  function InsertIfAbsent<K, V>(m: map<K, V>, k: K, v: V): (r: map<K, V>)
    ensures r.Keys == m.Keys + {k}
    ensures r[k] == if k in m then m[k] else v
    ensures forall j :: j in m ==> r[j] == m[j]
  {
    if k in m then m else m[k := v]
  }

  /**
   * The envelope `save` serialises: every field of the job data, then
   * `topicName` and `createdAt`, which win over data fields of the same name.
   */
  function Envelope(data: Payload, topicName: string, createdAt: Value): (r: Payload)
    ensures r.Keys == data.Keys + {"topicName", "createdAt"}
    ensures r["topicName"] == Str(topicName) && r["createdAt"] == createdAt
    ensures forall k :: k in data && k != "topicName" && k != "createdAt" ==> r[k] == data[k]
  {
    data + map["topicName" := Str(topicName), "createdAt" := createdAt]
  }

  /**
   * Two Jobs whose project and topic names concatenate to the same text share
   * one topic cache slot, whatever the pairs are.
   */
  lemma {:induction false} TopicCacheKeyCollides(projectId: string, middle: string, topicName: string)
    ensures TopicCacheKey(Some(projectId + "-" + middle), topicName) ==
            TopicCacheKey(Some(projectId), middle + "-" + topicName)
  {
    assert (projectId + "-" + middle) + "-" + topicName == projectId + "-" + (middle + "-" + topicName);
  }

  /** An example: project "a-b" with topic "c" and project "a" with topic "b-c" get the same slot. */
  lemma DistinctPairsShareASlot()
    ensures ("a-b", "c") != ("a", "b-c")
    ensures TopicCacheKey(Some("a-b"), "c") == TopicCacheKey(Some("a"), "b-c")
  {
    TopicCacheKeyCollides("a", "b", "c");
  }

  /** The two module-level caches of src/job.js. */
  class ProducerCaches {
    var clients: map<string, Client>
    var topics: map<string, TopicHandle>

    /**
     * Only Job construction writes the client cache, and only a real client
     * under a key that reads as falsy, so no own entry shadows an inherited name.
     */
    ghost predicate Valid()
      reads this
    {
      forall k :: k in clients ==> k !in InheritedKeys && clients[k].Client?
    }

    constructor ()
      ensures Valid()
      ensures clients == map[] && topics == map[]
    {
      clients := map[];
      topics := map[];
    }
  }

  class Job {
    const name: string
    const data: Payload
    const topicName: string
    const pubsub: Client
    const topic: TopicHandle

    constructor Init(name: string, data: Payload, topicName: string, pubsub: Client, topic: TopicHandle)
      ensures this.name == name && this.data == data && this.topicName == topicName
      ensures this.pubsub == pubsub && this.topic == topic
    {
      this.name := name;
      this.data := data;
      this.topicName := topicName;
      this.pubsub := pubsub;
      this.topic := topic;
    }

    /**
     * `new Job({ name, data }, config)`: fails before touching either cache
     * when credentials are missing; otherwise inserts a client for the
     * project where the client cache reads as falsy, and a topic handle for
     * the project and topic name where the topic cache has none, and takes
     * both from the caches. A project id that names an inherited member
     * finds that member as its client, which cannot make a topic handle.
     */
    static method New(name: string, data: Option<Payload>, config: JobConfig, caches: ProducerCaches)
      returns (r: Result<Job, Error>)
      requires caches.Valid()
      modifies caches
      ensures caches.Valid()
      ensures config.credentials.None? ==>
        r == Failure(MissingCredentials) && caches.clients == old(caches.clients) && caches.topics == old(caches.topics)
      ensures config.credentials.Some? ==>
        var clientKey := ClientCacheKey(config.projectId);
        var topicName := JobTopicName(name, config.topicSuffix);
        var topicKey := TopicCacheKey(config.projectId, topicName);
        && caches.clients == (if LookupClient(old(caches.clients), clientKey).Some? then old(caches.clients)
                              else old(caches.clients)[clientKey := Client(config.credentials.value, config.projectId)])
        && LookupClient(caches.clients, clientKey).Some?
        && var pubsub := LookupClient(caches.clients, clientKey).value;
        && (topicKey !in old(caches.topics) && pubsub.Inherited? ==>
              r == Failure(TypeError(TopicNotAFunctionMessage)) && caches.topics == old(caches.topics))
        && (topicKey in old(caches.topics) || pubsub.Client? ==>
              && caches.topics == InsertIfAbsent(old(caches.topics), topicKey,
                   TopicHandle(pubsub, topicName, if config.batching.Some? then config.batching.value else map[]))
              && r.Success? && fresh(r.value)
              && r.value.name == name
              && r.value.data == (if data.Some? then data.value else map[])
              && r.value.topicName == topicName
              && r.value.pubsub == pubsub
              && r.value.topic == caches.topics[topicKey])
    {
      if config.credentials.None? {
        return Failure(MissingCredentials);
      }
      var clientKey := ClientCacheKey(config.projectId);
      if LookupClient(caches.clients, clientKey).None? {
        caches.clients := caches.clients[clientKey := Client(config.credentials.value, config.projectId)];
      }
      var topicName := JobTopicName(name, config.topicSuffix);
      var pubsub := LookupClient(caches.clients, clientKey).value;
      var topicKey := TopicCacheKey(config.projectId, topicName);
      if topicKey !in caches.topics {
        if pubsub.Inherited? {
          return Failure(TypeError(TopicNotAFunctionMessage));
        }
        var batching := if config.batching.Some? then config.batching.value else map[];
        caches.topics := caches.topics[topicKey := TopicHandle(pubsub, topicName, batching)];
      }
      var job := new Job.Init(name, if data.Some? then data.value else map[], topicName, pubsub, caches.topics[topicKey]);
      return Success(job);
    }

    /**
     * `save`: one publish of the envelope on the cached topic handle, whose
     * outcome (a message id or an error) is returned as it is, with no retry.
     * The creation time and the broker's answer are parameters.
     */
    method Save(createdAt: Value, publish: PublishCall -> Result<string, Error>)
      returns (calls: seq<PublishCall>, r: Result<string, Error>)
      ensures |calls| == 1
      ensures calls[0].topic == topic
      ensures calls[0].envelope == Envelope(data, topicName, createdAt)
      ensures r == publish(calls[0])
    {
      var call := PublishCall(topic, Envelope(data, topicName, createdAt));
      calls := [call];
      r := publish(call);
    }
  }

  /**
   * Two Jobs of the same project and name, built one after the other, either
   * both fail (the project id names an inherited member) or share one client
   * and one topic handle.
   */
  method SameKeySharesTopic(caches: ProducerCaches, name: string, config: JobConfig, first: Payload, second: Payload)
    returns (a: Result<Job, Error>, b: Result<Job, Error>)
    requires caches.Valid() && config.credentials.Some?
    modifies caches
    ensures a.Success? <==> b.Success?
    ensures a.Failure? ==> ClientCacheKey(config.projectId) in InheritedKeys && caches.topics == old(caches.topics)
    ensures a.Success? ==>
      && a.value.pubsub == b.value.pubsub && a.value.topic == b.value.topic
      && caches.topics.Keys == old(caches.topics.Keys) + {TopicCacheKey(config.projectId, JobTopicName(name, config.topicSuffix))}
  {
    a := Job.New(name, Some(first), config, caches);
    b := Job.New(name, Some(second), config, caches);
  }

  /** A Job of project "constructor" on empty caches throws the TypeError and caches nothing. */
  method InheritedProjectThrows(caches: ProducerCaches, name: string, credentials: Credentials)
    returns (r: Result<Job, Error>)
    requires caches.clients == map[] && caches.topics == map[]
    modifies caches
    ensures r == Failure(TypeError(TopicNotAFunctionMessage))
    ensures caches.clients == map[] && caches.topics == map[]
  {
    r := Job.New(name, None, JobConfig(Some(credentials), Some("constructor"), None, None), caches);
  }
}
