/**
 * utils/pubsub.js: the create-or-get helpers that ExtendedPubSub adds to
 * the Pub/Sub client. The broker is replaced by its observable state: the
 * topics it lists, in listing order, and the subscriptions it holds, each
 * bound to one topic. Topic and subscription names are fully qualified
 * (`projects/<id>/topics/<name>`), and every lookup matches by suffix.
 */
module PubSubUtils {
  import opened Common

  datatype SubscriptionRecord = SubscriptionRecord(name: string, topic: string)

  datatype Broker = Broker(topics: seq<string>, subscriptions: seq<SubscriptionRecord>)

  /** The argument createSubscriptionIfNotExists receives: a string, or anything else (a Topic object). */
  datatype TopicArg = TopicName(name: string) | TopicObject(topic: string)

  /** What the broker answers when a subscription name is already taken. */
  const SubscriptionExists := BrokerError("ALREADY_EXISTS")
  /** What the broker answers when a subscription names a topic that does not exist. */
  const TopicMissing := BrokerError("NOT_FOUND")

  /** Some name in `names` ends with `suffix`. */
  predicate HasMatch(names: seq<string>, suffix: string)
  {
    exists i :: 0 <= i < |names| && EndsWith(names[i], suffix)
  }

  /** Some subscription of the broker has exactly the full name `name`. */
  predicate SubscriptionListed(b: Broker, name: string)
  {
    exists i :: 0 <= i < |b.subscriptions| && b.subscriptions[i].name == name
  }

  /**
   * The broker's own bookkeeping: topic names and subscription names are
   * unique, and every subscription is bound to a listed topic.
   */
  predicate WellFormed(b: Broker)
  {
    && (forall i, j :: 0 <= i < j < |b.topics| ==> b.topics[i] != b.topics[j])
    && (forall i, j :: 0 <= i < j < |b.subscriptions| ==> b.subscriptions[i].name != b.subscriptions[j].name)
    && (forall i :: 0 <= i < |b.subscriptions| ==> b.subscriptions[i].topic in b.topics)
  }

  /**
   * Array.prototype.find with an endsWith test: the index of the first name
   * that ends with `suffix`, or None when no name does.
   */
  function FirstMatch(names: seq<string>, suffix: string): (r: Option<nat>)
    ensures r.Some? ==> r.value < |names| && EndsWith(names[r.value], suffix)
    ensures r.Some? ==> forall j :: 0 <= j < r.value ==> !EndsWith(names[j], suffix)
    ensures r.None? <==> !HasMatch(names, suffix)
  {
    if |names| == 0 then None
    else if EndsWith(names[0], suffix) then Some(0)
    else match FirstMatch(names[1..], suffix)
      case None =>
        assert forall j :: 1 <= j < |names| ==> names[j] == names[1..][j - 1];
        None
      case Some(i) =>
        assert names[i + 1] == names[1..][i];
        assert forall j :: 1 <= j <= i ==> names[j] == names[1..][j - 1];
        Some(i + 1)
  }

  /**
   * The names of the subscriptions bound to `topic`, in the order the broker
   * holds them: a name is listed exactly when a record binds it to `topic`,
   * and a record added later is listed later (SubscriptionsOfAppend).
   */
  function SubscriptionsOf(subscriptions: seq<SubscriptionRecord>, topic: string): (r: seq<string>)
    ensures |r| <= |subscriptions|
    ensures forall x :: x in r <==> exists i :: 0 <= i < |subscriptions| && subscriptions[i] == SubscriptionRecord(x, topic)
  {
    if |subscriptions| == 0 then []
    else
      var front := subscriptions[..|subscriptions| - 1];
      var last := subscriptions[|subscriptions| - 1];
      assert forall i :: 0 <= i < |front| ==> front[i] == subscriptions[i];
      if last.topic == topic then SubscriptionsOf(front, topic) + [last.name] else SubscriptionsOf(front, topic)
  }

  /**
   * createOrGetTopic on a broker state: the first listed topic whose name ends
   * with `name`, or else a topic created under that name (element 0 of what
   * createTopic resolves to), listed after the existing ones.
   */
  function EnsureTopic(b: Broker, projectId: string, name: string): (r: (Broker, string))
    ensures EndsWith(r.1, name)
    ensures r.0.subscriptions == b.subscriptions
    ensures HasMatch(b.topics, name) ==> r.0 == b && r.1 == b.topics[FirstMatch(b.topics, name).value]
    ensures !HasMatch(b.topics, name) ==>
      r.0.topics == b.topics + [TopicPath(projectId, name)] && r.1 == TopicPath(projectId, name)
  {
    match FirstMatch(b.topics, name)
    case Some(i) => (b, b.topics[i])
    case None =>
      EndsWithConcat("projects/" + projectId + "/topics/", name);
      (b.(topics := b.topics + [TopicPath(projectId, name)]), TopicPath(projectId, name))
  }

  /**
   * The broker's createSubscription: refused when the name is taken or the
   * topic does not exist; otherwise the subscription is added.
   */
  function CreateSubscription(b: Broker, name: string, topic: string): Result<Broker, Error>
  {
    if SubscriptionListed(b, name) then Failure(SubscriptionExists)
    else if topic !in b.topics then Failure(TopicMissing)
    else Success(b.(subscriptions := b.subscriptions + [SubscriptionRecord(name, topic)]))
  }

  /**
   * createSubscriptionIfNotExists on a broker state, once `topicName` is known
   * to be a string: ensure the topic, then ask the broker to create the
   * subscription on the topic called `topicName` unless a subscription of the
   * ensured topic already ends with `name`. The flag says whether one was
   * created; a refused create leaves the ensured topic in place.
   */
  function EnsureSubscription(b: Broker, projectId: string, topicName: string, name: string): (r: (Broker, Result<bool, Error>))
  {
    var (b1, topic) := EnsureTopic(b, projectId, topicName);
    if HasMatch(SubscriptionsOf(b1.subscriptions, topic), name) then (b1, Success(false))
    else match CreateSubscription(b1, SubscriptionPath(projectId, name), TopicPath(projectId, topicName))
      case Success(b2) => (b2, Success(true))
      case Failure(e) => (b1, Failure(e))
  }

  lemma {:induction false} SubscriptionsOfAppend(subscriptions: seq<SubscriptionRecord>, s: SubscriptionRecord, topic: string)
    ensures SubscriptionsOf(subscriptions + [s], topic) ==
      SubscriptionsOf(subscriptions, topic) + (if s.topic == topic then [s.name] else [])
  {
    assert (subscriptions + [s])[..|subscriptions|] == subscriptions;
  }

  /** A first match is kept when a name is listed after the existing ones; one that ends with the suffix becomes the match if there was none. */
  lemma {:induction false} FirstMatchAppend(names: seq<string>, x: string, suffix: string)
    requires EndsWith(x, suffix)
    ensures FirstMatch(names + [x], suffix) ==
      if HasMatch(names, suffix) then FirstMatch(names, suffix) else Some(|names|)
  {
    var n := names + [x];
    if names == [] {
      assert n == [x];
    } else if EndsWith(names[0], suffix) {
      assert n[0] == names[0];
    } else {
      assert n[1..] == names[1..] + [x];
      FirstMatchAppend(names[1..], x, suffix);
      assert HasMatch(names, suffix) == HasMatch(names[1..], suffix) by {
        if HasMatch(names, suffix) {
          var i :| 0 <= i < |names| && EndsWith(names[i], suffix);
          assert names[1..][i - 1] == names[i];
        }
        if HasMatch(names[1..], suffix) {
          var i :| 0 <= i < |names[1..]| && EndsWith(names[1..][i], suffix);
          assert names[i + 1] == names[1..][i];
        }
      }
    }
  }

  /** createOrGetTopic: calling it again with the same name creates nothing and returns the same topic. */
  lemma EnsureTopicIdempotent(b: Broker, projectId: string, name: string)
    ensures HasMatch(EnsureTopic(b, projectId, name).0.topics, name)
    ensures EnsureTopic(EnsureTopic(b, projectId, name).0, projectId, name) == EnsureTopic(b, projectId, name)
  {
    var (b1, t1) := EnsureTopic(b, projectId, name);
    if !HasMatch(b.topics, name) {
      FirstMatchAppend(b.topics, t1, name);
      assert b1.topics[|b.topics|] == t1;
    }
  }

  /** createOrGetTopic creates a topic at most once, and only under the requested name. */
  lemma EnsureTopicCreatesAtMostOnce(b: Broker, projectId: string, name: string)
    ensures |EnsureTopic(b, projectId, name).0.topics| <= |b.topics| + 1
    ensures EnsureTopic(b, projectId, name).0.topics[..|b.topics|] == b.topics
    ensures |EnsureTopic(b, projectId, name).0.topics| == |b.topics| + 1 <==> !HasMatch(b.topics, name)
  {
  }

  /**
   * createOrGetTopic never lists a topic twice: it creates only when no listed
   * name ends with the requested one, and a listed topic of the same full name
   * would.
   */
  lemma EnsureTopicKeepsNamesDistinct(b: Broker, projectId: string, name: string)
    requires forall i, j :: 0 <= i < j < |b.topics| ==> b.topics[i] != b.topics[j]
    ensures var t := EnsureTopic(b, projectId, name).0.topics;
      forall i, j :: 0 <= i < j < |t| ==> t[i] != t[j]
  {
    if !HasMatch(b.topics, name) {
      EndsWithConcat("projects/" + projectId + "/topics/", name);
    }
  }

  /** createOrGetTopic keeps the broker well formed: it creates a topic only under a name not yet listed. */
  lemma EnsureTopicKeepsWellFormed(b: Broker, projectId: string, name: string)
    requires WellFormed(b)
    ensures WellFormed(EnsureTopic(b, projectId, name).0)
  {
    EnsureTopicKeepsNamesDistinct(b, projectId, name);
  }

  /**
   * createSubscriptionIfNotExists: the topic is ensured first. When a
   * subscription of the ensured topic ends with `name` nothing more happens;
   * otherwise the broker is asked to create `name` on the topic called
   * `topicName`, and refuses when that name is taken or that topic is not
   * listed.
   */
  lemma EnsureSubscriptionSpec(b: Broker, projectId: string, topicName: string, name: string)
    ensures var (b1, topic) := EnsureTopic(b, projectId, topicName);
      var (b2, r) := EnsureSubscription(b, projectId, topicName, name);
      var path := SubscriptionPath(projectId, name);
      var target := TopicPath(projectId, topicName);
      && b2.topics == b1.topics
      && (HasMatch(SubscriptionsOf(b.subscriptions, topic), name) ==> b2 == b1 && r == Success(false))
      && (!HasMatch(SubscriptionsOf(b.subscriptions, topic), name) && SubscriptionListed(b, path) ==>
            b2 == b1 && r == Failure(SubscriptionExists))
      && (!HasMatch(SubscriptionsOf(b.subscriptions, topic), name) && !SubscriptionListed(b, path) && target !in b1.topics ==>
            b2 == b1 && r == Failure(TopicMissing))
      && (!HasMatch(SubscriptionsOf(b.subscriptions, topic), name) && !SubscriptionListed(b, path) && target in b1.topics ==>
            r == Success(true) && b2.subscriptions == b.subscriptions + [SubscriptionRecord(path, target)])
  {
  }

  /** createSubscriptionIfNotExists keeps the broker well formed, whether or not the broker refuses. */
  lemma EnsureSubscriptionKeepsWellFormed(b: Broker, projectId: string, topicName: string, name: string)
    requires WellFormed(b)
    ensures WellFormed(EnsureSubscription(b, projectId, topicName, name).0)
  {
    EnsureTopicKeepsWellFormed(b, projectId, topicName);
  }

  /**
   * When the ensured topic is the one called `topicName`, a call that
   * succeeds leaves a subscription ending with `name` bound to it; the only
   * refusal left is a subscription name already taken on another topic.
   */
  lemma EnsureSubscriptionEstablishes(b: Broker, projectId: string, topicName: string, name: string)
    requires EnsureTopic(b, projectId, topicName).1 == TopicPath(projectId, topicName)
    ensures var r := EnsureSubscription(b, projectId, topicName, name).1;
      && (r.Success? ==> HasMatch(SubscriptionsOf(EnsureSubscription(b, projectId, topicName, name).0.subscriptions,
                                                   TopicPath(projectId, topicName)), name))
      && (r.Failure? ==> r.error == SubscriptionExists && SubscriptionListed(b, SubscriptionPath(projectId, name)))
  {
    var topic := TopicPath(projectId, topicName);
    var (b1, _) := EnsureTopic(b, projectId, topicName);
    var (b2, r) := EnsureSubscription(b, projectId, topicName, name);
    assert topic in b1.topics by {
      if HasMatch(b.topics, topicName) {
        assert b1.topics[FirstMatch(b.topics, topicName).value] == topic;
      } else {
        assert b1.topics[|b.topics|] == topic;
      }
    }
    if r == Success(true) {
      var s := SubscriptionRecord(SubscriptionPath(projectId, name), topic);
      SubscriptionsOfAppend(b1.subscriptions, s, topic);
      EndsWithConcat("projects/" + projectId + "/subscriptions/", name);
      var subs := SubscriptionsOf(b2.subscriptions, topic);
      assert subs[|subs| - 1] == s.name;
    }
  }

  /**
   * With the ensured topic being the one called `topicName`, a second call
   * creates nothing: it reports an existing subscription after a success, and
   * the same refusal after a refusal.
   */
  lemma EnsureSubscriptionIdempotent(b: Broker, projectId: string, topicName: string, name: string)
    requires EnsureTopic(b, projectId, topicName).1 == TopicPath(projectId, topicName)
    ensures var (b2, r) := EnsureSubscription(b, projectId, topicName, name);
      EnsureSubscription(b2, projectId, topicName, name) == (b2, if r.Success? then Success(false) else r)
  {
    var (b2, r) := EnsureSubscription(b, projectId, topicName, name);
    EnsureSubscriptionEstablishes(b, projectId, topicName, name);
    EnsureTopicIdempotent(b, projectId, topicName);
    var b1 := EnsureTopic(b, projectId, topicName).0;
    assert b2.topics == b1.topics;
    assert EnsureTopic(b2, projectId, topicName) == (b2, TopicPath(projectId, topicName)) by {
      assert EnsureTopic(b1, projectId, topicName) == (b1, TopicPath(projectId, topicName));
    }
  }

  /**
   * Suffix matching can pick the wrong topic: with only
   * "projects/p/topics/a-test" listed, asking for "test" returns that topic,
   * finds no subscription on it and asks the broker to create the
   * subscription on "test", which does not exist; the broker refuses, and
   * every further call does the same.
   */
  lemma SuffixMatchMissesTopic()
    ensures var b := Broker(["projects/p/topics/a-test"], []);
      && EnsureTopic(b, "p", "test") == (b, "projects/p/topics/a-test")
      && EnsureSubscription(b, "p", "test", "s") == (b, Failure(TopicMissing))
  {
    var b := Broker(["projects/p/topics/a-test"], []);
    assert EndsWith(b.topics[0], "test") by {
      assert b.topics[0][|b.topics[0]| - 4..] == "test";
    }
    assert "projects/p/topics/test" !in b.topics by {
      assert "projects/p/topics/test"[18] != "projects/p/topics/a-test"[18];
    }
  }

  /**
   * When suffix matching picks another topic although the topic called
   * `topicName` is listed, the first call creates the subscription on
   * `topicName`, but the next one looks on the matched topic again, finds
   * nothing and asks for it once more; the broker refuses because the name is
   * taken.
   */
  lemma WrongMatchRefusesSecondCall(b: Broker, projectId: string, topicName: string, name: string)
    requires TopicPath(projectId, topicName) in b.topics
    requires EnsureTopic(b, projectId, topicName).1 != TopicPath(projectId, topicName)
    requires !HasMatch(SubscriptionsOf(b.subscriptions, EnsureTopic(b, projectId, topicName).1), name)
    requires !SubscriptionListed(b, SubscriptionPath(projectId, name))
    ensures var (b1, r1) := EnsureSubscription(b, projectId, topicName, name);
      && r1 == Success(true)
      && EnsureSubscription(b1, projectId, topicName, name) == (b1, Failure(SubscriptionExists))
  {
    var target := TopicPath(projectId, topicName);
    var path := SubscriptionPath(projectId, name);
    var topic := EnsureTopic(b, projectId, topicName).1;
    assert HasMatch(b.topics, topicName) by {
      EndsWithConcat("projects/" + projectId + "/topics/", topicName);
      var i :| 0 <= i < |b.topics| && b.topics[i] == target;
    }
    var s := SubscriptionRecord(path, target);
    var b1 := b.(subscriptions := b.subscriptions + [s]);
    assert EnsureSubscription(b, projectId, topicName, name) == (b1, Success(true));
    SubscriptionsOfAppend(b.subscriptions, s, topic);
    assert b1.subscriptions[|b.subscriptions|] == s;
    assert SubscriptionListed(b1, path);
  }

  /** ExtendedPubSub: a client of one project, over the broker's state. */
  class ExtendedPubSub {
    const projectId: string
    var broker: Broker

    constructor (projectId: string, broker: Broker)
      ensures this.projectId == projectId && this.broker == broker
    {
      this.projectId := projectId;
      this.broker := broker;
    }

    /** getTopicMatchName: the first listed topic whose name ends with `topicName`, or null. */
    method GetTopicMatchName(topicName: string) returns (r: Option<string>)
      ensures r.Some? <==> HasMatch(broker.topics, topicName)
      ensures r.Some? ==> exists i :: 0 <= i < |broker.topics| && r.value == broker.topics[i] && EndsWith(r.value, topicName)
      ensures r.Some? ==> r.value == broker.topics[FirstMatch(broker.topics, topicName).value]
    {
      var topics := broker.topics;
      var found := FirstMatch(topics, topicName);
      if found.Some? {
        return Some(topics[found.value]);
      }
      return None;
    }

    /** createOrGetTopic: the matching topic if one is listed, otherwise a newly created one. */
    method CreateOrGetTopic(name: string) returns (topic: string)
      modifies this
      ensures (broker, topic) == EnsureTopic(old(broker), projectId, name)
    {
      var found := GetTopicMatchName(name);
      if found.None? {
        broker := broker.(topics := broker.topics + [TopicPath(projectId, name)]);
        return TopicPath(projectId, name);
      }
      return found.value;
    }

    /**
     * createSubscriptionIfNotExists: fails before touching the broker unless
     * the topic argument is a string; otherwise ensures the topic and the
     * subscription. The result is the created subscription, None when one
     * already matched (the source resolves to undefined then), or the
     * broker's refusal of the create.
     */
    method CreateSubscriptionIfNotExists(topicName: TopicArg, name: string) returns (r: Result<Option<SubscriptionRecord>, Error>)
      modifies this
      ensures topicName.TopicObject? ==> r == Failure(TopicNameNotString) && broker == old(broker)
      ensures topicName.TopicName? ==>
        var (b, ensured) := EnsureSubscription(old(broker), projectId, topicName.name, name);
        && broker == b
        && (ensured.Failure? ==> r == Failure(ensured.error))
        && (ensured.Success? ==>
              r == Success(if ensured.value then Some(broker.subscriptions[|broker.subscriptions| - 1]) else None))
    {
      if topicName.TopicObject? {
        return Failure(TopicNameNotString);
      }
      var topic := CreateOrGetTopic(topicName.name);
      var subscriptions := SubscriptionsOf(broker.subscriptions, topic);
      if FirstMatch(subscriptions, name).Some? {
        return Success(None);
      }
      var created := CreateSubscription(broker, SubscriptionPath(projectId, name), TopicPath(projectId, topicName.name));
      if created.Failure? {
        return Failure(created.error);
      }
      broker := created.value;
      return Success(Some(broker.subscriptions[|broker.subscriptions| - 1]));
    }

    /**
     * createOrGetSubscription: the ensure step, whose failure is passed on,
     * then the local handle for `name` (its fully qualified name); no further
     * broker call.
     */
    method CreateOrGetSubscription(topicOrName: TopicArg, name: string) returns (r: Result<string, Error>)
      modifies this
      ensures topicOrName.TopicObject? ==> r == Failure(TopicNameNotString) && broker == old(broker)
      ensures topicOrName.TopicName? ==>
        var (b, ensured) := EnsureSubscription(old(broker), projectId, topicOrName.name, name);
        && broker == b
        && (ensured.Failure? ==> r == Failure(ensured.error))
        && (ensured.Success? ==> r == Success(SubscriptionPath(projectId, name)) && EndsWith(r.value, name))
    {
      var ensured := CreateSubscriptionIfNotExists(topicOrName, name);
      if ensured.Failure? {
        return Failure(ensured.error);
      }
      EndsWithConcat("projects/" + projectId + "/subscriptions/", name);
      return Success(SubscriptionPath(projectId, name));
    }
  }
}
