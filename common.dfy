/** Values shared by the producer, the consumer and the broker helpers. */
module Common {

  datatype Option<+T> = None | Some(value: T)

  datatype Result<+R, +E> = Success(value: R) | Failure(error: E)

  /** The errors the modelled code raises itself, and the opaque errors the broker raises. */
  datatype Error =
    | MissingCredentials              // the Error thrown when `credentials` is falsy
    | TopicNameNotString              // the Error thrown by createSubscriptionIfNotExists
    | TypeError(message: string)      // a TypeError the JavaScript runtime raises
    | BrokerError(reason: string)     // whatever a broker call rejects with

  /** Credentials are only ever tested for truthiness and handed to the client. */
  datatype Credentials = Credentials(clientEmail: string, privateKey: string)

  /** A JSON value as it travels inside a message body or an attribute map. */
  datatype Value =
    | Null
    | Bool(b: bool)
    | Num(n: int)
    | Str(s: string)
    | List(items: seq<Value>)
    | Object(fields: map<string, Value>)

  /** A plain JavaScript object of job data. */
  type Payload = map<string, Value>

  /**
   * A template literal `${x}` over a value that may be undefined: an absent
   * value is rendered as the text "undefined".
   */
  function Interpolate(x: Option<string>): (r: string)
    ensures x.Some? ==> r == x.value
    ensures x.None? ==> r == "undefined"
  {
    match x
    case Some(s) => s
    case None => "undefined"
  }

  /** The fully qualified name the client library gives a topic of a project. */
  function TopicPath(projectId: string, name: string): string
  {
    "projects/" + projectId + "/topics/" + name
  }

  /** The fully qualified name the client library gives a subscription of a project. */
  function SubscriptionPath(projectId: string, name: string): string
  {
    "projects/" + projectId + "/subscriptions/" + name
  }

  /** String.prototype.endsWith. */
  predicate EndsWith(s: string, suffix: string)
  {
    |suffix| <= |s| && s[|s| - |suffix|..] == suffix
  }

  lemma EndsWithConcat(prefix: string, suffix: string)
    ensures EndsWith(prefix + suffix, suffix)
  {
    assert (prefix + suffix)[|prefix|..] == suffix;
  }
}
