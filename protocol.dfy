/** Wire-level vocabulary of the broker: identities, subscriber entries, the
    records it answers with and the parsed shape of an inbound request. */
module Protocol {

  datatype Option<+T> = None | Some(value: T)

  /** The identity a connection is given once when it opens (a random uuid). */
  type Id(==)

  /** A handle to a connection's outbound side; the broker only stores it. */
  type Conn

  /** One entry of a topic's subscriber list: `{"uuid": id, "conn": conn}`. */
  datatype Subscriber = Subscriber(uuid: Id, conn: Conn)

  /** The value stored under a topic name. `lastUpdate` is "never" until the
      first successful publish, then the timestamp of the latest one. */
  datatype Topic = Topic(subscribers: seq<Subscriber>, lastUpdate: string)

  const NEVER := "never"

  // Function names of the request envelope.
  const SUBSCRIBE_TOPIC := "SUBSCRIBE_TOPIC"
  const UNSUBSCRIBE_TOPIC := "UNSUBSCRIBE_TOPIC"
  const PUBLISH_TOPIC := "PUBLISH_TOPIC"
  const GET_TOPIC_STATUS := "GET_TOPIC_STATUS"
  const LIST_TOPICS := "LIST_TOPICS"
  /** Function name of the record pushed to subscribers after a publish. */
  const UPDATE_TOPIC := "UPDATE_TOPIC"

  // Error texts, as the handlers spell them.
  const ALREADY_SUBSCRIBED := "you are already subscribed to that list"
  const NOT_SUBSCRIBED := "you are not subscribed to that topic"
  const TOPIC_MISSING := "topic does not exist"
  const NOT_INTERPRETED := "could not interpret request"

  const SUBSCRIBED := "subscribed"
  const NOT_SUBSCRIBED_STATUS := "not subscribed"

  datatype Status = Success | Failure

  /** The `subscribers` field of a status reply: the empty string the record
      is built with, or the length of the subscriber list once it is known. */
  datatype Count = Blank | Num(n: nat)

  /** The `data` member of a record, one shape per function. */
  datatype Data =
    | TopicData(topic: string)
    | PublishData(topic: string, message: string)
    | StatusData(topic: string, topicStatus: string, lastUpdate: string, subscribers: Count)
    | ListData(topicList: seq<string>)
    | UpdateData(name: string, message: string, timestamp: string)

  /** A record sent over a connection. `Full` carries all four keys;
      `Bare` only `status` and `error` (the dispatcher's fallback). */
  datatype Response =
    | Full(status: Status, func: string, data: Data, error: string)
    | Bare(status: Status, error: string)

  /** The one record the dispatcher returns for a request it cannot use. */
  const UNINTERPRETABLE := Bare(Failure, NOT_INTERPRETED)

  /** The work a successful publish hands to the sender: the payload and the
      connections it is addressed to, in subscriber-list order. */
  datatype Broadcast = Broadcast(recipients: seq<Conn>, payload: Response)

  /** The `parameters` member of a request: a JSON object (only the two keys
      the handlers read are kept) or some other JSON value. */
  datatype Params =
    | Fields(name: Option<string>, message: Option<string>)
    | NonObjectParams

  /** The `function` member of a request, as a key of the handler table:
      a string, another hashable JSON value (a number, `true`, `false` or
      `null`), or a list or object, which Python cannot hash. */
  datatype FunctionKey = Text(text: string) | Scalar | Unhashable

  /** An inbound text after JSON decoding. */
  datatype Request =
    | Unparsable                                              // the text is not JSON
    | NonObject                                               // JSON, but not an object
    | Envelope(func: Option<FunctionKey>, parameters: Option<Params>)

  /** A request the dispatcher accepted, with the parameters its handler reads. */
  datatype Call =
    | SubscribeCall(name: string)
    | UnsubscribeCall(name: string)
    | PublishCall(name: string, message: string)
    | StatusCall(name: string)
    | ListCall

  /** The record pushed to every subscriber after a successful publish. */
  function UpdatePayload(topic: string, message: string, timestamp: string): Response
  {
    Full(Success, UPDATE_TOPIC, UpdateData(topic, message, timestamp), "")
  }
}
