# EchoChat broker core in Dafny

EchoChat is a small publish/subscribe broker. Clients hold a WebSocket
connection. On it they subscribe to named topics, publish to them, ask for a
topic's status and list the topics. When someone publishes, every subscriber
of that topic is pushed an `UPDATE_TOPIC` record. This project models the
broker's core in `main.py`: the in-memory `topics` registry, the five request
handlers that read and change it, and the dispatcher `handle_input`.

Layout:

- `protocol.dfy` (module `Protocol`): identities and connection handles
  (abstract types `Id` and `Conn`), subscriber entries, topics, the response
  records, the broadcast a publish starts, and the decoded request. A request
  is `Unparsable` (not JSON), `NonObject` (JSON but not an object) or an
  `Envelope` whose `function` and `parameters` may be missing. The `function`
  value is a string (`Text`), another hashable JSON value such as a number,
  a boolean or null (`Scalar`), or a list or object (`Unhashable`).
- `topics.dfy` (module `Topics`): the registry as a value `Table`. It holds
  the dictionary and the insertion order of its keys, so that the topic list
  comes out in Python dict order. It also holds the invariant `Valid`, one
  function per handler and the lemmas stating what each handler promises.
- `dispatcher.dfy` (module `Dispatcher`): how `handle_input` routes a request,
  both as written and corrected (see Findings), plus the lemmas about it.
- `broker.dfy` (module `Broker`): the registry as an object. Class `Registry`
  has the fields `topics` and `order`, and one method per handler.
  Subscribe, unsubscribe and publish update the fields in place; status and
  list only read them. Subscribe, unsubscribe, publish and status run the
  handlers' membership scan (`Scan`, a loop that stops at the first matching
  uuid); list does not scan. `HandleInput` routes a request and calls one of
  the other methods. Each changing method is proved to produce the state and
  reply that the matching `Topics`/`Dispatcher` function gives, and to keep
  `Valid`.
- `scenarios.dfy` (module `Scenarios`): properties of request sequences,
  such as N subscribers, the last member leaving, a whole client session and
  the fan-out to two subscribers.

The invariant `Valid` says that every topic has at least one subscriber, no
uuid appears twice in a topic, and the key order lists each topic once. Every
handler and the dispatcher keep it.

Inputs the source takes from its environment become parameters:

- the connection's uuid (`main.py:30`) is `id`;
- the WebSocket object is `conn`;
- the time `datetime.now()` gives a publish (`main.py:156`) is `now`.

Publishing does not start a thread. It returns a `Broadcast`: the payload and
the connections it goes to.

## Model

| member | source | states |
|---|---|---|
| `Topics.IndexOf` | main.py:79-82 | the subscriber scan stops at the first entry whose uuid is the caller's: that entry matches and none before it does |
| `Topics.WithoutRemovesOne` | main.py:111-114 | removing the caller from a duplicate-free list takes out exactly its entry, as `list.remove` does: the result is the list with the caller's position cut out, so it is one shorter, the caller is absent, every other entry is kept in its order, and it stays duplicate-free |
| `Topics.Recipients` | main.py:176-177 | the update goes to the connection of every subscriber, position by position, one per entry |
| `Topics.Erase` | main.py:116-118 | popping a topic leaves exactly the other keys, still without duplicates |
| `Topics.EraseAbsent` | main.py:116-118 | popping a key that is not there (`pop(name, None)`) leaves the key order as it was |
| `Topics.EraseAt` | main.py:116-118 | popping the key at position i of a duplicate-free order removes that position and keeps every other key in its place and order |
| `Topics.Without` | main.py:111-114 | no contract of its own; what it removes is stated by `Topics.WithoutRemovesOne`, and `Broker.Registry.HandleUnsubscribe` is proved to remove the entry `Broker.Scan` stopped at, which is the one `Without` removes |
| `Topics.EmptyValid` | main.py:62 | the empty registry at start-up satisfies the invariant |
| `Topics.SubscribeCreates` | main.py:64-94 | subscribing to an unknown name succeeds, echoes the name, creates the topic with the caller as its only subscriber and last update "never", appends the key and changes no other topic |
| `Topics.SubscribeJoinsOnce` | main.py:76-87 | on an existing topic: success (caller appended, key order unchanged) exactly when the caller's uuid is absent; otherwise "you are already subscribed to that list" and the registry is unchanged |
| `Topics.SubscribeMakesMember` | main.py:76-92 | for any registry, after a subscribe the caller is a member, and the count grows by one unless the caller already was a member |
| `Topics.SubscribeKeepsValid` | main.py:77-92 | subscribe keeps the invariant: no empty topic, no duplicate uuid, key order in step with the keys |
| `Topics.UnsubscribeOutcomes` | main.py:108-125 | absent topic gives "topic does not exist"; a non-member gives "you are not subscribed to that topic", and neither changes anything; otherwise success, exactly the caller's entry goes and the remaining subscribers keep their order (so later updates reach them in the same order), the topic is deleted exactly when the caller was its last subscriber, and other topics are untouched. When the topic survives the key order is unchanged; when it is popped, the key order loses exactly that key's position and keeps the rest in order |
| `Topics.UnsubscribeKeepsValid` | main.py:108-121 | unsubscribe keeps the invariant, so no topic is left with an empty subscriber list |
| `Topics.PublishOutcomes` | main.py:134-177 | success exactly when the topic exists and the caller is a member. Then only that topic's last update changes, to `now`. The pushed record is the success `UPDATE_TOPIC` record with name, message and that same timestamp, sent to each subscriber's connection. Each failure has its own error text, changes nothing and pushes nothing |
| `Topics.PublishKeepsValid` | main.py:155-157 | publish keeps the invariant |
| `Topics.StatusReports` | main.py:195-227 | an unknown topic gives "topic does not exist". Otherwise success with the list length, "subscribed" exactly when the caller is a member (else "not subscribed") and the stored last update |
| `Topics.ListNamesTopics` | main.py:235-245 | the list reply always succeeds and names each existing topic once, in insertion order, and nothing else |
| `Topics.Subscribe` | main.py:64-94 | no contract of its own; its behaviour is stated by `Topics.SubscribeCreates`, `Topics.SubscribeJoinsOnce`, `Topics.SubscribeMakesMember` and `Topics.SubscribeKeepsValid` |
| `Topics.Unsubscribe` | main.py:96-128 | no contract of its own; its behaviour is stated by `Topics.UnsubscribeOutcomes` and `Topics.UnsubscribeKeepsValid` |
| `Topics.Publish` | main.py:130-177 | no contract of its own; its behaviour, the pushed record and its recipients included, is stated by `Topics.PublishOutcomes` and `Topics.PublishKeepsValid` |
| `Topics.TopicStatus` | main.py:191-229 | no contract of its own; its behaviour is stated by `Topics.StatusReports` |
| `Topics.TopicList` | main.py:231-245 | no contract of its own; its behaviour is stated by `Topics.ListNamesTopics` |
| `Protocol.UpdatePayload` | main.py:165-175 | no contract of its own; the record `send_update` pushes (success, `UPDATE_TOPIC`, topic, message and the publish time) is stated by `Topics.PublishOutcomes` |
| `Dispatcher.CallOf` | main.py:248-257 | no contract of its own; which handler each name reaches, and which missing parameter rejects it, is stated by `Dispatcher.TypeErrorAsWritten` and `Dispatcher.RouteAgreesWithAsWritten` |
| `Dispatcher.RouteAsWritten` | main.py:247-263 | no contract of its own; its raising cases are stated by `Dispatcher.TypeErrorAsWritten` and its agreement with the corrected routing by `Dispatcher.RouteAgreesWithAsWritten` |
| `Dispatcher.Route` | main.py:247-263 | no contract of its own; its behaviour is stated by `Dispatcher.HandleRejects`, `Dispatcher.HandleReachesHandler` and `Dispatcher.RouteAgreesWithAsWritten` |
| `Dispatcher.Apply` | main.py:248-257 | no contract of its own; that each call reaches its handler unchanged is stated by `Dispatcher.HandleReachesHandler` |
| `Dispatcher.Handle` | main.py:247-263 | no contract of its own; its behaviour is stated by `Dispatcher.HandleRejects`, `Dispatcher.HandleReachesHandler`, `Dispatcher.HandleAnswersInKind` and `Dispatcher.HandleKeepsValid` |
| `Dispatcher.HandleRejects` | main.py:255-263 | these requests all get the bare "could not interpret request" record with the registry unchanged and nothing pushed: undecodable or non-object JSON, a missing or unknown function, missing parameters, a missing name (any function but LIST_TOPICS) or a missing message (publish) |
| `Dispatcher.HandleReachesHandler` | main.py:248-257 | each of the five function names, with the parameters its handler reads, reaches that handler, and the handler's reply and state are returned unchanged |
| `Dispatcher.HandleAnswersInKind` | main.py:247-263 | a full reply carries the requested function name, a bare reply is the fixed failure record with nothing changed, and only a successful publish pushes |
| `Dispatcher.HandleKeepsValid` | main.py:247-263 | every request keeps the registry invariant |
| `Dispatcher.TypeErrorAsWritten` | main.py:255-258 | as written, an uncaught TypeError ends three kinds of request: non-object JSON, non-object parameters for any of the four handlers that read `name`, and a list or object as the function. LIST_TOPICS with non-object parameters is served. The corrected dispatcher answers all three kinds with the failure record and changes nothing |
| `Dispatcher.RouteAgreesWithAsWritten` | main.py:255-263 | the corrected routing, defined on its own from what each handler reads, calls the same handler as the code as written for every request and rejects what it rejects; the two differ only where the code raises |
| `Broker.Scan` | main.py:208-214 | the scan loop finds the caller exactly when its uuid is in the list, and stops at the first such entry |
| `Broker.Registry.constructor` | main.py:62 | the registry starts empty and valid |
| `Broker.Registry.HandleSubscribe` | main.py:64-94 | updates the registry in place to the state `Topics.Subscribe` gives, returns its reply and keeps the invariant |
| `Broker.Registry.HandleUnsubscribe` | main.py:96-128 | removes the scanned entry in place and pops an emptied topic, giving the state and reply `Topics.Unsubscribe` gives, and keeps the invariant |
| `Broker.Registry.HandlePublish` | main.py:130-163 | stamps the topic in place and returns the reply and broadcast `Topics.Publish` gives, keeping the invariant |
| `Broker.Registry.HandleTopicStatus` | main.py:191-229 | reads the registry without changing it and returns the reply `Topics.TopicStatus` gives |
| `Broker.Registry.HandleTopicList` | main.py:231-245 | on a valid registry the list reply succeeds and names every current topic exactly once, in insertion order, so its length is the number of topics |
| `Broker.Registry.HandleInput` | main.py:247-263 | routes the request and runs its handler, ending in the state, reply and broadcast `Dispatcher.Handle` gives, and keeps the invariant |
| `Scenarios.SubscribeAllCollects` | main.py:83-91 | distinct identities subscribing in turn to a new topic become its subscriber list in arrival order, with last update "never" |
| `Scenarios.StatusAfterSubscribes` | main.py:207-224 | after N distinct subscribes, each subscriber's status reply says "subscribed" with N subscribers |
| `Scenarios.LastUnsubscribeDelists` | main.py:114-118 | when the only subscriber leaves, the reply is success and the topic is gone from the registry and from the list |
| `Scenarios.SingleClientSession` | main.py:247-263 | a session of subscribe, list, publish "hi", status, unsubscribe and list gives the expected replies. The update goes only to the client's own connection, the status shows the publish time, and the registry ends empty |
| `Scenarios.PublishFansOutToTopicOnly` | main.py:156-177 | with B and C on one topic and D on another, B's publish goes to B's and C's connections once each, in subscription order, and never to D's |

## Findings

| source | as written | input that shows it | evidently intended | confidence | as-written member | corrected member |
|---|---|---|---|---|---|---|
| main.py:255-258 | `handle_input` catches only `json.JSONDecodeError` and `KeyError`. Indexing a JSON value that is not an object with a string raises `TypeError`, and so does looking up a list or object in the `functions` table. That error escapes, the request gets no reply and the WebSocket handler ends | the text `5`, `{"function": "SUBSCRIBE_TOPIC", "parameters": 5}`, or `{"function": [], "parameters": {}}` | the failure record `{"status": "failure", "error": "could not interpret request"}`, as for every other request that cannot be used | high, not executed | `Dispatcher.TypeErrorAsWritten` (over `Dispatcher.RouteAsWritten`) | `Dispatcher.HandleRejects` (over `Dispatcher.Route`, which `Broker.Registry.HandleInput` uses) |

## Left out

- The FastAPI app and its static routes (`main.py:14-23`) are web-framework plumbing.
- The WebSocket accept/receive/send loop and its `pprint` output (`main.py:25-46`) are network I/O. The model takes the connection's uuid as a parameter. Disconnection is not modelled, because the source does nothing on disconnect (`main.py:44-46`). In particular a closed connection's entries stay in its topics, as in the source; cleanup on disconnect is not added.
- The sender thread and event loop (`main.py:179-188`) and the `send_text` calls (`main.py:177`) are concurrency and I/O. A publish returns the recipients and the payload instead.
- The source's sender thread reads the subscriber list when it runs, not when the publish happens. So the true recipients may differ if the list changes in between, and the thread fails if the topic was deleted. The model fixes the recipients at publish time.
- Send failures and their effect on later recipients are not modelled.
- `datetime.now().strftime` is an input string `now`. Its format is not checked, and nothing is proved about timestamps growing over time.
- `json.loads` and `json.dumps` are not modelled. A request arrives already decoded as a `Request`.
- The model takes `name` and `message` to be JSON strings. The source does not check this, and other values are not modelled. A number, boolean or null name is a key under Python's hashing and equality (so `true`, `1` and `1.0` are one key, and a `NaN` name never finds its own topic again); these names are not modelled. A list or object name is unhashable: the registry lookup raises `TypeError`, which subscribe, unsubscribe and publish do not catch (`main.py:77`, `main.py:109`, `main.py:145`), while status's bare `except` (`main.py:225`) answers it with "topic does not exist".
- A `function` value that is a number, boolean or null is modelled only as `Scalar`: the table lookup raises `KeyError` and the request gets the failure record, as for an unknown name.
- Unsubscribe: Python's `list.remove(sub)` removes the first entry equal to `sub`, comparing both uuid and connection. The model removes the scanned entry's position. The two coincide because every earlier entry has a different uuid.
- The CLI clients (`client.py`, `app/client.py`), the browser scripts and the integration tests that need a live server are not part of this model.
- Concurrency between connections is not modelled. Every operation is one atomic step on the registry.
