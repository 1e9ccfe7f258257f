/** The topic registry as a value: the `topics` dictionary of main.py together
    with the insertion order of its keys, the invariant the handlers keep, and
    what each handler does to it. */
module Topics {
  import opened Protocol

  // ---------------------------------------------------------------------
  // Subscriber lists

  predicate HasId(subs: seq<Subscriber>, id: Id)
  {
    exists i :: 0 <= i < |subs| && subs[i].uuid == id
  }

  /** No uuid occurs twice in one subscriber list. */
  ghost predicate UniqueIds(subs: seq<Subscriber>)
  {
    forall i, j :: 0 <= i < j < |subs| ==> subs[i].uuid != subs[j].uuid
  }

  /** The position of the first entry with uuid `id`: where the handlers'
      `for sub in subscribers` scan stops. */
  function IndexOf(subs: seq<Subscriber>, id: Id): (k: nat)
    requires HasId(subs, id)
    ensures k < |subs| && subs[k].uuid == id
    ensures forall j :: 0 <= j < k ==> subs[j].uuid != id
  {
    if subs[0].uuid == id then 0
    else
      assert HasId(subs[1..], id) by {
        var i :| 0 <= i < |subs| && subs[i].uuid == id;
        assert subs[1..][i - 1].uuid == id;
      }
      1 + IndexOf(subs[1..], id)
  }

  /** The list after `subscribers.remove(sub)` for the entry the scan found. */
  function Without(subs: seq<Subscriber>, id: Id): seq<Subscriber>
    requires HasId(subs, id)
  {
    var k := IndexOf(subs, id);
    subs[..k] + subs[k + 1..]
  }

  /** Removing a member takes out exactly its entry and keeps the others in
      their order, so the list shrinks by one and stays free of duplicate
      uuids. */
  lemma WithoutRemovesOne(subs: seq<Subscriber>, id: Id)
    requires UniqueIds(subs) && HasId(subs, id)
    ensures |Without(subs, id)| == |subs| - 1
    ensures !HasId(Without(subs, id), id)
    ensures UniqueIds(Without(subs, id))
    ensures forall s :: s in Without(subs, id) <==> s in subs && s.uuid != id
    ensures exists k :: 0 <= k < |subs| && subs[k].uuid == id && Without(subs, id) == subs[..k] + subs[k + 1..]
  {
    var k := IndexOf(subs, id);
    var w := Without(subs, id);
    assert forall i :: 0 <= i < |w| ==> w[i] == subs[if i < k then i else i + 1];
    forall s
      ensures s in w <==> s in subs && s.uuid != id
    {
      if s in subs && s.uuid != id {
        var i :| 0 <= i < |subs| && subs[i] == s;
        assert i != k;
        assert w[if i < k then i else i - 1] == s;
      }
    }
  }

  /** The connections of a subscriber list, in list order: whom `send_update`
      writes to. */
  function Recipients(subs: seq<Subscriber>): (r: seq<Conn>)
    ensures |r| == |subs|
    ensures forall i :: 0 <= i < |subs| ==> r[i] == subs[i].conn
  {
    if subs == [] then [] else [subs[0].conn] + Recipients(subs[1..])
  }

  // ---------------------------------------------------------------------
  // Key order of the dictionary

  predicate NoDup(s: seq<string>)
  {
    forall i, j :: 0 <= i < j < |s| ==> s[i] != s[j]
  }

  /** The key order after `topics.pop(name)`: the other keys keep their order. */
  function Erase(order: seq<string>, name: string): (r: seq<string>)
    ensures forall x :: x in r <==> x in order && x != name
    ensures NoDup(order) ==> NoDup(r)
  {
    if order == [] then []
    else
      var rest := Erase(order[1..], name);
      if order[0] == name then rest
      else
        assert NoDup(order) ==> order[0] !in order[1..];
        [order[0]] + rest
  }

  /** Popping a key that is absent leaves the order as it was. */
  lemma {:induction false} EraseAbsent(order: seq<string>, name: string)
    requires name !in order
    ensures Erase(order, name) == order
  {
    if order != [] {
      EraseAbsent(order[1..], name);
      assert [order[0]] + order[1..] == order;
    }
  }

  /** Popping the key at position `i` removes that position and keeps every
      other key in its order. */
  lemma {:induction false} EraseAt(order: seq<string>, name: string, i: nat)
    requires NoDup(order) && i < |order| && order[i] == name
    ensures Erase(order, name) == order[..i] + order[i + 1..]
  {
    if i == 0 {
      EraseAbsent(order[1..], name);
    } else {
      assert NoDup(order[1..]);
      assert order[1..][i - 1] == name;
      EraseAt(order[1..], name, i - 1);
      assert order[..i] == [order[0]] + order[1..][..i - 1];
      assert order[i + 1..] == order[1..][i..];
    }
  }

  /** A duplicate-free sequence has as many distinct elements as positions. */
  lemma {:induction false} DistinctCount(s: seq<string>)
    requires NoDup(s)
    ensures |set x | x in s| == |s|
  {
    if s != [] {
      DistinctCount(s[1..]);
      assert (set x | x in s) == (set x | x in s[1..]) + {s[0]};
      assert s[0] !in s[1..];
    }
  }

  // ---------------------------------------------------------------------
  // The registry

  /** `topics` with the order in which its keys were inserted. */
  datatype Table = Table(topics: map<string, Topic>, order: seq<string>)

  const EMPTY := Table(map[], [])

  /** The registry invariant: the order lists each topic name once; every
      topic has at least one subscriber; no uuid appears twice in a topic. */
  ghost predicate Valid(t: Table)
  {
    && (forall k :: k in t.topics <==> k in t.order)
    && NoDup(t.order)
    && (forall k :: k in t.topics ==> t.topics[k].subscribers != [])
    && (forall k :: k in t.topics ==> UniqueIds(t.topics[k].subscribers))
  }

  /** The registry and the reply after `handle_subscribe`. */
  function Subscribe(t: Table, name: string, id: Id, conn: Conn): (Table, Response)
  {
    var joined := Full(Success, SUBSCRIBE_TOPIC, TopicData(name), "");
    if name !in t.topics then
      (Table(t.topics[name := Topic([Subscriber(id, conn)], NEVER)], t.order + [name]), joined)
    else if HasId(t.topics[name].subscribers, id) then
      (t, Full(Failure, SUBSCRIBE_TOPIC, TopicData(name), ALREADY_SUBSCRIBED))
    else
      var topic := t.topics[name];
      (Table(t.topics[name := topic.(subscribers := topic.subscribers + [Subscriber(id, conn)])], t.order), joined)
  }

  /** The registry and the reply after `handle_unsubscribe`. */
  function Unsubscribe(t: Table, name: string, id: Id): (Table, Response)
  {
    if name !in t.topics then
      (t, Full(Failure, UNSUBSCRIBE_TOPIC, TopicData(name), TOPIC_MISSING))
    else if !HasId(t.topics[name].subscribers, id) then
      (t, Full(Failure, UNSUBSCRIBE_TOPIC, TopicData(name), NOT_SUBSCRIBED))
    else
      var topic := t.topics[name];
      var rest := Without(topic.subscribers, id);
      var left := Full(Success, UNSUBSCRIBE_TOPIC, TopicData(name), "");
      if rest == [] then (Table(t.topics - {name}, Erase(t.order, name)), left)
      else (Table(t.topics[name := topic.(subscribers := rest)], t.order), left)
  }

  /** The registry, the reply and the fan-out of one request. */
  datatype Step = Step(table: Table, response: Response, push: Option<Broadcast>)

  /** `handle_publish` at time `now`; on success the broadcast `start_sender`
      starts is returned as `push`. */
  function Publish(t: Table, name: string, message: string, id: Id, now: string): Step
  {
    var data := PublishData(name, message);
    if name !in t.topics then
      Step(t, Full(Failure, PUBLISH_TOPIC, data, TOPIC_MISSING), None)
    else if !HasId(t.topics[name].subscribers, id) then
      Step(t, Full(Failure, PUBLISH_TOPIC, data, NOT_SUBSCRIBED), None)
    else
      var topic := t.topics[name].(lastUpdate := now);
      Step(Table(t.topics[name := topic], t.order),
           Full(Success, PUBLISH_TOPIC, data, ""),
           Some(Broadcast(Recipients(topic.subscribers), UpdatePayload(name, message, now))))
  }

  /** The reply of `handle_topic_status`. */
  function TopicStatus(t: Table, name: string, id: Id): Response
  {
    if name !in t.topics then
      Full(Failure, GET_TOPIC_STATUS, StatusData(name, "", "", Blank), TOPIC_MISSING)
    else
      var topic := t.topics[name];
      var mark := if HasId(topic.subscribers, id) then SUBSCRIBED else NOT_SUBSCRIBED_STATUS;
      Full(Success, GET_TOPIC_STATUS, StatusData(name, mark, topic.lastUpdate, Num(|topic.subscribers|)), "")
  }

  /** The reply of `handle_topic_list`. */
  function TopicList(t: Table): Response
  {
    Full(Success, LIST_TOPICS, ListData(t.order), "")
  }

  // ---------------------------------------------------------------------
  // What the handlers promise

  /** Nothing outside topic `name` differs between two tables. */
  ghost predicate OthersUnchanged(t: Table, t': Table, name: string)
  {
    forall k :: k != name ==> (k in t.topics <==> k in t'.topics) && (k in t.topics ==> t.topics[k] == t'.topics[k])
  }

  lemma EmptyValid()
    ensures Valid(EMPTY)
  {
  }

  /** Subscribing to an unknown name creates the topic with the caller as its
      only subscriber and "never" as last update, appended to the key order. */
  lemma SubscribeCreates(t: Table, name: string, id: Id, conn: Conn)
    requires name !in t.topics
    ensures var (t', r) := Subscribe(t, name, id, conn);
      && r == Full(Success, SUBSCRIBE_TOPIC, TopicData(name), "")
      && name in t'.topics && t'.topics[name] == Topic([Subscriber(id, conn)], NEVER)
      && t'.order == t.order + [name]
      && OthersUnchanged(t, t', name)
  {
  }

  /** Subscribing to an existing topic appends the caller when its uuid is
      absent and otherwise fails, leaving the registry as it was. */
  lemma SubscribeJoinsOnce(t: Table, name: string, id: Id, conn: Conn)
    requires name in t.topics
    ensures var (t', r) := Subscribe(t, name, id, conn);
      var subs := t.topics[name].subscribers;
      && r.Full? && r.func == SUBSCRIBE_TOPIC && r.data == TopicData(name)
      && (r.status == Success <==> !HasId(subs, id))
      && (!HasId(subs, id) ==>
            && r.error == ""
            && t'.topics == t.topics[name := t.topics[name].(subscribers := subs + [Subscriber(id, conn)])]
            && t'.order == t.order)
      && (HasId(subs, id) ==> r.error == ALREADY_SUBSCRIBED && t' == t)
  {
  }

  /** After any subscribe the caller is a member of the topic exactly once. */
  lemma SubscribeMakesMember(t: Table, name: string, id: Id, conn: Conn)
    ensures var t' := Subscribe(t, name, id, conn).0;
      name in t'.topics && HasId(t'.topics[name].subscribers, id)
      && |t'.topics[name].subscribers| == (if name in t.topics then |t.topics[name].subscribers| + (if HasId(t.topics[name].subscribers, id) then 0 else 1) else 1)
  {
    var t' := Subscribe(t, name, id, conn).0;
    var subs' := t'.topics[name].subscribers;
    assert subs'[|subs'| - 1].uuid == id || HasId(t.topics[name].subscribers, id);
  }

  lemma SubscribeKeepsValid(t: Table, name: string, id: Id, conn: Conn)
    requires Valid(t)
    ensures Valid(Subscribe(t, name, id, conn).0)
  {
    var t' := Subscribe(t, name, id, conn).0;
    if name in t.topics && !HasId(t.topics[name].subscribers, id) {
      var subs' := t'.topics[name].subscribers;
      forall i, j | 0 <= i < j < |subs'|
        ensures subs'[i].uuid != subs'[j].uuid
      {
        if j == |subs'| - 1 {
          assert t.topics[name].subscribers[i] == subs'[i];
        }
      }
    }
  }

  /** The three outcomes of unsubscribe. On success exactly the caller's entry
      is gone, the others keep their order, and the topic itself is gone when
      that entry was the last. */
  lemma UnsubscribeOutcomes(t: Table, name: string, id: Id)
    requires Valid(t)
    ensures var (t', r) := Unsubscribe(t, name, id);
      && r.Full? && r.func == UNSUBSCRIBE_TOPIC && r.data == TopicData(name)
      && (name !in t.topics ==> r.status == Failure && r.error == TOPIC_MISSING && t' == t)
      && (name in t.topics && !HasId(t.topics[name].subscribers, id) ==>
            r.status == Failure && r.error == NOT_SUBSCRIBED && t' == t)
      && (name in t.topics && HasId(t.topics[name].subscribers, id) ==>
            var subs := t.topics[name].subscribers;
            && r.status == Success && r.error == ""
            && OthersUnchanged(t, t', name)
            && (name in t'.topics <==> |subs| > 1)
            && (name !in t'.topics ==>
                  exists i :: 0 <= i < |t.order| && t.order[i] == name && t'.order == t.order[..i] + t.order[i + 1..])
            && (name in t'.topics ==>
                  && t'.order == t.order
                  && t'.topics[name].lastUpdate == t.topics[name].lastUpdate
                  && |t'.topics[name].subscribers| == |subs| - 1
                  && (forall s :: s in t'.topics[name].subscribers <==> s in subs && s.uuid != id)
                  && exists k :: 0 <= k < |subs| && subs[k].uuid == id
                       && t'.topics[name].subscribers == subs[..k] + subs[k + 1..]))
  {
    if name in t.topics && HasId(t.topics[name].subscribers, id) {
      WithoutRemovesOne(t.topics[name].subscribers, id);
      var i :| 0 <= i < |t.order| && t.order[i] == name;
      EraseAt(t.order, name, i);
    }
  }

  lemma UnsubscribeKeepsValid(t: Table, name: string, id: Id)
    requires Valid(t)
    ensures Valid(Unsubscribe(t, name, id).0)
  {
    if name in t.topics && HasId(t.topics[name].subscribers, id) {
      WithoutRemovesOne(t.topics[name].subscribers, id);
    }
  }

  /** Publish succeeds only for a member of an existing topic. Then the only
      change is that topic's last update, set to `now`, and the update record,
      stamped with that same time, goes to every connection of the topic. A
      failing publish changes nothing and sends nothing. */
  lemma PublishOutcomes(t: Table, name: string, message: string, id: Id, now: string)
    ensures var s := Publish(t, name, message, id, now);
      && s.response.Full? && s.response.func == PUBLISH_TOPIC
      && s.response.data == PublishData(name, message)
      && (s.response.status == Success <==> name in t.topics && HasId(t.topics[name].subscribers, id))
      && (name !in t.topics ==> s.response.error == TOPIC_MISSING)
      && (name in t.topics && !HasId(t.topics[name].subscribers, id) ==> s.response.error == NOT_SUBSCRIBED)
      && (s.response.status == Failure ==> s.table == t && s.push == None)
      && (s.response.status == Success ==>
            && s.response.error == ""
            && s.table.order == t.order
            && s.table.topics == t.topics[name := t.topics[name].(lastUpdate := now)]
            && s.table.topics[name].lastUpdate == now
            && s.push.Some?
            && s.push.value.payload == Full(Success, UPDATE_TOPIC, UpdateData(name, message, now), "")
            && s.push.value.payload.data.timestamp == s.table.topics[name].lastUpdate
            && |s.push.value.recipients| == |t.topics[name].subscribers|
            && forall i :: 0 <= i < |s.push.value.recipients| ==>
                 s.push.value.recipients[i] == t.topics[name].subscribers[i].conn)
  {
  }

  lemma PublishKeepsValid(t: Table, name: string, message: string, id: Id, now: string)
    requires Valid(t)
    ensures Valid(Publish(t, name, message, id, now).table)
  {
  }

  /** Status reports the stored facts of an existing topic and fails for an
      unknown one. */
  lemma StatusReports(t: Table, name: string, id: Id)
    ensures var r := TopicStatus(t, name, id);
      && r.Full? && r.func == GET_TOPIC_STATUS && r.data.StatusData? && r.data.topic == name
      && (name !in t.topics ==> r.status == Failure && r.error == TOPIC_MISSING)
      && (name in t.topics ==>
            var subs := t.topics[name].subscribers;
            && r.status == Success && r.error == ""
            && r.data.subscribers == Num(|subs|)
            && (r.data.topicStatus == SUBSCRIBED <==> HasId(subs, id))
            && (r.data.topicStatus == NOT_SUBSCRIBED_STATUS <==> !HasId(subs, id))
            && r.data.lastUpdate == t.topics[name].lastUpdate)
  {
  }

  /** The list reply names every existing topic exactly once, in insertion
      order, and nothing else. */
  lemma ListNamesTopics(t: Table)
    requires Valid(t)
    ensures var r := TopicList(t);
      && r == Full(Success, LIST_TOPICS, ListData(t.order), "")
      && (forall k :: k in r.data.topicList <==> k in t.topics)
      && NoDup(r.data.topicList)
      && |r.data.topicList| == |t.topics|
  {
    DistinctCount(t.order);
    assert (set x | x in t.order) == t.topics.Keys;
  }
}
