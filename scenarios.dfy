/** Properties of request sequences: what several handler calls in a row
    leave behind and send out. */
module Scenarios {
  import opened Protocol
  import opened Topics
  import opened Dispatcher

  /** The table after each entry of `subs`, in order, subscribed to `name`. */
  function SubscribeAll(t: Table, name: string, subs: seq<Subscriber>): Table
  {
    if subs == [] then t
    else
      var last := subs[|subs| - 1];
      Subscribe(SubscribeAll(t, name, subs[..|subs| - 1]), name, last.uuid, last.conn).0
  }

  /** Distinct identities subscribing one after another to a new topic make
      up its subscriber list, in the order they came. */
  lemma {:induction false} SubscribeAllCollects(t: Table, name: string, subs: seq<Subscriber>)
    requires name !in t.topics && subs != [] && UniqueIds(subs)
    ensures name in SubscribeAll(t, name, subs).topics
    ensures SubscribeAll(t, name, subs).topics[name] == Topic(subs, NEVER)
  {
    var init := subs[..|subs| - 1];
    var last := subs[|subs| - 1];
    if init == [] {
      assert subs == [last];
    } else {
      SubscribeAllCollects(t, name, init);
      assert !HasId(init, last.uuid) by {
        forall i | 0 <= i < |init|
          ensures init[i].uuid != last.uuid
        {
          assert init[i] == subs[i];
        }
      }
      assert init + [last] == subs;
    }
  }

  /** After N distinct identities subscribed to a new topic, each of them
      sees the topic as subscribed, with N subscribers and no update yet. */
  lemma StatusAfterSubscribes(t: Table, name: string, subs: seq<Subscriber>, k: nat)
    requires name !in t.topics && UniqueIds(subs) && k < |subs|
    ensures TopicStatus(SubscribeAll(t, name, subs), name, subs[k].uuid)
      == Full(Success, GET_TOPIC_STATUS, StatusData(name, SUBSCRIBED, NEVER, Num(|subs|)), "")
  {
    SubscribeAllCollects(t, name, subs);
  }

  /** When the last member leaves, the topic disappears from the list. */
  lemma LastUnsubscribeDelists(t: Table, name: string, s: Subscriber)
    requires Valid(t) && name in t.topics && t.topics[name].subscribers == [s]
    ensures var (t', r) := Unsubscribe(t, name, s.uuid);
      && r == Full(Success, UNSUBSCRIBE_TOPIC, TopicData(name), "")
      && name !in t'.topics
      && name !in TopicList(t').data.topicList
  {
    assert HasId([s], s.uuid) by { assert [s][0].uuid == s.uuid; }
  }

  /** A request envelope with a `name` and, for publish, a `message`. */
  function Ask(f: string, name: string, message: Option<string>): Request
  {
    Envelope(Some(Text(f)), Some(Fields(Some(name), message)))
  }

  /** One client's session through the dispatcher: subscribe, list, publish,
      status, unsubscribe, list. Only the publisher itself is pushed the
      update, and the status afterwards reports the publish time. */
  lemma SingleClientSession(a: Id, c: Conn, now: string)
    ensures var s1 := Handle(EMPTY, Ask(SUBSCRIBE_TOPIC, "news", None), a, c, now);
      var s2 := Handle(s1.table, Ask(LIST_TOPICS, "", None), a, c, now);
      var s3 := Handle(s2.table, Ask(PUBLISH_TOPIC, "news", Some("hi")), a, c, now);
      var s4 := Handle(s3.table, Ask(GET_TOPIC_STATUS, "news", None), a, c, now);
      var s5 := Handle(s4.table, Ask(UNSUBSCRIBE_TOPIC, "news", None), a, c, now);
      var s6 := Handle(s5.table, Ask(LIST_TOPICS, "", None), a, c, now);
      && s1.response == Full(Success, SUBSCRIBE_TOPIC, TopicData("news"), "")
      && s2.response == Full(Success, LIST_TOPICS, ListData(["news"]), "")
      && s3.response == Full(Success, PUBLISH_TOPIC, PublishData("news", "hi"), "")
      && s3.push == Some(Broadcast([c], Full(Success, UPDATE_TOPIC, UpdateData("news", "hi", now), "")))
      && s4.response == Full(Success, GET_TOPIC_STATUS, StatusData("news", SUBSCRIBED, now, Num(1)), "")
      && s5.response == Full(Success, UNSUBSCRIBE_TOPIC, TopicData("news"), "")
      && s6.response == Full(Success, LIST_TOPICS, ListData([]), "")
      && s6.table == EMPTY
  {
    var s1 := Handle(EMPTY, Ask(SUBSCRIBE_TOPIC, "news", None), a, c, now);
    assert s1.response == Full(Success, SUBSCRIBE_TOPIC, TopicData("news"), "");
    assert s1.table == Table(map["news" := Topic([Subscriber(a, c)], NEVER)], ["news"]);
    assert HasId([Subscriber(a, c)], a) by { assert [Subscriber(a, c)][0].uuid == a; }
    var s2 := Handle(s1.table, Ask(LIST_TOPICS, "", None), a, c, now);
    assert s2.response == Full(Success, LIST_TOPICS, ListData(["news"]), "");
    assert s2.table == s1.table;
    var s3 := Handle(s2.table, Ask(PUBLISH_TOPIC, "news", Some("hi")), a, c, now);
    assert s3.table == Table(map["news" := Topic([Subscriber(a, c)], now)], ["news"]);
    assert Recipients([Subscriber(a, c)]) == [c];
    assert s3.push == Some(Broadcast([c], Full(Success, UPDATE_TOPIC, UpdateData("news", "hi", now), "")));
    var s4 := Handle(s3.table, Ask(GET_TOPIC_STATUS, "news", None), a, c, now);
    assert s4.table == s3.table;
    var s5 := Handle(s4.table, Ask(UNSUBSCRIBE_TOPIC, "news", None), a, c, now);
    assert s5.table.topics == map[];
    assert s5.table.order == [];
  }

  /** With B and C subscribed to one topic and D to another, B's publish is
      pushed to B's and C's connections, once each, and not to D's. */
  lemma PublishFansOutToTopicOnly(topic: string, other: string, b: Id, cb: Conn, c: Id, cc: Conn,
                                  d: Id, cd: Conn, now: string)
    requires topic != other && b != c
    ensures var t1 := Subscribe(EMPTY, topic, b, cb).0;
      var t2 := Subscribe(t1, topic, c, cc).0;
      var t3 := Subscribe(t2, other, d, cd).0;
      var s := Publish(t3, topic, "x", b, now);
      && s.response.status == Success
      && s.push == Some(Broadcast([cb, cc], UpdatePayload(topic, "x", now)))
      && (cd != cb && cd != cc ==> cd !in s.push.value.recipients)
  {
    var t1 := Subscribe(EMPTY, topic, b, cb).0;
    assert !HasId([Subscriber(b, cb)], c);
    var t2 := Subscribe(t1, topic, c, cc).0;
    assert t1.topics[topic].subscribers == [Subscriber(b, cb)];
    assert t2.topics[topic].subscribers == [Subscriber(b, cb), Subscriber(c, cc)];
    var t3 := Subscribe(t2, other, d, cd).0;
    assert t3.topics[topic] == t2.topics[topic];
    assert HasId(t3.topics[topic].subscribers, b) by { assert t3.topics[topic].subscribers[0].uuid == b; }
    assert Recipients([Subscriber(b, cb), Subscriber(c, cc)]) == [cb, cc];
  }
}
