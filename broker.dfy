/** The broker's shared `topics` dictionary as an object, with the handlers
    of main.py as methods that update it in place. */
module Broker {
  import opened Protocol
  import opened Topics
  import opened Dispatcher

  /** The `for sub in subscribers: if sub['uuid'] == id: in_list = True; break`
      scan each handler runs; `at` is where it stopped. */
  method Scan(subs: seq<Subscriber>, id: Id) returns (inList: bool, at: nat)
    ensures inList <==> HasId(subs, id)
    ensures inList ==> at < |subs| && subs[at].uuid == id
    ensures inList ==> forall j :: 0 <= j < at ==> subs[j].uuid != id
  {
    inList, at := false, 0;
    var i := 0;
    while i < |subs|
      invariant 0 <= i <= |subs|
      invariant forall j :: 0 <= j < i ==> subs[j].uuid != id
    {
      if subs[i].uuid == id {
        inList, at := true, i;
        break;
      }
      i := i + 1;
    }
  }

  class Registry {
    /** Topic name to its subscribers and last update. */
    var topics: map<string, Topic>
    /** The keys of `topics` in insertion order, as a Python dict iterates them. */
    var order: seq<string>

    ghost function Current(): Table
      reads this
    {
      Table(topics, order)
    }

    ghost predicate Valid()
      reads this
    {
      Topics.Valid(Current())
    }

    /** The registry at start-up: `topics = {}`. */
    constructor ()
      ensures Valid() && Current() == EMPTY
    {
      topics, order := map[], [];
    }

    method HandleSubscribe(name: string, id: Id, conn: Conn) returns (r: Response)
      requires Valid()
      modifies this
      ensures Valid()
      ensures (Current(), r) == Subscribe(old(Current()), name, id, conn)
    {
      SubscribeKeepsValid(Current(), name, id, conn);
      r := Full(Failure, SUBSCRIBE_TOPIC, TopicData(name), "");
      if name in topics {
        var subs := topics[name].subscribers;
        var inList, _ := Scan(subs, id);
        if !inList {
          topics := topics[name := topics[name].(subscribers := subs + [Subscriber(id, conn)])];
          assert !HasId(subs, id);
          r := r.(status := Success);
        } else {
          r := r.(error := ALREADY_SUBSCRIBED);
        }
      } else {
        // the lookup raised KeyError: create the topic, then join it
        topics := topics[name := Topic([], NEVER)];
        order := order + [name];
        topics := topics[name := topics[name].(subscribers := topics[name].subscribers + [Subscriber(id, conn)])];
        assert topics[name].subscribers == [Subscriber(id, conn)];
        assert topics == old(topics)[name := Topic([Subscriber(id, conn)], NEVER)];
        r := r.(status := Success);
      }
    }

    method HandleUnsubscribe(name: string, id: Id, conn: Conn) returns (r: Response)
      requires Valid()
      modifies this
      ensures Valid()
      ensures (Current(), r) == Unsubscribe(old(Current()), name, id)
    {
      UnsubscribeKeepsValid(Current(), name, id);
      r := Full(Failure, UNSUBSCRIBE_TOPIC, TopicData(name), "");
      if name in topics {
        var subs := topics[name].subscribers;
        var inList, at := Scan(subs, id);
        if inList {
          assert at == IndexOf(subs, id);
          assert subs[..at] + subs[at + 1..] == Without(subs, id);
          topics := topics[name := topics[name].(subscribers := subs[..at] + subs[at + 1..])];
          if |topics[name].subscribers| == 0 {
            topics := topics - {name};
            assert topics == old(topics) - {name};
            order := Erase(order, name);
          }
          r := r.(status := Success);
        } else {
          r := r.(error := NOT_SUBSCRIBED);
        }
      } else {
        r := r.(error := TOPIC_MISSING);
      }
    }

    /** A successful publish stamps the topic with `now` and returns, as
        `push`, the update the sender thread is started with. */
    method HandlePublish(name: string, message: string, id: Id, conn: Conn, now: string)
      returns (r: Response, push: Option<Broadcast>)
      requires Valid()
      modifies this
      ensures Valid()
      ensures Step(Current(), r, push) == Publish(old(Current()), name, message, id, now)
    {
      PublishKeepsValid(Current(), name, message, id, now);
      r := Full(Failure, PUBLISH_TOPIC, PublishData(name, message), "");
      push := None;
      if name in topics {
        var subs := topics[name].subscribers;
        var inList, _ := Scan(subs, id);
        if !inList {
          r := r.(error := NOT_SUBSCRIBED);
        } else {
          r := r.(status := Success);
          topics := topics[name := topics[name].(lastUpdate := now)];
          push := Some(Broadcast(Recipients(topics[name].subscribers), UpdatePayload(name, message, now)));
        }
      } else {
        r := r.(error := TOPIC_MISSING);
      }
    }

    method HandleTopicStatus(name: string, id: Id, conn: Conn) returns (r: Response)
      ensures r == TopicStatus(Current(), name, id)
    {
      r := Full(Failure, GET_TOPIC_STATUS, StatusData(name, "", "", Blank), "");
      if name in topics {
        var subs := topics[name].subscribers;
        var inList, _ := Scan(subs, id);
        var mark := if inList then SUBSCRIBED else NOT_SUBSCRIBED_STATUS;
        r := r.(status := Success, data := StatusData(name, mark, topics[name].lastUpdate, Num(|subs|)));
      } else {
        r := r.(error := TOPIC_MISSING);
      }
    }

    /** The names of all current topics, each once, in insertion order. */
    method HandleTopicList() returns (r: Response)
      requires Valid()
      ensures r.Full? && r.status == Success && r.func == LIST_TOPICS && r.error == ""
      ensures r.data.ListData? && r.data.topicList == order
      ensures forall k :: k in r.data.topicList <==> k in topics
      ensures NoDup(r.data.topicList) && |r.data.topicList| == |topics|
    {
      r := Full(Success, LIST_TOPICS, ListData(order), "");
      ListNamesTopics(Current());
    }

    /** `handle_input`: route the decoded request and run its handler. */
    method HandleInput(req: Request, id: Id, conn: Conn, now: string) returns (r: Response, push: Option<Broadcast>)
      requires Valid()
      modifies this
      ensures Valid()
      ensures Step(Current(), r, push) == Handle(old(Current()), req, id, conn, now)
    {
      push := None;
      match Route(req)
      case None =>
        r := UNINTERPRETABLE;
      case Some(call) =>
        match call
        case SubscribeCall(name) =>
          r := HandleSubscribe(name, id, conn);
        case UnsubscribeCall(name) =>
          r := HandleUnsubscribe(name, id, conn);
        case PublishCall(name, message) =>
          r, push := HandlePublish(name, message, id, conn, now);
        case StatusCall(name) =>
          r := HandleTopicStatus(name, id, conn);
        case ListCall =>
          r := HandleTopicList();
    }
  }
}
