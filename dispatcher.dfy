/** `handle_input`: which handler a decoded request reaches, and what the
    dispatcher answers when it cannot use the request. */
module Dispatcher {
  import opened Protocol
  import opened Topics

  /** The five names of the `functions` table. */
  predicate Known(f: string)
  {
    f == SUBSCRIBE_TOPIC || f == UNSUBSCRIBE_TOPIC || f == PUBLISH_TOPIC
    || f == GET_TOPIC_STATUS || f == LIST_TOPICS
  }

  /** How `handle_input` as written ends for a request: a handler is called,
      the `except (json.JSONDecodeError, KeyError)` branch answers, or an
      exception it does not catch leaves it. */
  datatype Routing = Routed(call: Call) | Rejected | Raises

  /** The handler call of a `Fields` parameter object, `Rejected` when a
      parameter the handler reads before its `try` is missing. */
  function CallOf(f: string, name: Option<string>, message: Option<string>): Routing
    requires Known(f)
  {
    if f == LIST_TOPICS then Routed(ListCall)
    else if name.None? then Rejected
    else if f == SUBSCRIBE_TOPIC then Routed(SubscribeCall(name.value))
    else if f == UNSUBSCRIBE_TOPIC then Routed(UnsubscribeCall(name.value))
    else if f == GET_TOPIC_STATUS then Routed(StatusCall(name.value))
    else if message.None? then Rejected
    else Routed(PublishCall(name.value, message.value))
  }

  /** `handle_input` as written, in Python's order of evaluation: the table
      lookup `functions[parsed['function']]`, then `parsed['parameters']`, then
      the handler's reads of `parameters`. TypeError, which the `except`
      clause does not list, is raised by indexing a JSON value that is not an
      object with a string (at the top level, and for `parameters` in every
      handler that reads `parameters['name']`, i.e. all but
      `handle_topic_list`) and by looking up an unhashable function value. */
  function RouteAsWritten(req: Request): Routing
  {
    match req
    case Unparsable => Rejected
    case NonObject => Raises
    case Envelope(f, p) =>
      if f.None? then Rejected
      else if f.value.Unhashable? then Raises
      else if f.value.Scalar? || !Known(f.value.text) || p.None? then Rejected
      else match p.value
        case NonObjectParams => if f.value.text == LIST_TOPICS then Routed(ListCall) else Raises
        case Fields(name, message) => CallOf(f.value.text, name, message)
  }

  /** The dispatcher the broker uses. A request is served when it names one
      of the five functions and carries what that handler reads: nothing for
      LIST_TOPICS, an object with `name` for the others, and `message` as
      well for PUBLISH_TOPIC. Every other request, whatever the reason, is
      answered with the "could not interpret request" record. */
  function Route(req: Request): Option<Call>
  {
    match req
    case Envelope(Some(Text(f)), Some(p)) =>
      if f == LIST_TOPICS then Some(ListCall)
      else if !Known(f) || p.NonObjectParams? || p.name.None? then None
      else if f == SUBSCRIBE_TOPIC then Some(SubscribeCall(p.name.value))
      else if f == UNSUBSCRIBE_TOPIC then Some(UnsubscribeCall(p.name.value))
      else if f == GET_TOPIC_STATUS then Some(StatusCall(p.name.value))
      else if p.message.None? then None
      else Some(PublishCall(p.name.value, p.message.value))
    case _ => None
  }

  /** The handler a routed request reaches. */
  function Apply(t: Table, call: Call, id: Id, conn: Conn, now: string): Step
  {
    match call
    case SubscribeCall(name) =>
      var (t', r) := Subscribe(t, name, id, conn); Step(t', r, None)
    case UnsubscribeCall(name) =>
      var (t', r) := Unsubscribe(t, name, id); Step(t', r, None)
    case PublishCall(name, message) => Publish(t, name, message, id, now)
    case StatusCall(name) => Step(t, TopicStatus(t, name, id), None)
    case ListCall => Step(t, TopicList(t), None)
  }

  /** One request from connection `conn` with identity `id`, at time `now`. */
  function Handle(t: Table, req: Request, id: Id, conn: Conn, now: string): Step
  {
    match Route(req)
    case None => Step(t, UNINTERPRETABLE, None)
    case Some(call) => Apply(t, call, id, conn, now)
  }

  // ---------------------------------------------------------------------
  // Properties

  /** Each way a request can be unusable yields exactly the bare failure
      record, leaves the registry alone and sends nothing. */
  lemma HandleRejects(t: Table, req: Request, id: Id, conn: Conn, now: string)
    requires
      || req.Unparsable?
      || req.NonObject?
      || (req.Envelope? && req.func.None?)
      || (req.Envelope? && req.func.Some? && !(req.func.value.Text? && Known(req.func.value.text)))
      || (req.Envelope? && req.parameters.None?)
      || (req.Envelope? && req.func.Some? && req.func.value != Text(LIST_TOPICS)
          && req.parameters.Some? && (req.parameters.value.NonObjectParams? || req.parameters.value.name.None?))
      || (req.Envelope? && req.func == Some(Text(PUBLISH_TOPIC))
          && req.parameters.Some? && req.parameters.value.Fields? && req.parameters.value.message.None?)
    ensures Handle(t, req, id, conn, now) == Step(t, Bare(Failure, "could not interpret request"), None)
  {
  }

  /** A request naming one of the five functions with the parameters its
      handler reads reaches that handler, whose reply is returned unchanged. */
  lemma HandleReachesHandler(t: Table, name: string, message: Option<string>, params: Params, id: Id, conn: Conn, now: string)
    ensures var req := Envelope(Some(Text(SUBSCRIBE_TOPIC)), Some(Fields(Some(name), message)));
      var (t', r) := Subscribe(t, name, id, conn);
      Handle(t, req, id, conn, now) == Step(t', r, None)
    ensures var req := Envelope(Some(Text(UNSUBSCRIBE_TOPIC)), Some(Fields(Some(name), message)));
      var (t', r) := Unsubscribe(t, name, id);
      Handle(t, req, id, conn, now) == Step(t', r, None)
    ensures message.Some? ==>
      Handle(t, Envelope(Some(Text(PUBLISH_TOPIC)), Some(Fields(Some(name), message))), id, conn, now)
        == Publish(t, name, message.value, id, now)
    ensures Handle(t, Envelope(Some(Text(GET_TOPIC_STATUS)), Some(Fields(Some(name), message))), id, conn, now)
      == Step(t, TopicStatus(t, name, id), None)
    ensures Handle(t, Envelope(Some(Text(LIST_TOPICS)), Some(params)), id, conn, now) == Step(t, TopicList(t), None)
  {
  }

  /** Every full reply carries the function name of the request that caused
      it; only a publish can start a broadcast. */
  lemma HandleAnswersInKind(t: Table, req: Request, id: Id, conn: Conn, now: string)
    ensures var s := Handle(t, req, id, conn, now);
      && (s.response.Full? ==> req.Envelope? && req.func == Some(Text(s.response.func)))
      && (s.response.Bare? ==> s.response == UNINTERPRETABLE && s.table == t)
      && (s.push.Some? ==> req.Envelope? && req.func == Some(Text(PUBLISH_TOPIC)) && s.response.status == Success)
  {
  }

  /** The registry invariant survives every request. */
  lemma HandleKeepsValid(t: Table, req: Request, id: Id, conn: Conn, now: string)
    requires Valid(t)
    ensures Valid(Handle(t, req, id, conn, now).table)
  {
    match Route(req)
    case None =>
    case Some(call) =>
      match call
      case SubscribeCall(name) => SubscribeKeepsValid(t, name, id, conn);
      case UnsubscribeCall(name) => UnsubscribeKeepsValid(t, name, id);
      case PublishCall(name, message) => PublishKeepsValid(t, name, message, id, now);
      case StatusCall(_) =>
      case ListCall =>
  }

  // ---------------------------------------------------------------------
  // The uncaught TypeError

  /** As written, three kinds of request end with a TypeError instead of the
      failure record: a JSON text that is not an object, a non-object
      `parameters` for any handler that reads `name`, and a list or object as
      the function. LIST_TOPICS never reads its parameters, so a non-object
      there is served. The corrected routing answers all three with the
      failure record. */
  lemma TypeErrorAsWritten(t: Table, id: Id, conn: Conn, now: string)
    ensures RouteAsWritten(NonObject) == Raises
    ensures forall f :: Known(f) && f != LIST_TOPICS ==>
      RouteAsWritten(Envelope(Some(Text(f)), Some(NonObjectParams))) == Raises
    ensures forall p :: RouteAsWritten(Envelope(Some(Unhashable), p)) == Raises
    ensures RouteAsWritten(Envelope(Some(Text(LIST_TOPICS)), Some(NonObjectParams))) == Routed(ListCall)
    ensures Handle(t, NonObject, id, conn, now) == Step(t, UNINTERPRETABLE, None)
    ensures forall f :: Known(f) && f != LIST_TOPICS ==>
      Handle(t, Envelope(Some(Text(f)), Some(NonObjectParams)), id, conn, now) == Step(t, UNINTERPRETABLE, None)
    ensures forall p :: Handle(t, Envelope(Some(Unhashable), p), id, conn, now) == Step(t, UNINTERPRETABLE, None)
  {
  }

  /** The corrected routing differs from the code as written only where the
      latter raises: it calls the same handler, and rejects what it rejects. */
  lemma RouteAgreesWithAsWritten(req: Request)
    ensures forall c :: RouteAsWritten(req) == Routed(c) <==> Route(req) == Some(c)
    ensures RouteAsWritten(req) == Rejected ==> Route(req) == None
    ensures Route(req) == None <==> RouteAsWritten(req) in {Rejected, Raises}
  {
  }
}
