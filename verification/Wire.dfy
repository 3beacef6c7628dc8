/**
 * Messages as JSON: the envelope and parameter validators, the getters, the message builders, and what a
 * session answers to what it reads.
 */
module Wire {
  import opened Sequences
  import opened Json
  import opened Messages
  import opened Nodes

  // Transport

  const INT64: nat := 0x8000_0000_0000_0000

  /** Serialised and parsed again: a number that fits a signed word comes back as one. */
  function Transported(v: Value): Value
    decreases v
  {
    match v
    case Uint(u) => if u < INT64 then Int(u) else v
    case Array(items) => Array(seq(|items|, i requires 0 <= i < |items| => Transported(items[i])))
    case Object(fields) => Object(map k | k in fields :: Transported(fields[k]))
    case _ => v
  }

  /** Transport is repeatable: what has been parsed once arrives unchanged ever after. */
  lemma {:induction false} TransportIdempotent(v: Value)
    ensures Transported(Transported(v)) == Transported(v)
    decreases v
  {
    match v
    case Array(items) =>
      forall i | 0 <= i < |items| ensures Transported(Transported(items[i])) == Transported(items[i]) {
        TransportIdempotent(items[i]);
      }
    case Object(fields) =>
      forall k | k in fields ensures Transported(Transported(fields[k])) == Transported(fields[k]) {
        TransportIdempotent(fields[k]);
      }
    case _ =>
  }

  // Validation

  /** A validator's verdict, or a getter's exception. */
  datatype Try<+T> = Fine(value: T) | Invalid(field: string, reason: string) | Throws {
    predicate IsFailure() { !Fine? }
    function PropagateFailure<U>(): Try<U>
      requires IsFailure()
    {
      match this
      case Invalid(field, reason) => Invalid(field, reason)
      case Throws => Throws
    }
    function Extract(): T
      requires !IsFailure()
    {
      value
    }
  }

  type Fields = map<string, Value>

  predicate IsString(v: Value) { v.Text? }
  predicate IsUuid(v: Value) { v.Text? && v.s.UuidText? }
  predicate IsNumber(v: Value) { v.Int? || v.Uint? }

  /** The envelope validator. */
  function Envelope(data: Fields): Try<Str> {
    if "action" !in data then Invalid("action", "action attribute must be present")
    else if !IsString(data["action"]) then Invalid("action", "action attribute must be string")
    else if "transaction_id" !in data then Invalid("transaction_id", "transaction_id attribute must be present")
    else if !IsString(data["transaction_id"]) then Invalid("transaction_id", "transaction_id attribute must be string")
    else if !IsUuid(data["transaction_id"]) then Invalid("transaction_id", "transaction_id attribute must be uuid")
    else Fine(data["action"].s)
  }

  /** The lexical cast of the getter accepts dashed text only, in either case. */
  function CastId(v: Value): Try<Id> {
    if IsUuid(v) && Castable(v.s.form) then Fine(v.s.id) else Throws
  }

  /** get_params: the program throws where there is no params object. */
  function Params(data: Fields): Try<Fields> {
    if "params" in data && data["params"].Object? then Fine(data["params"].fields) else Throws
  }

  function Present(params: Fields, name: string): Try<Value> {
    if name in params then Fine(params[name]) else Invalid("params", "params " + name + " attribute must be present")
  }

  function CheckId(params: Fields, name: string): Try<Value> {
    var v :- Present(params, name);
    if !IsString(v) then Invalid("params", "params " + name + " attribute must be string")
    else if !IsUuid(v) then Invalid("params", "params " + name + " attribute must be uuid")
    else Fine(v)
  }

  function CheckString(params: Fields, name: string): Try<Str> {
    var v :- Present(params, name);
    if v.Text? then Fine(v.s) else Invalid("params", "params " + name + " attribute must be string")
  }

  function CheckNumber(params: Fields, name: string): Try<Value> {
    var v :- Present(params, name);
    if IsNumber(v) then Fine(v) else Invalid("params", "params " + name + " attribute must be number")
  }

  function CheckBool(params: Fields, name: string): Try<bool> {
    var v :- Present(params, name);
    if v.Bool? then Fine(v.b) else Invalid("params", "params " + name + " attribute must be boolean")
  }

  function CheckObject(params: Fields, name: string): Try<Value> {
    var v :- Present(params, name);
    if v.Object? then Fine(v) else Invalid("params", "params " + name + " attribute must be object")
  }

  /** A signed number read into an unsigned word; the getter throws on the unsigned kind. */
  function GetNumber(v: Value): Try<nat> {
    if v.Int? then Fine(v.i % WORDS) else Throws
  }

  datatype Action =
    | PingAction | AckAction | RegisterAction | SessionAction | JoinAction | LeaveAction
    | SubscribeAction | UnsubscribeAction | IsSubscribedAction | BroadcastAction | PublishAction | SendAction
    | OtherAction

  function Recognised(name: Str): Action {
    if name.UuidText? then OtherAction
    else if name.text == "ping" then PingAction
    else if name.text == "send" then SendAction
    else if name.text == "register" then RegisterAction
    else if name.text == "session" then SessionAction
    else if name.text == "ack" then AckAction
    else if name.text == "subscribe" then SubscribeAction
    else if name.text == "is_subscribed" then IsSubscribedAction
    else if name.text == "unsubscribe" then UnsubscribeAction
    else if name.text == "broadcast" then BroadcastAction
    else if name.text == "publish" then PublishAction
    else if name.text == "join" then JoinAction
    else if name.text == "leave" then LeaveAction
    else OtherAction
  }

  /** Validation and parameter extraction of one request; None where the action has no effect here. */
  function Parse(data: Fields, action: Action, context: Context, entity: Id, tid: Id): Try<Option<Message>> {
    match action
    case PingAction => Fine(Some(Ping))
    case AckAction => Fine(Some(Ack))
    case RegisterAction => if context == OnClient then Fine(None) else ParseRegister(data)
    case SessionAction => if context == OnClient then Fine(None) else ParseSession(data)
    case JoinAction => if context == OnClient then Fine(None) else ParseMembership(data, true)
    case LeaveAction => if context == OnClient then Fine(None) else ParseMembership(data, false)
    case SubscribeAction => ParseSubscription(data, true, context, entity)
    case UnsubscribeAction => ParseSubscription(data, false, context, entity)
    case IsSubscribedAction =>
      var params :- Params(data);
      var channel :- CheckString(params, "channel");
      Fine(Some(IsSubscribed(channel)))
    case BroadcastAction =>
      var params :- Params(data);
      var payload :- CheckObject(params, "payload");
      var c :- Sender(params, "client_id", context, entity);
      Fine(Some(Broadcast(tid, c, payload)))
    case PublishAction =>
      var params :- Params(data);
      var channel :- CheckString(params, "channel");
      var payload :- CheckObject(params, "payload");
      var c :- Sender(params, "client_id", context, entity);
      Fine(Some(Publish(tid, c, channel, payload)))
    case SendAction => ParseSend(data, context, entity)
    case OtherAction => Fine(Some(Unimplemented))
  }

  function ParseMembership(data: Fields, joins: bool): Try<Option<Message>> {
    var params :- Params(data);
    var v :- CheckId(params, "client_id");
    var c :- CastId(v);
    Fine(Some(if joins then Join(c) else Leave(c)))
  }

  /** On a session the sender is named; on a client it is the client. */
  function Sender(params: Fields, name: string, context: Context, entity: Id): Try<Id> {
    if context == OnClient then Fine(entity)
    else
      var v :- CheckId(params, name);
      CastId(v)
  }

  function ParseRegister(data: Fields): Try<Option<Message>> {
    var params :- Params(data);
    var sessionsPort :- CheckNumber(params, "sessions_port");
    var clientsPort :- CheckNumber(params, "clients_port");
    var registered :- CheckBool(params, "registered");
    var s :- GetNumber(sessionsPort);
    var c :- GetNumber(clientsPort);
    Fine(Some(Register(registered, c, s)))
  }

  function ParseSession(data: Fields): Try<Option<Message>> {
    var params :- Params(data);
    var host :- CheckString(params, "host");
    var sessionsPort :- CheckNumber(params, "sessions_port");
    var clientsPort :- CheckNumber(params, "clients_port");
    var s :- GetNumber(sessionsPort);
    var c :- GetNumber(clientsPort);
    Fine(Some(Session(host, s, c)))
  }

  function ParseSubscription(data: Fields, subscribes: bool, context: Context, entity: Id): Try<Option<Message>> {
    var params :- Params(data);
    var channel :- CheckString(params, "channel");
    var c :- Sender(params, "client_id", context, entity);
    Fine(Some(if subscribes then Subscribe(c, channel) else Unsubscribe(c, channel)))
  }

  function ParseSend(data: Fields, context: Context, entity: Id): Try<Option<Message>> {
    var params :- Params(data);
    var payload :- CheckObject(params, "payload");
    var from :- if context == OnSession then CheckId(params, "from_client_id") else Fine(Null);
    var to :- CheckId(params, "to_client_id");
    var t :- CastId(to);
    var f :- if context == OnSession then CastId(from) else Fine(entity);
    Fine(Some(Send(f, t, payload)))
  }

  // Building messages

  function ActionName(m: Message): string {
    match m
    case Ping => "ping"
    case Ack => "ack"
    case Register(_, _, _) => "register"
    case Session(_, _, _) => "session"
    case Join(_) => "join"
    case Leave(_) => "leave"
    case Subscribe(_, _) => "subscribe"
    case Unsubscribe(_, _) => "unsubscribe"
    case IsSubscribed(_) => "is_subscribed"
    case Broadcast(_, _, _) => "broadcast"
    case Publish(_, _, _, _) => "publish"
    case Send(_, _, _) => "send"
    case Unimplemented => ""
  }

  function BuildParams(m: Message): Fields {
    match m
    case Register(registered, clientsPort, sessionsPort) =>
      map["registered" := Bool(registered), "clients_port" := Uint(clientsPort), "sessions_port" := Uint(sessionsPort)]
    case Session(host, sessionsPort, clientsPort) =>
      map["host" := Text(host), "sessions_port" := Uint(sessionsPort), "clients_port" := Uint(clientsPort)]
    case Join(c) => map["client_id" := IdText(c)]
    case Leave(c) => map["client_id" := IdText(c)]
    case Subscribe(c, ch) => map["client_id" := IdText(c), "channel" := Text(ch)]
    case Unsubscribe(c, ch) => map["client_id" := IdText(c), "channel" := Text(ch)]
    case Broadcast(_, c, payload) => map["client_id" := IdText(c), "payload" := payload]
    case Publish(_, c, ch, payload) => map["client_id" := IdText(c), "channel" := Text(ch), "payload" := payload]
    case Send(from, to, payload) =>
      map["from_client_id" := IdText(from), "to_client_id" := IdText(to), "payload" := payload]
    case _ => map[]
  }

  /** The object a node sends; relayed messages keep the transaction id of the request. */
  function Build(m: Message, tid: Id): Fields {
    map["transaction_id" := IdText(tid), "action" := Text(Plain(ActionName(m))), "params" := Object(BuildParams(m))]
  }

  /** What one node can say to another, with ports a socket can have and a payload that came from a parser. */
  predicate Sayable(m: Message, tid: Id) {
    match m
    case Register(_, clientsPort, sessionsPort) => clientsPort < PORTS && sessionsPort < PORTS
    case Session(_, sessionsPort, clientsPort) => clientsPort < PORTS && sessionsPort < PORTS
    case Join(_) => true
    case Leave(_) => true
    case Subscribe(_, _) => true
    case Unsubscribe(_, _) => true
    case Broadcast(t, _, payload) => t == tid && payload.Object? && Transported(payload) == payload
    case Publish(t, _, _, payload) => t == tid && payload.Object? && Transported(payload) == payload
    case Send(_, _, payload) => payload.Object? && Transported(payload) == payload
    case _ => false
  }

  // Responses

  datatype Response =
    | NoResponse                 // an ack: is_ack is set and a session sends nothing
    | Response(data: Fields)
    | Exception                  // a getter threw

  function FailedData(tid: Id, field: string, reason: string): Fields {
    map["transaction_id" := if tid == NIL then Null else IdText(tid), "action" := Text(Plain("ack")),
        "status" := Text(Plain("failed")), "message" := Text(Plain("unprocessable entity")),
        "data" := Object(map[field := Text(Plain(reason))])]
  }

  function StatusText(s: Status): string {
    match s
    case Ok => "ok"
    case NoEffect => "no effect"
    case Pong => "pong"
    case Yes => "yes"
    case No => "no"
  }

  function SuccessData(tid: Id, status: Status, count: Option<nat>): Fields {
    map["transaction_id" := IdText(tid), "action" := Text(Plain("ack")), "status" := Text(Plain("success")),
        "message" := Text(Plain(StatusText(status))),
        "data" := Object(match count case None => map[] case Some(k) => map["count" := Uint(k)])]
  }

  function Respond(tid: Id, reply: Reply): Response {
    match reply
    case Silent => NoResponse
    case Success(status, count) => Response(SuccessData(tid, status, count))
    case Failed => Response(FailedData(tid, "action", "action attribute isn't implemented"))
  }

  /** The kernel on an object read in some context. */
  function Kernel(n: Node, data: Fields, context: Context, entity: Id, newId: Id): (Node, Response) {
    match Envelope(data)
    case Invalid(field, reason) =>
      var named := "transaction_id" in data && IsUuid(data["transaction_id"]);
      if !named then (n, Response(FailedData(NIL, field, reason)))
      else
        (match CastId(data["transaction_id"])
         case Fine(tid) => (n, Response(FailedData(tid, field, reason)))
         case _ => (n, Exception))
    case Throws => (n, Exception)
    case Fine(action) =>
      match CastId(data["transaction_id"])
      case Fine(tid) =>
        (match Parse(data, Recognised(action), context, entity, tid)
         case Fine(Some(m)) =>
           var o := Handle(n, context, entity, m, newId);
           (o.node, Respond(tid, o.effects.reply))
         case Fine(None) => (n, Respond(tid, Success(NoEffect, None)))
         case Invalid(field, reason) => (n, Response(FailedData(tid, field, reason)))
         case Throws => (n, Exception))
      case _ => (n, Exception)
  }

  /** What is sent for a text that is no object. */
  const UNREADABLE: Fields := map["transaction_id" := Null, "status" := Text(Plain("failed")),
    "message" := Text(Plain("unprocessable entity")),
      "data" := Object(map["body" := Text(Plain("body must be json object"))])]

  /** session::on_read. */
  function Read(n: Node, s: Id, v: Value, newId: Id): (Node, Response) {
    if v.Object? then Kernel(n, v.fields, OnSession, s, newId) else (n, Response(UNREADABLE))
  }

  // Closure

  /** Transport works field by field. */
  lemma TransportedFields(f: Fields)
    ensures Transported(Object(f)).Object?
    ensures var d := Transported(Object(f)).fields; d.Keys == f.Keys && forall k :: k in f ==> d[k] == Transported(f[k])
  {
  }

  function ActionOf(m: Message): Action {
    match m
    case Ping => PingAction
    case Ack => AckAction
    case Register(_, _, _) => RegisterAction
    case Session(_, _, _) => SessionAction
    case Join(_) => JoinAction
    case Leave(_) => LeaveAction
    case Subscribe(_, _) => SubscribeAction
    case Unsubscribe(_, _) => UnsubscribeAction
    case IsSubscribed(_) => IsSubscribedAction
    case Broadcast(_, _, _) => BroadcastAction
    case Publish(_, _, _, _) => PublishAction
    case Send(_, _, _) => SendAction
    case Unimplemented => OtherAction
  }

  /** The names are told apart. */
  lemma NamesRecognised(m: Message)
    ensures Recognised(Plain(ActionName(m))) == ActionOf(m)
  {
  }

  /** The envelope of a built message arrives, its parameters transported. */
  lemma EnvelopeArrives(m: Message, tid: Id)
    ensures Transported(Object(Build(m, tid))).Object?
    ensures var d := Transported(Object(Build(m, tid))).fields;
      && Envelope(d) == Fine(Plain(ActionName(m)))
      && "transaction_id" in d && CastId(d["transaction_id"]) == Fine(tid)
      && Params(d) == Fine(Transported(Object(BuildParams(m))).fields)
  {
    var b := Build(m, tid);
    TransportedFields(b);
    var d := Transported(Object(b)).fields;
    assert d["transaction_id"] == Transported(IdText(tid)) == IdText(tid);
    assert d["action"] == Transported(b["action"]) == b["action"];
    assert d["params"] == Transported(Object(BuildParams(m)));
  }

  lemma IdArrives(c: Id)
    ensures Transported(IdText(c)) == IdText(c) && CastId(IdText(c)) == Fine(c)
  {
  }

  lemma PortArrives(p: nat)
    requires p < PORTS
    ensures Transported(Uint(p)) == Int(p) && GetNumber(Int(p)) == Fine(p)
  {
  }

  lemma RegisterArrives(m: Message, tid: Id)
    requires m.Register? && Sayable(m, tid)
    ensures ParseRegister(Transported(Object(Build(m, tid))).fields) == Fine(Some(m))
  {
    EnvelopeArrives(m, tid);
    var f := BuildParams(m);
    TransportedFields(f);
    PortArrives(m.clientsPort);
    PortArrives(m.sessionsPort);
    var p := Transported(Object(f)).fields;
    assert p["registered"] == Transported(f["registered"]) == Bool(m.registered);
    assert p["clients_port"] == Transported(f["clients_port"]) == Int(m.clientsPort);
    assert p["sessions_port"] == Transported(f["sessions_port"]) == Int(m.sessionsPort);
  }

  lemma SessionArrives(m: Message, tid: Id)
    requires m.Session? && Sayable(m, tid)
    ensures ParseSession(Transported(Object(Build(m, tid))).fields) == Fine(Some(m))
  {
    EnvelopeArrives(m, tid);
    var f := BuildParams(m);
    TransportedFields(f);
    PortArrives(m.clientsPort);
    PortArrives(m.sessionsPort);
    var p := Transported(Object(f)).fields;
    assert p["host"] == Transported(f["host"]) == Text(m.host);
    assert p["clients_port"] == Transported(f["clients_port"]) == Int(m.clientsPort);
    assert p["sessions_port"] == Transported(f["sessions_port"]) == Int(m.sessionsPort);
  }

  lemma MembershipArrives(m: Message, tid: Id)
    requires m.Join? || m.Leave?
    ensures ParseMembership(Transported(Object(Build(m, tid))).fields, m.Join?) == Fine(Some(m))
  {
    EnvelopeArrives(m, tid);
    var f := BuildParams(m);
    TransportedFields(f);
    IdArrives(m.client);
    assert Transported(Object(f)).fields["client_id"] == Transported(f["client_id"]);
  }

  lemma SubscriptionArrives(m: Message, tid: Id, entity: Id)
    requires m.Subscribe? || m.Unsubscribe?
    ensures ParseSubscription(Transported(Object(Build(m, tid))).fields, m.Subscribe?, OnSession, entity)
      == Fine(Some(m))
  {
    EnvelopeArrives(m, tid);
    var f := BuildParams(m);
    TransportedFields(f);
    IdArrives(m.client);
    var p := Transported(Object(f)).fields;
    assert p["client_id"] == Transported(f["client_id"]);
    assert p["channel"] == Transported(f["channel"]) == Text(m.channel);
  }

  lemma BroadcastArrives(m: Message, tid: Id, entity: Id)
    requires m.Broadcast? && Sayable(m, tid)
    ensures Parse(Transported(Object(Build(m, tid))).fields, BroadcastAction, OnSession, entity, tid) == Fine(Some(m))
  {
    EnvelopeArrives(m, tid);
    var f := BuildParams(m);
    TransportedFields(f);
    IdArrives(m.client);
    var p := Transported(Object(f)).fields;
    assert p["client_id"] == Transported(f["client_id"]);
    assert p["payload"] == Transported(f["payload"]) == m.payload;
  }

  lemma PublishArrives(m: Message, tid: Id, entity: Id)
    requires m.Publish? && Sayable(m, tid)
    ensures Parse(Transported(Object(Build(m, tid))).fields, PublishAction, OnSession, entity, tid) == Fine(Some(m))
  {
    EnvelopeArrives(m, tid);
    var f := BuildParams(m);
    TransportedFields(f);
    IdArrives(m.client);
    var p := Transported(Object(f)).fields;
    assert p["client_id"] == Transported(f["client_id"]);
    assert p["channel"] == Transported(f["channel"]) == Text(m.channel);
    assert p["payload"] == Transported(f["payload"]) == m.payload;
  }

  lemma SendArrives(m: Message, tid: Id, entity: Id)
    requires m.Send? && Sayable(m, tid)
    ensures ParseSend(Transported(Object(Build(m, tid))).fields, OnSession, entity) == Fine(Some(m))
  {
    EnvelopeArrives(m, tid);
    var f := BuildParams(m);
    TransportedFields(f);
    IdArrives(m.from);
    IdArrives(m.to);
    var p := Transported(Object(f)).fields;
    assert p["from_client_id"] == Transported(f["from_client_id"]);
    assert p["to_client_id"] == Transported(f["to_client_id"]);
    assert p["payload"] == Transported(f["payload"]) == m.payload;
  }

  /** Every message a node builds is understood by its peer as the message it was built from. */
  lemma ParseInvertsBuild(m: Message, tid: Id, entity: Id)
    requires Sayable(m, tid)
    ensures Parse(Transported(Object(Build(m, tid))).fields, ActionOf(m), OnSession, entity, tid) == Fine(Some(m))
  {
    match m
    case Register(_, _, _) => RegisterArrives(m, tid);
    case Session(_, _, _) => SessionArrives(m, tid);
    case Join(_) => MembershipArrives(m, tid);
    case Leave(_) => MembershipArrives(m, tid);
    case Subscribe(_, _) => SubscriptionArrives(m, tid, entity);
    case Unsubscribe(_, _) => SubscriptionArrives(m, tid, entity);
    case Broadcast(_, _, _) => BroadcastArrives(m, tid, entity);
    case Publish(_, _, _, _) => PublishArrives(m, tid, entity);
    case Send(_, _, _) => SendArrives(m, tid, entity);
  }

  // What is answered to an answer

  /** An ack with a transaction id. */
  predicate Named(r: Fields, tid: Id) {
    "action" in r && r["action"] == Text(Plain("ack")) && "transaction_id" in r && r["transaction_id"] == IdText(tid)
  }

  /** A success, or a failure that names its transaction, is an ack and draws no answer. */
  lemma AckIsQuiet(r: Fields, tid: Id, n: Node, s: Id, newId: Id)
    requires Named(r, tid)
    ensures Read(n, s, Transported(Object(r)), newId) == (n, NoResponse)
  {
    TransportedFields(r);
    IdArrives(tid);
    var d := Transported(Object(r)).fields;
    assert d["action"] == Transported(r["action"]) == Text(Plain("ack"));
    assert Recognised(Plain("ack")) == AckAction;
  }

  /**
   * Protocol closure: what a node builds is handled by its peer as the message it was built from, and is
   * answered by a success that draws no further answer.
   */
  lemma Closure(n: Node, s: Id, m: Message, tid: Id, newId: Id, far: Node, t: Id, otherId: Id)
    requires Sayable(m, tid)
    ensures var (after, r) := Read(n, s, Transported(Object(Build(m, tid))), newId);
      && after == OnPeer(n, s, m, newId).node
      && r.Response? && "status" in r.data && r.data["status"] == Text(Plain("success"))
      && "transaction_id" in r.data && r.data["transaction_id"] == IdText(tid)
      && Read(far, t, Transported(Object(r.data)), otherId) == (far, NoResponse)
  {
    EnvelopeArrives(m, tid);
    NamesRecognised(m);
    ParseInvertsBuild(m, tid, s);
    var reply := OnPeer(n, s, m, newId).effects.reply;
    assert reply.Success?;
    AckIsQuiet(SuccessData(tid, reply.status, reply.count), tid, far, t, otherId);
  }

  // Endless exchanges

  /** An answer without a transaction id. */
  predicate Nameless(r: Fields) {
    "transaction_id" in r && r["transaction_id"] == Null
  }

  lemma NamelessIsAnswered(r: Fields, n: Node, s: Id, newId: Id)
    requires Nameless(r)
    ensures Read(n, s, Transported(Object(r)), newId).1.Response?
    ensures Nameless(Read(n, s, Transported(Object(r)), newId).1.data)
  {
    TransportedFields(r);
    var d := Transported(Object(r)).fields;
    assert d["transaction_id"] == Transported(Null) == Null;
  }

  /**
   * Which texts a session answers without a transaction id: those that are no object, those whose
   * envelope fails without naming a transaction, and invalid requests under the nil transaction.
   */
  predicate Provoking(v: Value, s: Id) {
    || !v.Object?
    || (match Envelope(v.fields)
        case Invalid(_, _) =>
          !("transaction_id" in v.fields && IsUuid(v.fields["transaction_id"]))
          || CastId(v.fields["transaction_id"]) == Fine(NIL)
        case Throws => false
        case Fine(action) =>
          CastId(v.fields["transaction_id"]) == Fine(NIL)
          && (Recognised(action) == OtherAction || Parse(v.fields, Recognised(action), OnSession, s, NIL).Invalid?))
  }

  /** The transaction an object names, nil if none. */
  function TransactionOf(v: Value): Id {
    if v.Object? && "transaction_id" in v.fields && IsUuid(v.fields["transaction_id"])
    then v.fields["transaction_id"].s.id else NIL
  }

  lemma RespondNamed(tid: Id, reply: Reply)
    requires reply != Silent
    ensures Respond(tid, reply).Response?
    ensures var r := Respond(tid, reply).data; if tid == NIL && reply.Failed? then Nameless(r) else Named(r, tid)
  {
  }

  lemma FailedNamed(tid: Id, field: string, reason: string)
    ensures if tid == NIL then Nameless(FailedData(tid, field, reason)) else Named(FailedData(tid, field, reason), tid)
  {
  }

  lemma RequestAnswered(n: Node, s: Id, data: Fields, action: Str, tid: Id, newId: Id)
    requires Envelope(data) == Fine(action) && CastId(data["transaction_id"]) == Fine(tid)
    requires Kernel(n, data, OnSession, s, newId).1.Response?
    ensures var r := Kernel(n, data, OnSession, s, newId).1.data;
      if tid == NIL
        && (Recognised(action) == OtherAction || Parse(data, Recognised(action), OnSession, s, NIL).Invalid?)
      then Nameless(r) else Named(r, tid)
  {
    match Parse(data, Recognised(action), OnSession, s, tid)
    case Fine(Some(m)) =>
      assert m.Unimplemented?
        <==> Recognised(action) == OtherAction by { ParsedKind(data, Recognised(action), s, tid); }
      RespondNamed(tid, OnPeer(n, s, m, newId).effects.reply);
    case Fine(None) => RespondNamed(tid, Success(NoEffect, None));
    case Invalid(field, reason) => FailedNamed(tid, field, reason);
    case Throws =>
  }

  lemma ParsedKind(data: Fields, action: Action, s: Id, tid: Id)
    requires Parse(data, action, OnSession, s, tid).Fine?
    ensures Parse(data, action, OnSession, s, tid).value.Some?
      && ActionOf(Parse(data, action, OnSession, s, tid).value.value) == action
  {
  }

  /** A session's answer names the transaction unless the text was provoking. */
  lemma AnswersNamed(n: Node, s: Id, v: Value, newId: Id)
    requires Read(n, s, v, newId).1.Response?
    ensures var r := Read(n, s, v, newId).1.data;
      if Provoking(v, s) then Nameless(r) else Named(r, TransactionOf(v))
  {
    if v.Object? {
      match Envelope(v.fields)
      case Invalid(field, reason) =>
        FailedNamed(NIL, field, reason);
        FailedNamed(TransactionOf(v), field, reason);
      case Throws =>
      case Fine(action) => RequestAnswered(n, s, v.fields, action, TransactionOf(v), newId);
    }
  }

  /** Some node reads r and answers with next. */
  ghost predicate Follows(r: Fields, next: Fields) {
    exists n, s, newId :: Read(n, s, Transported(Object(r)), newId).1 == Response(next)
  }

  /** Each answer in turn is read and answered, by whatever node at whatever time. */
  ghost predicate Exchange(answers: nat -> Fields) {
    forall k: nat :: Follows(answers(k), answers(k + 1))
  }

  /** A node as it is when it reads, the session it reads on, and the id it would draw. */
  datatype Reader = Reader(node: Node, session: Id, newId: Id)

  /** What this reader answers to r. */
  function AnswerOf(reader: Reader, r: Fields): Response {
    Read(reader.node, reader.session, Transported(Object(r)), reader.newId).1
  }

  /** The k-th answer is read by the k-th reader. */
  ghost predicate Between(readers: nat -> Reader, answers: nat -> Fields) {
    forall k: nat :: AnswerOf(readers(k), answers(k)) == Response(answers(k + 1))
  }

  /**
   * An answered text sets off an endless exchange of answers exactly if it is provoking.
   */
  lemma EndlessIffProvoking(n: Node, s: Id, v: Value, newId: Id)
    requires Read(n, s, v, newId).1.Response?
    ensures (exists answers: nat -> Fields :: answers(0) == Read(n, s, v, newId).1.data && Exchange(answers))
      <==> Provoking(v, s)
  {
    var first := Read(n, s, v, newId).1.data;
    AnswersNamed(n, s, v, newId);
    if Provoking(v, s) {
      NamelessExchange(first, Reader(n, s, newId));
    } else {
      forall answers: nat -> Fields | answers(0) == first ensures !Exchange(answers) {
        if Exchange(answers) {
          assert Follows(answers(0), answers(0 + 1));
          var m, t, i :| Read(m, t, Transported(Object(answers(0))), i).1 == Response(answers(0 + 1));
          AckIsQuiet(first, TransactionOf(v), m, t, i);
        }
      }
    }
  }

  /** And then it goes on whoever reads, in whatever state. */
  lemma WhoeverReads(n: Node, s: Id, v: Value, newId: Id, readers: nat -> Reader)
    requires Read(n, s, v, newId).1.Response? && Provoking(v, s)
    ensures exists answers: nat -> Fields :: answers(0) == Read(n, s, v, newId).1.data && Between(readers, answers)
  {
    AnswersNamed(n, s, v, newId);
    NamelessGoesOn(Read(n, s, v, newId).1.data, readers);
  }

  function Answers(readers: nat -> Reader, first: Fields, k: nat): (r: Fields)
    requires Nameless(first)
    ensures Nameless(r)
  {
    if k == 0 then first
    else
      var last := Answers(readers, first, k - 1);
      NamelessIsAnswered(last, readers(k - 1).node, readers(k - 1).session, readers(k - 1).newId);
      AnswerOf(readers(k - 1), last).data
  }

  lemma AnswersStep(readers: nat -> Reader, first: Fields, k: nat)
    requires Nameless(first)
    ensures AnswerOf(readers(k), Answers(readers, first, k)) == Response(Answers(readers, first, k + 1))
  {
    NamelessIsAnswered(Answers(readers, first, k), readers(k).node, readers(k).session, readers(k).newId);
  }

  lemma NamelessGoesOn(first: Fields, readers: nat -> Reader)
    requires Nameless(first)
    ensures exists answers: nat -> Fields :: answers(0) == first && Between(readers, answers)
  {
    var answers := (k: nat) => Answers(readers, first, k);
    assert answers(0) == first;
    forall k: nat ensures AnswerOf(readers(k), answers(k)) == Response(answers(k + 1)) {
      AnswersStep(readers, first, k);
    }
    assert Between(readers, answers);
  }

  lemma NamelessExchange(first: Fields, reader: Reader)
    requires Nameless(first)
    ensures exists answers: nat -> Fields :: answers(0) == first && Exchange(answers)
  {
    var readers := (k: nat) => reader;
    NamelessGoesOn(first, readers);
    var answers: nat -> Fields :| answers(0) == first && Between(readers, answers);
    forall k: nat ensures Follows(answers(k), answers(k + 1)) {
      assert AnswerOf(readers(k), answers(k)) == Response(answers(k + 1));
    }
    assert Exchange(answers);
  }

  /** What nodes build is never provoking, so no exchange between nodes is endless. */
  lemma BuiltIsNotProvoking(m: Message, tid: Id, s: Id)
    requires Sayable(m, tid)
    ensures !Provoking(Transported(Object(Build(m, tid))), s)
  {
    EnvelopeArrives(m, tid);
    NamesRecognised(m);
    ParseInvertsBuild(m, tid, s);
  }
}
