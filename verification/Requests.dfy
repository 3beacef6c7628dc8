/**
 * The texts of requests and answers, field by field: what an object read from a client or a peer asks for,
 * what is answered to it, and why it is refused.
 */
module Requests {
  import opened Sequences
  import opened Json
  import opened Messages
  import opened Nodes
  import opened Wire

  // What is asked

  /** The object carries this action and names this transaction with dashes. */
  predicate Labelled(data: Fields, action: string, tid: Id) {
    && "action" in data && data["action"] == Text(Plain(action))
    && Names(data, "transaction_id", tid)
  }

  /** The field holds this id, with dashes, in either case. */
  predicate Names(fields: Fields, field: string, id: Id) {
    field in fields && fields[field].Text? && fields[field].s.UuidText?
    && fields[field].s.id == id && fields[field].s.form % 2 == 0
  }

  predicate Carries(data: Fields, field: string, v: Value) {
    && "params" in data && data["params"].Object?
    && field in data["params"].fields && data["params"].fields[field] == v
  }

  predicate CarriesId(data: Fields, field: string, id: Id) {
    "params" in data && data["params"].Object? && Names(data["params"].fields, field, id)
  }

  /** A signed number, read into an unsigned 64-bit word. */
  predicate CarriesNumber(data: Fields, field: string, k: nat) {
    && "params" in data && data["params"].Object?
    && field in data["params"].fields && data["params"].fields[field].Int?
    && k == data["params"].fields[field].i % 0x1_0000_0000_0000_0000
  }

  const ACTIONS: seq<string> := ["ping", "send", "register", "session", "ack", "subscribe", "is_subscribed",
                                 "unsubscribe", "broadcast", "publish", "join", "leave"]

  /** An action that is none of the twelve. */
  predicate UnknownAction(data: Fields, tid: Id) {
    && "action" in data && data["action"].Text? && Names(data, "transaction_id", tid)
    && (forall action :: action in ACTIONS ==> data["action"] != Text(Plain(action)))
  }

  /** The object, read from client c, asks for m. What only peers may say is asked for without parameters. */
  predicate ClientAsks(data: Fields, c: Id, tid: Id, m: Message) {
    match m
    case Ping => Labelled(data, "ping", tid)
    case Ack => Labelled(data, "ack", tid)
    case Register(_, _, _) => Labelled(data, "register", tid)
    case Session(_, _, _) => Labelled(data, "session", tid)
    case Join(_) => Labelled(data, "join", tid)
    case Leave(_) => Labelled(data, "leave", tid)
    case Subscribe(x, ch) => x == c && Labelled(data, "subscribe", tid) && Carries(data, "channel", Text(ch))
    case Unsubscribe(x, ch) => x == c && Labelled(data, "unsubscribe", tid) && Carries(data, "channel", Text(ch))
    case IsSubscribed(ch) => Labelled(data, "is_subscribed", tid) && Carries(data, "channel", Text(ch))
    case Broadcast(t, x, payload) =>
      t == tid && x == c && Labelled(data, "broadcast", tid) && payload.Object? && Carries(data, "payload", payload)
    case Publish(t, x, ch, payload) =>
      t == tid && x == c && Labelled(data, "publish", tid) && Carries(data, "channel", Text(ch))
      && payload.Object? && Carries(data, "payload", payload)
    case Send(x, to, payload) =>
      x == c && Labelled(data, "send", tid) && CarriesId(data, "to_client_id", to)
      && payload.Object? && Carries(data, "payload", payload)
    case Unimplemented => UnknownAction(data, tid)
  }

  /** The object, read from a peer, asks for m: the parameters name the client. */
  predicate PeerAsks(data: Fields, tid: Id, m: Message) {
    match m
    case Ping => Labelled(data, "ping", tid)
    case Ack => Labelled(data, "ack", tid)
    case Register(registered, clientsPort, sessionsPort) =>
      Labelled(data, "register", tid) && Carries(data, "registered", Bool(registered))
      && CarriesNumber(data, "clients_port", clientsPort) && CarriesNumber(data, "sessions_port", sessionsPort)
    case Session(host, sessionsPort, clientsPort) =>
      Labelled(data, "session", tid) && Carries(data, "host", Text(host))
      && CarriesNumber(data, "sessions_port", sessionsPort) && CarriesNumber(data, "clients_port", clientsPort)
    case Join(c) => Labelled(data, "join", tid) && CarriesId(data, "client_id", c)
    case Leave(c) => Labelled(data, "leave", tid) && CarriesId(data, "client_id", c)
    case Subscribe(c, ch) =>
      Labelled(data, "subscribe", tid) && CarriesId(data, "client_id", c) && Carries(data, "channel", Text(ch))
    case Unsubscribe(c, ch) =>
      Labelled(data, "unsubscribe", tid) && CarriesId(data, "client_id", c) && Carries(data, "channel", Text(ch))
    case IsSubscribed(ch) => Labelled(data, "is_subscribed", tid) && Carries(data, "channel", Text(ch))
    case Broadcast(t, c, payload) =>
      t == tid && Labelled(data, "broadcast", tid) && CarriesId(data, "client_id", c)
      && payload.Object? && Carries(data, "payload", payload)
    case Publish(t, c, ch, payload) =>
      t == tid && Labelled(data, "publish", tid) && CarriesId(data, "client_id", c)
      && Carries(data, "channel", Text(ch)) && payload.Object? && Carries(data, "payload", payload)
    case Send(from, to, payload) =>
      Labelled(data, "send", tid) && CarriesId(data, "from_client_id", from) && CarriesId(data, "to_client_id", to)
      && payload.Object? && Carries(data, "payload", payload)
    case Unimplemented => UnknownAction(data, tid)
  }

  predicate Asks(data: Fields, context: Context, entity: Id, tid: Id, m: Message) {
    if context == OnClient then ClientAsks(data, entity, tid, m) else PeerAsks(data, tid, m)
  }

  // How validators and getters see it

  /** What a peer alone may say. */
  predicate PeersOnly(m: Message) { m.Register? || m.Session? || m.Join? || m.Leave? }

  /** The names of the actions. */
  lemma ActionsAre()
    ensures Recognised(Plain("ping")) == PingAction && Recognised(Plain("ack")) == AckAction
    ensures Recognised(Plain("register")) == RegisterAction && Recognised(Plain("session")) == SessionAction
    ensures Recognised(Plain("join")) == JoinAction && Recognised(Plain("leave")) == LeaveAction
    ensures Recognised(Plain("subscribe")) == SubscribeAction && Recognised(Plain("unsubscribe")) == UnsubscribeAction
    ensures Recognised(Plain("is_subscribed")) == IsSubscribedAction && Recognised(Plain("send")) == SendAction
    ensures Recognised(Plain("broadcast")) == BroadcastAction && Recognised(Plain("publish")) == PublishAction
  {
  }

  /** Every name of an action is one of these. */
  lemma ActionsAreAll(name: Str)
    ensures Recognised(name) == OtherAction ||
      (name.Plain? && name.text in ACTIONS)
  {
  }

  lemma AskedAction(data: Fields, context: Context, entity: Id, tid: Id, m: Message)
    requires Asks(data, context, entity, tid, m)
    ensures Envelope(data).Fine? && CastId(data["transaction_id"]) == Fine(tid)
    ensures Recognised(Envelope(data).value) == ActionOf(m)
  {
    if m.Unimplemented? {
      UnknownIsOther(data);
    } else {
      ActionsAre();
    }
  }

  lemma UnknownIsOther(data: Fields)
    requires "action" in data && data["action"].Text?
    requires forall action :: action in ACTIONS ==> data["action"] != Text(Plain(action))
    ensures Recognised(data["action"].s) == OtherAction
  {
    ActionsAreAll(data["action"].s);
  }

  lemma OtherIsUnknown(data: Fields)
    requires "action" in data && data["action"].Text? && Recognised(data["action"].s) == OtherAction
    ensures forall action :: action in ACTIONS ==> data["action"] != Text(Plain(action))
  {
    ActionsAre();
    forall action | action in ACTIONS ensures Recognised(Plain(action)) != OtherAction {
    }
  }

  /** With the name out of the way: parameters are found where a client puts them, */
  lemma ClientParse(data: Fields, c: Id, tid: Id, m: Message)
    requires ClientAsks(data, c, tid, m)
    ensures Parse(data, ActionOf(m), OnClient, c, tid) == Fine(if PeersOnly(m) then None else Some(m))
  {
  }

  /** and where a peer does. */
  lemma PeerParse(data: Fields, s: Id, tid: Id, m: Message)
    requires PeerAsks(data, tid, m)
    ensures Parse(data, ActionOf(m), OnSession, s, tid) == Fine(Some(m))
  {
  }

  lemma AskedIsParsed(data: Fields, context: Context, entity: Id, tid: Id, m: Message)
    requires Asks(data, context, entity, tid, m)
    ensures Envelope(data).Fine? && CastId(data["transaction_id"]) == Fine(tid)
    ensures Parse(data, Recognised(Envelope(data).value), context, entity, tid)
      == Fine(if context == OnClient && PeersOnly(m) then None else Some(m))
  {
    AskedAction(data, context, entity, tid, m);
    if context == OnClient {
      ClientParse(data, entity, tid, m);
    } else {
      PeerParse(data, entity, tid, m);
    }
  }

  // And nothing else

  lemma ActionNamed(name: Str)
    ensures match Recognised(name)
      case PingAction => name == Plain("ping")
      case AckAction => name == Plain("ack")
      case RegisterAction => name == Plain("register")
      case SessionAction => name == Plain("session")
      case JoinAction => name == Plain("join")
      case LeaveAction => name == Plain("leave")
      case SubscribeAction => name == Plain("subscribe")
      case UnsubscribeAction => name == Plain("unsubscribe")
      case IsSubscribedAction => name == Plain("is_subscribed")
      case BroadcastAction => name == Plain("broadcast")
      case PublishAction => name == Plain("publish")
      case SendAction => name == Plain("send")
      case OtherAction => true
  {
  }

  /** The label of a request for m, by the name its builder gives it. */
  predicate LabelledFor(data: Fields, tid: Id, m: Message) {
    if m.Unimplemented? then UnknownAction(data, tid) else Labelled(data, ActionName(m), tid)
  }

  lemma LabelIs(data: Fields, tid: Id, m: Message)
    requires Envelope(data).Fine? && CastId(data["transaction_id"]) == Fine(tid)
    requires Recognised(Envelope(data).value) == ActionOf(m)
    ensures LabelledFor(data, tid, m)
  {
    ActionNamed(Envelope(data).value);
    if m.Unimplemented? {
      OtherIsUnknown(data);
    }
  }

  lemma ClientParsed(data: Fields, c: Id, tid: Id, m: Message)
    requires LabelledFor(data, tid, m)
    requires Parse(data, ActionOf(m), OnClient, c, tid) == Fine(if PeersOnly(m) then None else Some(m))
    ensures ClientAsks(data, c, tid, m)
  {
  }

  lemma PeerParsed(data: Fields, s: Id, tid: Id, m: Message)
    requires LabelledFor(data, tid, m)
    requires Parse(data, ActionOf(m), OnSession, s, tid) == Fine(Some(m))
    ensures PeerAsks(data, tid, m)
  {
  }

  /** What passes them asks for something. */
  lemma ParsedIsAsked(data: Fields, context: Context, entity: Id, tid: Id) returns (m: Message)
    requires Envelope(data).Fine? && CastId(data["transaction_id"]) == Fine(tid)
    requires Parse(data, Recognised(Envelope(data).value), context, entity, tid).Fine?
    ensures Asks(data, context, entity, tid, m)
  {
    var action := Recognised(Envelope(data).value);
    m := ParsedMessage(data, action, context, entity, tid);
    LabelIs(data, tid, m);
    if context == OnClient {
      ClientParsed(data, entity, tid, m);
    } else {
      PeerParsed(data, entity, tid, m);
    }
  }

  lemma ParsedMessage(data: Fields, action: Action, context: Context, entity: Id, tid: Id) returns (m: Message)
    requires Parse(data, action, context, entity, tid).Fine?
    ensures ActionOf(m) == action
    ensures Parse(data, action, context, entity, tid)
         == Fine(if context == OnClient && PeersOnly(m) then None else Some(m))
  {
    match Parse(data, action, context, entity, tid).value
    case Some(x) => m := x;
    case None =>
      match action
      case RegisterAction => m := Register(false, 0, 0);
      case SessionAction => m := Session(NO_HOST, 0, 0);
      case JoinAction => m := Join(0);
      case LeaveAction => m := Leave(0);
  }

  // What is answered

  /** A success under this transaction. */
  predicate Says(r: Response, tid: Id, message: string, extra: Fields) {
    r == Response(map["transaction_id" := Text(UuidText(tid, 0)), "action" := Text(Plain("ack")),
                      "status" := Text(Plain("success")), "message" := Text(Plain(message)), "data" := Object(extra)])
  }

  /** A failure, which does not name the nil transaction. */
  predicate Fails(r: Response, tid: Id, field: string, reason: string) {
    r == Response(map["transaction_id" := if tid == 0 then Null else Text(UuidText(tid, 0)),
                      "action" := Text(Plain("ack")), "status" := Text(Plain("failed")),
                      "message" := Text(Plain("unprocessable entity")),
                      "data" := Object(map[field := Text(Plain(reason))])])
  }

  /** An effect or none. */
  predicate Tells(r: Response, tid: Id, effect: bool) {
    Says(r, tid, if effect then "ok" else "no effect", map[])
  }

  /** The number of the others in the table. */
  predicate Counts(r: Response, tid: Id, n: Node) {
    0 < |n.clients| < 0x1_0000_0000_0000_0000 ==>
      Says(r, tid, if |n.clients| > 1 then "ok" else "no effect", map["count" := Uint(|n.clients| - 1)])
  }

  lemma ReplyIsSaid(tid: Id, reply: Reply)
    ensures match reply
      case Silent => Respond(tid, reply) == NoResponse
      case Failed => Fails(Respond(tid, reply), tid, "action", "action attribute isn't implemented")
      case Success(status, count) =>
        Says(Respond(tid, reply), tid,
             match status
             case Ok => "ok" case NoEffect => "no effect" case Pong => "pong" case Yes => "yes" case No => "no",
             match count case None => map[] case Some(k) => map["count" := Uint(k)])
  {
  }

  /** What a client asks for is done, and this is what it is answered. */
  lemma ClientAnswered(n: Node, data: Fields, c: Id, tid: Id, m: Message, newId: Id)
    requires ClientAsks(data, c, tid, m)
    ensures var (after, r) := Kernel(n, data, OnClient, c, newId);
      && after == OnLocal(n, c, m).node
      && match m
         case Ping => Says(r, tid, "pong", map[])
         case Ack => r == NoResponse
         case Register(_, _, _) => Tells(r, tid, false)
         case Session(_, _, _) => Tells(r, tid, false)
         case Join(_) => Tells(r, tid, false)
         case Leave(_) => Tells(r, tid, false)
         case Subscribe(_, ch) => Tells(r, tid, Subscription(n.id, c, ch) !in n.subscriptions)
         case Unsubscribe(_, ch) => Tells(r, tid, Subscription(n.id, c, ch) in n.subscriptions)
         case IsSubscribed(ch) =>
           var found := exists x :: x in n.subscriptions && x.client == c && x.channel == ch;
           Says(r, tid, if found then "yes" else "no", map[])
         case Broadcast(_, _, _) => Counts(r, tid, n)
         case Publish(_, _, _, _) => Counts(r, tid, n)
         case Send(_, to, _) => Tells(r, tid, exists x :: x in n.clients && x.id == to)
         case Unimplemented => Fails(r, tid, "action", "action attribute isn't implemented")
  {
    AskedIsParsed(data, OnClient, c, tid, m);
    LocalReplies(n, c, m);
    var reply := OnLocal(n, c, m).effects.reply;
    ReplyIsSaid(tid, reply);
  }

  /** What a peer asks for is done, and this is what it is answered. */
  lemma PeerAnswered(n: Node, data: Fields, s: Id, tid: Id, m: Message, newId: Id)
    requires PeerAsks(data, tid, m)
    ensures var (after, r) := Kernel(n, data, OnSession, s, newId);
      && after == OnPeer(n, s, m, newId).node
      && match m
         case Ping => Says(r, tid, "pong", map[])
         case Ack => r == NoResponse
         case Register(_, _, _) => Tells(r, tid, s in n.sessions)
         case Session(host, sessionsPort, clientsPort) =>
           Tells(r, tid, forall t :: t in n.sessions ==>
             n.sessions[t].host != host
             || n.sessions[t].sessionsPort != sessionsPort || n.sessions[t].clientsPort != clientsPort)
         case Join(c) => Tells(r, tid, !exists x :: x in n.clients && x.id == c)
         case Leave(c) => Tells(r, tid, exists x :: x in n.clients && x.id == c)
         case Subscribe(c, ch) => Tells(r, tid, Subscription(s, c, ch) !in n.subscriptions)
         case Unsubscribe(c, ch) => Tells(r, tid, Subscription(s, c, ch) in n.subscriptions)
         case IsSubscribed(_) => Tells(r, tid, false)
         case Broadcast(_, _, _) => Counts(r, tid, n)
         case Publish(_, _, _, _) => Counts(r, tid, n)
         case Send(_, to, _) =>
           Distinct(IdOf(), n.clients) ==> Tells(r, tid, ClientRow(to, n.id) in n.clients)
         case Unimplemented => Fails(r, tid, "action", "action attribute isn't implemented")
  {
    AskedIsParsed(data, OnSession, s, tid, m);
    PeerReplies(n, s, m, newId);
    if m.Session? {
      SessionIs(n, s, m.host, m.sessionsPort, m.clientsPort, newId);
    }
    ReplyIsSaid(tid, OnPeer(n, s, m, newId).effects.reply);
  }

  // What is refused

  datatype Kind = AString | AnId | ANumber | ABoolean | AnObject

  /** A parameter that must be there, and of what kind. */
  datatype Rule = Rule(field: string, kind: Kind)

  /** What the validators demand, in the order they look. */
  function Rules(action: Action, context: Context): seq<Rule> {
    if context == OnSession then
      match action
      case RegisterAction =>
        [Rule("sessions_port", ANumber), Rule("clients_port", ANumber), Rule("registered", ABoolean)]
      case SessionAction => [Rule("host", AString), Rule("sessions_port", ANumber), Rule("clients_port", ANumber)]
      case JoinAction => [Rule("client_id", AnId)]
      case LeaveAction => [Rule("client_id", AnId)]
      case SubscribeAction => [Rule("channel", AString), Rule("client_id", AnId)]
      case UnsubscribeAction => [Rule("channel", AString), Rule("client_id", AnId)]
      case IsSubscribedAction => [Rule("channel", AString)]
      case BroadcastAction => [Rule("payload", AnObject), Rule("client_id", AnId)]
      case PublishAction => [Rule("channel", AString), Rule("payload", AnObject), Rule("client_id", AnId)]
      case SendAction => [Rule("payload", AnObject), Rule("from_client_id", AnId), Rule("to_client_id", AnId)]
      case _ => []
    else
      match action
      case SubscribeAction => [Rule("channel", AString)]
      case UnsubscribeAction => [Rule("channel", AString)]
      case IsSubscribedAction => [Rule("channel", AString)]
      case BroadcastAction => [Rule("payload", AnObject)]
      case PublishAction => [Rule("channel", AString), Rule("payload", AnObject)]
      case SendAction => [Rule("payload", AnObject), Rule("to_client_id", AnId)]
      case _ => []
  }

  predicate Holds(params: Fields, rule: Rule) {
    rule.field in params &&
    match rule.kind
    case AString => params[rule.field].Text?
    case AnId => params[rule.field].Text? && params[rule.field].s.UuidText?
    case ANumber => params[rule.field].Int? || params[rule.field].Uint?
    case ABoolean => params[rule.field].Bool?
    case AnObject => params[rule.field].Object?
  }

  function Reason(params: Fields, rule: Rule): string {
    if rule.field !in params then "params " + rule.field + " attribute must be present"
    else
      match rule.kind
      case AString => "params " + rule.field + " attribute must be string"
      case AnId =>
        if params[rule.field].Text? then "params " + rule.field + " attribute must be uuid"
        else "params " + rule.field + " attribute must be string"
      case ANumber => "params " + rule.field + " attribute must be number"
      case ABoolean => "params " + rule.field + " attribute must be boolean"
      case AnObject => "params " + rule.field + " attribute must be object"
  }

  /** The first rule broken. */
  predicate BreaksFirst(params: Fields, rules: seq<Rule>, k: int) {
    0 <= k < |rules| && !Holds(params, rules[k]) && forall j :: 0 <= j < k ==> Holds(params, rules[j])
  }

  /** One check, whichever validator makes it, and what it reads. */
  lemma ChecksAre(params: Fields, field: string)
    ensures var r := Rule(field, AString);
      if Holds(params, r) then CheckString(params, field) == Fine(params[field].s)
      else CheckString(params, field) == Invalid("params", Reason(params, r))
    ensures var r := Rule(field, AnId);
      if Holds(params, r) then CheckId(params, field) == Fine(params[field])
      else CheckId(params, field) == Invalid("params", Reason(params, r))
    ensures var r := Rule(field, ANumber);
      if Holds(params, r) then CheckNumber(params, field) == Fine(params[field])
      else CheckNumber(params, field) == Invalid("params", Reason(params, r))
    ensures var r := Rule(field, ABoolean);
      if Holds(params, r) then CheckBool(params, field) == Fine(params[field].b)
      else CheckBool(params, field) == Invalid("params", Reason(params, r))
    ensures var r := Rule(field, AnObject);
      if Holds(params, r) then CheckObject(params, field) == Fine(params[field])
      else CheckObject(params, field) == Invalid("params", Reason(params, r))
  {
  }

  /** The validators refuse by the first rule broken, and let through what breaks none. */
  ghost predicate Decided(params: Fields, rules: seq<Rule>, p: Try<Option<Message>>) {
    && (forall k :: BreaksFirst(params, rules, k) ==> p == Invalid("params", Reason(params, rules[k])))
    && ((forall k :: 0 <= k < |rules| ==> Holds(params, rules[k])) ==> !p.Invalid?)
  }

  /** Three rules at most. */
  lemma DecidedByThree(params: Fields, rules: seq<Rule>, p: Try<Option<Message>>)
    requires |rules| <= 3
    requires |rules| > 0 && !Holds(params, rules[0]) ==> p == Invalid("params", Reason(params, rules[0]))
    requires |rules| > 1 && Holds(params, rules[0]) && !Holds(params, rules[1]) ==>
      p == Invalid("params", Reason(params, rules[1]))
    requires |rules| > 2 && Holds(params, rules[0]) && Holds(params, rules[1]) && !Holds(params, rules[2]) ==>
      p == Invalid("params", Reason(params, rules[2]))
    requires !p.Invalid? || (|rules| > 0 && !Holds(params, rules[0])) || (|rules| > 1 && !Holds(params, rules[1]))
      || (|rules| > 2 && !Holds(params, rules[2]))
    ensures Decided(params, rules, p)
  {
    forall k | BreaksFirst(params, rules, k) ensures p == Invalid("params", Reason(params, rules[k])) {
      assert k == 0 || k == 1 || k == 2;
    }
  }

  lemma RoutedDecided(data: Fields, action: Action, context: Context, entity: Id, tid: Id)
    requires "params" in data && data["params"].Object?
    requires action == BroadcastAction || action == PublishAction
    ensures Decided(data["params"].fields, Rules(action, context), Parse(data, action, context, entity, tid))
  {
    var params := data["params"].fields;
    ChecksAre(params, "channel");
    ChecksAre(params, "payload");
    ChecksAre(params, "client_id");
    DecidedByThree(params, Rules(action, context), Parse(data, action, context, entity, tid));
  }

  lemma SendDecided(data: Fields, context: Context, entity: Id, tid: Id)
    requires "params" in data && data["params"].Object?
    ensures Decided(data["params"].fields, Rules(SendAction, context), Parse(data, SendAction, context, entity, tid))
  {
    var params := data["params"].fields;
    ChecksAre(params, "payload");
    ChecksAre(params, "from_client_id");
    ChecksAre(params, "to_client_id");
    DecidedByThree(params, Rules(SendAction, context), Parse(data, SendAction, context, entity, tid));
  }

  lemma PeersDecided(data: Fields, action: Action, context: Context, entity: Id, tid: Id)
    requires "params" in data && data["params"].Object?
    requires action == RegisterAction || action == SessionAction
    ensures Decided(data["params"].fields, Rules(action, context), Parse(data, action, context, entity, tid))
  {
    var params := data["params"].fields;
    ChecksAre(params, "sessions_port");
    ChecksAre(params, "clients_port");
    ChecksAre(params, "registered");
    ChecksAre(params, "host");
    DecidedByThree(params, Rules(action, context), Parse(data, action, context, entity, tid));
  }

  lemma RulesDecide(data: Fields, action: Action, context: Context, entity: Id, tid: Id)
    requires "params" in data && data["params"].Object?
    ensures Decided(data["params"].fields, Rules(action, context), Parse(data, action, context, entity, tid))
  {
    match action
    case RegisterAction => PeersDecided(data, action, context, entity, tid);
    case SessionAction => PeersDecided(data, action, context, entity, tid);
    case BroadcastAction => RoutedDecided(data, action, context, entity, tid);
    case PublishAction => RoutedDecided(data, action, context, entity, tid);
    case SendAction => SendDecided(data, context, entity, tid);
    case _ =>
      var params := data["params"].fields;
      ChecksAre(params, "channel");
      ChecksAre(params, "client_id");
      DecidedByThree(params, Rules(action, context), Parse(data, action, context, entity, tid));
  }

  /** A labelled request that breaks a rule changes nothing and is told which. */
  lemma RuleBrokenIsTold(n: Node, data: Fields, context: Context, entity: Id, action: string, tid: Id, newId: Id,
                         k: nat)
    requires Labelled(data, action, tid) && "params" in data && data["params"].Object?
    requires BreaksFirst(data["params"].fields, Rules(Recognised(Plain(action)), context), k)
    ensures var (after, r) := Kernel(n, data, context, entity, newId); var params := data["params"].fields;
      after == n && Fails(r, tid, "params", Reason(params, Rules(Recognised(Plain(action)), context)[k]))
  {
    RulesDecide(data, Recognised(Plain(action)), context, entity, tid);
  }

  /** Without a params object a getter throws, and so does one where all rules are kept but nothing is asked. */
  lemma ThrowsOtherwise(n: Node, data: Fields, context: Context, entity: Id, action: string, tid: Id, newId: Id)
    requires Labelled(data, action, tid) && Rules(Recognised(Plain(action)), context) != []
    ensures !("params" in data && data["params"].Object?) ==> Kernel(n, data, context, entity, newId) == (n, Exception)
    ensures "params" in data && data["params"].Object?
      && (forall rule :: rule in Rules(Recognised(Plain(action)), context) ==> Holds(data["params"].fields, rule))
      && (forall m :: !Asks(data, context, entity, tid, m))
      ==> Kernel(n, data, context, entity, newId) == (n, Exception)
  {
    var a := Recognised(Plain(action));
    if "params" in data && data["params"].Object? {
      RulesDecide(data, a, context, entity, tid);
    }
    if Parse(data, a, context, entity, tid).Fine? {
      var m := ParsedIsAsked(data, context, entity, tid);
    }
  }

  /** What is wrong with an envelope: the first of these. */
  predicate Unlabelled(data: Fields, field: string, reason: string) {
    if "action" !in data then field == "action" && reason == "action attribute must be present"
    else if !data["action"].Text? then field == "action" && reason == "action attribute must be string"
    else
      && field == "transaction_id"
      && (if field !in data then reason == "transaction_id attribute must be present"
          else if !data[field].Text? then reason == "transaction_id attribute must be string"
          else !data[field].s.UuidText? && reason == "transaction_id attribute must be uuid")
  }

  /** It is told under the transaction if that can be read, and throws if that is no dashed id. */
  lemma UnlabelledIsTold(n: Node, data: Fields, context: Context, entity: Id, newId: Id, field: string, reason: string)
    requires Unlabelled(data, field, reason)
    ensures var (after, r) := Kernel(n, data, context, entity, newId);
      && after == n
      && if "transaction_id" in data && data["transaction_id"].Text? && data["transaction_id"].s.UuidText?
         then if data["transaction_id"].s.form % 2 == 0 then Fails(r, data["transaction_id"].s.id, field, reason)
              else r == Exception
         else Fails(r, 0, field, reason)
  {
  }

  /** What asks for nothing changes nothing: it is answered by a failure, or a getter throws. */
  lemma OnlyAsked(n: Node, data: Fields, context: Context, entity: Id, newId: Id)
    requires forall tid, m :: !Asks(data, context, entity, tid, m)
    ensures var (after, r) := Kernel(n, data, context, entity, newId);
      after == n && (r == Exception || exists tid, field, reason :: Fails(r, tid, field, reason))
  {
    var r := Kernel(n, data, context, entity, newId).1;
    match Envelope(data)
    case Invalid(field, reason) =>
      assert Unlabelled(data, field, reason);
      UnlabelledIsTold(n, data, context, entity, newId, field, reason);
    case Throws =>
    case Fine(action) =>
      match CastId(data["transaction_id"])
      case Fine(tid) =>
        if Parse(data, Recognised(action), context, entity, tid).Fine? {
          var m := ParsedIsAsked(data, context, entity, tid);
          assert false;
        } else if Parse(data, Recognised(action), context, entity, tid).Invalid? {
          var p := Parse(data, Recognised(action), context, entity, tid);
          assert Fails(r, tid, p.field, p.reason);
        }
      case _ =>
  }

  /** What a node builds asks its peer for what it was built from, under these same names. */
  lemma BuiltAsks(m: Message, tid: Id)
    requires Sayable(m, tid)
    ensures PeerAsks(Transported(Object(Build(m, tid))).fields, tid, m)
  {
    EnvelopeArrives(m, tid);
    NamesRecognised(m);
    ParseInvertsBuild(m, tid, 0);
    var data := Transported(Object(Build(m, tid))).fields;
    LabelIs(data, tid, m);
    PeerParsed(data, 0, tid, m);
  }
}
