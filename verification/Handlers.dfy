/** The action handlers and their dispatch, as in-place changes of a State. */
module Handlers {
  import opened Sequences
  import opened Json
  import opened Messages
  import opened MultiIndex
  import opened Nodes
  import opened States

  /** The state reached and the effects added are those of outcome o. */
  ghost predicate Did(st: State, o: Outcome, posts: seq<Post>, deliveries: seq<Delivery>)
    reads st, st.clients, st.subscriptions
  {
    && st.Valid()
    && st.Now() == o.node
    && st.posts == posts + o.effects.posts
    && st.deliveries == deliveries + o.effects.deliveries
  }

  method RegisterHandler(st: State, context: Context, entity: Id, m: Message, newId: Id) returns (reply: Reply)
    requires st.Valid() && m.Register?
    modifies st
    ensures var o := Handle(old(st.Now()), context, entity, m, newId);
      Did(st, o, old(st.posts), old(st.deliveries)) && reply == o.effects.reply && o.effects.dial == None
  {
    if context == OnClient {
      return Success(NoEffect, None);
    }
    if entity in st.sessions {
      st.sessions := st.sessions[entity := st.sessions[entity].(clientsPort := m.clientsPort % PORTS,
                                                               sessionsPort := m.sessionsPort % PORTS)];
      st.sessions := st.sessions[entity := st.sessions[entity].(registered := true)];
      assert st.Now() == RegisterPeer(old(st.Now()), entity, m.clientsPort, m.sessionsPort);
      st.Sync(entity, m.registered);
      return Success(Ok, None);
    }
    return Success(NoEffect, None);
  }

  method SessionHandler(st: State, context: Context, entity: Id, m: Message, newId: Id)
    returns (reply: Reply, dial: Option<Dial>)
    requires st.Valid() && m.Session?
    modifies st
    ensures var o := Handle(old(st.Now()), context, entity, m, newId);
      Did(st, o, old(st.posts), old(st.deliveries)) && reply == o.effects.reply && dial == o.effects.dial
  {
    if context == OnClient {
      return Success(NoEffect, None), None;
    }
    var found := false;
    var keys := Ordered(st.sessions.Keys);
    for i := 0 to |keys|
      invariant found <==> exists j :: 0 <= j < i && SamePeer(st.sessions, keys[j], m)
    {
      var t := st.sessions[keys[i]];
      assert SamePeer(st.sessions, keys[i], m) <==> Matches(t, m.host, m.sessionsPort, m.clientsPort);
      if t.host == m.host && t.sessionsPort == m.sessionsPort && t.clientsPort == m.clientsPort {
        found := true;
      }
    }
    assert found <==> PeerKnown(st.Now(), m.host, m.sessionsPort, m.clientsPort) by {
      KnownByScan(st.Now(), keys, m);
    }
    if found {
      return Success(NoEffect, None), None;
    }
    var _ := st.AddSession(newId, Dialled(m.sessionsPort, m.clientsPort));
    return Success(Ok, None), Some(Dial(newId, m.host, m.sessionsPort));
  }

  predicate SamePeer(sessions: map<Id, Peer>, t: Id, m: Message)
    requires m.Session?
  {
    t in sessions && Matches(sessions[t], m.host, m.sessionsPort, m.clientsPort)
  }

  lemma KnownByScan(n: Node, keys: seq<Id>, m: Message)
    requires m.Session? && forall t :: t in keys <==> t in n.sessions
    ensures PeerKnown(n, m.host, m.sessionsPort, m.clientsPort)
      <==> exists j :: 0 <= j < |keys| && SamePeer(n.sessions, keys[j], m)
  {
    if PeerKnown(n, m.host, m.sessionsPort, m.clientsPort) {
      var t :| t in n.sessions && SamePeer(n.sessions, t, m);
      assert t in keys;
      var j :| 0 <= j < |keys| && keys[j] == t;
    }
  }

  method JoinHandler(st: State, context: Context, entity: Id, m: Message, newId: Id) returns (reply: Reply)
    requires st.Valid() && m.Join?
    modifies st, st.clients
    ensures var o := Handle(old(st.Now()), context, entity, m, newId);
      Did(st, o, old(st.posts), old(st.deliveries)) && reply == o.effects.reply && o.effects.dial == None
  {
    if context == OnClient {
      return Success(NoEffect, None);
    }
    var inserted := st.AddClient(ClientRow(m.client, entity));
    assert inserted <==> st.Now() != old(st.Now()) by {
      if inserted {
        assert |st.Now().clients| == |old(st.Now()).clients| + 1;
      }
    }
    return Success(if inserted then Ok else NoEffect, None);
  }

  method LeaveHandler(st: State, context: Context, entity: Id, m: Message, newId: Id) returns (reply: Reply)
    requires st.Valid() && m.Leave?
    modifies st, st.clients
    ensures var o := Handle(old(st.Now()), context, entity, m, newId);
      Did(st, o, old(st.posts), old(st.deliveries)) && reply == o.effects.reply && o.effects.dial == None
  {
    if context == OnClient {
      return Success(NoEffect, None);
    }
    var removed := st.RemoveClient(m.client);
    return Success(if removed then Ok else NoEffect, None);
  }

  /** On a client the table changes first and every peer is told afterwards. */
  method SubscribeHandler(st: State, context: Context, entity: Id, m: Message, newId: Id) returns (reply: Reply)
    requires st.Valid() && m.Subscribe?
    modifies st, st.subscriptions
    ensures var o := Handle(old(st.Now()), context, entity, m, newId);
      Did(st, o, old(st.posts), old(st.deliveries)) && reply == o.effects.reply && o.effects.dial == None
  {
    var inserted: bool;
    match context {
      case OnClient =>
        inserted := st.Subscribe(Subscription(st.id, entity, m.channel));
        var _ := st.SendToSessions(Subscribe(entity, m.channel));
      case OnSession =>
        inserted := st.Subscribe(Subscription(entity, m.client, m.channel));
    }
    return Success(if inserted then Ok else NoEffect, None);
  }

  method UnsubscribeHandler(st: State, context: Context, entity: Id, m: Message, newId: Id) returns (reply: Reply)
    requires st.Valid() && m.Unsubscribe?
    modifies st, st.subscriptions
    ensures var o := Handle(old(st.Now()), context, entity, m, newId);
      Did(st, o, old(st.posts), old(st.deliveries)) && reply == o.effects.reply && o.effects.dial == None
  {
    var removed: bool;
    match context {
      case OnClient =>
        removed := st.Unsubscribe(Subscription(st.id, entity, m.channel));
        var _ := st.SendToSessions(Unsubscribe(entity, m.channel));
      case OnSession =>
        removed := st.Unsubscribe(Subscription(entity, m.client, m.channel));
    }
    return Success(if removed then Ok else NoEffect, None);
  }

  method BroadcastHandler(st: State, context: Context, entity: Id, m: Message, newId: Id) returns (reply: Reply)
    requires st.Valid() && m.Broadcast?
    modifies st
    ensures var o := Handle(old(st.Now()), context, entity, m, newId);
      Did(st, o, old(st.posts), old(st.deliveries)) && reply == o.effects.reply && o.effects.dial == None
  {
    var count: nat;
    match context {
      case OnClient =>
        var b := Broadcast(m.tid, entity, m.payload);
        count := st.SendToOthersClients(b, st.id, entity);
        var _ := st.SendToSessions(b);
      case OnSession =>
        count := st.SendToOthersClients(m, st.id, m.client);
    }
    return Success(if count > 0 then Ok else NoEffect, Some(count));
  }

  method PublishHandler(st: State, context: Context, entity: Id, m: Message, newId: Id) returns (reply: Reply)
    requires st.Valid() && m.Publish?
    modifies st
    ensures var o := Handle(old(st.Now()), context, entity, m, newId);
      Did(st, o, old(st.posts), old(st.deliveries)) && reply == o.effects.reply && o.effects.dial == None
  {
    var count: nat;
    match context {
      case OnClient =>
        var p := Publish(m.tid, entity, m.channel, m.payload);
        count := st.SendToOthersClients(p, st.id, entity);
        var _ := st.SendToSubscribedSessions(p, m.channel);
      case OnSession =>
        count := st.SendToOthersClients(m, st.id, m.client);
    }
    return Success(if count > 0 then Ok else NoEffect, Some(count));
  }

  /** A client here gets the message; one elsewhere gets it through its session, once and no further. */
  method SendHandler(st: State, context: Context, entity: Id, m: Message, newId: Id) returns (reply: Reply)
    requires st.Valid() && m.Send?
    modifies st
    ensures var o := Handle(old(st.Now()), context, entity, m, newId);
      Did(st, o, old(st.posts), old(st.deliveries)) && reply == o.effects.reply && o.effects.dial == None
  {
    var session := st.FindClient(m.to);
    if session == None {
      return Success(NoEffect, None);
    }
    var from := if context == OnClient then entity else m.from;
    if session == Some(st.id) {
      st.deliveries := st.deliveries + [Delivery(m.to, Send(from, m.to, m.payload))];
      return Success(Ok, None);
    }
    if context == OnSession {
      return Success(NoEffect, None);
    }
    st.SendToSession(session.value, Send(from, m.to, m.payload));
    return Success(Ok, None);
  }

  /** The dispatch of the kernel on a message that passed its validators. */
  method Dispatch(st: State, context: Context, entity: Id, m: Message, newId: Id)
    returns (reply: Reply, dial: Option<Dial>)
    requires st.Valid()
    modifies st, st.clients, st.subscriptions
    ensures var o := Handle(old(st.Now()), context, entity, m, newId);
      Did(st, o, old(st.posts), old(st.deliveries)) && reply == o.effects.reply && dial == o.effects.dial
  {
    dial := None;
    match m {
      case Ping => reply := Success(Pong, None);
      case Ack => reply := Silent;
      case Register(_, _, _) => reply := RegisterHandler(st, context, entity, m, newId);
      case Session(_, _, _) => reply, dial := SessionHandler(st, context, entity, m, newId);
      case Join(_) => reply := JoinHandler(st, context, entity, m, newId);
      case Leave(_) => reply := LeaveHandler(st, context, entity, m, newId);
      case Subscribe(_, _) => reply := SubscribeHandler(st, context, entity, m, newId);
      case Unsubscribe(_, _) => reply := UnsubscribeHandler(st, context, entity, m, newId);
      case IsSubscribed(ch) =>
        var yes := false;
        if context == OnClient {
          yes := st.IsSubscribed(entity, ch);
        }
        reply := Success(if context == OnSession then NoEffect else if yes then Yes else No, None);
      case Broadcast(_, _, _) => reply := BroadcastHandler(st, context, entity, m, newId);
      case Publish(_, _, _, _) => reply := PublishHandler(st, context, entity, m, newId);
      case Send(_, _, _) => reply := SendHandler(st, context, entity, m, newId);
      case Unimplemented => reply := Failed;
    }
  }

  // Events of connections

  /** client_listener: the client is in the table before its peers hear of it. */
  method ClientAccepted(st: State, c: Id)
    requires st.Valid()
    modifies st, st.clients
    ensures Did(st, Arrive(old(st.Now()), c), old(st.posts), old(st.deliveries))
  {
    var _ := st.AddClient(ClientRow(c, st.id));
    var _ := st.SendToSessions(Join(c));
  }

  /** client: on close or error it leaves the table before its peers hear of it. */
  method ClientClosed(st: State, c: Id)
    requires st.Valid()
    modifies st, st.clients
    ensures Did(st, Depart(old(st.Now()), c), old(st.posts), old(st.deliveries))
  {
    var _ := st.RemoveClient(c);
    var _ := st.SendToSessions(Leave(c));
  }

  /** session::on_accept, its first access: the session object learns its peer's host. */
  method SessionOpened(st: State, s: Id, host: Str)
    requires st.Valid() && s in st.sessions
    modifies st`sessions
    ensures st.Valid() && st.Now() == Opened(old(st.Now()), s, host)
  {
    st.sessions := st.sessions[s := st.sessions[s].(host := host, open := true)];
  }

  /** its second: the message is built from the flag as it is now, */
  method RegistrationLoaded(st: State) returns (m: Message)
    ensures m == Introduction(st.registered, st.address)
    ensures m == Register(st.registered, st.address.clientsPort, st.address.sessionsPort)
  {
    m := Register(st.registered, st.address.clientsPort, st.address.sessionsPort);
  }

  /** and its third: the flag is set, whatever it has become meanwhile. The message is sent after that. */
  method RegistrationStored(st: State)
    modifies st`registered
    ensures st.registered
  {
    st.registered := true;
  }

  /** All of it with nothing in between: the dialling side registers, the first time as a newcomer. */
  method SessionAccepted(st: State, s: Id, host: Str, dialled: bool)
    requires st.Valid() && s in st.sessions
    modifies st
    ensures st.Valid() && st.Now() == Opened(old(st.Now()), s, host)
    ensures st.registered == (old(st.registered) || dialled) && st.deliveries == old(st.deliveries)
    ensures st.posts == old(st.posts)
      + (if dialled then [Post(s, Register(old(st.registered), st.address.clientsPort, st.address.sessionsPort))]
         else [])
  {
    SessionOpened(st, s, host);
    if dialled {
      var m := RegistrationLoaded(st);
      RegistrationStored(st);
      st.SendOn(s, m);
    }
  }
}
