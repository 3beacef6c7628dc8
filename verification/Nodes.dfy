/**
 * What one node knows and how each message changes it: the specification of state, kernel and the
 * action handlers. Everything a handler asks the network to do is listed in Effects.
 */
module Nodes {
  import opened Sequences
  import opened Json
  import opened Messages
  import opened MultiIndex

  datatype Context = OnSession | OnClient

  /** A row of the client table: the client and the session it was learnt through. */
  datatype ClientRow = ClientRow(id: Id, session: Id)

  datatype Subscription = Subscription(session: Id, client: Id, channel: Str)

  /** A session object as the session map shows it. */
  datatype Peer = Peer(host: Str, sessionsPort: nat, clientsPort: nat, registered: bool, open: bool)

  datatype Node = Node(
    id: Id,
    sessions: map<Id, Peer>,
    clients: seq<ClientRow>,
    subscriptions: seq<Subscription>)

  /** What a node listens on. */
  datatype Address = Address(host: Str, sessionsPort: nat, clientsPort: nat)

  /** session::send on an open session. */
  datatype Post = Post(session: Id, msg: Message)

  /** client::send on a client with a socket here. */
  datatype Delivery = Delivery(client: Id, msg: Message)

  /** A connection attempt made on behalf of a new session object. */
  datatype Dial = Dial(session: Id, host: Str, sessionsPort: nat)

  datatype Status = Ok | NoEffect | Pong | Yes | No

  /** Silent is the response to an ack, which a session never sends back. */
  datatype Reply = Silent | Success(status: Status, count: Option<nat>) | Failed

  datatype Effects = Effects(posts: seq<Post>, deliveries: seq<Delivery>, dial: Option<Dial>, reply: Reply)

  datatype Outcome = Outcome(node: Node, effects: Effects)

  const PORTS: nat := 0x1_0000
  const WORDS: nat := 0x1_0000_0000_0000_0000

  const NO_HOST: Str := Plain("")

  // Keys of the table indexes

  function StrKey(s: Str): Key {
    match s
    case Plain(text) => [0] + seq(|text|, i requires 0 <= i < |text| => text[i] as int)
    case UuidText(id, form) => [1, id, form]
  }

  lemma StrKeyInjective(a: Str, b: Str)
    requires StrKey(a) == StrKey(b)
    ensures a == b
  {
    if a.Plain? {
      assert b.Plain? by { assert StrKey(a)[0] == StrKey(b)[0]; }
      var x, y := a.text, b.text;
      forall i | 0 <= i < |x| ensures x[i] == y[i] {
        assert StrKey(a)[i + 1] == StrKey(b)[i + 1];
      }
      assert x == y;
    } else {
      assert b.UuidText? by { assert StrKey(a)[0] == StrKey(b)[0]; }
      assert StrKey(a)[1] == StrKey(b)[1] && StrKey(a)[2] == StrKey(b)[2];
    }
  }

  function ClientBySession(): ClientRow -> Key { (r: ClientRow) => [r.session] }
  function ClientByClient(): ClientRow -> Key { (r: ClientRow) => [r.id] }
  function ClientByClientSession(): ClientRow -> Key { (r: ClientRow) => [r.id, r.session] }

  function SubBySession(): Subscription -> Key { (r: Subscription) => [r.session] }
  function SubByClient(): Subscription -> Key { (r: Subscription) => [r.client] }
  function SubByChannel(): Subscription -> Key { (r: Subscription) => StrKey(r.channel) }
  function SubByClientChannel(): Subscription -> Key { (r: Subscription) => [r.client] + StrKey(r.channel) }
  function SubByAll(): Subscription -> Key { (r: Subscription) => [r.session, r.client] + StrKey(r.channel) }

  // Row selections

  function IdOf(): ClientRow -> Id { (r: ClientRow) => r.id }
  function LearntFrom(s: Id): ClientRow -> bool { (r: ClientRow) => r.session == s }
  function NotLearntFrom(s: Id): ClientRow -> bool { (r: ClientRow) => r.session != s }
  function Called(c: Id): ClientRow -> bool { (r: ClientRow) => r.id == c }
  function NotCalled(c: Id): ClientRow -> bool { (r: ClientRow) => r.id != c }
  function SubFrom(s: Id): Subscription -> bool { (r: Subscription) => r.session == s }
  function NotSubFrom(s: Id): Subscription -> bool { (r: Subscription) => r.session != s }
  function OnChannel(ch: Str): Subscription -> bool { (r: Subscription) => r.channel == ch }
  function OtherThan(sub: Subscription): Subscription -> bool { (r: Subscription) => r != sub }

  // Tables

  predicate KnowsClient(n: Node, c: Id) {
    exists r :: r in n.clients && r.id == c
  }

  function SessionOfClient(rows: seq<ClientRow>, c: Id): (r: Option<Id>)
  {
    if rows == [] then None
    else if rows[|rows| - 1].id == c then Some(rows[|rows| - 1].session)
    else SessionOfClient(rows[..|rows| - 1], c)
  }

  /** The first insertion of a client wins. */
  function AddClient(n: Node, row: ClientRow): Node {
    if KnowsClient(n, row.id) then n else n.(clients := n.clients + [row])
  }

  function RemoveClient(n: Node, c: Id): Node {
    n.(clients := Filter(NotCalled(c), n.clients))
  }

  function AddSubscription(n: Node, sub: Subscription): Node {
    if sub in n.subscriptions then n else n.(subscriptions := n.subscriptions + [sub])
  }

  function RemoveSubscription(n: Node, sub: Subscription): Node {
    n.(subscriptions := Filter(OtherThan(sub), n.subscriptions))
  }

  function AddSession(n: Node, s: Id, p: Peer): Node {
    if s in n.sessions then n else n.(sessions := n.sessions[s := p])
  }

  function RemoveSession(n: Node, s: Id): Node {
    n.(sessions := n.sessions - {s})
  }

  function PurgeClients(n: Node, s: Id): Node {
    n.(clients := Filter(NotLearntFrom(s), n.clients))
  }

  function PurgeSubscriptions(n: Node, s: Id): Node {
    n.(subscriptions := Filter(NotSubFrom(s), n.subscriptions))
  }

  /** Destruction of a session object takes its rows with it, one table after the other. */
  function Purge(n: Node, s: Id): Node {
    PurgeSubscriptions(PurgeClients(n, s), s)
  }

  // Sending

  predicate Reachable(sessions: map<Id, Peer>, who: set<Id>, s: Id) {
    s in sessions && s in who && sessions[s].open
  }

  /** One post of m to each open session of keys that is among who. */
  function Fanout(keys: seq<Id>, sessions: map<Id, Peer>, who: set<Id>, m: Message): seq<Post> {
    if keys == [] then []
    else
      var s := keys[|keys| - 1];
      Fanout(keys[..|keys| - 1], sessions, who, m) + (if Reachable(sessions, who, s) then [Post(s, m)] else [])
  }

  function PostAll(n: Node, m: Message): seq<Post> {
    Fanout(Ordered(n.sessions.Keys), n.sessions, n.sessions.Keys, m)
  }

  function Subscribed(rows: seq<Subscription>): set<Id> {
    set r | r in rows :: r.session
  }

  function PostSubscribed(n: Node, ch: Str, m: Message): seq<Post> {
    Fanout(Ordered(n.sessions.Keys), n.sessions, Subscribed(Filter(OnChannel(ch), n.subscriptions)), m)
  }

  predicate Receives(self: Id, sender: Id, r: ClientRow) {
    r.id != sender && r.session == self
  }

  function DeliverEach(rows: seq<ClientRow>, self: Id, sender: Id, m: Message): seq<Delivery> {
    if rows == [] then []
    else
      var r := rows[|rows| - 1];
      DeliverEach(rows[..|rows| - 1], self, sender, m) + (if Receives(self, sender, r) then [Delivery(r.id, m)] else [])
  }

  /** Deliveries to the local clients other than the sender, in client order. */
  function DeliverOthers(n: Node, sender: Id, m: Message): seq<Delivery> {
    DeliverEach(Listing(ClientByClient(), n.clients), n.id, sender, m)
  }

  /** The table size less one, as an unsigned word. */
  function OthersCount(n: Node): nat {
    (|n.clients| + WORDS - 1) % WORDS
  }

  /** It is that number unless the table is empty; then it wraps to the greatest word. */
  lemma OthersCountIs(n: Node)
    requires |n.clients| < WORDS
    ensures OthersCount(n) == |n.clients| - 1 <==> n.clients != []
    ensures n.clients == [] ==> OthersCount(n) == WORDS - 1
  {
    var k := |n.clients|;
    if k > 0 {
      assert k + WORDS - 1 == (k - 1) + WORDS;
    }
  }

  function CountStatus(k: nat): Status {
    if k > 0 then Ok else NoEffect
  }

  // The snapshot sent to a peer that registers

  predicate Listed(n: Node, s: Id, t: Id) {
    t in n.sessions && t != n.id && t != s && n.sessions[t].registered
  }

  function SessionPosts(n: Node, s: Id, keys: seq<Id>): seq<Post> {
    if keys == [] then []
    else
      var t := keys[|keys| - 1];
      SessionPosts(n, s, keys[..|keys| - 1])
      + (if Listed(n, s, t)
         then [Post(s, Session(n.sessions[t].host, n.sessions[t].sessionsPort, n.sessions[t].clientsPort))]
         else [])
  }

  function JoinPosts(s: Id, rows: seq<ClientRow>): seq<Post> {
    seq(|rows|, i requires 0 <= i < |rows| => Post(s, Join(rows[i].id)))
  }

  function SubscribePosts(s: Id, rows: seq<Subscription>): seq<Post> {
    seq(|rows|, i requires 0 <= i < |rows| => Post(s, Subscribe(rows[i].client, rows[i].channel)))
  }

  function Sync(n: Node, s: Id, registered: bool): seq<Post> {
    if s !in n.sessions || !n.sessions[s].open then []
    else
      (if registered then [] else SessionPosts(n, s, Ordered(n.sessions.Keys)))
      + JoinPosts(s, Filter(LearntFrom(n.id), n.clients))
      + SubscribePosts(s, Filter(SubFrom(n.id), n.subscriptions))
  }

  predicate Matches(p: Peer, host: Str, sessionsPort: nat, clientsPort: nat) {
    p.host == host && p.sessionsPort == sessionsPort && p.clientsPort == clientsPort
  }

  /** Some known peer already has this host and these ports. */
  predicate PeerKnown(n: Node, host: Str, sessionsPort: nat, clientsPort: nat) {
    exists t :: t in n.sessions && Matches(n.sessions[t], host, sessionsPort, clientsPort)
  }

  /** The session object made for a peer one has been told of. */
  function Dialled(sessionsPort: nat, clientsPort: nat): Peer {
    Peer(NO_HOST, sessionsPort % PORTS, clientsPort % PORTS, false, false)
  }

  /** What the register handler writes into the session object. */
  function Filled(p: Peer, clientsPort: nat, sessionsPort: nat): Peer {
    p.(clientsPort := clientsPort % PORTS, sessionsPort := sessionsPort % PORTS, registered := true)
  }

  /** The register message of a node that listens on a. */
  function Introduction(registered: bool, a: Address): Message {
    Register(registered, a.clientsPort, a.sessionsPort)
  }

  /** The session object once its handshake is over. */
  function Opened(n: Node, s: Id, host: Str): Node {
    if s in n.sessions then n.(sessions := n.sessions[s := n.sessions[s].(host := host, open := true)]) else n
  }

  // Handlers

  function Answer(n: Node, s: Status): Outcome {
    Outcome(n, Effects([], [], None, Success(s, None)))
  }

  function Done(before: Node, after: Node): Outcome {
    Answer(after, if after != before then Ok else NoEffect)
  }

  function Counted(n: Node, posts: seq<Post>, deliveries: seq<Delivery>): Outcome {
    Outcome(n, Effects(posts, deliveries, None, Success(CountStatus(OthersCount(n)), Some(OthersCount(n)))))
  }

  function RegisterPeer(n: Node, s: Id, clientsPort: nat, sessionsPort: nat): Node
    requires s in n.sessions
  {
    n.(sessions := n.sessions[s := Filled(n.sessions[s], clientsPort, sessionsPort)])
  }

  /** A request read from session s; newId is the id a new session object would draw. */
  function OnPeer(n: Node, s: Id, m: Message, newId: Id): Outcome {
    match m
    case Ping => Answer(n, Pong)
    case Ack => Outcome(n, Effects([], [], None, Silent))
    case Register(registered, clientsPort, sessionsPort) =>
      if s !in n.sessions then Answer(n, NoEffect)
      else
        var after := RegisterPeer(n, s, clientsPort, sessionsPort);
        Outcome(after, Effects(Sync(after, s, registered), [], None, Success(Ok, None)))
    case Session(host, sessionsPort, clientsPort) =>
      if PeerKnown(n, host, sessionsPort, clientsPort) then Answer(n, NoEffect)
      else
        Outcome(AddSession(n, newId, Dialled(sessionsPort, clientsPort)),
          Effects([], [], Some(Dial(newId, host, sessionsPort)), Success(Ok, None)))
    case Join(c) => Done(n, AddClient(n, ClientRow(c, s)))
    case Leave(c) => Done(n, RemoveClient(n, c))
    case Subscribe(c, ch) => Done(n, AddSubscription(n, Subscription(s, c, ch)))
    case Unsubscribe(c, ch) => Done(n, RemoveSubscription(n, Subscription(s, c, ch)))
    case IsSubscribed(_) => Answer(n, NoEffect)
    case Broadcast(_, c, _) => Counted(n, [], DeliverOthers(n, c, m))
    case Publish(_, c, _, _) => Counted(n, [], DeliverOthers(n, c, m))
    case Send(_, to, _) =>
      if SessionOfClient(n.clients, to) == Some(n.id)
      then Outcome(n, Effects([], [Delivery(to, m)], None, Success(Ok, None)))
      else Answer(n, NoEffect)
    case Unimplemented => Outcome(n, Effects([], [], None, Failed))
  }

  /** A request of local client c. Messages name their sender by the client itself. */
  function OnLocal(n: Node, c: Id, m: Message): Outcome {
    match m
    case Ping => Answer(n, Pong)
    case Ack => Outcome(n, Effects([], [], None, Silent))
    case Register(_, _, _) => Answer(n, NoEffect)
    case Session(_, _, _) => Answer(n, NoEffect)
    case Join(_) => Answer(n, NoEffect)
    case Leave(_) => Answer(n, NoEffect)
    case Subscribe(_, ch) =>
      var after := AddSubscription(n, Subscription(n.id, c, ch));
      Done(n, after).(effects := Done(n, after).effects.(posts := PostAll(n, Subscribe(c, ch))))
    case Unsubscribe(_, ch) =>
      var after := RemoveSubscription(n, Subscription(n.id, c, ch));
      Done(n, after).(effects := Done(n, after).effects.(posts := PostAll(n, Unsubscribe(c, ch))))
    case IsSubscribed(ch) =>
      Answer(n, if exists r :: r in n.subscriptions && r.client == c && r.channel == ch then Yes else No)
    case Broadcast(tid, _, payload) =>
      var b := Broadcast(tid, c, payload);
      Counted(n, PostAll(n, b), DeliverOthers(n, c, b))
    case Publish(tid, _, ch, payload) =>
      var p := Publish(tid, c, ch, payload);
      Counted(n, PostSubscribed(n, ch, p), DeliverOthers(n, c, p))
    case Send(_, to, payload) =>
      (match SessionOfClient(n.clients, to)
       case None => Answer(n, NoEffect)
       case Some(s) =>
         var msg := Send(c, to, payload);
         if s == n.id then Outcome(n, Effects([], [Delivery(to, msg)], None, Success(Ok, None)))
         else Outcome(n, Effects(Fanout(Ordered(n.sessions.Keys), n.sessions, {s}, msg), [], None, Success(Ok, None))))
    case Unimplemented => Outcome(n, Effects([], [], None, Failed))
  }

  /** A client is accepted: entered in the table, then announced. */
  function Arrive(n: Node, c: Id): Outcome {
    var after := AddClient(n, ClientRow(c, n.id));
    Outcome(after, Effects(PostAll(after, Join(c)), [], None, Silent))
  }

  /** A client is gone: struck from the table, then announced. */
  function Depart(n: Node, c: Id): Outcome {
    var after := RemoveClient(n, c);
    Outcome(after, Effects(PostAll(after, Leave(c)), [], None, Silent))
  }

  function Handle(n: Node, context: Context, entity: Id, m: Message, newId: Id): Outcome {
    match context
    case OnSession => OnPeer(n, entity, m, newId)
    case OnClient => OnLocal(n, entity, m)
  }

  // Laws of the tables

  ghost predicate WellFormed(n: Node) {
    && Distinct(IdOf(), n.clients)
    && NoDuplicates(n.subscriptions)
    && n.id !in n.sessions
  }

  /** Looking a client up agrees with the rows: at most one row names it. */
  lemma {:induction false} SessionOfClientIs(rows: seq<ClientRow>, c: Id)
    requires Distinct(IdOf(), rows)
    ensures forall s: Id :: SessionOfClient(rows, c) == Some(s) <==> ClientRow(c, s) in rows
    ensures SessionOfClient(rows, c) == None <==> forall r :: r in rows ==> r.id != c
  {
    if rows != [] {
      var head, last := rows[..|rows| - 1], rows[|rows| - 1];
      SessionOfClientIs(head, c);
      assert rows == head + [last];
      assert forall r :: r in head ==> r.id != last.id;
    }
  }

  /** Every handler keeps client ids and subscriptions unique. */
  lemma HandlersKeepTables(n: Node, e: Id, m: Message, newId: Id)
    requires WellFormed(n) && newId != n.id
    ensures WellFormed(OnPeer(n, e, m, newId).node)
    ensures WellFormed(OnLocal(n, e, m).node)
  {
    match m
    case Leave(c) => FilterKeepsDistinct(IdOf(), NotCalled(c), n.clients);
    case Unsubscribe(c, ch) =>
      FilterKeepsNoDuplicates(OtherThan(Subscription(e, c, ch)), n.subscriptions);
      FilterKeepsNoDuplicates(OtherThan(Subscription(n.id, e, ch)), n.subscriptions);
    case _ =>
  }

  // Frames

  /** Only these rows and sessions may differ between two states of a node. */
  ghost predicate SameExcept(a: Node, b: Node, tag: Id) {
    && a.id == b.id
    && (forall r: ClientRow :: r.session != tag ==> (r in a.clients <==> r in b.clients))
    && (forall r: Subscription :: r.session != tag ==> (r in a.subscriptions <==> r in b.subscriptions))
    && (forall t :: t != tag ==>
          (t in a.sessions <==> t in b.sessions) && (t in a.sessions ==> a.sessions[t] == b.sessions[t]))
  }

  /**
   * A session-context request touches only what belongs to its session, except that leave erases the
   * named client whoever announced it and session adds one new session.
   */
  lemma PeerFrame(n: Node, s: Id, m: Message, newId: Id)
    ensures var after := OnPeer(n, s, m, newId).node;
      match m
      case Leave(c) =>
        && after == n.(clients := after.clients)
        && forall r: ClientRow :: r in after.clients <==> r in n.clients && r.id != c
      case Session(_, _, _) =>
        after == n || (newId !in n.sessions && newId in after.sessions
          && after == n.(sessions := n.sessions[newId := after.sessions[newId]]))
      case _ => SameExcept(n, after, s)
    ensures var after := OnPeer(n, s, m, newId).node;
      && (!m.Register? && !m.Session? ==> after.sessions == n.sessions)
      && (!m.Join? && !m.Leave? ==> after.clients == n.clients)
      && (!m.Subscribe? && !m.Unsubscribe? ==> after.subscriptions == n.subscriptions)
  {
    match m
    case Leave(c) =>
      forall r: ClientRow ensures r in OnPeer(n, s, m, newId).node.clients <==> r in n.clients && r.id != c {
        FilterMembers(NotCalled(c), n.clients, r);
      }
    case Unsubscribe(c, ch) =>
      forall r: Subscription
        ensures r in OnPeer(n, s, m, newId).node.subscriptions <==> r in n.subscriptions && r != Subscription(s, c, ch)
      {
        FilterMembers(OtherThan(Subscription(s, c, ch)), n.subscriptions, r);
      }
    case _ =>
  }

  /** A client-context request changes nothing but that client's own subscriptions on this node. */
  lemma LocalFrame(n: Node, c: Id, m: Message)
    ensures var after := OnLocal(n, c, m).node;
      && after == n.(subscriptions := after.subscriptions)
      && forall r: Subscription :: !(r.session == n.id && r.client == c) ==>
           (r in after.subscriptions <==> r in n.subscriptions)
  {
    match m
    case Unsubscribe(_, ch) =>
      var sub := Subscription(n.id, c, ch);
      forall r: Subscription
        ensures r in RemoveSubscription(n, sub).subscriptions <==> r in n.subscriptions && r != sub
      {
        FilterMembers(OtherThan(sub), n.subscriptions, r);
      }
      assert OnLocal(n, c, m).node == RemoveSubscription(n, sub);
    case Subscribe(_, ch) =>
      assert OnLocal(n, c, m).node == AddSubscription(n, Subscription(n.id, c, ch));
    case _ => assert OnLocal(n, c, m).node == n;
  }

  // What a snapshot says

  predicate Introduces(n: Node, s: Id, t: Id, m: Message) {
    Listed(n, s, t) && m == Session(n.sessions[t].host, n.sessions[t].sessionsPort, n.sessions[t].clientsPort)
  }

  lemma {:induction false} SessionPostsAre(n: Node, s: Id, keys: seq<Id>, p: Post)
    ensures p in SessionPosts(n, s, keys) <==> exists t :: t in keys && Introduces(n, s, t, p.msg) && p.session == s
  {
    if keys != [] {
      var front, last := keys[..|keys| - 1], keys[|keys| - 1];
      SessionPostsAre(n, s, front, p);
      assert (exists t :: t in keys && Introduces(n, s, t, p.msg) && p.session == s)
        <==> (exists t :: t in front && Introduces(n, s, t, p.msg) && p.session == s)
             || (Introduces(n, s, last, p.msg) && p.session == s) by {
        assert keys == front + [last];
      }
    }
  }

  /**
   * The snapshot tells an open session of every other registered peer (unless it has been told before),
   * of every local client and of every local subscription, and of nothing else.
   */
  lemma SyncTells(n: Node, s: Id, registered: bool, m: Message)
    requires s in n.sessions && n.sessions[s].open
    ensures Post(s, m) in Sync(n, s, registered)
      <==> (!registered && exists t :: Introduces(n, s, t, m))
           || (m.Join? && ClientRow(m.client, n.id) in n.clients)
           || (m.Subscribe? && Subscription(n.id, m.client, m.channel) in n.subscriptions)
  {
    SessionPostsAre(n, s, Ordered(n.sessions.Keys), Post(s, m));
    var rows, subs := Filter(LearntFrom(n.id), n.clients), Filter(SubFrom(n.id), n.subscriptions);
    assert Post(s, m) in JoinPosts(s, rows) <==> m.Join? && ClientRow(m.client, n.id) in n.clients by {
      JoinPostsAre(n, s, m);
    }
    assert Post(s, m) in SubscribePosts(s, subs)
      <==> m.Subscribe? && Subscription(n.id, m.client, m.channel) in n.subscriptions by {
      SubscribePostsAre(n, s, m);
    }
  }

  lemma JoinPostsAre(n: Node, s: Id, m: Message)
    ensures Post(s, m) in JoinPosts(s, Filter(LearntFrom(n.id), n.clients))
      <==> m.Join? && ClientRow(m.client, n.id) in n.clients
  {
    var rows := Filter(LearntFrom(n.id), n.clients);
    var posts := JoinPosts(s, rows);
    if Post(s, m) in posts {
      var i :| 0 <= i < |posts| && posts[i] == Post(s, m);
      FilterMembers(LearntFrom(n.id), n.clients, rows[i]);
      assert rows[i] == ClientRow(m.client, n.id);
    }
    if m.Join? && ClientRow(m.client, n.id) in n.clients {
      FilterMembers(LearntFrom(n.id), n.clients, ClientRow(m.client, n.id));
      var i :| 0 <= i < |rows| && rows[i] == ClientRow(m.client, n.id);
      assert posts[i] == Post(s, m);
    }
  }

  lemma SubscribePostsAre(n: Node, s: Id, m: Message)
    ensures Post(s, m) in SubscribePosts(s, Filter(SubFrom(n.id), n.subscriptions))
        <==> m.Subscribe? && Subscription(n.id, m.client, m.channel) in n.subscriptions
  {
    var rows := Filter(SubFrom(n.id), n.subscriptions);
    var posts := SubscribePosts(s, rows);
    if Post(s, m) in posts {
      var i :| 0 <= i < |posts| && posts[i] == Post(s, m);
      FilterMembers(SubFrom(n.id), n.subscriptions, rows[i]);
      assert rows[i] == Subscription(n.id, m.client, m.channel);
    }
    if m.Subscribe? && Subscription(n.id, m.client, m.channel) in n.subscriptions {
      FilterMembers(SubFrom(n.id), n.subscriptions, Subscription(n.id, m.client, m.channel));
      var i :| 0 <= i < |rows| && rows[i] == Subscription(n.id, m.client, m.channel);
      assert posts[i] == Post(s, m);
    }
  }

  // What is posted

  function IsPost(p: Post): Post -> bool { (x: Post) => x == p }

  /** Every session of the map that is open and among who gets m once, and nobody gets anything else. */
  ghost predicate OncePerOpen(posts: seq<Post>, sessions: map<Id, Peer>, who: set<Id>, m: Message) {
    && (forall p :: p in posts ==> p.session in sessions && sessions[p.session].open && p.session in who && p.msg == m)
    && (forall s :: s in sessions && sessions[s].open && s in who ==> Count(IsPost(Post(s, m)), posts) == 1)
  }

  lemma {:induction false} FanoutCounts(keys: seq<Id>, sessions: map<Id, Peer>, who: set<Id>, m: Message, s: Id)
    requires NoDuplicates(keys)
    ensures Count(IsPost(Post(s, m)), Fanout(keys, sessions, who, m))
         == if s in keys && s in sessions && sessions[s].open && s in who then 1 else 0
    ensures forall p :: p in Fanout(keys, sessions, who, m) ==>
      p.session in sessions && sessions[p.session].open && p.session in who && p.msg == m
  {
    if keys != [] {
      var front, last := keys[..|keys| - 1], keys[|keys| - 1];
      assert keys == front + [last];
      FanoutCounts(front, sessions, who, m, s);
      var posts := Fanout(front, sessions, who, m);
      if last in sessions && sessions[last].open && last in who {
        CountSnoc(IsPost(Post(s, m)), posts, Post(last, m));
      } else {
        assert posts + [] == posts;
      }
    }
  }

  /** A fan-out over the session map. */
  lemma FanoutOnce(sessions: map<Id, Peer>, who: set<Id>, m: Message)
    ensures OncePerOpen(Fanout(Ordered(sessions.Keys), sessions, who, m), sessions, who, m)
  {
    OrderedNoDuplicates(sessions.Keys);
    FanoutCounts(Ordered(sessions.Keys), sessions, who, m, 0);
    forall s | s in sessions && sessions[s].open && s in who
      ensures Count(IsPost(Post(s, m)), Fanout(Ordered(sessions.Keys), sessions, who, m)) == 1
    {
      FanoutCounts(Ordered(sessions.Keys), sessions, who, m, s);
    }
  }

  /** To everyone, to the sessions with a row on the channel, or to one session: once each if open. */
  lemma PostsOnce(n: Node, ch: Str, s: Id, m: Message)
    ensures OncePerOpen(PostAll(n, m), n.sessions, n.sessions.Keys, m)
    ensures OncePerOpen(PostSubscribed(n, ch, m), n.sessions,
                        set r | r in n.subscriptions && r.channel == ch :: r.session, m)
    ensures OncePerOpen(Fanout(Ordered(n.sessions.Keys), n.sessions, {s}, m), n.sessions, {s}, m)
  {
    FanoutOnce(n.sessions, n.sessions.Keys, m);
    FanoutOnce(n.sessions, {s}, m);
    SubscribedAre(n.subscriptions, ch);
    FanoutOnce(n.sessions, Subscribed(Filter(OnChannel(ch), n.subscriptions)), m);
  }

  lemma SubscribedAre(rows: seq<Subscription>, ch: Str)
    ensures Subscribed(Filter(OnChannel(ch), rows)) == set r | r in rows && r.channel == ch :: r.session
  {
    forall r: Subscription ensures r in Filter(OnChannel(ch), rows) <==> r in rows && r.channel == ch {
      FilterMembers(OnChannel(ch), rows, r);
    }
  }

  // A snapshot says each thing once, and in order

  /** Peers come before clients and clients before subscriptions. */
  function Turn(m: Message): nat { if m.Session? then 0 else if m.Join? then 1 else 2 }

  lemma {:induction false} JoinPostsOnce(s: Id, rows: seq<ClientRow>, x: Id)
    ensures Count(IsPost(Post(s, Join(x))), JoinPosts(s, rows)) == Count(Called(x), rows)
  {
    if rows != [] {
      var front, last := rows[..|rows| - 1], rows[|rows| - 1];
      JoinPostsOnce(s, front, x);
      assert JoinPosts(s, rows) == JoinPosts(s, front) + [Post(s, Join(last.id))];
      CountSnoc(IsPost(Post(s, Join(x))), JoinPosts(s, front), Post(s, Join(last.id)));
    }
  }

  lemma {:induction false} SubscribePostsOnce(s: Id, rows: seq<Subscription>, x: Id, ch: Str, self: Id)
    requires forall r :: r in rows ==> r.session == self
    ensures Count(IsPost(Post(s, Subscribe(x, ch))), SubscribePosts(s, rows))
         == Count((r: Subscription) => r == Subscription(self, x, ch), rows)
  {
    var same := (r: Subscription) => r == Subscription(self, x, ch);
    if rows != [] {
      var front, last := rows[..|rows| - 1], rows[|rows| - 1];
      assert rows == front + [last];
      SubscribePostsOnce(s, front, x, ch, self);
      var told := Post(s, Subscribe(last.client, last.channel));
      assert SubscribePosts(s, rows) == SubscribePosts(s, front) + [told];
      CountSnoc(IsPost(Post(s, Subscribe(x, ch))), SubscribePosts(s, front), told);
    }
    CountExt((r: Subscription) => r == Subscription(self, x, ch), same, rows);
  }

  lemma {:induction false} SessionPostsCount(n: Node, s: Id, keys: seq<Id>)
    ensures |SessionPosts(n, s, keys)| == Count((t: Id) => Listed(n, s, t), keys)
    ensures forall p :: p in SessionPosts(n, s, keys) ==> p.msg.Session?
  {
    var listed := (t: Id) => Listed(n, s, t);
    if keys != [] {
      SessionPostsCount(n, s, keys[..|keys| - 1]);
      CountExt((t: Id) => Listed(n, s, t), listed, keys[..|keys| - 1]);
      CountExt((t: Id) => Listed(n, s, t), listed, keys);
    }
  }

  /** Of every local client and every local subscription a snapshot tells once. */
  lemma SyncOnce(n: Node, s: Id, registered: bool, x: Id, ch: Str)
    requires WellFormed(n) && s in n.sessions && n.sessions[s].open
    ensures Count(IsPost(Post(s, Join(x))), Sync(n, s, registered)) == if ClientRow(x, n.id) in n.clients then 1 else 0
    ensures Count(IsPost(Post(s, Subscribe(x, ch))), Sync(n, s, registered))
         == if Subscription(n.id, x, ch) in n.subscriptions then 1 else 0
  {
    var peers := if registered then [] else SessionPosts(n, s, Ordered(n.sessions.Keys));
    var rows, subs := Filter(LearntFrom(n.id), n.clients), Filter(SubFrom(n.id), n.subscriptions);
    var joins, more := JoinPosts(s, rows), SubscribePosts(s, subs);
    assert Sync(n, s, registered) == peers + joins + more;
    SessionPostsCount(n, s, Ordered(n.sessions.Keys));
    var j, u := IsPost(Post(s, Join(x))), IsPost(Post(s, Subscribe(x, ch)));
    CountAppend(j, peers + joins, more);
    CountAppend(j, peers, joins);
    CountAppend(u, peers + joins, more);
    CountAppend(u, peers, joins);
    CountNone(j, peers);
    CountNone(u, peers);
    CountNone(j, more);
    CountNone(u, joins);
    JoinPostsOnce(s, rows, x);
    ClientOnce(n, x);
    SubscriptionOnce(n, s, x, ch);
  }

  lemma ClientOnce(n: Node, x: Id)
    requires Distinct(IdOf(), n.clients)
    ensures Count(Called(x), Filter(LearntFrom(n.id), n.clients)) == if ClientRow(x, n.id) in n.clients then 1 else 0
  {
    var rows := Filter(LearntFrom(n.id), n.clients);
    FilterKeepsDistinct(IdOf(), LearntFrom(n.id), n.clients);
    forall r | r in rows ensures r.session == n.id {
      FilterMembers(LearntFrom(n.id), n.clients, r);
    }
    assert NoDuplicates(rows) by {
      forall i, j | 0 <= i < j < |rows| ensures rows[i] != rows[j] {
        assert IdOf()(rows[i]) != IdOf()(rows[j]);
      }
    }
    FilterMembers(LearntFrom(n.id), n.clients, ClientRow(x, n.id));
    CountOnce(Called(x), rows, ClientRow(x, n.id));
  }

  lemma SubscriptionOnce(n: Node, s: Id, x: Id, ch: Str)
    requires NoDuplicates(n.subscriptions)
    ensures Count(IsPost(Post(s, Subscribe(x, ch))), SubscribePosts(s, Filter(SubFrom(n.id), n.subscriptions)))
         == if Subscription(n.id, x, ch) in n.subscriptions then 1 else 0
  {
    var subs := Filter(SubFrom(n.id), n.subscriptions);
    forall r | r in subs ensures r.session == n.id {
      FilterMembers(SubFrom(n.id), n.subscriptions, r);
    }
    FilterKeepsNoDuplicates(SubFrom(n.id), n.subscriptions);
    FilterMembers(SubFrom(n.id), n.subscriptions, Subscription(n.id, x, ch));
    SubscribePostsOnce(s, subs, x, ch, n.id);
    CountOnce((r: Subscription) => r == Subscription(n.id, x, ch), subs, Subscription(n.id, x, ch));
  }

  lemma SyncInTurn(n: Node, s: Id, registered: bool, i: nat, j: nat)
    requires i < j < |Sync(n, s, registered)|
    ensures Turn(Sync(n, s, registered)[i].msg) <= Turn(Sync(n, s, registered)[j].msg)
  {
    SessionPostsCount(n, s, Ordered(n.sessions.Keys));
    var peers := if registered then [] else SessionPosts(n, s, Ordered(n.sessions.Keys));
    var joins := JoinPosts(s, Filter(LearntFrom(n.id), n.clients));
    assert forall k :: 0 <= k < |peers| ==> peers[k] in peers;
  }

  // What is answered, and done about sessions

  /** A session message about a known peer changes nothing; about any other it makes one session and dials it. */
  lemma SessionIs(n: Node, s: Id, host: Str, sessionsPort: nat, clientsPort: nat, newId: Id)
    ensures var out := OnPeer(n, s, Session(host, sessionsPort, clientsPort), newId);
      var known := (exists t ::
        t in n.sessions && n.sessions[t].host == host
        && n.sessions[t].sessionsPort == sessionsPort && n.sessions[t].clientsPort == clientsPort);
      && out.effects.posts == [] && out.effects.deliveries == []
      && (known ==> out.node == n && out.effects.dial == None && out.effects.reply == Success(NoEffect, None))
      && (!known ==>
            && out.effects.dial == Some(Dial(newId, host, sessionsPort)) && out.effects.reply == Success(Ok, None)
            && (newId !in n.sessions ==>
                  out.node == n.(sessions := n.sessions[newId :=
                    Peer(Plain(""), sessionsPort % 65536, clientsPort % 65536, false, false)])))
  {
    assert PeerKnown(n, host, sessionsPort, clientsPort) <==>
      (exists t ::
        t in n.sessions && n.sessions[t].host == host
        && n.sessions[t].sessionsPort == sessionsPort && n.sessions[t].clientsPort == clientsPort) by {
      assert forall t :: t in n.sessions ==> (Matches(n.sessions[t], host, sessionsPort, clientsPort)
        <==> Peer(host, sessionsPort, clientsPort, n.sessions[t].registered, n.sessions[t].open) == n.sessions[t]);
    }
  }

  /** A register message fills in its own session, ports cut to 16 bits, and is answered by the snapshot. */
  lemma RegisterIs(n: Node, s: Id, registered: bool, clientsPort: nat, sessionsPort: nat, newId: Id)
    ensures var out := OnPeer(n, s, Register(registered, clientsPort, sessionsPort), newId);
      && out.effects.deliveries == [] && out.effects.dial == None
      && (s !in n.sessions ==> out.node == n && out.effects.posts == [] && out.effects.reply == Success(NoEffect, None))
      && (s in n.sessions ==>
            && out.node == n.(sessions := n.sessions[s := Peer(n.sessions[s].host, sessionsPort % 65536,
                                                               clientsPort % 65536, true, n.sessions[s].open)])
            && out.effects.posts == Sync(out.node, s, registered) && out.effects.reply == Success(Ok, None))
  {
  }

  /** The answer to a request on a session says whether it had an effect. */
  lemma PeerReplies(n: Node, s: Id, m: Message, newId: Id)
    ensures var reply := OnPeer(n, s, m, newId).effects.reply;
      match m
      case Ping => reply == Success(Pong, None)
      case Ack => reply == Silent
      case Register(_, _, _) => reply == Success(if s in n.sessions then Ok else NoEffect, None)
      case Session(_, _, _) => reply.Success?
      case Join(c) => reply == Success(if exists r :: r in n.clients && r.id == c then NoEffect else Ok, None)
      case Leave(c) => reply == Success(if exists r :: r in n.clients && r.id == c then Ok else NoEffect, None)
      case Subscribe(c, ch) =>
        reply == Success(if Subscription(s, c, ch) in n.subscriptions then NoEffect else Ok, None)
      case Unsubscribe(c, ch) =>
        reply == Success(if Subscription(s, c, ch) in n.subscriptions then Ok else NoEffect, None)
      case IsSubscribed(_) => reply == Success(NoEffect, None)
      case Broadcast(_, _, _) => CountReply(n, reply)
      case Publish(_, _, _, _) => CountReply(n, reply)
      case Send(_, to, _) =>
        Distinct(IdOf(), n.clients) ==>
          reply == Success(if ClientRow(to, n.id) in n.clients then Ok else NoEffect, None)
      case Unimplemented => reply == Failed
  {
    match m
    case Leave(c) => ErasureShows(NotCalled(c), n.clients);
    case Unsubscribe(c, ch) => ErasureShows(OtherThan(Subscription(s, c, ch)), n.subscriptions);
    case Join(c) => assert n.clients + [ClientRow(c, s)] != n.clients;
    case Subscribe(c, ch) => assert n.subscriptions + [Subscription(s, c, ch)] != n.subscriptions;
    case Broadcast(_, _, _) => OthersAreCounted(n);
    case Publish(_, _, _, _) => OthersAreCounted(n);
    case Send(_, to, _) =>
      if Distinct(IdOf(), n.clients) {
        SessionOfClientIs(n.clients, to);
      }
    case _ =>
  }

  /** A count of the others, and ok exactly if there are any. */
  predicate CountReply(n: Node, reply: Reply) {
    0 < |n.clients| < 0x1_0000_0000_0000_0000 ==>
      reply == Success(if |n.clients| > 1 then Ok else NoEffect, Some(|n.clients| - 1))
  }

  lemma OthersAreCounted(n: Node)
    ensures 0 < |n.clients| < 0x1_0000_0000_0000_0000 ==> OthersCount(n) == |n.clients| - 1
  {
    if 0 < |n.clients| < WORDS {
      OthersCountIs(n);
    }
  }

  /** Rows are fewer after an erasure exactly if one of them was to go. */
  lemma {:induction false} ErasureShows<T>(keep: T -> bool, rows: seq<T>)
    ensures Filter(keep, rows) != rows <==> exists r :: r in rows && !keep(r)
  {
    if forall r :: r in rows ==> keep(r) {
      FilterAll(keep, rows);
    } else {
      var r :| r in rows && !keep(r);
      FilterMembers(keep, rows, r);
    }
  }

  /** And so does the answer to a client. */
  lemma LocalReplies(n: Node, c: Id, m: Message)
    ensures var reply := OnLocal(n, c, m).effects.reply;
      match m
      case Ping => reply == Success(Pong, None)
      case Ack => reply == Silent
      case Register(_, _, _) => reply == Success(NoEffect, None)
      case Session(_, _, _) => reply == Success(NoEffect, None)
      case Join(_) => reply == Success(NoEffect, None)
      case Leave(_) => reply == Success(NoEffect, None)
      case Subscribe(_, ch) =>
        reply == Success(if Subscription(n.id, c, ch) in n.subscriptions then NoEffect else Ok, None)
      case Unsubscribe(_, ch) =>
        reply == Success(if Subscription(n.id, c, ch) in n.subscriptions then Ok else NoEffect, None)
      case IsSubscribed(ch) =>
        reply == Success(if exists r :: r in n.subscriptions && r.client == c && r.channel == ch then Yes else No, None)
      case Broadcast(_, _, _) => CountReply(n, reply)
      case Publish(_, _, _, _) => CountReply(n, reply)
      case Send(_, to, _) => reply == Success(if exists r :: r in n.clients && r.id == to then Ok else NoEffect, None)
      case Unimplemented => reply == Failed
  {
    match m
    case Unsubscribe(_, ch) => ErasureShows(OtherThan(Subscription(n.id, c, ch)), n.subscriptions);
    case Subscribe(_, ch) => assert n.subscriptions + [Subscription(n.id, c, ch)] != n.subscriptions;
    case Broadcast(_, _, _) => OthersAreCounted(n);
    case Publish(_, _, _, _) => OthersAreCounted(n);
    case Send(_, to, _) => FoundIsThere(n.clients, to);
    case _ =>
  }

  lemma {:induction false} FoundIsThere(rows: seq<ClientRow>, c: Id)
    ensures SessionOfClient(rows, c) == None <==> forall r :: r in rows ==> r.id != c
  {
    if rows != [] {
      assert rows == rows[..|rows| - 1] + [rows[|rows| - 1]];
      FoundIsThere(rows[..|rows| - 1], c);
    }
  }

  /** A client's request changes its own subscriptions at most. */
  lemma LocalTables(n: Node, c: Id, m: Message)
    ensures var out := OnLocal(n, c, m);
      && out.node == n.(subscriptions := out.node.subscriptions) && out.effects.dial == None
      && (match m
          case Subscribe(_, ch) =>
            forall r :: r in out.node.subscriptions <==> r in n.subscriptions || r == Subscription(n.id, c, ch)
          case Unsubscribe(_, ch) =>
            forall r :: r in out.node.subscriptions <==> r in n.subscriptions && r != Subscription(n.id, c, ch)
          case _ => out.node == n)
  {
    match m
    case Subscribe(_, ch) => assert OnLocal(n, c, m).node == AddSubscription(n, Subscription(n.id, c, ch));
    case Unsubscribe(_, ch) =>
      UnsubscribedAre(n, Subscription(n.id, c, ch));
      assert OnLocal(n, c, m).node == RemoveSubscription(n, Subscription(n.id, c, ch));
    case _ =>
  }

  /** And is told to every open session, to those with a row on the channel, or to one, once each. */
  lemma LocalTells(n: Node, c: Id, m: Message)
    ensures var e := OnLocal(n, c, m).effects;
      match m
      case Subscribe(_, ch) =>
        e.deliveries == [] && OncePerOpen(e.posts, n.sessions, n.sessions.Keys, Subscribe(c, ch))
      case Unsubscribe(_, ch) =>
        e.deliveries == [] && OncePerOpen(e.posts, n.sessions, n.sessions.Keys, Unsubscribe(c, ch))
      case Broadcast(t, _, y) => OncePerOpen(e.posts, n.sessions, n.sessions.Keys, Broadcast(t, c, y))
      case Publish(t, _, ch, y) =>
        OncePerOpen(e.posts, n.sessions,
                    set r | r in n.subscriptions && r.channel == ch :: r.session, Publish(t, c, ch, y))
      case Send(_, to, y) => SentOn(n, to, Send(c, to, y), e)
      case _ => e.posts == [] && e.deliveries == []
  {
    match m
    case Subscribe(_, ch) => PostsOnce(n, ch, 0, Subscribe(c, ch));
    case Unsubscribe(_, ch) => PostsOnce(n, ch, 0, Unsubscribe(c, ch));
    case Broadcast(t, _, y) => PostsOnce(n, NO_HOST, 0, Broadcast(t, c, y));
    case Publish(t, _, ch, y) => PostsOnce(n, ch, 0, Publish(t, c, ch, y));
    case Send(_, to, y) => SendActs(n, c, to, y);
    case _ =>
  }

  /** Handed over here, or posted once on the session of the addressee's row; lost without a row. */
  ghost predicate SentOn(n: Node, to: Id, m: Message, e: Effects) {
    && (Distinct(IdOf(), n.clients) ==>
          forall r :: r in n.clients && r.id == to ==>
            (if r.session == n.id then e.posts == [] && e.deliveries == [Delivery(to, m)]
             else e.deliveries == [] && OncePerOpen(e.posts, n.sessions, {r.session}, m)))
    && ((forall r :: r in n.clients ==> r.id != to) ==> e.posts == [] && e.deliveries == [])
  }

  lemma UnsubscribedAre(n: Node, sub: Subscription)
    ensures forall r :: r in RemoveSubscription(n, sub).subscriptions <==> r in n.subscriptions && r != sub
  {
    forall r ensures r in RemoveSubscription(n, sub).subscriptions <==> r in n.subscriptions && r != sub {
      FilterMembers(OtherThan(sub), n.subscriptions, r);
    }
  }

  lemma SendActs(n: Node, c: Id, to: Id, y: Value)
    ensures SentOn(n, to, Send(c, to, y), OnLocal(n, c, Send(c, to, y)).effects)
  {
    FoundIsThere(n.clients, to);
    forall r | Distinct(IdOf(), n.clients) && r in n.clients && r.id == to
      ensures SessionOfClient(n.clients, to) == Some(r.session)
    {
      SessionOfClientIs(n.clients, to);
      assert r == ClientRow(to, r.session);
    }
    if SessionOfClient(n.clients, to).Some? {
      PostsOnce(n, NO_HOST, SessionOfClient(n.clients, to).value, Send(c, to, y));
    }
  }

  /** What a peer's announcement does to the tables: rows are entered and struck under its session. */
  lemma PeerTables(n: Node, s: Id, m: Message, newId: Id)
    ensures var after := OnPeer(n, s, m, newId).node;
      match m
      case Register(_, _, _) => after == n.(sessions := after.sessions)
      case Session(_, _, _) => after == n.(sessions := after.sessions)
      case Join(c) =>
        && after == n.(clients := after.clients)
        && (forall r :: r in after.clients
              <==> r in n.clients || (r == ClientRow(c, s) && forall x :: x in n.clients ==> x.id != c))
      case Leave(c) =>
        && after == n.(clients := after.clients)
        && (forall r :: r in after.clients <==> r in n.clients && r.id != c)
      case Subscribe(c, ch) =>
        && after == n.(subscriptions := after.subscriptions)
        && (forall r :: r in after.subscriptions <==> r in n.subscriptions || r == Subscription(s, c, ch))
      case Unsubscribe(c, ch) =>
        && after == n.(subscriptions := after.subscriptions)
        && (forall r :: r in after.subscriptions <==> r in n.subscriptions && r != Subscription(s, c, ch))
      case _ => after == n
  {
    match m
    case Join(c) => assert OnPeer(n, s, m, newId).node == AddClient(n, ClientRow(c, s));
    case Leave(c) => LeftAre(n, c);
    case Subscribe(c, ch) => assert OnPeer(n, s, m, newId).node == AddSubscription(n, Subscription(s, c, ch));
    case Unsubscribe(c, ch) => UnsubscribedAre(n, Subscription(s, c, ch));
    case _ =>
  }

  lemma LeftAre(n: Node, c: Id)
    ensures forall r :: r in RemoveClient(n, c).clients <==> r in n.clients && r.id != c
  {
    forall r: ClientRow ensures r in RemoveClient(n, c).clients <==> r in n.clients && r.id != c {
      FilterMembers(NotCalled(c), n.clients, r);
    }
  }

  /** A client that comes has a row here, one that goes has none, and every open session is told once. */
  lemma LocalsComeAndGo(n: Node, c: Id)
    ensures var came := Arrive(n, c);
      && came.node == n.(clients := came.node.clients)
      && (forall r :: r in came.node.clients
            <==> r in n.clients || (r == ClientRow(c, n.id) && forall x :: x in n.clients ==> x.id != c))
      && OncePerOpen(came.effects.posts, n.sessions, n.sessions.Keys, Join(c)) && came.effects.deliveries == []
    ensures var gone := Depart(n, c);
      && gone.node == n.(clients := gone.node.clients)
      && (forall r :: r in gone.node.clients <==> r in n.clients && r.id != c)
      && OncePerOpen(gone.effects.posts, n.sessions, n.sessions.Keys, Leave(c)) && gone.effects.deliveries == []
  {
    LeftAre(n, c);
    PostsOnce(AddClient(n, ClientRow(c, n.id)), NO_HOST, 0, Join(c));
    PostsOnce(RemoveClient(n, c), NO_HOST, 0, Leave(c));
  }

  /** A session object that goes takes its own rows along, and no others. */
  lemma PurgedAre(n: Node, s: Id)
    ensures var after := Purge(n, s);
      && after.id == n.id && after.sessions == n.sessions
      && (forall r :: r in after.clients <==> r in n.clients && r.session != s)
      && (forall r :: r in after.subscriptions <==> r in n.subscriptions && r.session != s)
  {
    forall r: ClientRow ensures r in Purge(n, s).clients <==> r in n.clients && r.session != s {
      FilterMembers(NotLearntFrom(s), n.clients, r);
    }
    forall r: Subscription ensures r in Purge(n, s).subscriptions <==> r in n.subscriptions && r.session != s {
      FilterMembers(NotSubFrom(s), n.subscriptions, r);
    }
  }
}
