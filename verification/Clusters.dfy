/**
 * Many nodes joined by links. A link is a pair of session objects wired to each other; what is posted on
 * one arrives at the other. Packets are delivered in any order, which includes the order of the links.
 */
module Clusters {
  import opened Sequences
  import opened Json
  import opened Messages
  import opened Nodes

  /** A session object: the node that owns it and its id there. */
  datatype End = End(node: Id, session: Id)

  datatype Packet = Packet(to: End, msg: Message)

  /** A connection being made for a session object. */
  datatype Dialing = Dialing(at: End, host: Str, sessionsPort: nat)

  /** How far on_accept has got on the dialling side: the flag is read, then set, then the message sent. */
  datatype Stage = Entered | Loaded(before: bool) | Stored(before: bool)

  /** A session object whose connection is open and whose register message is still to be sent. */
  datatype Accepting = Accepting(at: End, stage: Stage)

  datatype Cluster = Cluster(
    nodes: map<Id, Node>,
    address: Id -> Address,      // what each node listens on
    started: set<Id>,            // nodes that have dialled the peer they were configured with
    registered: set<Id>,         // nodes whose registered flag is set
    wire: map<End, End>,
    flight: seq<Packet>,
    dials: seq<Dialing>,
    accepting: seq<Accepting>,
    log: seq<Delivery>)          // everything handed to client sockets

  datatype Step =
    // the network and the nodes among themselves
    | Deliver(i: nat, newId: Id)
    | Lose(i: nat)
    | Connect(i: nat, target: Id, remote: Id)
    | Load(i: nat)
    | Store(i: nat)
    | Say(i: nat)
    // the outside world
    | Request(node: Id, client: Id, m: Message)
    | Accept(node: Id, client: Id)
    | Close(node: Id, client: Id)
    | Start(node: Id, newId: Id, peer: Address)
    | Drop(end: End)
    | Destroy(end: End)

  predicate Internal(step: Step) {
    step.Deliver? || step.Lose? || step.Connect? || step.Load? || step.Store? || step.Say?
  }

  /** The session object is in its node's map. Only then does it still read what arrives. */
  ghost predicate Listening(nodes: map<Id, Node>, e: End) {
    e.node in nodes && e.session in nodes[e.node].sessions
  }

  /** A session id nobody has used. */
  ghost predicate Unused(c: Cluster, s: Id) {
    && s !in c.nodes
    && (forall k :: k in c.nodes ==> s !in c.nodes[k].sessions)
    && (forall e :: e in c.wire ==> e.session != s && c.wire[e].session != s)
    && (forall d :: d in c.dials ==> d.at.session != s)
  }

  ghost predicate LocalAt(c: Cluster, h: Id, x: Id) {
    h in c.nodes && ClientRow(x, h) in c.nodes[h].clients
  }

  ghost predicate Enabled(c: Cluster, step: Step) {
    match step
    case Deliver(i, newId) => i < |c.flight| && Listening(c.nodes, c.flight[i].to) && Unused(c, newId)
    case Lose(i) => i < |c.flight| && !Listening(c.nodes, c.flight[i].to)
    case Connect(i, target, remote) =>
      && i < |c.dials| && c.dials[i].at.node in c.nodes && target in c.nodes && Unused(c, remote)
      && c.address(target).host == c.dials[i].host && c.address(target).sessionsPort == c.dials[i].sessionsPort
    case Load(i) => i < |c.accepting| && c.accepting[i].stage.Entered?
    case Store(i) => i < |c.accepting| && c.accepting[i].stage.Loaded?
    case Say(i) => i < |c.accepting| && c.accepting[i].stage.Stored? && c.accepting[i].at in c.wire
    case Request(n, x, _) => LocalAt(c, n, x)
    case Accept(n, x) =>
      && n in c.nodes
      && (forall k, r :: k in c.nodes && r in c.nodes[k].clients ==> r.id != x)
      && (forall p :: p in c.flight && (p.msg.Leave? || p.msg.Join?) ==> p.msg.client != x)
    case Close(n, x) => LocalAt(c, n, x)
    case Start(n, newId, _) => n in c.nodes && n !in c.started && Unused(c, newId)
    case Drop(e) => e.node in c.nodes
    case Destroy(e) => e.node in c.nodes && e.session != e.node && e.session !in c.nodes[e.node].sessions
  }

  /** What posts of one node become once on their links. */
  function Packets(wire: map<End, End>, node: Id, posts: seq<Post>): seq<Packet> {
    if posts == [] then []
    else
      var p := posts[|posts| - 1];
      Packets(wire, node, posts[..|posts| - 1])
      + (if End(node, p.session) in wire then [Packet(wire[End(node, p.session)], p.msg)] else [])
  }

  lemma PacketsSnoc(wire: map<End, End>, node: Id, posts: seq<Post>, p: Post)
    ensures var e := End(node, p.session);
      Packets(wire, node, posts + [p])
        == if e in wire then Packets(wire, node, posts) + [Packet(wire[e], p.msg)] else Packets(wire, node, posts)
  {
    assert (posts + [p])[..|posts|] == posts;
    assert Packets(wire, node, posts) + [] == Packets(wire, node, posts);
  }

  function AckPackets(wire: map<End, End>, at: End, reply: Reply): seq<Packet> {
    if reply != Silent && at in wire then [Packet(wire[at], Ack)] else []
  }

  function NewDials(node: Id, dial: Option<Dial>): seq<Dialing> {
    match dial
    case None => []
    case Some(d) => [Dialing(End(node, d.session), d.host, d.sessionsPort)]
  }

  ghost function Delivered(c: Cluster, i: nat, newId: Id): Cluster
    requires Enabled(c, Deliver(i, newId))
  {
    var p := c.flight[i];
    var o := OnPeer(c.nodes[p.to.node], p.to.session, p.msg, newId);
    c.(nodes := c.nodes[p.to.node := o.node],
       flight := Without(c.flight, i)
         + (Packets(c.wire, p.to.node, o.effects.posts) + AckPackets(c.wire, p.to, o.effects.reply)),
       dials := c.dials + NewDials(p.to.node, o.effects.dial),
       log := c.log + o.effects.deliveries)
  }

  /** Both ends open; the dialling one still has to register. */
  ghost function Connected(c: Cluster, i: nat, target: Id, remote: Id): Cluster
    requires Enabled(c, Connect(i, target, remote))
  {
    var d := c.dials[i];
    var a, me := End(target, remote), d.at.node;
    var nodes := c.nodes[target := AddSession(c.nodes[target], remote, Peer(c.address(me).host, 0, 0, false, true))];
    c.(nodes := nodes[me := Opened(nodes[me], d.at.session, d.host)],
       wire := c.wire[a := d.at][d.at := a],
       accepting := c.accepting + [Accepting(d.at, Entered)],
       dials := Without(c.dials, i))
  }

  function At(a: Accepting, stage: Stage): Accepting { a.(stage := stage) }

  /** The register message, saying what was read from the flag. */
  function Registration(c: Cluster, a: Accepting): Message
    requires a.stage.Stored?
  {
    Introduction(a.stage.before, c.address(a.at.node))
  }

  ghost function Said(c: Cluster, i: nat): Cluster
    requires Enabled(c, Say(i))
  {
    var a := c.accepting[i];
    c.(flight := c.flight + [Packet(c.wire[a.at], Registration(c, a))], accepting := Without(c.accepting, i))
  }

  ghost function Next(c: Cluster, step: Step): Cluster
    requires Enabled(c, step)
  {
    match step
    case Deliver(i, newId) => Delivered(c, i, newId)
    case Lose(i) => c.(flight := Without(c.flight, i))
    case Connect(i, target, remote) => Connected(c, i, target, remote)
    case Load(i) =>
      var a := c.accepting[i];
      c.(accepting := c.accepting[i := At(a, Loaded(a.at.node in c.registered))])
    case Store(i) =>
      var a := c.accepting[i];
      c.(registered := c.registered + {a.at.node}, accepting := c.accepting[i := At(a, Stored(a.stage.before))])
    case Say(i) => Said(c, i)
    case Request(n, x, m) =>
      var o := OnLocal(c.nodes[n], x, m);
      c.(nodes := c.nodes[n := o.node],
         flight := c.flight + Packets(c.wire, n, o.effects.posts),
         log := c.log + o.effects.deliveries)
    case Accept(n, x) =>
      var o := Arrive(c.nodes[n], x);
      c.(nodes := c.nodes[n := o.node], flight := c.flight + Packets(c.wire, n, o.effects.posts))
    case Close(n, x) =>
      var o := Depart(c.nodes[n], x);
      c.(nodes := c.nodes[n := o.node], flight := c.flight + Packets(c.wire, n, o.effects.posts))
    case Start(n, newId, p) =>
      c.(nodes := c.nodes[n := AddSession(c.nodes[n], newId, Dialled(p.sessionsPort, p.clientsPort))],
         dials := c.dials + [Dialing(End(n, newId), p.host, p.sessionsPort)],
         started := c.started + {n})
    case Drop(e) => c.(nodes := c.nodes[e.node := RemoveSession(c.nodes[e.node], e.session)])
    case Destroy(e) => c.(nodes := c.nodes[e.node := Purge(c.nodes[e.node], e.session)])
  }

  ghost predicate Legal(c: Cluster, steps: seq<Step>)
    decreases |steps|
  {
    steps == [] || (Enabled(c, steps[0]) && Legal(Next(c, steps[0]), steps[1..]))
  }

  ghost function Run(c: Cluster, steps: seq<Step>): Cluster
    requires Legal(c, steps)
    decreases |steps|
  {
    if steps == [] then c else Run(Next(c, steps[0]), steps[1..])
  }

  /** Nodes that have just been created: no session, nothing in flight. */
  ghost predicate Fresh(c: Cluster) {
    && c.started == {} && c.registered == {} && c.wire == map[]
    && c.flight == [] && c.dials == [] && c.accepting == [] && c.log == []
    && (forall k :: k in c.nodes ==> c.nodes[k] == Node(k, map[], [], []))
  }

  // What each action can put on the links

  predicate FromSnapshot(m: Message, s: Id, p: Post) {
    && m.Register? && p.session == s
    && (p.msg.Join? || p.msg.Subscribe? || (p.msg.Session? && !m.registered))
  }

  lemma {:induction false} SessionPostsTo(n: Node, s: Id, keys: seq<Id>, p: Post)
    requires p in SessionPosts(n, s, keys)
    ensures p.session == s && p.msg.Session?
  {
    if keys != [] && p in SessionPosts(n, s, keys[..|keys| - 1]) {
      SessionPostsTo(n, s, keys[..|keys| - 1], p);
    }
  }

  /** On a session only register makes a node post anything, and only back to the registering peer. */
  lemma PeerPosts(n: Node, s: Id, m: Message, newId: Id, p: Post)
    requires p in OnPeer(n, s, m, newId).effects.posts
    ensures FromSnapshot(m, s, p)
  {
    var after := RegisterPeer(n, s, m.clientsPort, m.sessionsPort);
    var keys := Ordered(after.sessions.Keys);
    if !m.registered && p in SessionPosts(after, s, keys) {
      SessionPostsTo(after, s, keys, p);
    }
  }

  lemma {:induction false} FanoutSays(keys: seq<Id>, sessions: map<Id, Peer>, who: set<Id>, m: Message, p: Post)
    requires p in Fanout(keys, sessions, who, m)
    ensures p.msg == m && Reachable(sessions, who, p.session)
  {
    if keys != [] && p in Fanout(keys[..|keys| - 1], sessions, who, m) {
      FanoutSays(keys[..|keys| - 1], sessions, who, m, p);
    }
  }

  lemma LocalPosts(n: Node, x: Id, m: Message, p: Post)
    requires p in OnLocal(n, x, m).effects.posts
    ensures p.msg.Subscribe? || p.msg.Unsubscribe? || p.msg.Broadcast? || p.msg.Publish? || p.msg.Send?
  {
    var keys, all := Ordered(n.sessions.Keys), n.sessions.Keys;
    match m
    case Subscribe(_, ch) => FanoutSays(keys, n.sessions, all, Subscribe(x, ch), p);
    case Unsubscribe(_, ch) => FanoutSays(keys, n.sessions, all, Unsubscribe(x, ch), p);
    case Broadcast(t, _, y) => FanoutSays(keys, n.sessions, all, Broadcast(t, x, y), p);
    case Publish(t, _, ch, y) =>
      FanoutSays(keys, n.sessions, Subscribed(Filter(OnChannel(ch), n.subscriptions)), Publish(t, x, ch, y), p);
    case Send(_, to, y) => FanoutSays(keys, n.sessions, {SessionOfClient(n.clients, to).value}, Send(x, to, y), p);
    case _ =>
  }

  /** Every packet comes from a post, over that session's wire. */
  lemma {:induction false} PacketsFrom(wire: map<End, End>, node: Id, posts: seq<Post>, q: Packet)
    requires q in Packets(wire, node, posts)
    ensures exists p :: p in posts && End(node, p.session) in wire && q == Packet(wire[End(node, p.session)], p.msg)
  {
    var front, last := posts[..|posts| - 1], posts[|posts| - 1];
    if q in Packets(wire, node, front) {
      PacketsFrom(wire, node, front, q);
      var p :| p in front && End(node, p.session) in wire && q == Packet(wire[End(node, p.session)], p.msg);
      assert p in posts;
    } else {
      assert last in posts;
    }
  }

  lemma WithoutMembers<T>(s: seq<T>, i: nat, x: T)
    requires i < |s| && x in Without(s, i)
    ensures x in s
  {
  }

  function IsPacket(q: Packet): Packet -> bool { (p: Packet) => p == q }

  /** Whatever is read on a link is answered by one ack to where it came from, and an ack by none. */
  lemma AnsweredOnce(c: Cluster, i: nat, newId: Id)
    requires Enabled(c, Deliver(i, newId)) && c.flight[i].to in c.wire
    ensures var p := c.flight[i]; var answer := Packet(c.wire[p.to], Ack);
      Count(IsPacket(answer), Next(c, Deliver(i, newId)).flight)
      == Count(IsPacket(answer), Without(c.flight, i)) + (if p.msg.Ack? then 0 else 1)
  {
    var p := c.flight[i];
    var answer := Packet(c.wire[p.to], Ack);
    var o := OnPeer(c.nodes[p.to.node], p.to.session, p.msg, newId);
    var packets, acks := Packets(c.wire, p.to.node, o.effects.posts), AckPackets(c.wire, p.to, o.effects.reply);
    CountAppend(IsPacket(answer), Without(c.flight, i), packets + acks);
    CountAppend(IsPacket(answer), packets, acks);
    forall q | q in packets ensures q != answer {
      PacketsFrom(c.wire, p.to.node, o.effects.posts, q);
      var post :| post in o.effects.posts && q.msg == post.msg;
      PeerPosts(c.nodes[p.to.node], p.to.session, p.msg, newId, post);
    }
    CountNone(IsPacket(answer), packets);
    if !p.msg.Ack? {
      CountSingle(IsPacket(answer), answer);
    }
  }

  // The wiring of a reachable cluster

  function AtOf(): Dialing -> End { (d: Dialing) => d.at }

  /** Wires join two different session objects, each way round. */
  ghost predicate Paired(wire: map<End, End>, nodes: set<Id>) {
    && (forall e :: e in wire ==> wire[e] in wire && wire[wire[e]] == e)
    && (forall e :: e in wire ==> e.node in nodes && e.session !in nodes)
  }

  ghost predicate Routable(flight: seq<Packet>, wire: map<End, End>) {
    forall p :: p in flight ==> p.to in wire
  }

  ghost predicate Unwired(dials: seq<Dialing>, wire: map<End, End>, nodes: set<Id>) {
    && (forall d :: d in dials ==> d.at !in wire && d.at.node in nodes && d.at.session !in nodes)
    && Distinct(AtOf(), dials)
  }

  ghost predicate Answerable(accepting: seq<Accepting>, wire: map<End, End>) {
    forall a :: a in accepting ==> a.at in wire
  }

  ghost predicate Named(nodes: map<Id, Node>) {
    forall k :: k in nodes ==> nodes[k].id == k
  }

  ghost predicate Wired(c: Cluster) {
    && Paired(c.wire, c.nodes.Keys) && Routable(c.flight, c.wire) && Unwired(c.dials, c.wire, c.nodes.Keys)
    && Answerable(c.accepting, c.wire) && Named(c.nodes)
  }

  lemma FreshWired(c: Cluster)
    requires Fresh(c)
    ensures Wired(c)
  {
  }

  lemma PacketsWired(wire: map<End, End>, node: Id, posts: seq<Post>, q: Packet)
    requires forall e :: e in wire ==> wire[e] in wire
    requires q in Packets(wire, node, posts)
    ensures q.to in wire
  {
    PacketsFrom(wire, node, posts, q);
  }

  /** Of the ends of wires a step silences at most one: the one it drops. */
  lemma StepListens(c: Cluster, step: Step, e: End)
    requires Wired(c) && Enabled(c, step) && e in c.wire && step != Drop(e)
    ensures Listening(Next(c, step).nodes, e) <==> Listening(c.nodes, e)
  {
    match step
    case Deliver(i, newId) =>
      var p := c.flight[i];
      PeerSessions(c.nodes[p.to.node], p.to.session, p.msg, newId);
      ListensAfter(c.nodes, p.to.node, OnPeer(c.nodes[p.to.node], p.to.session, p.msg, newId).node, e);
    case Lose(_) =>
    case Connect(i, target, remote) => ConnectListens(c, i, target, remote, e);
    case Load(_) =>
    case Store(_) =>
    case Say(_) =>
    case Request(n, x, m) =>
      LocalFrame(c.nodes[n], x, m);
      ListensAfter(c.nodes, n, OnLocal(c.nodes[n], x, m).node, e);
    case Accept(n, x) => ListensAfter(c.nodes, n, Arrive(c.nodes[n], x).node, e);
    case Close(n, x) => ListensAfter(c.nodes, n, Depart(c.nodes[n], x).node, e);
    case Start(n, newId, p) =>
      ListensAfter(c.nodes, n, AddSession(c.nodes[n], newId, Dialled(p.sessionsPort, p.clientsPort)), e);
    case Drop(d) => ListensAfter(c.nodes, d.node, RemoveSession(c.nodes[d.node], d.session), e);
    case Destroy(d) => ListensAfter(c.nodes, d.node, Purge(c.nodes[d.node], d.session), e);
  }

  lemma ListensAfter(nodes: map<Id, Node>, n: Id, after: Node, e: End)
    requires n in nodes && (e.node == n ==> (e.session in after.sessions <==> e.session in nodes[n].sessions))
    ensures Listening(nodes[n := after], e) <==> Listening(nodes, e)
  {
  }

  lemma ConnectListens(c: Cluster, i: nat, target: Id, remote: Id, e: End)
    requires Enabled(c, Connect(i, target, remote)) && e in c.wire
    ensures Listening(Connected(c, i, target, remote).nodes, e) <==> Listening(c.nodes, e)
  {
    var d := c.dials[i];
    var seat := AddSession(c.nodes[target], remote, Peer(c.address(d.at.node).host, 0, 0, false, true));
    ListensAfter(c.nodes, target, seat, e);
    var nodes := c.nodes[target := seat];
    ListensAfter(nodes, d.at.node, Opened(nodes[d.at.node], d.at.session, d.host), e);
  }

  /** A message from a peer adds at most the one new session and removes none. */
  lemma PeerSessions(n: Node, s: Id, m: Message, newId: Id)
    ensures n.sessions.Keys <= OnPeer(n, s, m, newId).node.sessions.Keys <= n.sessions.Keys + {newId}
  {
  }

  lemma {:induction false} WithoutDistinct<T, K>(key: T -> K, s: seq<T>, i: nat)
    requires Distinct(key, s) && i < |s|
    ensures Distinct(key, Without(s, i))
    ensures forall x :: x in Without(s, i) ==> key(x) != key(s[i])
  {
  }

  lemma DeliverWired(c: Cluster, i: nat, newId: Id)
    requires Wired(c) && Enabled(c, Deliver(i, newId))
    ensures Wired(Delivered(c, i, newId))
  {
    var p := c.flight[i];
    var o := OnPeer(c.nodes[p.to.node], p.to.session, p.msg, newId);
    var k := Delivered(c, i, newId);
    assert k.nodes.Keys == c.nodes.Keys;
    forall q | q in k.flight ensures q.to in c.wire {
      if q in Packets(c.wire, p.to.node, o.effects.posts) {
        PacketsWired(c.wire, p.to.node, o.effects.posts, q);
      } else if q in Without(c.flight, i) {
        WithoutMembers(c.flight, i, q);
      }
    }
  }

  lemma PairExtends(wire: map<End, End>, nodes: set<Id>, a: End, b: End)
    requires Paired(wire, nodes) && a !in wire && b !in wire && a != b
    requires {a.node, b.node} <= nodes && a.session !in nodes && b.session !in nodes
    ensures Paired(wire[a := b][b := a], nodes)
  {
  }

  lemma ConnectWired(c: Cluster, i: nat, target: Id, remote: Id)
    requires Wired(c) && Enabled(c, Connect(i, target, remote))
    ensures Wired(Connected(c, i, target, remote))
  {
    var k := Connected(c, i, target, remote);
    assert c.dials[i] in c.dials;
    PairExtends(c.wire, c.nodes.Keys, End(target, remote), c.dials[i].at);
    assert k.nodes.Keys == c.nodes.Keys;
    WithoutDistinct(AtOf(), c.dials, i);
    forall d | d in k.dials ensures d.at !in k.wire && d.at.node in c.nodes && d.at.session !in c.nodes {
      WithoutMembers(c.dials, i, d);
      assert AtOf()(d) != AtOf()(c.dials[i]);
    }
    assert Unwired(k.dials, k.wire, k.nodes.Keys);
    assert Routable(k.flight, k.wire);
  }

  /** A node changes its tables and posts something. */
  lemma TellWired(c: Cluster, n: Id, after: Node, posts: seq<Post>, log: seq<Delivery>)
    requires Wired(c) && n in c.nodes && after.id == n
    ensures Wired(c.(nodes := c.nodes[n := after], flight := c.flight + Packets(c.wire, n, posts), log := log))
  {
    assert c.nodes[n := after].Keys == c.nodes.Keys;
    forall q | q in c.flight + Packets(c.wire, n, posts) ensures q.to in c.wire {
      if q in Packets(c.wire, n, posts) {
        PacketsWired(c.wire, n, posts, q);
      }
    }
  }

  lemma RowsWired(c: Cluster, n: Id, after: Node)
    requires Wired(c) && n in c.nodes && after.id == n
    ensures Wired(c.(nodes := c.nodes[n := after]))
  {
    assert c.nodes[n := after].Keys == c.nodes.Keys;
  }

  lemma StartWired(c: Cluster, n: Id, newId: Id, p: Address)
    requires Wired(c) && Enabled(c, Start(n, newId, p))
    ensures Wired(Next(c, Start(n, newId, p)))
  {
    var k := Next(c, Start(n, newId, p));
    assert k.nodes.Keys == c.nodes.Keys;
    assert forall d :: d in c.dials ==> d.at != End(n, newId);
    assert Unwired(k.dials, k.wire, k.nodes.Keys);
  }

  lemma AdvanceWired(c: Cluster, i: nat, stage: Stage, registered: set<Id>)
    requires Wired(c) && i < |c.accepting|
    ensures Wired(c.(accepting := c.accepting[i := At(c.accepting[i], stage)], registered := registered))
  {
    var later := c.accepting[i := At(c.accepting[i], stage)];
    forall a | a in later ensures a.at in c.wire {
      assert a in c.accepting || a == At(c.accepting[i], stage);
    }
  }

  lemma SayWired(c: Cluster, i: nat)
    requires Wired(c) && Enabled(c, Say(i))
    ensures Wired(Said(c, i))
  {
    forall a | a in Without(c.accepting, i) ensures a.at in c.wire {
      WithoutMembers(c.accepting, i, a);
    }
  }

  lemma LoseWired(c: Cluster, i: nat)
    requires Wired(c) && Enabled(c, Lose(i))
    ensures Wired(Next(c, Lose(i)))
  {
    forall q | q in Without(c.flight, i) ensures q.to in c.wire {
      WithoutMembers(c.flight, i, q);
    }
  }

  lemma StepWired(c: Cluster, step: Step)
    requires Wired(c) && Enabled(c, step)
    ensures Wired(Next(c, step))
  {
    match step
    case Deliver(i, newId) => DeliverWired(c, i, newId);
    case Lose(i) => LoseWired(c, i);
    case Connect(i, target, remote) => ConnectWired(c, i, target, remote);
    case Load(i) => AdvanceWired(c, i, Loaded(c.accepting[i].at.node in c.registered), c.registered);
    case Store(i) => AdvanceWired(c, i, Stored(c.accepting[i].stage.before), Next(c, step).registered);
    case Say(i) => SayWired(c, i);
    case Request(n, x, m) =>
      var o := OnLocal(c.nodes[n], x, m);
      TellWired(c, n, o.node, o.effects.posts, c.log + o.effects.deliveries);
    case Accept(n, x) =>
      var o := Arrive(c.nodes[n], x);
      TellWired(c, n, o.node, o.effects.posts, c.log);
    case Close(n, x) =>
      var o := Depart(c.nodes[n], x);
      TellWired(c, n, o.node, o.effects.posts, c.log);
    case Start(n, newId, p) => StartWired(c, n, newId, p);
    case Drop(e) => RowsWired(c, e.node, RemoveSession(c.nodes[e.node], e.session));
    case Destroy(e) => RowsWired(c, e.node, Purge(c.nodes[e.node], e.session));
  }

  // on_accept undisturbed

  /**
   * The three steps of a handshake, one after the other with nothing in between, do what one undisturbed call
   * does: the flag is set and the register message says what it was before.
   */
  lemma UndisturbedRegisters(c: Cluster, i: nat)
    requires Enabled(c, Load(i)) && c.accepting[i].at in c.wire
    ensures var steps := [Load(i), Store(i), Say(i)]; var at := c.accepting[i].at; var a := c.address(at.node);
      && Legal(c, steps)
      && Run(c, steps) == c.(registered := c.registered + {at.node}, accepting := Without(c.accepting, i),
           flight := c.flight + [Packet(c.wire[at], Register(at.node in c.registered, a.clientsPort, a.sessionsPort))])
  {
    var loaded := Next(c, Load(i));
    var stored := Next(loaded, Store(i));
    LegalCons(stored, Say(i), []);
    LegalCons(loaded, Store(i), [Say(i)] + []);
    LegalCons(c, Load(i), [Store(i)] + ([Say(i)] + []));
    assert [Load(i)] + ([Store(i)] + ([Say(i)] + [])) == [Load(i), Store(i), Say(i)];
    assert Without(stored.accepting, i) == Without(c.accepting, i);
  }

  lemma LegalCons(c: Cluster, first: Step, rest: seq<Step>)
    requires Enabled(c, first) && Legal(Next(c, first), rest)
    ensures Legal(c, [first] + rest) && Run(c, [first] + rest) == Run(Next(c, first), rest)
  {
    assert ([first] + rest)[1..] == rest;
  }

  // Sessions that are no more

  /** The session object is in no map, hears nothing more, and has no rows. */
  ghost predicate Defunct(c: Cluster, e: End) {
    && e in c.wire && e.node in c.nodes && !Listening(c.nodes, e)
    && (forall r :: r in c.nodes[e.node].clients ==> r.session != e.session)
    && (forall r :: r in c.nodes[e.node].subscriptions ==> r.session != e.session)
  }

  lemma DefunctNode(nodes: map<Id, Node>, n: Id, after: Node, e: End)
    requires n in nodes && e.node in nodes
    requires e.node == n ==>
      && (forall r :: r in after.clients ==> r in nodes[n].clients || r.session != e.session)
      && (forall r :: r in after.subscriptions ==> r in nodes[n].subscriptions || r.session != e.session)
    requires forall r :: r in nodes[e.node].clients ==> r.session != e.session
    requires forall r :: r in nodes[e.node].subscriptions ==> r.session != e.session
    ensures forall r :: r in nodes[n := after][e.node].clients ==> r.session != e.session
    ensures forall r :: r in nodes[n := after][e.node].subscriptions ==> r.session != e.session
  {
  }

  lemma DefunctStep(c: Cluster, step: Step, e: End)
    requires Wired(c) && Enabled(c, step) && Defunct(c, e)
    ensures Defunct(Next(c, step), e)
  {
    DefunctWire(c, step, e);
    match step
    case Deliver(i, newId) =>
      var p := c.flight[i];
      PeerRows(c.nodes[p.to.node], p.to.session, p.msg, newId);
      DefunctNode(c.nodes, p.to.node, OnPeer(c.nodes[p.to.node], p.to.session, p.msg, newId).node, e);
    case Lose(_) =>
    case Connect(i, target, remote) =>
    case Load(_) =>
    case Store(_) =>
    case Say(_) =>
    case Request(n, x, m) =>
      LocalFrame(c.nodes[n], x, m);
      DefunctNode(c.nodes, n, OnLocal(c.nodes[n], x, m).node, e);
    case Accept(n, x) => DefunctNode(c.nodes, n, Arrive(c.nodes[n], x).node, e);
    case Close(n, x) =>
      FilterOnly(NotCalled(x), c.nodes[n].clients);
      DefunctNode(c.nodes, n, Depart(c.nodes[n], x).node, e);
    case Start(n, newId, p) =>
    case Drop(d) =>
    case Destroy(d) =>
      FilterOnly(NotLearntFrom(d.session), c.nodes[d.node].clients);
      FilterOnly(NotSubFrom(d.session), c.nodes[d.node].subscriptions);
      DefunctNode(c.nodes, d.node, Purge(c.nodes[d.node], d.session), e);
  }

  /** Wires stay, and so does silence. */
  lemma DefunctWire(c: Cluster, step: Step, e: End)
    requires Wired(c) && Enabled(c, step) && e in c.wire && e.node in c.nodes && !Listening(c.nodes, e)
    ensures e in Next(c, step).wire && e.node in Next(c, step).nodes && !Listening(Next(c, step).nodes, e)
  {
    if step != Drop(e) {
      StepListens(c, step, e);
    }
  }

  lemma FilterOnly<T>(p: T -> bool, s: seq<T>)
    ensures forall x :: x in Filter(p, s) ==> x in s && p(x)
  {
    forall x | x in Filter(p, s) ensures x in s && p(x) {
      FilterMembers(p, s, x);
    }
  }

  /** Rows that appear are the hearing session's. */
  lemma PeerRows(n: Node, s: Id, m: Message, newId: Id)
    ensures var after := OnPeer(n, s, m, newId).node;
      && (forall r :: r in after.clients ==> r in n.clients || r.session == s)
      && (forall r :: r in after.subscriptions ==> r in n.subscriptions || r.session == s)
  {
    PeerFrame(n, s, m, newId);
  }

  lemma {:induction false} DefunctForGood(c: Cluster, steps: seq<Step>, e: End)
    requires Wired(c) && Defunct(c, e) && Legal(c, steps)
    ensures Defunct(Run(c, steps), e)
    decreases |steps|
  {
    if steps != [] {
      DefunctStep(c, steps[0], e);
      StepWired(c, steps[0]);
      DefunctForGood(Next(c, steps[0]), steps[1..], e);
    }
  }

  /** A session that was connected and is destroyed hears nothing and has no row, then or ever after. */
  lemma DestroyedForGood(c: Cluster, e: End, steps: seq<Step>)
    requires Wired(c) && Enabled(c, Destroy(e)) && e in c.wire && Legal(Next(c, Destroy(e)), steps)
    ensures Defunct(Run(Next(c, Destroy(e)), steps), e)
  {
    FilterOnly(NotLearntFrom(e.session), c.nodes[e.node].clients);
    FilterOnly(NotSubFrom(e.session), c.nodes[e.node].subscriptions);
    StepWired(c, Destroy(e));
    DefunctForGood(Next(c, Destroy(e)), steps, e);
  }
}
