/**
 * Where messages end up. A routed message is a broadcast, a publication or a unicast; for every client the
 * copies it has and the copies on their way to it add up to a number that changes only when the message is
 * sent or a session is dropped with a copy on its way to it.
 */
module Routing {
  import opened Sequences
  import opened Json
  import opened Messages
  import opened MultiIndex
  import opened Nodes
  import opened Clusters

  predicate Routed(w: Message) { w.Broadcast? || w.Publish? || w.Send? }

  /** Node h hands w to its client x, should w arrive. */
  ghost predicate Accepts(w: Message, x: Id) {
    if w.Send? then w.to == x else Routed(w) && w.client != x
  }

  function IsCopy(w: Message, x: Id): Delivery -> bool { (d: Delivery) => d == Delivery(x, w) }

  /** Packets that carry w to a session of node h that still reads. */
  ghost function Toward(nodes: map<Id, Node>, w: Message, h: Id): Packet -> bool {
    (p: Packet) => p.to.node == h && p.msg == w && Listening(nodes, p.to)
  }

  function Reaching(e: End, w: Message): Packet -> bool { (p: Packet) => p.to == e && p.msg == w }

  /** Copies of w that client x has been handed. */
  ghost function Copies(c: Cluster, w: Message, x: Id): nat {
    Count(IsCopy(w, x), c.log)
  }

  /** Copies client x of node h has or is still going to get. */
  ghost function Potential(c: Cluster, w: Message, h: Id, x: Id): nat {
    Copies(c, w, x) + if Accepts(w, x) then Count(Toward(c.nodes, w, h), c.flight) else 0
  }

  /** Tables are in order, a client is local to one node, and only departed clients are announced gone. */
  ghost predicate Orderly(c: Cluster) {
    Wired(c) && TablesOrderly(c.nodes) && OneHome(c) && DepartedOnly(c)
  }

  ghost predicate TablesOrderly(nodes: map<Id, Node>) {
    forall k :: k in nodes ==> Distinct(IdOf(), nodes[k].clients) && nodes[k].sessions.Keys !! nodes.Keys
  }

  ghost predicate OneHome(c: Cluster) {
    forall h, k, x :: LocalAt(c, h, x) && LocalAt(c, k, x) ==> h == k
  }

  ghost predicate DepartedOnly(c: Cluster) {
    forall p, h :: p in c.flight && p.msg.Leave? ==> !LocalAt(c, h, p.msg.client)
  }

  ghost predicate SameLocals(c: Cluster, k: Cluster) {
    forall h, x :: LocalAt(k, h, x) <==> LocalAt(c, h, x)
  }

  /** Orderliness depends on the local rows and the leave messages in flight. */
  lemma StaysOrderly(c: Cluster, k: Cluster)
    requires Orderly(c) && Wired(k) && TablesOrderly(k.nodes) && SameLocals(c, k)
    requires forall q :: q in k.flight && q.msg.Leave? ==> q in c.flight
    ensures Orderly(k)
  {
    assert OneHome(k) by {
      forall h, j, x | LocalAt(k, h, x) && LocalAt(k, j, x) ensures h == j {
        assert LocalAt(c, h, x) && LocalAt(c, j, x);
      }
    }
    assert DepartedOnly(k) by {
      forall p, h | p in k.flight && p.msg.Leave? ensures !LocalAt(k, h, p.msg.client) {
        assert !LocalAt(c, h, p.msg.client);
      }
    }
  }

  // Counting deliveries

  lemma {:induction false} CountInsert<R>(p: R -> bool, key: R -> Key, idx: seq<R>, r: R)
    ensures Count(p, Insert(key, idx, r)) == Count(p, idx) + if p(r) then 1 else 0
  {
    CountAppend(p, idx, [r]);
    assert [r][..0] == [];
    if idx != [] && KeyLess(key(r), key(idx[|idx| - 1])) {
      var head, last := idx[..|idx| - 1], idx[|idx| - 1];
      CountInsert(p, key, head, r);
      CountAppend(p, Insert(key, head, r), [last]);
      CountAppend(p, head, [last]);
      assert idx == head + [last];
    }
  }

  lemma {:induction false} CountListing<R>(p: R -> bool, key: R -> Key, rows: seq<R>)
    ensures Count(p, Listing(key, rows)) == Count(p, rows)
  {
    if rows != [] {
      CountListing(p, key, rows[..|rows| - 1]);
      CountInsert(p, key, Listing(key, rows[..|rows| - 1]), rows[|rows| - 1]);
    }
  }

  function IsRow(r: ClientRow): ClientRow -> bool { (y: ClientRow) => y == r }

  lemma {:induction false} CountDeliverEach(rows: seq<ClientRow>, self: Id, sender: Id, m: Message, w: Message, x: Id)
    ensures Count(IsCopy(w, x), DeliverEach(rows, self, sender, m))
         == if m == w && x != sender then Count(IsRow(ClientRow(x, self)), rows) else 0
  {
    if rows != [] {
      var head, r := rows[..|rows| - 1], rows[|rows| - 1];
      CountDeliverEach(head, self, sender, m, w, x);
      if Receives(self, sender, r) {
        CountSnoc(IsCopy(w, x), DeliverEach(head, self, sender, m), Delivery(r.id, m));
      } else {
        assert DeliverEach(head, self, sender, m) + [] == DeliverEach(head, self, sender, m);
      }
    }
  }

  lemma DistinctRows(rows: seq<ClientRow>)
    requires Distinct(IdOf(), rows)
    ensures NoDuplicates(rows)
  {
    forall i, j | 0 <= i < j < |rows| ensures rows[i] != rows[j] {
      assert IdOf()(rows[i]) != IdOf()(rows[j]);
    }
  }

  /** A broadcast or publication is handed once to each local client but its sender. */
  lemma DeliverOthersCount(n: Node, sender: Id, m: Message, w: Message, x: Id)
    requires Distinct(IdOf(), n.clients)
    ensures Count(IsCopy(w, x), DeliverOthers(n, sender, m))
         == if m == w && x != sender && ClientRow(x, n.id) in n.clients then 1 else 0
  {
    var row := ClientRow(x, n.id);
    CountDeliverEach(Listing(ClientByClient(), n.clients), n.id, sender, m, w, x);
    CountListing(IsRow(row), ClientByClient(), n.clients);
    DistinctRows(n.clients);
    CountOnce(IsRow(row), n.clients, row);
  }

  /** What a node hands to client x of its own when m arrives on a session. */
  lemma PeerDeliveries(n: Node, s: Id, m: Message, newId: Id, w: Message, x: Id)
    requires Routed(w) && Distinct(IdOf(), n.clients)
    ensures Count(IsCopy(w, x), OnPeer(n, s, m, newId).effects.deliveries)
         == if m == w && Accepts(w, x) && ClientRow(x, n.id) in n.clients then 1 else 0
  {
    match m
    case Broadcast(_, sender, _) => DeliverOthersCount(n, sender, m, w, x);
    case Publish(_, sender, _, _) => DeliverOthersCount(n, sender, m, w, x);
    case Send(_, to, _) =>
      SessionOfClientIs(n.clients, to);
      assert [Delivery(to, m)][..0] == [];
    case _ =>
  }

  // Conservation

  /** Handling a message from a peer leaves the local rows of an orderly node as they are. */
  lemma PeerKeepsLocals(c: Cluster, p: Packet, newId: Id, x: Id)
    requires Orderly(c) && p in c.flight && p.to.node in c.nodes
    ensures var n := c.nodes[p.to.node];
      ClientRow(x, n.id) in OnPeer(n, p.to.session, p.msg, newId).node.clients <==> ClientRow(x, n.id) in n.clients
  {
    var n := c.nodes[p.to.node];
    assert p.to in c.wire && p.to.session != n.id;
    PeerFrame(n, p.to.session, p.msg, newId);
    if p.msg.Leave? {
      assert !LocalAt(c, p.to.node, p.msg.client);
    }
  }

  lemma DeliveredLocals(c: Cluster, i: nat, newId: Id, h: Id, x: Id)
    requires Orderly(c) && Enabled(c, Deliver(i, newId))
    ensures LocalAt(Delivered(c, i, newId), h, x) <==> LocalAt(c, h, x)
  {
    assert c.flight[i] in c.flight;
    PeerKeepsLocals(c, c.flight[i], newId, x);
  }

  lemma ConnectedLocals(c: Cluster, i: nat, target: Id, remote: Id, h: Id, x: Id)
    requires Enabled(c, Connect(i, target, remote))
    ensures LocalAt(Connected(c, i, target, remote), h, x) <==> LocalAt(c, h, x)
  {
  }

  lemma DeliverTables(c: Cluster, i: nat, newId: Id)
    requires Orderly(c) && Enabled(c, Deliver(i, newId))
    ensures TablesOrderly(Delivered(c, i, newId).nodes)
  {
    var k := Delivered(c, i, newId);
    var p := c.flight[i];
    assert k.nodes.Keys == c.nodes.Keys;
    PeerTables(c.nodes[p.to.node], p.to.session, p.msg, newId);
  }

  /** A message from a peer names at most one new session and gives no client a second row. */
  lemma PeerTables(n: Node, s: Id, m: Message, newId: Id)
    requires Distinct(IdOf(), n.clients)
    ensures OnPeer(n, s, m, newId).node.sessions.Keys <= n.sessions.Keys + {newId}
    ensures Distinct(IdOf(), OnPeer(n, s, m, newId).node.clients)
  {
    if m.Leave? {
      FilterKeepsDistinct(IdOf(), NotCalled(m.client), n.clients);
    }
  }

  lemma DeliverLeaves(c: Cluster, i: nat, newId: Id, q: Packet)
    requires Enabled(c, Deliver(i, newId)) && q in Delivered(c, i, newId).flight && q.msg.Leave?
    ensures q in c.flight
  {
    var p := c.flight[i];
    var n := c.nodes[p.to.node];
    var o := OnPeer(n, p.to.session, p.msg, newId);
    if q in Packets(c.wire, p.to.node, o.effects.posts) {
      PacketsFrom(c.wire, p.to.node, o.effects.posts, q);
      var post :| post in o.effects.posts && q.msg == post.msg;
      PeerPosts(n, p.to.session, p.msg, newId, post);
    } else {
      WithoutMembers(c.flight, i, q);
    }
  }

  lemma DeliverOrderly(c: Cluster, i: nat, newId: Id)
    requires Orderly(c) && Enabled(c, Deliver(i, newId))
    ensures Orderly(Delivered(c, i, newId))
  {
    var k := Delivered(c, i, newId);
    DeliverWired(c, i, newId);
    DeliverTables(c, i, newId);
    forall h, x ensures LocalAt(k, h, x) <==> LocalAt(c, h, x) {
      DeliveredLocals(c, i, newId, h, x);
    }
    forall q | q in k.flight && q.msg.Leave? ensures q in c.flight {
      DeliverLeaves(c, i, newId, q);
    }
    StaysOrderly(c, k);
  }

  lemma ConnectOrderly(c: Cluster, i: nat, target: Id, remote: Id)
    requires Orderly(c) && Enabled(c, Connect(i, target, remote))
    ensures Orderly(Connected(c, i, target, remote))
  {
    var k := Connected(c, i, target, remote);
    ConnectWired(c, i, target, remote);
    forall h, x ensures LocalAt(k, h, x) <==> LocalAt(c, h, x) {
      ConnectedLocals(c, i, target, remote, h, x);
    }
    assert k.nodes.Keys == c.nodes.Keys;
    assert TablesOrderly(k.nodes) by {
      forall j | j in k.nodes ensures Distinct(IdOf(), k.nodes[j].clients) && k.nodes[j].sessions.Keys !! k.nodes.Keys {
        assert k.nodes[j].clients == c.nodes[j].clients;
        assert k.nodes[j].sessions.Keys <= c.nodes[j].sessions.Keys + {remote};
      }
    }
    StaysOrderly(c, k);
  }

  /** Delivering a packet puts no routed message on any link. */
  lemma DeliverPostsOther(c: Cluster, i: nat, newId: Id, w: Message, q: Packet)
    requires Enabled(c, Deliver(i, newId)) && Routed(w)
    requires var p := c.flight[i];
      var o := OnPeer(c.nodes[p.to.node], p.to.session, p.msg, newId);
      q in Packets(c.wire, p.to.node, o.effects.posts) + AckPackets(c.wire, p.to, o.effects.reply)
    ensures q.msg != w
  {
    var p := c.flight[i];
    var o := OnPeer(c.nodes[p.to.node], p.to.session, p.msg, newId);
    if q in Packets(c.wire, p.to.node, o.effects.posts) {
      PacketsFrom(c.wire, p.to.node, o.effects.posts, q);
      var post :| post in o.effects.posts && q.msg == post.msg;
      PeerPosts(c.nodes[p.to.node], p.to.session, p.msg, newId, post);
    }
  }

  /** Unless a session is dropped, what is on its way stays so. */
  lemma FlightStays(c: Cluster, step: Step, flight: seq<Packet>, w: Message, h: Id)
    requires Wired(c) && Enabled(c, step) && !step.Drop? && Routable(flight, c.wire)
    ensures Count(Toward(Next(c, step).nodes, w, h), flight) == Count(Toward(c.nodes, w, h), flight)
  {
    var nodes := Next(c, step).nodes;
    forall p | p in flight ensures Toward(nodes, w, h)(p) == Toward(c.nodes, w, h)(p) {
      StepListens(c, step, p.to);
    }
    CountExt(Toward(nodes, w, h), Toward(c.nodes, w, h), flight);
  }

  lemma DeliverConserves(c: Cluster, i: nat, newId: Id, w: Message, h: Id, x: Id)
    requires Orderly(c) && Enabled(c, Deliver(i, newId)) && Routed(w) && LocalAt(c, h, x)
    ensures Potential(Delivered(c, i, newId), w, h, x) == Potential(c, w, h, x)
  {
    var p := c.flight[i];
    var n := c.nodes[p.to.node];
    var o := OnPeer(n, p.to.session, p.msg, newId);
    DeliverFlight(c, i, newId, w, h);
    CountAppend(IsCopy(w, x), c.log, o.effects.deliveries);
    PeerDeliveries(n, p.to.session, p.msg, newId, w, x);
    assert LocalAt(c, p.to.node, x) <==> p.to.node == h;
  }

  lemma DeliverFlight(c: Cluster, i: nat, newId: Id, w: Message, h: Id)
    requires Wired(c) && Enabled(c, Deliver(i, newId)) && Routed(w)
    ensures var k := Delivered(c, i, newId); var p := c.flight[i];
      Count(Toward(k.nodes, w, h), k.flight) + (if p.to.node == h && p.msg == w then 1 else 0)
        == Count(Toward(c.nodes, w, h), c.flight)
  {
    var p := c.flight[i];
    var k := Delivered(c, i, newId);
    var o := OnPeer(c.nodes[p.to.node], p.to.session, p.msg, newId);
    var more := Packets(c.wire, p.to.node, o.effects.posts) + AckPackets(c.wire, p.to, o.effects.reply);
    forall q | q in more ensures q.msg != w {
      DeliverPostsOther(c, i, newId, w, q);
    }
    CountNone(Toward(k.nodes, w, h), more);
    CountWithout(Toward(k.nodes, w, h), c.flight, i);
    CountAppend(Toward(k.nodes, w, h), Without(c.flight, i), more);
    FlightStays(c, Deliver(i, newId), c.flight, w, h);
    assert p in c.flight;
    StepListens(c, Deliver(i, newId), p.to);
  }

  /** What nobody reads is lost without changing anything. */
  lemma LoseOrderly(c: Cluster, i: nat)
    requires Orderly(c) && Enabled(c, Lose(i))
    ensures Orderly(Next(c, Lose(i))) && SameLocals(c, Next(c, Lose(i)))
  {
    var k := Next(c, Lose(i));
    LoseWired(c, i);
    forall q | q in k.flight ensures q in c.flight {
      WithoutMembers(c.flight, i, q);
    }
    StaysOrderly(c, k);
  }

  predicate Registering(step: Step) { step.Load? || step.Store? || step.Say? }

  /** Registering moves no row, */
  lemma RegisteringOrderly(c: Cluster, step: Step)
    requires Orderly(c) && Enabled(c, step) && Registering(step)
    ensures Orderly(Next(c, step)) && SameLocals(c, Next(c, step))
  {
    StepWired(c, step);
    StaysOrderly(c, Next(c, step));
  }

  // What a request adds

  /** Session s of node o is among who, open, and leads to a session of node h that reads. */
  ghost predicate LeadsTo(c: Cluster, o: Id, who: set<Id>, h: Id, s: Id)
    requires o in c.nodes
  {
    && Reachable(c.nodes[o].sessions, who, s)
    && End(o, s) in c.wire && c.wire[End(o, s)].node == h && Listening(c.nodes, c.wire[End(o, s)])
  }

  ghost function Leading(c: Cluster, o: Id, who: set<Id>, h: Id): Id -> bool
    requires o in c.nodes
  {
    (s: Id) => LeadsTo(c, o, who, h, s)
  }

  /** How many open sessions among who lead from o to h. */
  ghost function Links(c: Cluster, o: Id, who: set<Id>, h: Id): nat
    requires o in c.nodes
  {
    Count(Leading(c, o, who, h), Ordered(c.nodes[o].sessions.Keys))
  }

  lemma PostCount(c: Cluster, o: Id, posts: seq<Post>, p: Post, w: Message, h: Id)
    ensures var e := End(o, p.session);
      Count(Toward(c.nodes, w, h), Packets(c.wire, o, posts + [p]))
        == Count(Toward(c.nodes, w, h), Packets(c.wire, o, posts))
        + if p.msg == w && e in c.wire && c.wire[e].node == h && Listening(c.nodes, c.wire[e]) then 1 else 0
  {
    PacketsSnoc(c.wire, o, posts, p);
    var e := End(o, p.session);
    if e in c.wire {
      CountSnoc(Toward(c.nodes, w, h), Packets(c.wire, o, posts), Packet(c.wire[e], p.msg));
    }
  }

  lemma FanoutAdds(c: Cluster, o: Id, posts: seq<Post>, s: Id, who: set<Id>, m: Message, w: Message, h: Id)
    requires o in c.nodes
    ensures var last := if Reachable(c.nodes[o].sessions, who, s) then [Post(s, m)] else [];
      Count(Toward(c.nodes, w, h), Packets(c.wire, o, posts + last))
        == Count(Toward(c.nodes, w, h), Packets(c.wire, o, posts)) + if m == w && Leading(c, o, who, h)(s) then 1 else 0
  {
    if Reachable(c.nodes[o].sessions, who, s) {
      PostCount(c, o, posts, Post(s, m), w, h);
    } else {
      assert posts + [] == posts;
    }
  }

  lemma {:induction false} FanoutCount(c: Cluster, o: Id, keys: seq<Id>, who: set<Id>, m: Message, w: Message, h: Id)
    requires o in c.nodes
    ensures Count(Toward(c.nodes, w, h), Packets(c.wire, o, Fanout(keys, c.nodes[o].sessions, who, m)))
         == if m == w then Count(Leading(c, o, who, h), keys) else 0
  {
    if keys != [] {
      var front, s := keys[..|keys| - 1], keys[|keys| - 1];
      FanoutCount(c, o, front, who, m, w, h);
      FanoutAdds(c, o, Fanout(front, c.nodes[o].sessions, who, m), s, who, m, w, h);
    }
  }

  /** The sessions a local request is forwarded to. */
  ghost function Forwarded(n: Node, m: Message): set<Id> {
    match m
    case Broadcast(_, _, _) => n.sessions.Keys
    case Publish(_, _, ch, _) => Subscribed(Filter(OnChannel(ch), n.subscriptions))
    case Send(_, to, _) =>
      (match SessionOfClient(n.clients, to)
       case None => {}
       case Some(s) => if s == n.id then {} else {s})
    case _ => {}
  }

  /** The message a request of client c turns into. */
  function Signed(m: Message, c: Id): Message {
    match m
    case Broadcast(tid, _, y) => Broadcast(tid, c, y)
    case Publish(tid, _, ch, y) => Publish(tid, c, ch, y)
    case Send(_, to, y) => Send(c, to, y)
    case _ => m
  }

  lemma {:induction false} NoLinks(c: Cluster, o: Id, h: Id, keys: seq<Id>)
    requires o in c.nodes
    ensures Count(Leading(c, o, {}, h), keys) == 0
  {
    CountNone(Leading(c, o, {}, h), keys);
  }

  /** The request is for w itself. */
  predicate Asks(step: Step, w: Message) {
    step.Request? && Routed(step.m) && Signed(step.m, step.client) == w
  }

  /** Copies of w that a step sets out for each client of node h it is meant for. */
  ghost function SentBy(c: Cluster, step: Step, w: Message, h: Id): nat
    requires Enabled(c, step)
  {
    if Asks(step, w)
    then Links(c, step.node, Forwarded(c.nodes[step.node], step.m), h) + (if h == step.node then 1 else 0)
    else 0
  }

  /**
   * A request adds one copy for each link to x's node that it is forwarded on, and one if x is local; it
   * adds none where the message is not meant for x, and none of any other message.
   */
  lemma RequestAdds(c: Cluster, o: Id, sender: Id, m: Message, w: Message, h: Id, x: Id)
    requires Orderly(c) && Enabled(c, Request(o, sender, m)) && Routed(w) && LocalAt(c, h, x)
    ensures var step := Request(o, sender, m);
      Potential(Next(c, step), w, h, x) == Potential(c, w, h, x) + if Accepts(w, x) then SentBy(c, step, w, h) else 0
  {
    var n := c.nodes[o];
    var out := OnLocal(n, sender, m);
    var k := Next(c, Request(o, sender, m));
    RequestFlight(c, o, sender, m, w, h);
    CountAppend(IsCopy(w, x), c.log, out.effects.deliveries);
    RequestDeliveries(n, sender, m, w, x);
    assert LocalAt(c, o, x) <==> o == h;
    if m.Send? {
      SessionOfClientIs(n.clients, m.to);
    }
  }

  lemma RequestFlight(c: Cluster, o: Id, sender: Id, m: Message, w: Message, h: Id)
    requires Wired(c) && Enabled(c, Request(o, sender, m)) && Routed(w)
    ensures var k := Next(c, Request(o, sender, m));
      Count(Toward(k.nodes, w, h), k.flight) == Count(Toward(c.nodes, w, h), c.flight)
        + if Asks(Request(o, sender, m), w) then Links(c, o, Forwarded(c.nodes[o], m), h) else 0
  {
    var step := Request(o, sender, m);
    var k := Next(c, step);
    var more := Packets(c.wire, o, OnLocal(c.nodes[o], sender, m).effects.posts);
    CountAppend(Toward(k.nodes, w, h), c.flight, more);
    FlightStays(c, step, c.flight, w, h);
    forall q | q in more ensures q.to in c.wire {
      PacketsWired(c.wire, o, OnLocal(c.nodes[o], sender, m).effects.posts, q);
    }
    FlightStays(c, step, more, w, h);
    RequestPosts(c, o, sender, m, w, h);
  }

  /** What a routed request posts is one fan-out. */
  lemma RequestIsFanout(n: Node, sender: Id, m: Message)
    requires Routed(m)
    ensures var posts := OnLocal(n, sender, m).effects.posts;
      || posts == Fanout(Ordered(n.sessions.Keys), n.sessions, Forwarded(n, m), Signed(m, sender))
      || (posts == [] && Forwarded(n, m) == {})
  {
  }

  /** Whatever else a client asks puts no copy of w anywhere. */
  lemma OthersSay(n: Node, sender: Id, m: Message, w: Message, p: Post)
    requires Routed(w) && !(Routed(m) && Signed(m, sender) == w) && p in OnLocal(n, sender, m).effects.posts
    ensures p.msg != w
  {
    if Routed(m) {
      RequestIsFanout(n, sender, m);
      FanoutSays(Ordered(n.sessions.Keys), n.sessions, Forwarded(n, m), Signed(m, sender), p);
    } else if m.Subscribe? {
      FanoutSays(Ordered(n.sessions.Keys), n.sessions, n.sessions.Keys, Subscribe(sender, m.channel), p);
    } else if m.Unsubscribe? {
      FanoutSays(Ordered(n.sessions.Keys), n.sessions, n.sessions.Keys, Unsubscribe(sender, m.channel), p);
    }
  }

  lemma OthersPack(c: Cluster, o: Id, sender: Id, m: Message, w: Message, q: Packet)
    requires o in c.nodes && Routed(w) && !(Routed(m) && Signed(m, sender) == w)
    requires q in Packets(c.wire, o, OnLocal(c.nodes[o], sender, m).effects.posts)
    ensures q.msg != w
  {
    var posts := OnLocal(c.nodes[o], sender, m).effects.posts;
    PacketsFrom(c.wire, o, posts, q);
    var p :| p in posts && q.msg == p.msg;
    OthersSay(c.nodes[o], sender, m, w, p);
  }

  lemma RequestPosts(c: Cluster, o: Id, sender: Id, m: Message, w: Message, h: Id)
    requires o in c.nodes && c.nodes[o].id == o && Routed(w)
    ensures Count(Toward(c.nodes, w, h), Packets(c.wire, o, OnLocal(c.nodes[o], sender, m).effects.posts))
         == if Routed(m) && Signed(m, sender) == w then Links(c, o, Forwarded(c.nodes[o], m), h) else 0
  {
    var n := c.nodes[o];
    var keys := Ordered(n.sessions.Keys);
    if Routed(m) && Signed(m, sender) == w {
      RequestIsFanout(n, sender, m);
      FanoutCount(c, o, keys, Forwarded(n, m), w, w, h);
      NoLinks(c, o, h, keys);
    } else {
      var more := Packets(c.wire, o, OnLocal(n, sender, m).effects.posts);
      forall q | q in more ensures q.msg != w {
        OthersPack(c, o, sender, m, w, q);
      }
      CountNone(Toward(c.nodes, w, h), more);
    }
  }

  lemma RequestDeliveries(n: Node, sender: Id, m: Message, w: Message, x: Id)
    requires Distinct(IdOf(), n.clients) && Routed(w)
    ensures Count(IsCopy(w, x), OnLocal(n, sender, m).effects.deliveries)
         == if Routed(m) && Signed(m, sender) == w && Accepts(w, x) && ClientRow(x, n.id) in n.clients then 1 else 0
  {
    var b := Signed(m, sender);
    match m
    case Broadcast(_, _, _) => DeliverOthersCount(n, sender, b, w, x);
    case Publish(_, _, _, _) => DeliverOthersCount(n, sender, b, w, x);
    case Send(_, to, _) =>
      SessionOfClientIs(n.clients, to);
      CountSingle(IsCopy(w, x), Delivery(to, b));
    case _ =>
  }

  /** Nothing more of w is going to be read at node h. */
  ghost predicate Arrived(c: Cluster, w: Message, h: Id) {
    forall p :: p in c.flight && p.to.node == h && p.msg == w ==> !Listening(c.nodes, p.to)
  }

  /** Nor at any other. */
  ghost predicate Gone(c: Cluster, w: Message) {
    forall p :: p in c.flight && p.msg == w ==> !Listening(c.nodes, p.to)
  }

  lemma ArrivedPotential(c: Cluster, w: Message, h: Id, x: Id)
    requires Arrived(c, w, h)
    ensures Potential(c, w, h, x) == Copies(c, w, x)
  {
    CountNone(Toward(c.nodes, w, h), c.flight);
  }

  lemma RequestOrderly(c: Cluster, o: Id, sender: Id, m: Message)
    requires Orderly(c) && Enabled(c, Request(o, sender, m))
    ensures Orderly(Next(c, Request(o, sender, m)))
    ensures SameLocals(c, Next(c, Request(o, sender, m)))
  {
    var k := Next(c, Request(o, sender, m));
    StepWired(c, Request(o, sender, m));
    LocalFrame(c.nodes[o], sender, m);
    var posts := OnLocal(c.nodes[o], sender, m).effects.posts;
    forall q | q in k.flight && q.msg.Leave? ensures q in c.flight {
      if q in Packets(c.wire, o, posts) {
        PacketsFrom(c.wire, o, posts, q);
        var p :| p in posts && q.msg == p.msg;
        LocalPosts(c.nodes[o], sender, m, p);
      }
    }
    assert k.nodes.Keys == c.nodes.Keys;
    assert SameLocals(c, k);
    StaysOrderly(c, k);
  }

  // Reachable clusters are orderly

  lemma TellLeaves(c: Cluster, n: Id, from: Node, m: Message, q: Packet)
    requires q in c.flight + Packets(c.wire, n, PostAll(from, m))
    ensures q in c.flight || q.msg == m
  {
    if q in Packets(c.wire, n, PostAll(from, m)) {
      PacketsFrom(c.wire, n, PostAll(from, m), q);
      var p :| p in PostAll(from, m) && q.msg == p.msg;
      FanoutSays(Ordered(from.sessions.Keys), from.sessions, from.sessions.Keys, m, p);
    }
  }

  lemma AcceptLocals(c: Cluster, n: Id, x: Id)
    requires Orderly(c) && Enabled(c, Accept(n, x))
    ensures forall h, y :: LocalAt(Next(c, Accept(n, x)), h, y) <==> LocalAt(c, h, y) || (h == n && y == x)
    ensures forall h :: !LocalAt(c, h, x)
    ensures OneHome(Next(c, Accept(n, x)))
  {
    var k := Next(c, Accept(n, x));
    assert k.nodes[n].clients == c.nodes[n].clients + [ClientRow(x, n)];
    forall h ensures !LocalAt(c, h, x) {
      assert h in c.nodes ==> forall r :: r in c.nodes[h].clients ==> r.id != x;
    }
  }

  lemma AcceptTables(c: Cluster, n: Id, x: Id)
    requires Orderly(c) && Enabled(c, Accept(n, x))
    ensures TablesOrderly(Next(c, Accept(n, x)).nodes)
  {
    var k := Next(c, Accept(n, x));
    assert k.nodes.Keys == c.nodes.Keys;
    assert k.nodes[n].clients == c.nodes[n].clients + [ClientRow(x, n)];
    forall r | r in c.nodes[n].clients ensures IdOf()(r) != x {
    }
  }

  lemma AcceptOrderly(c: Cluster, n: Id, x: Id)
    requires Orderly(c) && Enabled(c, Accept(n, x))
    ensures Orderly(Next(c, Accept(n, x)))
  {
    var k := Next(c, Accept(n, x));
    var after := Arrive(c.nodes[n], x).node;
    StepWired(c, Accept(n, x));
    assert k.nodes.Keys == c.nodes.Keys;
    AcceptLocals(c, n, x);
    AcceptTables(c, n, x);
    assert DepartedOnly(k) by {
      forall q, h | q in k.flight && q.msg.Leave? ensures !LocalAt(k, h, q.msg.client) {
        TellLeaves(c, n, after, Join(x), q);
        assert q in c.flight && !LocalAt(c, h, q.msg.client);
      }
    }
  }

  lemma CloseOrderly(c: Cluster, n: Id, x: Id)
    requires Orderly(c) && Enabled(c, Close(n, x))
    ensures Orderly(Next(c, Close(n, x)))
    ensures forall h, y :: LocalAt(Next(c, Close(n, x)), h, y) <==> LocalAt(c, h, y) && !(h == n && y == x)
  {
    var k := Next(c, Close(n, x));
    var after := Depart(c.nodes[n], x).node;
    StepWired(c, Close(n, x));
    FilterKeepsDistinct(IdOf(), NotCalled(x), c.nodes[n].clients);
    assert k.nodes.Keys == c.nodes.Keys;
    forall h, y ensures LocalAt(k, h, y) <==> LocalAt(c, h, y) && !(h == n && y == x) {
      if h == n {
        FilterMembers(NotCalled(x), c.nodes[n].clients, ClientRow(y, n));
      }
    }
    forall q, h | q in k.flight && q.msg.Leave? ensures !LocalAt(k, h, q.msg.client) {
      TellLeaves(c, n, after, Leave(x), q);
      if q in c.flight {
        assert !LocalAt(c, h, q.msg.client);
      } else {
        assert LocalAt(c, h, x) ==> h == n;
      }
    }
  }

  lemma SessionsOrderly(c: Cluster, step: Step)
    requires Orderly(c) && (step.Start? || step.Drop? || step.Destroy?) && Enabled(c, step)
    ensures Orderly(Next(c, step)) && SameLocals(c, Next(c, step))
  {
    var k := Next(c, step);
    StepWired(c, step);
    assert k.nodes.Keys == c.nodes.Keys;
    if step.Destroy? {
      var n := step.end.node;
      FilterKeepsDistinct(IdOf(), NotLearntFrom(step.end.session), c.nodes[n].clients);
      forall x ensures ClientRow(x, n) in k.nodes[n].clients <==> ClientRow(x, n) in c.nodes[n].clients {
        FilterMembers(NotLearntFrom(step.end.session), c.nodes[n].clients, ClientRow(x, n));
      }
    }
    assert SameLocals(c, k);
    StaysOrderly(c, k);
  }

  lemma StepOrderly(c: Cluster, step: Step)
    requires Orderly(c) && Enabled(c, step)
    ensures Orderly(Next(c, step))
  {
    match step
    case Deliver(i, newId) => DeliverOrderly(c, i, newId);
    case Lose(i) => LoseOrderly(c, i);
    case Connect(i, target, remote) => ConnectOrderly(c, i, target, remote);
    case Load(_) => RegisteringOrderly(c, step);
    case Store(_) => RegisteringOrderly(c, step);
    case Say(_) => RegisteringOrderly(c, step);
    case Request(o, x, m) => RequestOrderly(c, o, x, m);
    case Accept(n, x) => AcceptOrderly(c, n, x);
    case Close(n, x) => CloseOrderly(c, n, x);
    case Start(_, _, _) => SessionsOrderly(c, step);
    case Drop(_) => SessionsOrderly(c, step);
    case Destroy(_) => SessionsOrderly(c, step);
  }

  lemma {:induction false} RunOrderly(c: Cluster, steps: seq<Step>)
    requires Orderly(c) && Legal(c, steps)
    ensures Orderly(Run(c, steps))
    decreases |steps|
  {
    if steps != [] {
      StepOrderly(c, steps[0]);
      RunOrderly(Next(c, steps[0]), steps[1..]);
    }
  }

  lemma ReachableOrderly(start: Cluster, steps: seq<Step>)
    requires Fresh(start) && Legal(start, steps)
    ensures Orderly(Run(start, steps))
  {
    FreshWired(start);
    RunOrderly(start, steps);
  }

  // The balance of a run

  /** A client that does not leave stays where it is. */
  lemma LocalStays(c: Cluster, step: Step, h: Id, x: Id)
    requires Orderly(c) && Enabled(c, step) && LocalAt(c, h, x) && !(step.Close? && step.client == x)
    ensures LocalAt(Next(c, step), h, x)
  {
    match step
    case Deliver(i, newId) => DeliveredLocals(c, i, newId, h, x);
    case Lose(i) =>
    case Connect(i, target, remote) => ConnectedLocals(c, i, target, remote, h, x);
    case Load(_) =>
    case Store(_) =>
    case Say(_) =>
    case Request(o, y, m) => RequestOrderly(c, o, y, m);
    case Accept(n, y) => AcceptLocals(c, n, y);
    case Close(n, y) => CloseOrderly(c, n, y);
    case Start(_, _, _) => SessionsOrderly(c, step);
    case Drop(_) => SessionsOrderly(c, step);
    case Destroy(_) => SessionsOrderly(c, step);
  }

  /** Copies of w on their way to a session of node h that the step drops. */
  ghost function LostBy(c: Cluster, step: Step, w: Message, h: Id): nat {
    if step.Drop? && step.end.node == h && Listening(c.nodes, step.end)
    then Count(Reaching(step.end, w), c.flight) else 0
  }

  lemma DropLoses(c: Cluster, e: End, w: Message, h: Id)
    requires Enabled(c, Drop(e))
    ensures Count(Toward(c.nodes, w, h), c.flight)
         == Count(Toward(Next(c, Drop(e)).nodes, w, h), c.flight) + LostBy(c, Drop(e), w, h)
  {
    var k := Next(c, Drop(e));
    forall x ensures Listening(k.nodes, x) <==> Listening(c.nodes, x) && x != e {
    }
    if e.node == h && Listening(c.nodes, e) {
      CountUnion(Toward(k.nodes, w, h), Reaching(e, w), Toward(c.nodes, w, h), c.flight);
    } else {
      CountExt(Toward(k.nodes, w, h), Toward(c.nodes, w, h), c.flight);
    }
  }

  /** Announcing a client puts no routed message on a link. */
  lemma TellFlight(c: Cluster, step: Step, more: seq<Packet>, w: Message, h: Id)
    requires Wired(c) && Enabled(c, step) && !step.Drop? && Routed(w)
    requires Next(c, step).flight == c.flight + more && forall q :: q in more ==> q.msg != w
    ensures Count(Toward(Next(c, step).nodes, w, h), Next(c, step).flight) == Count(Toward(c.nodes, w, h), c.flight)
  {
    var nodes := Next(c, step).nodes;
    CountAppend(Toward(nodes, w, h), c.flight, more);
    CountNone(Toward(nodes, w, h), more);
    FlightStays(c, step, c.flight, w, h);
  }

  lemma TellSays(wire: map<End, End>, n: Id, from: Node, m: Message, q: Packet)
    requires q in Packets(wire, n, PostAll(from, m))
    ensures q.msg == m
  {
    PacketsFrom(wire, n, PostAll(from, m), q);
    var p :| p in PostAll(from, m) && q.msg == p.msg;
    FanoutSays(Ordered(from.sessions.Keys), from.sessions, from.sessions.Keys, m, p);
  }

  /** Steps that neither deliver nor ask keep every copy, but for a dropped session's. */
  lemma QuietBalance(c: Cluster, step: Step, w: Message, h: Id)
    requires Orderly(c) && Enabled(c, step) && Routed(w) && !step.Deliver? && !step.Request?
    ensures Next(c, step).log == c.log
    ensures Count(Toward(Next(c, step).nodes, w, h), Next(c, step).flight) + LostBy(c, step, w, h)
         == Count(Toward(c.nodes, w, h), c.flight)
  {
    match step
    case Lose(i) => CountWithout(Toward(c.nodes, w, h), c.flight, i);
    case Say(i) => TellFlight(c, step, [Next(c, step).flight[|c.flight|]], w, h);
    case Accept(n, x) =>
      var o := Arrive(c.nodes[n], x);
      forall q | q in Packets(c.wire, n, o.effects.posts) ensures q.msg != w {
        TellSays(c.wire, n, o.node, Join(x), q);
      }
      TellFlight(c, step, Packets(c.wire, n, o.effects.posts), w, h);
    case Close(n, x) =>
      var o := Depart(c.nodes[n], x);
      forall q | q in Packets(c.wire, n, o.effects.posts) ensures q.msg != w {
        TellSays(c.wire, n, o.node, Leave(x), q);
      }
      TellFlight(c, step, Packets(c.wire, n, o.effects.posts), w, h);
    case Drop(e) => DropLoses(c, e, w, h);
    case Connect(_, _, _) => FlightStays(c, step, c.flight, w, h);
    case Load(_) => FlightStays(c, step, c.flight, w, h);
    case Store(_) => FlightStays(c, step, c.flight, w, h);
    case Start(_, _, _) => FlightStays(c, step, c.flight, w, h);
    case Destroy(_) => FlightStays(c, step, c.flight, w, h);
  }

  lemma StepBalance(c: Cluster, step: Step, w: Message, h: Id, x: Id)
    requires Orderly(c) && Enabled(c, step) && Routed(w) && LocalAt(c, h, x)
    ensures Potential(Next(c, step), w, h, x) + (if Accepts(w, x) then LostBy(c, step, w, h) else 0)
         == Potential(c, w, h, x) + (if Accepts(w, x) then SentBy(c, step, w, h) else 0)
  {
    if step.Deliver? {
      DeliverConserves(c, step.i, step.newId, w, h, x);
    } else if step.Request? {
      RequestAdds(c, step.node, step.client, step.m, w, h, x);
    } else {
      QuietBalance(c, step, w, h);
    }
  }

  ghost function Sent(c: Cluster, steps: seq<Step>, w: Message, h: Id): nat
    requires Legal(c, steps)
    decreases |steps|
  {
    if steps == [] then 0 else SentBy(c, steps[0], w, h) + Sent(Next(c, steps[0]), steps[1..], w, h)
  }

  ghost function Lost(c: Cluster, steps: seq<Step>, w: Message, h: Id): nat
    requires Legal(c, steps)
    decreases |steps|
  {
    if steps == [] then 0 else LostBy(c, steps[0], w, h) + Lost(Next(c, steps[0]), steps[1..], w, h)
  }

  predicate Stays(steps: seq<Step>, x: Id) {
    forall step :: step in steps ==> !(step.Close? && step.client == x)
  }

  predicate Unrepeated(steps: seq<Step>, w: Message) {
    forall step :: step in steps ==> !Asks(step, w)
  }

  /**
   * Conservation, over any run at all in which x stays: what x has been handed and is still going to get,
   * and what was lost with dropped sessions, is what it had before and what was sent since.
   */
  lemma {:induction false} Conservation(c: Cluster, steps: seq<Step>, w: Message, h: Id, x: Id)
    requires Orderly(c) && Routed(w) && LocalAt(c, h, x) && Legal(c, steps) && Stays(steps, x)
    ensures Orderly(Run(c, steps)) && LocalAt(Run(c, steps), h, x)
    ensures Potential(Run(c, steps), w, h, x) + (if Accepts(w, x) then Lost(c, steps, w, h) else 0)
         == Potential(c, w, h, x) + (if Accepts(w, x) then Sent(c, steps, w, h) else 0)
    decreases |steps|
  {
    if steps != [] {
      assert steps[0] in steps && forall step :: step in steps[1..] ==> step in steps;
      StepBalance(c, steps[0], w, h, x);
      StepOrderly(c, steps[0]);
      LocalStays(c, steps[0], h, x);
      Conservation(Next(c, steps[0]), steps[1..], w, h, x);
    }
  }

  lemma {:induction false} NothingSent(c: Cluster, steps: seq<Step>, w: Message, h: Id)
    requires Legal(c, steps) && Unrepeated(steps, w)
    ensures Sent(c, steps, w, h) == 0
    decreases |steps|
  {
    if steps != [] {
      assert steps[0] in steps && forall step :: step in steps[1..] ==> step in steps;
      NothingSent(Next(c, steps[0]), steps[1..], w, h);
    }
  }

  /** Nothing is lost while no session is dropped. */
  lemma {:induction false} NothingLost(c: Cluster, steps: seq<Step>, w: Message, h: Id)
    requires Legal(c, steps) && forall step :: step in steps ==> !step.Drop?
    ensures Lost(c, steps, w, h) == 0
    decreases |steps|
  {
    if steps != [] {
      assert steps[0] in steps && forall step :: step in steps[1..] ==> step in steps;
      NothingLost(Next(c, steps[0]), steps[1..], w, h);
    }
  }

  /**
   * Multiplicity. After a request and whatever anyone does next, short of asking the same again, once its
   * copies have arrived: each client that stays has received as many more as there were links from the
   * origin to its node among those forwarded on (and one at the origin itself), less those lost with
   * sessions dropped, and clients the message is not for have received none.
   */
  lemma Multiplicity(c: Cluster, o: Id, sender: Id, m: Message, steps: seq<Step>, h: Id, x: Id)
    requires Orderly(c) && Enabled(c, Request(o, sender, m)) && Routed(m) && LocalAt(c, h, x)
    requires Legal(Next(c, Request(o, sender, m)), steps)
    requires Stays(steps, x) && Unrepeated(steps, Signed(m, sender))
    requires Arrived(c, Signed(m, sender), h)
    requires Arrived(Run(Next(c, Request(o, sender, m)), steps), Signed(m, sender), h)
    ensures var w := Signed(m, sender); var k := Next(c, Request(o, sender, m));
      Copies(Run(k, steps), w, x) - Copies(c, w, x)
        == if Accepts(w, x)
           then Links(c, o, Forwarded(c.nodes[o], m), h) + (if h == o then 1 else 0) - Lost(k, steps, w, h)
           else 0
  {
    var w := Signed(m, sender);
    var k := Next(c, Request(o, sender, m));
    RequestAdds(c, o, sender, m, w, h, x);
    RequestOrderly(c, o, sender, m);
    Conservation(k, steps, w, h, x);
    NothingSent(k, steps, w, h);
    ArrivedPotential(c, w, h, x);
    ArrivedPotential(Run(k, steps), w, h, x);
  }
}
