/**
 * What nodes come to know of each other's clients and subscriptions once they are a mesh. Clients come, go,
 * subscribe, unsubscribe and send at will; links deliver in order; and whenever no announcement is on its way
 * every node's tables show exactly the clients and subscriptions the others have.
 */
module Views {
  import opened Sequences
  import opened Json
  import opened Messages
  import opened Nodes
  import Replication
  import opened Clusters
  import opened Cascades
  import opened Routing
  import opened Guarantees
  import opened Totals
  import opened Joins

  type Fact = Replication.Fact

  // Every session is connected or being connected

  ghost predicate Attached(c: Cluster) {
    forall o, s :: o in c.nodes && s in c.nodes[o].sessions ==>
      End(o, s) in c.wire || exists d :: d in c.dials && d.at == End(o, s)
  }

  lemma AttachedFrom(c: Cluster, k: Cluster)
    requires Attached(c)
    requires forall o, s :: o in k.nodes && s in k.nodes[o].sessions ==>
      || (o in c.nodes && s in c.nodes[o].sessions)
      || End(o, s) in k.wire || exists d :: d in k.dials && d.at == End(o, s)
    requires forall e :: e in c.wire ==> e in k.wire
    requires forall d :: d in c.dials ==> d in k.dials || d.at in k.wire
    ensures Attached(k)
  {
    forall o, s | o in k.nodes && s in k.nodes[o].sessions
      ensures End(o, s) in k.wire || exists d :: d in k.dials && d.at == End(o, s)
    {
      if o in c.nodes && s in c.nodes[o].sessions && End(o, s) !in c.wire {
        var d :| d in c.dials && d.at == End(o, s);
        assert d in k.dials || d.at in k.wire;
      }
    }
  }

  lemma DeliverAttached(c: Cluster, i: nat, newId: Id)
    requires Attached(c) && Enabled(c, Deliver(i, newId))
    ensures Attached(Delivered(c, i, newId))
  {
    var p := c.flight[i];
    var k := Delivered(c, i, newId);
    var n := c.nodes[p.to.node];
    var o := OnPeer(n, p.to.session, p.msg, newId);
    PeerSessions(n, p.to.session, p.msg, newId);
    assert newId in o.node.sessions && newId !in n.sessions ==>
      o.effects.dial.Some? && o.effects.dial.value.session == newId;
    assert forall d :: d in NewDials(p.to.node, o.effects.dial) ==> d in k.dials;
    AttachedFrom(c, k);
  }

  lemma ConnectAttached(c: Cluster, i: nat, target: Id, remote: Id)
    requires Attached(c) && Enabled(c, Connect(i, target, remote))
    ensures Attached(Connected(c, i, target, remote))
  {
    var k := Connected(c, i, target, remote);
    forall d | d in c.dials ensures d in k.dials || d.at in k.wire {
      var j :| 0 <= j < |c.dials| && c.dials[j] == d;
      if j < i {
        assert k.dials[j] == d;
      } else if j > i {
        assert k.dials[j - 1] == d;
      }
    }
    AttachedFrom(c, k);
  }

  lemma StepAttached(c: Cluster, step: Step)
    requires Attached(c) && Enabled(c, step)
    ensures Attached(Next(c, step))
  {
    match step
    case Deliver(i, newId) => DeliverAttached(c, i, newId);
    case Connect(i, target, remote) => ConnectAttached(c, i, target, remote);
    case Request(n, x, m) =>
      LocalFrame(c.nodes[n], x, m);
      AttachedFrom(c, Next(c, step));
    case Start(n, newId, p) =>
      var k := Next(c, step);
      assert k.dials[|c.dials|] in k.dials;
      AttachedFrom(c, k);
    case _ => AttachedFrom(c, Next(c, step));
  }

  lemma {:induction false} RunAttached(c: Cluster, steps: seq<Step>)
    requires Attached(c) && Legal(c, steps)
    ensures Attached(Run(c, steps))
    decreases |steps|
  {
    if steps != [] {
      StepAttached(c, steps[0]);
      RunAttached(Next(c, steps[0]), steps[1..]);
    }
  }

  // The network at rest

  /** Every session is a wire's open end; no node has two to the same peer or one to itself. */
  ghost predicate Network(c: Cluster) {
    && Wired(c)
    && (forall e :: e in c.wire ==> Listening(c.nodes, e) && c.nodes[e.node].sessions[e.session].open)
    && (forall e :: e in c.wire ==> c.wire[e].node != e.node)
    && (forall o, s :: o in c.nodes && s in c.nodes[o].sessions ==> End(o, s) in c.wire)
    && (forall d, e :: d in c.wire && e in c.wire && d.node == e.node && c.wire[d].node == c.wire[e].node ==> d == e)
  }

  /** No message on its way makes or changes a session. */
  ghost predicate Calm(c: Cluster) {
    forall p :: p in c.flight ==> !Formative(p.msg)
  }

  /** Client ids are drawn by nodes: home says which node draws which. */
  ghost function HomeOf(home: Id -> Id, h: Id): iset<Id> { iset x | home(x) == h }

  /** What clients and others do; a link delivers in the order it was given. */
  ghost predicate Traffic(c: Cluster, step: Step, home: Id -> Id) {
    match step
    case Deliver(i, _) => i < |c.flight| && forall j :: 0 <= j < i ==> c.flight[j].to != c.flight[i].to
    case Accept(n, x) => home(x) == n
    case Request(_, _, _) => true
    case Close(_, _) => true
    case _ => false
  }

  ghost predicate AllTraffic(c: Cluster, steps: seq<Step>, home: Id -> Id)
    requires Legal(c, steps)
    decreases |steps|
  {
    steps == [] || (Traffic(c, steps[0], home) && AllTraffic(Next(c, steps[0]), steps[1..], home))
  }

  lemma TrafficNetwork(c: Cluster, step: Step, home: Id -> Id)
    requires Network(c) && Calm(c) && Enabled(c, step) && Traffic(c, step, home)
    ensures Next(c, step).wire == c.wire && Next(c, step).nodes.Keys == c.nodes.Keys
    ensures forall o :: o in c.nodes ==> Next(c, step).nodes[o].sessions == c.nodes[o].sessions
    ensures Network(Next(c, step))
  {
    var k := Next(c, step);
    StepWired(c, step);
    TrafficSessions(c, step, home);
  }

  lemma TrafficSessions(c: Cluster, step: Step, home: Id -> Id)
    requires Calm(c) && Enabled(c, step) && Traffic(c, step, home)
    ensures Next(c, step).wire == c.wire && Next(c, step).nodes.Keys == c.nodes.Keys
    ensures forall o :: o in c.nodes ==> Next(c, step).nodes[o].sessions == c.nodes[o].sessions
  {
    assert Next(c, step).nodes.Keys == c.nodes.Keys;
    if step.Deliver? {
      var p := c.flight[step.i];
      assert p in c.flight;
      PeerFrame(c.nodes[p.to.node], p.to.session, p.msg, step.newId);
      OneNodeChanges(c.nodes, p.to.node, OnPeer(c.nodes[p.to.node], p.to.session, p.msg, step.newId).node);
    } else {
      OutsideNodes(c, step);
    }
  }

  lemma TrafficCalm(c: Cluster, step: Step, home: Id -> Id)
    requires Calm(c) && Enabled(c, step) && Traffic(c, step, home)
    ensures Calm(Next(c, step))
  {
    var k := Next(c, step);
    forall q | q in k.flight ensures !Formative(q.msg) {
      if step.Deliver? {
        DeliverCalm(c, step.i, step.newId, q);
      } else if q !in c.flight {
        OutsideSays(c, step, q);
      }
    }
  }

  lemma DeliverCalm(c: Cluster, i: nat, newId: Id, q: Packet)
    requires Calm(c) && Enabled(c, Deliver(i, newId)) && q in Delivered(c, i, newId).flight
    ensures !Formative(q.msg)
  {
    assert c.flight[i] in c.flight;
    ReplacedMembers(c.flight, i, Answers(c, i, newId), q);
    if q !in c.flight && Formative(q.msg) {
      AnswersForm(c, i, newId, q);
    }
  }

  // What is on its way to one end

  function Queue(flight: seq<Packet>, e: End): seq<Message> {
    if flight == [] then []
    else
      var p := flight[|flight| - 1];
      Queue(flight[..|flight| - 1], e) + if p.to == e then [p.msg] else []
  }

  lemma QueueSnoc(flight: seq<Packet>, p: Packet, e: End)
    ensures Queue(flight + [p], e) == Queue(flight, e) + if p.to == e then [p.msg] else []
  {
    assert (flight + [p])[..|flight|] == flight;
  }

  lemma {:induction false} QueueAppend(a: seq<Packet>, b: seq<Packet>, e: End)
    ensures Queue(a + b, e) == Queue(a, e) + Queue(b, e)
  {
    if b == [] {
      assert a + b == a;
    } else {
      var last := b[|b| - 1];
      QueueAppend(a, b[..|b| - 1], e);
      assert a + b == (a + b[..|b| - 1]) + [last] && b == b[..|b| - 1] + [last];
      QueueSnoc(a + b[..|b| - 1], last, e);
    }
  }

  lemma {:induction false} QueueNone(flight: seq<Packet>, e: End)
    requires forall p :: p in flight ==> p.to != e
    ensures Queue(flight, e) == []
  {
    if flight != [] {
      QueueNone(flight[..|flight| - 1], e);
    }
  }

  lemma {:induction false} QueueSays(flight: seq<Packet>, e: End, m: Message)
    requires m in Queue(flight, e)
    ensures Packet(e, m) in flight
  {
    var front, last := flight[..|flight| - 1], flight[|flight| - 1];
    assert flight == front + [last];
    if m in Queue(front, e) {
      QueueSays(front, e, m);
    }
  }

  /** Taking out the first packet to an end takes the first message from its queue and from no other. */
  lemma QueueWithout(flight: seq<Packet>, i: nat, e: End)
    requires i < |flight| && forall j :: 0 <= j < i ==> flight[j].to != flight[i].to
    ensures Queue(flight, e) == (if flight[i].to == e then [flight[i].msg] else []) + Queue(Without(flight, i), e)
  {
    SplitAt(flight, i);
    QueueAppend(flight[..i + 1], flight[i + 1..], e);
    QueueSnoc(flight[..i], flight[i], e);
    QueueAppend(flight[..i], flight[i + 1..], e);
    if flight[i].to == e {
      QueueNone(flight[..i], e);
    }
  }

  /** One fan-out over all sessions reaches every end wired to the node once, and no other. */
  lemma {:induction false} FanoutQueue(wire: map<End, End>, nodes: set<Id>, n: Id, keys: seq<Id>,
                                       sessions: map<Id, Peer>, who: set<Id>, m: Message, e: End)
    requires Paired(wire, nodes) && NoDuplicates(keys) && e in wire
    ensures Queue(Packets(wire, n, Fanout(keys, sessions, who, m)), e)
         == if wire[e].node == n && wire[e].session in keys && Reachable(sessions, who, wire[e].session)
            then [m] else []
  {
    if keys != [] {
      var front, s := keys[..|keys| - 1], keys[|keys| - 1];
      assert keys == front + [s];
      FanoutQueue(wire, nodes, n, front, sessions, who, m, e);
      var posts := Fanout(front, sessions, who, m);
      if Reachable(sessions, who, s) {
        PostQueue(wire, nodes, n, posts, s, m, e);
      } else {
        assert posts + [] == posts;
      }
    }
  }

  lemma PostQueue(wire: map<End, End>, nodes: set<Id>, n: Id, posts: seq<Post>, s: Id, m: Message, e: End)
    requires Paired(wire, nodes) && e in wire
    ensures Queue(Packets(wire, n, posts + [Post(s, m)]), e)
         == Queue(Packets(wire, n, posts), e) + if wire[e] == End(n, s) then [m] else []
  {
    PacketsSnoc(wire, n, posts, Post(s, m));
    if End(n, s) in wire {
      QueueSnoc(Packets(wire, n, posts), Packet(wire[End(n, s)], m), e);
      assert wire[End(n, s)] == e <==> wire[e] == End(n, s);
    }
  }

  // What each end will have learnt

  /** Every client row is under the one session that leads to the client's home, or the node's own. */
  ghost predicate Tagged(c: Cluster, home: Id -> Id) {
    forall o, r :: o in c.nodes && r in c.nodes[o].clients ==> TaggedRow(c.wire, o, r, home)
  }

  ghost predicate TaggedRow(wire: map<End, End>, o: Id, r: ClientRow, home: Id -> Id) {
    || (r.session == o && home(r.id) == o)
    || (End(o, r.session) in wire && wire[End(o, r.session)].node == home(r.id))
  }

  /** Messages about a client come from its home. */
  ghost predicate Homely(c: Cluster, home: Id -> Id) {
    forall p :: p in c.flight && Replication.NamesClient(p.msg) ==>
      p.to in c.wire && home(p.msg.client) == c.wire[p.to].node
  }

  /** Fact f at e's node under e's session, once what is on its way to e has been read. */
  ghost predicate Final(c: Cluster, e: End, f: Fact)
    requires e.node in c.nodes
  {
    Replication.Replay(Replication.Holds(c.nodes[e.node], e.session, f), Queue(c.flight, e), f)
  }

  /** Fact f is node h's own. */
  ghost predicate Has(c: Cluster, h: Id, f: Fact) {
    h in c.nodes && Replication.Holds(c.nodes[h], h, f)
  }

  ghost predicate Informed(c: Cluster) {
    forall e: End, f: Fact :: e in c.wire && e.node in c.nodes ==> (Final(c, e, f) <==> Has(c, c.wire[e].node, f))
  }

  /** Rows of clients drawn by h are under one tag. */
  lemma TagsAreOne(c: Cluster, home: Id -> Id, o: Id, h: Id, tag: Id)
    requires Network(c) && Tagged(c, home) && o in c.nodes
    requires (h == o == tag) || (End(o, tag) in c.wire && c.wire[End(o, tag)].node == h)
    ensures Replication.OnlyUnder(c.nodes[o], HomeOf(home, h), tag)
    ensures forall x :: ClientRow(x, tag) in c.nodes[o].clients ==> x in HomeOf(home, h)
  {
    forall r | r in c.nodes[o].clients && r.id in HomeOf(home, h) ensures r.session == tag {
      assert TaggedRow(c.wire, o, r, home);
    }
    forall x | ClientRow(x, tag) in c.nodes[o].clients ensures x in HomeOf(home, h) {
      assert TaggedRow(c.wire, o, ClientRow(x, tag), home);
    }
  }

  lemma {:induction false} ReplayMore(now: bool, q: seq<Message>, more: seq<Message>, f: Fact)
    requires forall m :: m in more ==> !Replication.Tells(m, f)
    ensures Replication.Replay(now, q + more, f) == Replication.Replay(now, q, f)
  {
    if more == [] {
      assert q + more == q;
    } else {
      var front, last := more[..|more| - 1], more[|more| - 1];
      assert more == front + [last] && q + more == (q + front) + [last];
      ReplayMore(now, q, front, f);
      Replication.ReplaySnoc(now, q + front, last, f);
    }
  }

  /** Messages that announce nothing add nothing. */
  lemma QuietQueue(now: bool, flight: seq<Packet>, more: seq<Packet>, e: End, f: Fact)
    requires forall q :: q in more ==> !Replication.Announces(q.msg)
    ensures Replication.Replay(now, Queue(flight + more, e), f) == Replication.Replay(now, Queue(flight, e), f)
  {
    QueueAppend(flight, more, e);
    forall m | m in Queue(more, e) ensures !Replication.Tells(m, f) {
      QueueSays(more, e, m);
    }
    ReplayMore(now, Queue(flight, e), Queue(more, e), f);
  }

  // A node tells its peers

  /** Node n changes one of its own facts and tells everyone. */
  ghost predicate Tells(c: Cluster, k: Cluster, n: Id, f: Fact, present: bool) {
    && n in c.nodes && c.nodes[n].id == n
    && k.nodes == c.nodes[n := Replication.Change(c.nodes[n], f, present)] && k.wire == c.wire
    && k.flight == c.flight + Packets(c.wire, n, PostAll(c.nodes[n], Replication.Telling(f, present)))
  }

  /** In a network everyone wired to the node hears once. */
  lemma TellsQueue(c: Cluster, k: Cluster, n: Id, f: Fact, present: bool, e: End)
    requires Network(c) && Tells(c, k, n, f, present) && e in c.wire
    ensures Queue(k.flight, e)
         == Queue(c.flight, e) + if c.wire[e].node == n then [Replication.Telling(f, present)] else []
  {
    var sessions := c.nodes[n].sessions;
    var m := Replication.Telling(f, present);
    QueueAppend(c.flight, Packets(c.wire, n, PostAll(c.nodes[n], m)), e);
    OrderedNoDuplicates(sessions.Keys);
    FanoutQueue(c.wire, c.nodes.Keys, n, Ordered(sessions.Keys), sessions, sessions.Keys, m, e);
    assert c.wire[e] in c.wire;
  }

  lemma TellsFinal(c: Cluster, k: Cluster, n: Id, f: Fact, present: bool, home: Id -> Id, e: End, g: Fact)
    requires Network(c) && Tagged(c, home) && Tells(c, k, n, f, present) && e in c.wire && e.node in c.nodes
    requires f.ClientFact? ==> home(f.client) == n
    ensures e.node in k.nodes && (Final(k, e, g) <==> if c.wire[e].node == n && g == f then present else Final(c, e, g))
  {
    var now := Replication.Holds(c.nodes[e.node], e.session, g);
    assert Replication.Holds(k.nodes[e.node], e.session, g) == now by {
      if e.node == n {
        var far := c.wire[e].node;
        TagsAreOne(c, home, n, far, e.session);
        assert e.session != n;
        Replication.FactAtBDoesNot(c.nodes[n], e.session, HomeOf(home, far), f, present, g);
      }
    }
    TellsQueue(c, k, n, f, present, e);
    Replication.ReplaySnoc(now, Queue(c.flight, e), Replication.Telling(f, present), g);
    assert Queue(c.flight, e) + [] == Queue(c.flight, e);
    TellingIsOf(f, present, g);
  }

  lemma TellingIsOf(f: Fact, present: bool, g: Fact)
    ensures Replication.Tells(Replication.Telling(f, present), g) <==> g == f
    ensures Replication.Telling(f, present) == Replication.Telling(f, true) <==> present
  {
  }

  lemma TellsHas(c: Cluster, k: Cluster, n: Id, f: Fact, present: bool, home: Id -> Id, h: Id, g: Fact)
    requires Network(c) && Tagged(c, home) && Tells(c, k, n, f, present) && h in c.nodes
    requires f.ClientFact? ==> home(f.client) == n
    ensures Has(k, h, g) <==> if h == n && g == f then present else Has(c, h, g)
  {
    if h == n {
      TagsAreOne(c, home, n, n, n);
      Replication.ChangeActs(c.nodes[n], HomeOf(home, n), f, present, g);
      ChangeKeepsId(c.nodes[n], f, present);
    }
  }

  lemma ChangeKeepsId(n: Node, f: Fact, present: bool)
    ensures Replication.Change(n, f, present).id == n.id
  {
  }

  lemma TellsInforms(c: Cluster, k: Cluster, n: Id, f: Fact, present: bool, home: Id -> Id)
    requires Network(c) && Tagged(c, home) && Informed(c) && Tells(c, k, n, f, present)
    requires f.ClientFact? ==> home(f.client) == n
    ensures Informed(k)
  {
    forall e: End, g: Fact | e in k.wire && e.node in k.nodes ensures Final(k, e, g) <==> Has(k, k.wire[e].node, g) {
      assert c.wire[e] in c.wire && c.wire[e].node in c.nodes;
      TellsFinal(c, k, n, f, present, home, e, g);
      TellsHas(c, k, n, f, present, home, c.wire[e].node, g);
    }
  }

  /** Where nothing is announced nothing is learnt. */
  lemma QuietInforms(c: Cluster, k: Cluster, more: seq<Packet>)
    requires Informed(c) && k.wire == c.wire && k.nodes == c.nodes && k.flight == c.flight + more
    requires forall q :: q in more ==> !Replication.Announces(q.msg)
    ensures Informed(k)
  {
    forall e: End, g: Fact | e in k.wire && e.node in k.nodes ensures Final(k, e, g) <==> Has(k, k.wire[e].node, g) {
      QuietQueue(Replication.Holds(c.nodes[e.node], e.session, g), c.flight, more, e, g);
      assert Final(c, e, g) <==> Has(c, c.wire[e].node, g);
    }
  }

  lemma RequestInforms(c: Cluster, n: Id, x: Id, m: Message, home: Id -> Id)
    requires Network(c) && Tagged(c, home) && Informed(c) && Enabled(c, Request(n, x, m))
    ensures Informed(Next(c, Request(n, x, m)))
  {
    var k := Next(c, Request(n, x, m));
    if m.Subscribe? {
      TellsInforms(c, k, n, Replication.SubFact(x, m.channel), true, home);
    } else if m.Unsubscribe? {
      TellsInforms(c, k, n, Replication.SubFact(x, m.channel), false, home);
    } else {
      var out := OnLocal(c.nodes[n], x, m);
      assert out.node == c.nodes[n] && k.nodes == c.nodes;
      forall q | q in Packets(c.wire, n, out.effects.posts) ensures !Replication.Announces(q.msg) {
        OthersAnnounceNothing(c, n, x, m, q);
      }
      QuietInforms(c, k, Packets(c.wire, n, out.effects.posts));
    }
  }

  lemma OthersAnnounceNothing(c: Cluster, n: Id, x: Id, m: Message, q: Packet)
    requires n in c.nodes && !m.Subscribe? && !m.Unsubscribe?
    requires q in Packets(c.wire, n, OnLocal(c.nodes[n], x, m).effects.posts)
    ensures !Replication.Announces(q.msg)
  {
    var posts := OnLocal(c.nodes[n], x, m).effects.posts;
    PacketsFrom(c.wire, n, posts, q);
    var p :| p in posts && q.msg == p.msg;
    if Routed(m) {
      RequestIsFanout(c.nodes[n], x, m);
      FanoutSays(Ordered(c.nodes[n].sessions.Keys), c.nodes[n].sessions, Forwarded(c.nodes[n], m), Signed(m, x), p);
    }
  }

  lemma AcceptInforms(c: Cluster, n: Id, x: Id, home: Id -> Id)
    requires Network(c) && Tagged(c, home) && Informed(c) && Enabled(c, Accept(n, x)) && home(x) == n
    ensures Informed(Next(c, Accept(n, x)))
  {
    assert Arrive(c.nodes[n], x).effects.posts == PostAll(c.nodes[n], Join(x));
    TellsInforms(c, Next(c, Accept(n, x)), n, Replication.ClientFact(x), true, home);
  }

  lemma CloseInforms(c: Cluster, n: Id, x: Id, home: Id -> Id)
    requires Network(c) && Tagged(c, home) && Informed(c) && Enabled(c, Close(n, x))
    ensures Informed(Next(c, Close(n, x)))
  {
    TagsAreOne(c, home, n, n, n);
    assert Depart(c.nodes[n], x).effects.posts == PostAll(c.nodes[n], Leave(x));
    TellsInforms(c, Next(c, Close(n, x)), n, Replication.ClientFact(x), false, home);
  }

  // A peer reads

  lemma AcksOnly(c: Cluster, i: nat, newId: Id, q: Packet)
    requires Enabled(c, Deliver(i, newId)) && !c.flight[i].msg.Register? && q in Answers(c, i, newId)
    ensures q.msg.Ack?
  {
    var p := c.flight[i];
    assert OnPeer(c.nodes[p.to.node], p.to.session, p.msg, newId).effects.posts == [];
  }

  /** The queue of an end when its first message, or another end's, is taken and acks are added. */
  lemma ReadQueue(c: Cluster, i: nat, newId: Id, e: End, now: bool, f: Fact)
    requires Enabled(c, Deliver(i, newId)) && !c.flight[i].msg.Register?
    requires forall j :: 0 <= j < i ==> c.flight[j].to != c.flight[i].to
    ensures var p := c.flight[i];
      var later := if p.to == e && Replication.Tells(p.msg, f) then p.msg == Replication.Telling(f, true) else now;
      Replication.Replay(now, Queue(c.flight, e), f)
        == Replication.Replay(later, Queue(Delivered(c, i, newId).flight, e), f)
  {
    var p := c.flight[i];
    var rest := Without(c.flight, i);
    forall q | q in Answers(c, i, newId) ensures !Replication.Announces(q.msg) {
      AcksOnly(c, i, newId, q);
    }
    assert Delivered(c, i, newId).flight == rest + Answers(c, i, newId);
    QueueWithout(c.flight, i, e);
    if p.to == e {
      Replication.ReplayCons(now, [p.msg] + Queue(rest, e), f);
      assert ([p.msg] + Queue(rest, e))[1..] == Queue(rest, e);
      QuietQueue(if Replication.Tells(p.msg, f) then p.msg == Replication.Telling(f, true) else now,
                 rest, Answers(c, i, newId), e, f);
    } else {
      assert [] + Queue(rest, e) == Queue(rest, e);
      QuietQueue(now, rest, Answers(c, i, newId), e, f);
    }
  }

  lemma ReadHolds(c: Cluster, i: nat, newId: Id, home: Id -> Id, e: End, f: Fact)
    requires Network(c) && Tagged(c, home) && Homely(c, home)
    requires Enabled(c, Deliver(i, newId)) && c.flight[i].to in c.wire
    requires e.node in c.nodes && (e in c.wire || e.session == e.node)
    ensures e.node in Delivered(c, i, newId).nodes
    ensures var p := c.flight[i];
      Replication.Holds(Delivered(c, i, newId).nodes[e.node], e.session, f)
        == if p.to == e && Replication.Tells(p.msg, f) then p.msg == Replication.Telling(f, true)
           else Replication.Holds(c.nodes[e.node], e.session, f)
  {
    var p := c.flight[i];
    assert p in c.flight;
    var far := if e.session == e.node then e.node else c.wire[e].node;
    if e.node == p.to.node {
      TagsAreOne(c, home, e.node, far, e.session);
      if e == p.to {
        Replication.HandlerActs(c.nodes[e.node], e.session, HomeOf(home, far), p.msg, newId, f);
      } else {
        assert p.to.session != e.session;
        Replication.OthersDoNot(c.nodes[e.node], e.session, p.to.session, HomeOf(home, far), p.msg, newId, f);
      }
    }
  }

  lemma ReadInforms(c: Cluster, i: nat, newId: Id, home: Id -> Id)
    requires Network(c) && Calm(c) && Tagged(c, home) && Homely(c, home) && Informed(c)
    requires Enabled(c, Deliver(i, newId)) && Traffic(c, Deliver(i, newId), home)
    ensures Informed(Delivered(c, i, newId))
  {
    var k := Delivered(c, i, newId);
    assert c.flight[i] in c.flight;
    forall e: End, f: Fact | e in k.wire && e.node in k.nodes ensures Final(k, e, f) <==> Has(k, k.wire[e].node, f) {
      var far := c.wire[e].node;
      assert c.wire[e] in c.wire && far in c.nodes;
      assert Final(c, e, f) <==> Has(c, far, f);
      ReadQueue(c, i, newId, e, Replication.Holds(c.nodes[e.node], e.session, f), f);
      ReadHolds(c, i, newId, home, e, f);
      ReadHolds(c, i, newId, home, End(far, far), f);
      assert c.flight[i].to != End(far, far);
    }
  }

  // Tags and homes

  lemma ReadTagged(c: Cluster, i: nat, newId: Id, home: Id -> Id)
    requires Network(c) && Calm(c) && Tagged(c, home) && Homely(c, home) && Enabled(c, Deliver(i, newId))
    ensures Tagged(Delivered(c, i, newId), home) && Homely(Delivered(c, i, newId), home)
  {
    var p := c.flight[i];
    var k := Delivered(c, i, newId);
    assert p in c.flight && p.to in c.wire;
    forall o, r | o in k.nodes && r in k.nodes[o].clients ensures TaggedRow(k.wire, o, r, home) {
      ReadRows(c.nodes[p.to.node], p.to.session, p.msg, newId, r);
      assert o in c.nodes && (r in c.nodes[o].clients ==> TaggedRow(c.wire, o, r, home));
    }
    forall q | q in k.flight && Replication.NamesClient(q.msg) ensures q in c.flight {
      ReplacedMembers(c.flight, i, Answers(c, i, newId), q);
      if q in Answers(c, i, newId) {
        AcksOnly(c, i, newId, q);
      }
    }
  }

  lemma ReadRows(n: Node, s: Id, m: Message, newId: Id, r: ClientRow)
    ensures r in OnPeer(n, s, m, newId).node.clients ==> r in n.clients || (m.Join? && r == ClientRow(m.client, s))
  {
    PeerFrame(n, s, m, newId);
  }

  lemma OutsideTagged(c: Cluster, step: Step, home: Id -> Id)
    requires Network(c) && Tagged(c, home) && Homely(c, home)
    requires Enabled(c, step) && Traffic(c, step, home) && !step.Deliver?
    ensures Tagged(Next(c, step), home) && Homely(Next(c, step), home)
  {
    var k := Next(c, step);
    forall o, r | o in k.nodes && r in k.nodes[o].clients ensures TaggedRow(k.wire, o, r, home) {
      OutsideRows(c, step, o, r);
      assert o in c.nodes && (r in c.nodes[o].clients ==> TaggedRow(c.wire, o, r, home));
    }
    forall q | q in k.flight && Replication.NamesClient(q.msg)
      ensures q.to in k.wire && home(q.msg.client) == k.wire[q.to].node
    {
      if q !in c.flight {
        OutsideNames(c, step, q);
        if step.Close? {
          assert TaggedRow(c.wire, step.node, ClientRow(step.client, step.node), home);
        }
      }
    }
  }

  lemma OutsideRows(c: Cluster, step: Step, o: Id, r: ClientRow)
    requires Enabled(c, step) && (step.Request? || step.Accept? || step.Close?) && o in Next(c, step).nodes
    ensures o in c.nodes
    ensures r in Next(c, step).nodes[o].clients ==>
      r in c.nodes[o].clients || (step.Accept? && o == step.node && r == ClientRow(step.client, c.nodes[o].id))
  {
    match step
    case Request(n, x, m) => LocalFrame(c.nodes[n], x, m);
    case Accept(n, x) =>
    case Close(n, x) => FilterOnly(NotCalled(x), c.nodes[n].clients);
  }

  lemma OutsideNames(c: Cluster, step: Step, q: Packet)
    requires Wired(c) && Enabled(c, step) && (step.Request? || step.Accept? || step.Close?)
    requires q in Next(c, step).flight && q !in c.flight && Replication.NamesClient(q.msg)
    ensures !step.Request? && q.msg.client == step.client && q.to in c.wire && c.wire[q.to].node == step.node
  {
    match step
    case Request(n, x, m) =>
      PacketsFrom(c.wire, n, OnLocal(c.nodes[n], x, m).effects.posts, q);
      var p :| p in OnLocal(c.nodes[n], x, m).effects.posts && q.msg == p.msg;
      LocalPosts(c.nodes[n], x, m, p);
    case Accept(n, x) =>
      PacketsFrom(c.wire, n, Arrive(c.nodes[n], x).effects.posts, q);
      TellSays(c.wire, n, Arrive(c.nodes[n], x).node, Join(x), q);
    case Close(n, x) =>
      PacketsFrom(c.wire, n, Depart(c.nodes[n], x).effects.posts, q);
      TellSays(c.wire, n, Depart(c.nodes[n], x).node, Leave(x), q);
  }

  // Whole runs

  ghost predicate Current(c: Cluster, home: Id -> Id) {
    Network(c) && Calm(c) && Tagged(c, home) && Homely(c, home) && Informed(c)
  }

  lemma TrafficKeeps(c: Cluster, step: Step, home: Id -> Id)
    requires Current(c, home) && Enabled(c, step) && Traffic(c, step, home)
    ensures Current(Next(c, step), home)
  {
    TrafficNetwork(c, step, home);
    TrafficCalm(c, step, home);
    if step.Deliver? {
      ReadInforms(c, step.i, step.newId, home);
      ReadTagged(c, step.i, step.newId, home);
    } else {
      OutsideTagged(c, step, home);
      OutsideInforms(c, step, home);
    }
  }

  lemma OutsideInforms(c: Cluster, step: Step, home: Id -> Id)
    requires Network(c) && Tagged(c, home) && Informed(c)
    requires Enabled(c, step) && Traffic(c, step, home) && !step.Deliver?
    ensures Informed(Next(c, step))
  {
    match step
    case Request(n, x, m) => RequestInforms(c, n, x, m, home);
    case Accept(n, x) => AcceptInforms(c, n, x, home);
    case Close(n, x) => CloseInforms(c, n, x, home);
  }

  lemma {:induction false} RunKeeps(c: Cluster, steps: seq<Step>, home: Id -> Id)
    requires Current(c, home) && Legal(c, steps) && AllTraffic(c, steps, home)
    ensures Current(Run(c, steps), home)
    decreases |steps|
  {
    if steps != [] {
      TrafficKeeps(c, steps[0], home);
      RunKeeps(Next(c, steps[0]), steps[1..], home);
    }
  }

  /** No announcement is on its way. */
  ghost predicate NoNews(c: Cluster) {
    forall p :: p in c.flight ==> !Replication.Announces(p.msg)
  }

  /** Then every end shows exactly what its peer has. */
  lemma Shown(c: Cluster, home: Id -> Id, e: End, f: Fact)
    requires Current(c, home) && NoNews(c) && e in c.wire
    ensures Replication.Holds(c.nodes[e.node], e.session, f) <==> Has(c, c.wire[e].node, f)
  {
    QuietQueue(Replication.Holds(c.nodes[e.node], e.session, f), [], c.flight, e, f);
    assert [] + c.flight == c.flight;
    assert Final(c, e, f) <==> Has(c, c.wire[e].node, f);
  }

  lemma CurrentConverged(c: Cluster, home: Id -> Id, o: Id)
    requires Current(c, home) && NoNews(c) && o in c.nodes
    ensures Converged(c, o)
  {
    forall s | s in c.nodes[o].sessions ensures ViewConverged(c, o, s) {
      var e := End(o, s);
      assert e in c.wire && c.wire[e] in c.wire;
      forall x ensures ClientRow(x, s) in c.nodes[o].clients <==> LocalAt(c, c.wire[e].node, x) {
        Shown(c, home, e, Replication.ClientFact(x));
      }
    }
    forall r | r in c.nodes[o].clients ensures r.session == o || r.session in c.nodes[o].sessions {
      assert TaggedRow(c.wire, o, r, home);
      assert r.session != o ==> Listening(c.nodes, End(o, r.session));
    }
  }

  lemma CurrentSubscriptions(c: Cluster, home: Id -> Id, o: Id, h: Id, x: Id, ch: Str)
    requires Current(c, home) && NoNews(c) && o in c.nodes && h in c.nodes
    requires Subscription(h, x, ch) in c.nodes[h].subscriptions
    ensures SubscriptionKnown(c, o, h, x, ch)
  {
    forall s | LeadsTo(c, o, c.nodes[o].sessions.Keys, h, s)
      ensures Subscription(s, x, ch) in c.nodes[o].subscriptions
    {
      Shown(c, home, End(o, s), Replication.SubFact(x, ch));
    }
  }

  // From new nodes

  ghost predicate NoRows(c: Cluster) {
    forall o :: o in c.nodes ==> c.nodes[o].clients == [] && c.nodes[o].subscriptions == []
  }

  lemma JoinedNetwork(c: Cluster, seed: Id, joined: set<Id>)
    requires Forming(c, seed, joined, {}) && AtRest(c) && Attached(c)
    ensures Network(c)
  {
    forall e | e in c.wire ensures Listening(c.nodes, e) && c.nodes[e.node].sessions[e.session].open {
      assert RecordAt(c.nodes, e).Some?;
    }
    forall d, e | d in c.wire && e in c.wire && d.node == e.node && c.wire[d].node == c.wire[e].node ensures d == e {
      assert c.wire[d] in c.wire;
      assert d in Wires(c.wire, d.node, c.wire[d].node) && e in Wires(c.wire, d.node, c.wire[d].node);
      OneElement(Wires(c.wire, d.node, c.wire[d].node), d, e);
    }
  }

  lemma EmptyInformed(c: Cluster)
    requires NoRows(c) && NoNews(c) && Wired(c)
    ensures Informed(c)
  {
    forall e: End, f: Fact | e in c.wire && e.node in c.nodes ensures Final(c, e, f) <==> Has(c, c.wire[e].node, f) {
      QuietQueue(Replication.Holds(c.nodes[e.node], e.session, f), [], c.flight, e, f);
      assert [] + c.flight == c.flight;
    }
  }

  /** Nodes that have joined in turn and have no clients yet. */
  ghost predicate Assembled(start: Cluster, joins: seq<Step>, seed: Id, c: Cluster) {
    && Fresh(start) && seed in start.nodes && Distinguishable(start.address)
    && Legal(start, joins) && InTurn(start, joins, seed) && c == Run(start, joins)
    && AtRest(c) && c.nodes.Keys == c.started + {seed} && NoRows(c) && NoNews(c)
  }

  lemma AssembledCurrent(start: Cluster, joins: seq<Step>, seed: Id, c: Cluster, home: Id -> Id)
    returns (joined: set<Id>)
    requires Assembled(start, joins, seed, c)
    ensures Current(c, home) && Forming(c, seed, joined, {})
  {
    FreshForms(start, seed);
    var j, n := RunForms(start, joins, seed, {}, {});
    RestForms(c, seed, j, n);
    joined := j + n;
    RunAttached(start, joins);
    JoinedNetwork(c, seed, joined);
    EmptyInformed(c);
  }

  lemma TrafficForms(c: Cluster, step: Step, home: Id -> Id, seed: Id, joined: set<Id>)
    requires Forming(c, seed, joined, {}) && AtRest(c) && Enabled(c, step) && Traffic(c, step, home)
    ensures Forming(Next(c, step), seed, joined, {}) && AtRest(Next(c, step))
    ensures Next(c, step).started == c.started && Next(c, step).nodes.Keys == c.nodes.Keys
  {
    var j, n := StepForms(c, step, seed, joined, {});
    TrafficCalm(c, step, home);
    TrafficDials(c, step, home);
  }

  lemma TrafficDials(c: Cluster, step: Step, home: Id -> Id)
    requires Calm(c) && Enabled(c, step) && Traffic(c, step, home)
    ensures var k := Next(c, step);
      k.dials == c.dials && k.accepting == c.accepting && k.started == c.started && k.nodes.Keys == c.nodes.Keys
  {
    assert Next(c, step).nodes.Keys == c.nodes.Keys;
    if step.Deliver? {
      assert c.flight[step.i] in c.flight;
    }
  }

  lemma {:induction false} RunTraffic(c: Cluster, steps: seq<Step>, home: Id -> Id, seed: Id, joined: set<Id>)
    requires Forming(c, seed, joined, {}) && AtRest(c) && Legal(c, steps) && AllTraffic(c, steps, home)
    ensures Forming(Run(c, steps), seed, joined, {}) && AtRest(Run(c, steps))
    ensures Run(c, steps).started == c.started && Run(c, steps).nodes.Keys == c.nodes.Keys
    decreases |steps|
  {
    if steps != [] {
      TrafficForms(c, steps[0], home, seed, joined);
      RunTraffic(Next(c, steps[0]), steps[1..], home, seed, joined);
    }
  }

  /** A state with no announcement on its way that nodes and clients reach once assembled. */
  ghost predicate Serving(start: Cluster, joins: seq<Step>, seed: Id, c0: Cluster, traffic: seq<Step>, home: Id -> Id,
                          c: Cluster)
  {
    && Assembled(start, joins, seed, c0)
    && Legal(c0, traffic) && AllTraffic(c0, traffic, home) && c == Run(c0, traffic) && NoNews(c)
  }

  /**
   * Once nodes have joined in turn, clients may come, go, subscribe, unsubscribe and send as they like. In
   * every state with no announcement on its way the mesh stands, every node's client table shows exactly the
   * clients of every peer under its session, and every subscription is known everywhere.
   */
  lemma ViewsConverge(start: Cluster, joins: seq<Step>, seed: Id, c0: Cluster, traffic: seq<Step>, home: Id -> Id,
                      c: Cluster, o: Id)
    requires Serving(start, joins, seed, c0, traffic, home, c) && o in c.nodes
    ensures Orderly(c) && Meshed(c, o) && Converged(c, o)
    ensures forall h, x, ch :: h in c.nodes && Subscription(h, x, ch) in c.nodes[h].subscriptions ==>
      SubscriptionKnown(c, o, h, x, ch)
  {
    var joined := AssembledCurrent(start, joins, seed, c0, home);
    RunKeeps(c0, traffic, home);
    CurrentConverged(c, home, o);
    RunTraffic(c0, traffic, home, seed, joined);
    MeshedAtRest(c, seed, joined, {}, o);
    ReachableOrderly(start, joins);
    RunOrderly(c0, traffic);
    forall h, x, ch | h in c.nodes && Subscription(h, x, ch) in c.nodes[h].subscriptions
      ensures SubscriptionKnown(c, o, h, x, ch)
    {
      CurrentSubscriptions(c, home, o, h, x, ch);
    }
  }

  /** So a subscriber gets a publication exactly once, with nothing assumed about links or tables. */
  lemma PublishInTurn(start: Cluster, joins: seq<Step>, seed: Id, c0: Cluster, traffic: seq<Step>, home: Id -> Id,
                      c: Cluster, o: Id, sender: Id, m: Message, steps: seq<Step>, h: Id, x: Id)
    requires Serving(start, joins, seed, c0, traffic, home, c) && Settles(c, o, sender, m, steps) && m.Publish?
    requires LocalAt(c, h, x) && x != sender && Stays(steps, x)
    requires Subscription(h, x, m.channel) in c.nodes[h].subscriptions
    ensures Gained(c, o, sender, m, steps, x) == 1 - Forfeit(c, o, sender, m, steps, h)
  {
    assert Meshed(c, o) && SubscriptionKnown(c, o, h, x, m.channel) by {
      ViewsConverge(start, joins, seed, c0, traffic, home, c, o);
    }
    PublishOnce(c, o, sender, m, steps, h, x);
  }

  lemma PublishOnce(c: Cluster, o: Id, sender: Id, m: Message, steps: seq<Step>, h: Id, x: Id)
    requires Settles(c, o, sender, m, steps) && m.Publish? && Meshed(c, o) && SubscriptionKnown(c, o, h, x, m.channel)
    requires LocalAt(c, h, x) && x != sender && Stays(steps, x)
    ensures Gained(c, o, sender, m, steps, x) == 1 - Forfeit(c, o, sender, m, steps, h)
  {
    PublishCovers(c, o, sender, m, steps, h, x);
  }

  /** And a broadcasting client is told how many copies there are. */
  lemma CountInTurn(start: Cluster, joins: seq<Step>, seed: Id, c0: Cluster, traffic: seq<Step>, home: Id -> Id,
                    c: Cluster, o: Id, sender: Id, m: Message, steps: seq<Step>)
    requires Serving(start, joins, seed, c0, traffic, home, c)
    requires Settles(c, o, sender, m, steps) && m.Broadcast? && AllFixed(steps)
    requires |c.nodes[o].clients| < WORDS
    ensures OnLocal(c.nodes[o], sender, m).effects.reply.count
         == Some(Handed(c, o, sender, m, steps) + Unhanded(c, o, sender, m, steps))
  {
    assert Converged(c, o) by {
      ViewsConverge(start, joins, seed, c0, traffic, home, c, o);
    }
    ReportedCountIsReceivers(c, o, sender, m, steps);
  }

  // Such nodes there are

  lemma JoiningStep(c: Cluster, step: Step)
    requires NoRows(c) && NoNews(c) && Enabled(c, step) && (Internal(step) || step.Start?)
    ensures NoRows(Next(c, step)) && NoNews(Next(c, step))
  {
    if step.Deliver? {
      JoiningDeliver(c, step.i, step.newId);
    } else if step.Lose? {
      forall q | q in Without(c.flight, step.i) ensures q in c.flight {
        WithoutMembers(c.flight, step.i, q);
      }
    }
  }

  lemma JoiningDeliver(c: Cluster, i: nat, newId: Id)
    requires NoRows(c) && NoNews(c) && Enabled(c, Deliver(i, newId))
    ensures NoRows(Delivered(c, i, newId)) && NoNews(Delivered(c, i, newId))
  {
    var p := c.flight[i];
    assert p in c.flight;
    var o := OnPeer(c.nodes[p.to.node], p.to.session, p.msg, newId);
    forall q | q in Delivered(c, i, newId).flight ensures !Replication.Announces(q.msg) {
      ReplacedMembers(c.flight, i, Answers(c, i, newId), q);
      if q !in c.flight && q in Packets(c.wire, p.to.node, o.effects.posts) {
        PacketsFrom(c.wire, p.to.node, o.effects.posts, q);
        var post :| post in o.effects.posts && q.msg == post.msg;
        EmptySnapshot(c.nodes[p.to.node], p.to.session, p.msg, newId, post);
      }
    }
  }

  lemma EmptySnapshot(n: Node, s: Id, m: Message, newId: Id, post: Post)
    requires n.clients == [] && n.subscriptions == [] && post in OnPeer(n, s, m, newId).effects.posts
    ensures post.msg.Session?
  {
    PeerPosts(n, s, m, newId, post);
    var after := RegisterPeer(n, s, m.clientsPort, m.sessionsPort);
    assert JoinPosts(s, Filter(LearntFrom(after.id), after.clients)) == [];
    assert SubscribePosts(s, Filter(SubFrom(after.id), after.subscriptions)) == [];
    if !m.registered && post in SessionPosts(after, s, Ordered(after.sessions.Keys)) {
      SessionPostsTo(after, s, Ordered(after.sessions.Keys), post);
    }
  }

  lemma {:induction false} JoiningRun(c: Cluster, steps: seq<Step>)
    requires NoRows(c) && NoNews(c) && Legal(c, steps)
    requires forall step :: step in steps ==> Internal(step) || step.Start?
    ensures NoRows(Run(c, steps)) && NoNews(Run(c, steps))
    decreases |steps|
  {
    if steps != [] {
      assert steps[0] in steps && forall step :: step in steps[1..] ==> step in steps;
      JoiningStep(c, steps[0]);
      JoiningRun(Next(c, steps[0]), steps[1..]);
    }
  }

  /** Any new nodes can be assembled. */
  lemma BecomesAssembled(start: Cluster, seed: Id) returns (joins: seq<Step>)
    requires Fresh(start) && seed in start.nodes && Distinguishable(start.address)
    ensures Legal(start, joins) && Assembled(start, joins, seed, Run(start, joins))
  {
    joins := EveryoneMeets(start, seed);
    assert NoRows(start) && NoNews(start);
    JoiningRun(start, joins);
  }

  lemma EveryoneMeets(start: Cluster, seed: Id) returns (joins: seq<Step>)
    requires Fresh(start) && seed in start.nodes && Distinguishable(start.address)
    ensures Legal(start, joins) && InTurn(start, joins, seed) && AtRest(Run(start, joins))
    ensures Run(start, joins).nodes.Keys == Run(start, joins).started + {seed}
    ensures forall step :: step in joins ==> Internal(step) || step.Start?
  {
    FreshForms(start, seed);
    joins := EveryoneJoins(start, seed, {}, {});
  }
}
