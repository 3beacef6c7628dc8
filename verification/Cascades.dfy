/**
 * Message cascades end. Among themselves nodes answer messages with messages, dial peers and register with
 * them; without new input from outside this stops after finitely many steps, whatever the order.
 */
module Cascades {
  import opened Sequences
  import opened Json
  import opened Messages
  import opened Nodes
  import opened Clusters

  function FirstRegister(): Packet -> bool { (p: Packet) => p.msg.Register? && !p.msg.registered }
  function LaterRegister(): Packet -> bool { (p: Packet) => p.msg.Register? && p.msg.registered }
  function IsSession(): Packet -> bool { (p: Packet) => p.msg.Session? }
  function IsAck(): Packet -> bool { (p: Packet) => p.msg.Ack? }
  function Ordinary(): Packet -> bool { (p: Packet) => !p.msg.Register? && !p.msg.Session? && !p.msg.Ack? }
  function DialsFirst(registered: set<Id>): Dialing -> bool { (d: Dialing) => d.at.node !in registered }
  function DialsLater(registered: set<Id>): Dialing -> bool { (d: Dialing) => d.at.node in registered }

  datatype Rank = Rank(first: nat, sessions: nat, later: nat, ordinary: nat, acks: nat)

  predicate Below(a: Rank, b: Rank) {
    a.first < b.first || (a.first == b.first &&
    (a.sessions < b.sessions || (a.sessions == b.sessions &&
    (a.later < b.later || (a.later == b.later &&
    (a.ordinary < b.ordinary || (a.ordinary == b.ordinary && a.acks < b.acks)))))))
  }

  /** Steps from here to the register message having been handled. */
  function Left(stage: Stage): nat {
    match stage
    case Entered => 4
    case Loaded(_) => 3
    case Stored(_) => 2
  }

  /** The register message to come will say that its node is new. */
  predicate Newcomer(a: Accepting, registered: set<Id>) {
    if a.stage.Entered? then a.at.node !in registered else !a.stage.before
  }

  function LeftFirst(registered: set<Id>): Accepting -> nat {
    (a: Accepting) => if Newcomer(a, registered) then Left(a.stage) else 0
  }

  function LeftLater(registered: set<Id>): Accepting -> nat {
    (a: Accepting) => if Newcomer(a, registered) then 0 else Left(a.stage)
  }

  /** A dial counts as the register message it will lead to, and one for each step on the way. */
  function RankOf(c: Cluster): Rank {
    Rank(Count(FirstRegister(), c.flight) + 5 * Count(DialsFirst(c.registered), c.dials)
           + Sum(LeftFirst(c.registered), c.accepting),
         Count(IsSession(), c.flight),
         Count(LaterRegister(), c.flight) + 5 * Count(DialsLater(c.registered), c.dials)
           + Sum(LeftLater(c.registered), c.accepting),
         Count(Ordinary(), c.flight),
         Count(IsAck(), c.flight))
  }

  /** Whoever is told of a peer, or waits at the far end of a register message, has its flag set. */
  ghost predicate Announced(c: Cluster) {
    && (forall p :: p in c.flight && p.msg.Session? ==> p.to.node in c.registered)
    && (forall p :: p in c.flight && p.msg.Register? ==> p.to in c.wire && c.wire[p.to].node in c.registered)
    && (forall a :: a in c.accepting && Advanced(a) ==> a.at.node in c.registered)
  }

  /** The flag has been set here, or was found set. */
  predicate Advanced(a: Accepting) {
    a.stage.Stored? || (a.stage.Loaded? && a.stage.before)
  }

  // Reachable clusters are announced

  lemma AnnouncedPosts(c: Cluster, node: Id, posts: seq<Post>, q: Packet)
    requires q in Packets(c.wire, node, posts)
    requires forall p :: p in posts ==> !p.msg.Session? && !p.msg.Register?
    ensures !q.msg.Session? && !q.msg.Register?
  {
    PacketsFrom(c.wire, node, posts, q);
  }

  lemma FanoutQuiet(n: Node, m: Message)
    requires m.Join? || m.Leave?
    ensures forall p :: p in PostAll(n, m) ==> !p.msg.Session? && !p.msg.Register?
  {
    forall p | p in PostAll(n, m) ensures !p.msg.Session? && !p.msg.Register? {
      FanoutSays(Ordered(n.sessions.Keys), n.sessions, n.sessions.Keys, m, p);
    }
  }

  lemma DeliverAnnounced(c: Cluster, i: nat, newId: Id)
    requires Wired(c) && Announced(c) && Enabled(c, Deliver(i, newId))
    ensures Announced(Delivered(c, i, newId))
  {
    var p := c.flight[i];
    var o := OnPeer(c.nodes[p.to.node], p.to.session, p.msg, newId);
    var k := Delivered(c, i, newId);
    forall q | q in k.flight && (q.msg.Session? || q.msg.Register?)
      ensures q.msg.Session? ==> q.to.node in c.registered
      ensures q.msg.Register? ==> q in c.flight
    {
      if q in Packets(c.wire, p.to.node, o.effects.posts) {
        PacketsFrom(c.wire, p.to.node, o.effects.posts, q);
        var post :| post in o.effects.posts && End(p.to.node, post.session) in c.wire
                 && q == Packet(c.wire[End(p.to.node, post.session)], post.msg);
        PeerPosts(c.nodes[p.to.node], p.to.session, p.msg, newId, post);
        assert End(p.to.node, post.session) == p.to;
      } else {
        assert q in Without(c.flight, i);
        WithoutMembers(c.flight, i, q);
      }
    }
  }

  lemma ConnectAnnounced(c: Cluster, i: nat, target: Id, remote: Id)
    requires Wired(c) && Announced(c) && Enabled(c, Connect(i, target, remote))
    ensures Announced(Connected(c, i, target, remote))
  {
    assert c.dials[i] in c.dials;
  }

  lemma AcceptingAnnounced(c: Cluster, step: Step)
    requires Wired(c) && Announced(c) && Enabled(c, step) && (step.Load? || step.Store? || step.Say?)
    ensures Announced(Next(c, step))
  {
    var k := Next(c, step);
    assert c.accepting[step.i] in c.accepting;
    forall a | a in k.accepting && Advanced(a) ensures a.at.node in k.registered {
      if step.Say? {
        WithoutMembers(c.accepting, step.i, a);
      } else {
        assert a in c.accepting || a == k.accepting[step.i];
      }
    }
  }

  lemma StepAnnounced(c: Cluster, step: Step)
    requires Wired(c) && Announced(c) && Enabled(c, step)
    ensures Announced(Next(c, step))
  {
    match step
    case Deliver(i, newId) => DeliverAnnounced(c, i, newId);
    case Lose(i) =>
      forall q | q in Without(c.flight, i) ensures q in c.flight {
        WithoutMembers(c.flight, i, q);
      }
    case Connect(i, target, remote) => ConnectAnnounced(c, i, target, remote);
    case Load(_) => AcceptingAnnounced(c, step);
    case Store(_) => AcceptingAnnounced(c, step);
    case Say(_) => AcceptingAnnounced(c, step);
    case Request(n, x, m) =>
      forall q | q in Packets(c.wire, n, OnLocal(c.nodes[n], x, m).effects.posts)
        ensures !q.msg.Session? && !q.msg.Register?
      {
        PacketsFrom(c.wire, n, OnLocal(c.nodes[n], x, m).effects.posts, q);
        var p :| p in OnLocal(c.nodes[n], x, m).effects.posts && q.msg == p.msg;
        LocalPosts(c.nodes[n], x, m, p);
      }
    case Accept(n, x) =>
      var after := Arrive(c.nodes[n], x).node;
      FanoutQuiet(after, Join(x));
      forall q | q in Packets(c.wire, n, PostAll(after, Join(x))) ensures !q.msg.Session? && !q.msg.Register? {
        AnnouncedPosts(c, n, PostAll(after, Join(x)), q);
      }
    case Close(n, x) =>
      var after := Depart(c.nodes[n], x).node;
      FanoutQuiet(after, Leave(x));
      forall q | q in Packets(c.wire, n, PostAll(after, Leave(x))) ensures !q.msg.Session? && !q.msg.Register? {
        AnnouncedPosts(c, n, PostAll(after, Leave(x)), q);
      }
    case _ =>
  }

  lemma {:induction false} RunAnnounced(c: Cluster, steps: seq<Step>)
    requires Wired(c) && Announced(c) && Legal(c, steps)
    ensures Wired(Run(c, steps)) && Announced(Run(c, steps))
    decreases |steps|
  {
    if steps != [] {
      StepWired(c, steps[0]);
      StepAnnounced(c, steps[0]);
      RunAnnounced(Next(c, steps[0]), steps[1..]);
    }
  }

  // Counting

  lemma {:induction false} CountAppend3(p: Packet -> bool, a: seq<Packet>, b: seq<Packet>, d: seq<Packet>)
    ensures Count(p, a + (b + d)) == Count(p, a) + Count(p, b) + Count(p, d)
  {
    CountAppend(p, a, b + d);
    CountAppend(p, b, d);
  }

  /** No packet of the kind p results from these posts. */
  lemma NoneFromPosts(p: Packet -> bool, wire: map<End, End>, node: Id, posts: seq<Post>)
    requires forall post, to :: post in posts ==> !p(Packet(to, post.msg))
    ensures Count(p, Packets(wire, node, posts)) == 0
  {
    forall q | q in Packets(wire, node, posts) ensures !p(q) {
      PacketsFrom(wire, node, posts, q);
    }
    CountNone(p, Packets(wire, node, posts));
  }

  /** A delivery takes one packet away and adds what it provokes. */
  lemma DeliveredCount(c: Cluster, i: nat, newId: Id, p: Packet -> bool)
    requires Enabled(c, Deliver(i, newId))
    ensures var q := c.flight[i];
      var o := OnPeer(c.nodes[q.to.node], q.to.session, q.msg, newId);
      Count(p, Delivered(c, i, newId).flight) + (if p(q) then 1 else 0)
        == Count(p, c.flight) + Count(p, Packets(c.wire, q.to.node, o.effects.posts))
           + Count(p, AckPackets(c.wire, q.to, o.effects.reply))
  {
    var q := c.flight[i];
    var o := OnPeer(c.nodes[q.to.node], q.to.session, q.msg, newId);
    CountWithout(p, c.flight, i);
    CountAppend3(p, Without(c.flight, i), Packets(c.wire, q.to.node, o.effects.posts),
      AckPackets(c.wire, q.to, o.effects.reply));
  }

  /** Acks are the only answers besides the snapshot a register message provokes. */
  lemma AnswersAreAcks(wire: map<End, End>, at: End, reply: Reply)
    ensures Count(FirstRegister(), AckPackets(wire, at, reply)) == 0
    ensures Count(LaterRegister(), AckPackets(wire, at, reply)) == 0
    ensures Count(IsSession(), AckPackets(wire, at, reply)) == 0
    ensures Count(Ordinary(), AckPackets(wire, at, reply)) == 0
    ensures reply == Silent ==> AckPackets(wire, at, reply) == []
  {
    CountNone(FirstRegister(), AckPackets(wire, at, reply));
    CountNone(LaterRegister(), AckPackets(wire, at, reply));
    CountNone(IsSession(), AckPackets(wire, at, reply));
    CountNone(Ordinary(), AckPackets(wire, at, reply));
  }

  /** What the posts of one delivery add to each kind. */
  lemma AnswerCounts(c: Cluster, q: Packet, newId: Id)
    requires q.to.node in c.nodes
    ensures var posts := OnPeer(c.nodes[q.to.node], q.to.session, q.msg, newId).effects.posts;
      var out := Packets(c.wire, q.to.node, posts);
      && Count(FirstRegister(), out) == 0 && Count(LaterRegister(), out) == 0
      && (!FirstRegister()(q) ==> Count(IsSession(), out) == 0)
      && (!q.msg.Register? ==> out == [])
  {
    var posts := OnPeer(c.nodes[q.to.node], q.to.session, q.msg, newId).effects.posts;
    forall post | post in posts ensures FromSnapshot(q.msg, q.to.session, post) {
      PeerPosts(c.nodes[q.to.node], q.to.session, q.msg, newId, post);
    }
    NoneFromPosts(FirstRegister(), c.wire, q.to.node, posts);
    NoneFromPosts(LaterRegister(), c.wire, q.to.node, posts);
    if !FirstRegister()(q) {
      NoneFromPosts(IsSession(), c.wire, q.to.node, posts);
    }
    assert posts == [] || FromSnapshot(q.msg, q.to.session, posts[0]);
  }

  lemma DeliverDescends(c: Cluster, i: nat, newId: Id)
    requires Wired(c) && Announced(c) && Enabled(c, Deliver(i, newId))
    ensures Below(RankOf(Delivered(c, i, newId)), RankOf(c))
  {
    var q := c.flight[i];
    var o := OnPeer(c.nodes[q.to.node], q.to.session, q.msg, newId);
    assert q in c.flight;
    DeliveredCount(c, i, newId, FirstRegister());
    DeliveredCount(c, i, newId, LaterRegister());
    DeliveredCount(c, i, newId, IsSession());
    DeliveredCount(c, i, newId, Ordinary());
    DeliveredCount(c, i, newId, IsAck());
    AnswersAreAcks(c.wire, q.to, o.effects.reply);
    AnswerCounts(c, q, newId);
    assert o.effects.dial != None ==> q.msg.Session?;
    DialCounts(c, NewDials(q.to.node, o.effects.dial));
  }

  /** A node told of a peer has registered, so the dial it makes is a later one. */
  lemma DialCounts(c: Cluster, more: seq<Dialing>)
    requires |more| <= 1
    ensures Count(DialsFirst(c.registered), c.dials + more)
         == Count(DialsFirst(c.registered), c.dials) + (if more != [] && more[0].at.node !in c.registered then 1 else 0)
    ensures Count(DialsLater(c.registered), c.dials + more)
         == Count(DialsLater(c.registered), c.dials) + (if more != [] && more[0].at.node in c.registered then 1 else 0)
  {
    CountAppend(DialsFirst(c.registered), c.dials, more);
    CountAppend(DialsLater(c.registered), c.dials, more);
  }

  lemma {:induction false} DialsMove(dials: seq<Dialing>, before: set<Id>, after: set<Id>)
    requires before <= after
    ensures Count(DialsFirst(after), dials) <= Count(DialsFirst(before), dials)
    ensures before == after ==> Count(DialsLater(after), dials) == Count(DialsLater(before), dials)
  {
    if dials != [] {
      DialsMove(dials[..|dials| - 1], before, after);
    }
  }

  lemma {:induction false} AcceptingMoves(accepting: seq<Accepting>, before: set<Id>, after: set<Id>)
    requires before <= after
    ensures Sum(LeftFirst(after), accepting) <= Sum(LeftFirst(before), accepting)
  {
    if accepting != [] {
      AcceptingMoves(accepting[..|accepting| - 1], before, after);
    }
  }

  lemma ConnectDescends(c: Cluster, i: nat, target: Id, remote: Id)
    requires Enabled(c, Connect(i, target, remote))
    ensures Below(RankOf(Connected(c, i, target, remote)), RankOf(c))
  {
    var entered := Accepting(c.dials[i].at, Entered);
    SumSnoc(LeftFirst(c.registered), c.accepting, entered);
    SumSnoc(LeftLater(c.registered), c.accepting, entered);
    CountWithout(DialsFirst(c.registered), c.dials, i);
    CountWithout(DialsLater(c.registered), c.dials, i);
  }

  lemma LoadDescends(c: Cluster, i: nat)
    requires Enabled(c, Load(i))
    ensures Below(RankOf(Next(c, Load(i))), RankOf(c))
  {
    var a := Next(c, Load(i)).accepting[i];
    SumUpdate(LeftFirst(c.registered), c.accepting, i, a);
    SumUpdate(LeftLater(c.registered), c.accepting, i, a);
  }

  /** Setting the flag turns other new dials of the node into later ones. */
  lemma StoreDescends(c: Cluster, i: nat)
    requires Announced(c) && Enabled(c, Store(i))
    ensures Below(RankOf(Next(c, Store(i))), RankOf(c))
  {
    var k := Next(c, Store(i));
    SumUpdate(LeftFirst(k.registered), c.accepting, i, k.accepting[i]);
    SumUpdate(LeftLater(k.registered), c.accepting, i, k.accepting[i]);
    DialsMove(c.dials, c.registered, k.registered);
    AcceptingMoves(c.accepting, c.registered, k.registered);
    if c.accepting[i].stage.before {
      assert c.accepting[i] in c.accepting;
      assert k.registered == c.registered;
    }
  }

  lemma SayDescends(c: Cluster, i: nat)
    requires Enabled(c, Say(i))
    ensures Below(RankOf(Said(c, i)), RankOf(c))
  {
    var packet := Said(c, i).flight[|c.flight|];
    SumWithout(LeftFirst(c.registered), c.accepting, i);
    SumWithout(LeftLater(c.registered), c.accepting, i);
    CountSnoc(FirstRegister(), c.flight, packet);
    CountSnoc(LaterRegister(), c.flight, packet);
    CountSnoc(IsSession(), c.flight, packet);
  }

  lemma LoseDescends(c: Cluster, i: nat)
    requires Enabled(c, Lose(i))
    ensures Below(RankOf(Next(c, Lose(i))), RankOf(c))
  {
    CountWithout(FirstRegister(), c.flight, i);
    CountWithout(LaterRegister(), c.flight, i);
    CountWithout(IsSession(), c.flight, i);
    CountWithout(Ordinary(), c.flight, i);
    CountWithout(IsAck(), c.flight, i);
  }

  ghost predicate Succeeds(c: Cluster, k: Cluster) {
    exists step :: Internal(step) && Enabled(c, step) && Next(c, step) == k
  }

  /** Every step the nodes take among themselves leaves less to do. */
  lemma InternalDescends(c: Cluster, step: Step)
    requires Wired(c) && Announced(c) && Internal(step) && Enabled(c, step)
    ensures Below(RankOf(Next(c, step)), RankOf(c))
  {
    match step
    case Deliver(i, newId) => DeliverDescends(c, i, newId);
    case Lose(i) => LoseDescends(c, i);
    case Connect(i, target, remote) => ConnectDescends(c, i, target, remote);
    case Load(i) => LoadDescends(c, i);
    case Store(i) => StoreDescends(c, i);
    case Say(i) => SayDescends(c, i);
  }

  /** From any reachable cluster no sequence of such steps goes on for ever. */
  lemma CascadesEnd(start: Cluster, steps: seq<Step>, f: nat -> Cluster)
    requires Fresh(start) && Legal(start, steps) && f(0) == Run(start, steps)
    ensures exists i: nat :: !Succeeds(f(i), f(i + 1))
  {
    FreshWired(start);
    RunAnnounced(start, steps);
    if forall i: nat :: Succeeds(f(i), f(i + 1)) {
      NoEndlessCascade(f, 0);
    }
  }

  lemma {:induction false} NoEndlessCascade(f: nat -> Cluster, i: nat)
    requires Wired(f(i)) && Announced(f(i))
    requires forall j: nat :: Succeeds(f(j), f(j + 1))
    ensures false
    decreases RankOf(f(i)).first, RankOf(f(i)).sessions, RankOf(f(i)).later, RankOf(f(i)).ordinary, RankOf(f(i)).acks
  {
    assert Succeeds(f(i), f(i + 1));
    var step :| Internal(step) && Enabled(f(i), step) && Next(f(i), step) == f(i + 1);
    StepWired(f(i), step);
    StepAnnounced(f(i), step);
    InternalDescends(f(i), step);
    NoEndlessCascade(f, i + 1);
  }

  // and come to rest with nothing in flight and no handshake unfinished

  lemma {:induction false} SomeNatIsNot(s: set<nat>) returns (x: nat)
    ensures forall y :: y in s ==> y < x
    decreases s
  {
    if s == {} {
      x := 0;
    } else {
      var y :| y in s;
      var rest := SomeNatIsNot(s - {y});
      x := if rest <= y then y + 1 else rest;
      forall z | z in s ensures z < x {
        assert z == y || z in s - {y};
      }
    }
  }

  lemma SomeIdIsUnused(c: Cluster) returns (x: Id)
    ensures Unused(c, x)
  {
    var used := c.nodes.Keys + (set k, s | k in c.nodes && s in c.nodes[k].sessions :: s)
      + (set e | e in c.wire :: e.session) + (set e | e in c.wire :: c.wire[e].session)
        + (set d | d in c.dials :: d.at.session);
    x := SomeNatIsNot(used);
    assert forall k, s :: k in c.nodes && s in c.nodes[k].sessions ==> s in used;
    assert forall e :: e in c.wire ==> e.session in used && c.wire[e].session in used;
    assert forall d :: d in c.dials ==> d.at.session in used;
    assert forall k :: k in c.nodes ==> k in used;
  }

  /** The next step of whoever is registering. */
  function Onward(a: Accepting, i: nat): Step {
    match a.stage
    case Entered => Load(i)
    case Loaded(_) => Store(i)
    case Stored(_) => Say(i)
  }

  /** What becomes of the first packet. */
  ghost function Arrival(c: Cluster, newId: Id): Step
    requires c.flight != []
  {
    if Listening(c.nodes, c.flight[0].to) then Deliver(0, newId) else Lose(0)
  }

  /** From any such cluster finishing handshakes and delivering what is in flight leads to rest. */
  lemma {:induction false} DeliveringSettles(c: Cluster) returns (steps: seq<Step>)
    requires Wired(c) && Announced(c)
    ensures Legal(c, steps) && (forall step :: step in steps ==> Internal(step))
    ensures Run(c, steps).flight == [] && Run(c, steps).accepting == []
    decreases RankOf(c).first, RankOf(c).sessions, RankOf(c).later, RankOf(c).ordinary, RankOf(c).acks
  {
    if c.flight == [] && c.accepting == [] {
      steps := [];
    } else {
      var newId := SomeIdIsUnused(c);
      var first := if c.flight != [] then Arrival(c, newId) else Onward(c.accepting[0], 0);
      assert c.accepting != [] ==> c.accepting[0] in c.accepting;
      StepWired(c, first);
      StepAnnounced(c, first);
      InternalDescends(c, first);
      var rest := DeliveringSettles(Next(c, first));
      steps := [first] + rest;
      assert steps[1..] == rest;
    }
  }
}
