/** What senders and receivers may rely on, derived from the multiplicity of routed messages. */
module Guarantees {
  import opened Sequences
  import opened Json
  import opened Messages
  import opened Nodes
  import opened Clusters
  import opened Routing
  import opened Cascades

  /**
   * The request, then whatever anyone does short of asking the same again, until no copy of the message is
   * left on a link where it would be read. Clients and nodes come and go and ask other things meanwhile.
   */
  ghost predicate Settles(c: Cluster, o: Id, sender: Id, m: Message, steps: seq<Step>) {
    && Orderly(c) && Enabled(c, Request(o, sender, m)) && Routed(m)
    && Legal(Next(c, Request(o, sender, m)), steps) && Unrepeated(steps, Signed(m, sender))
    && Gone(c, Signed(m, sender))
    && Gone(Run(Next(c, Request(o, sender, m)), steps), Signed(m, sender))
  }

  /** A request made of a reachable cluster at rest can always be brought to rest by the nodes alone. */
  lemma RequestSettles(start: Cluster, before: seq<Step>, o: Id, sender: Id, m: Message) returns (steps: seq<Step>)
    requires Fresh(start) && Legal(start, before) && Run(start, before).flight == []
    requires Enabled(Run(start, before), Request(o, sender, m)) && Routed(m)
    ensures Settles(Run(start, before), o, sender, m, steps) && forall step :: step in steps ==> Internal(step)
    ensures forall h :: Forfeit(Run(start, before), o, sender, m, steps, h) == 0
  {
    var c := Run(start, before);
    ReachableOrderly(start, before);
    FreshWired(start);
    RunAnnounced(start, before);
    steps := SettlesAlone(c, o, sender, m);
  }

  lemma SettlesAlone(c: Cluster, o: Id, sender: Id, m: Message) returns (steps: seq<Step>)
    requires Orderly(c) && Announced(c) && c.flight == [] && Enabled(c, Request(o, sender, m)) && Routed(m)
    ensures Settles(c, o, sender, m, steps) && forall step :: step in steps ==> Internal(step)
    ensures (forall h :: Forfeit(c, o, sender, m, steps, h) == 0) && forall x :: Stays(steps, x)
  {
    var k := Next(c, Request(o, sender, m));
    StepWired(c, Request(o, sender, m));
    StepAnnounced(c, Request(o, sender, m));
    steps := DeliveringSettles(k);
    forall h ensures Forfeit(c, o, sender, m, steps, h) == 0 {
      NothingLost(k, steps, Signed(m, sender), h);
    }
  }

  ghost function Gained(c: Cluster, o: Id, sender: Id, m: Message, steps: seq<Step>, x: Id): int
    requires Settles(c, o, sender, m, steps)
  {
    Copies(Run(Next(c, Request(o, sender, m)), steps), Signed(m, sender), x) - Copies(c, Signed(m, sender), x)
  }

  /** Copies that were on their way to sessions of node h when it dropped them. */
  ghost function Forfeit(c: Cluster, o: Id, sender: Id, m: Message, steps: seq<Step>, h: Id): nat
    requires Settles(c, o, sender, m, steps)
  {
    Lost(Next(c, Request(o, sender, m)), steps, Signed(m, sender), h)
  }

  lemma GainedIs(c: Cluster, o: Id, sender: Id, m: Message, steps: seq<Step>, h: Id, x: Id)
    requires Settles(c, o, sender, m, steps) && LocalAt(c, h, x) && Stays(steps, x)
    ensures Gained(c, o, sender, m, steps, x)
         == if Accepts(Signed(m, sender), x)
            then Links(c, o, Forwarded(c.nodes[o], m), h) + (if h == o then 1 else 0)
                 - Forfeit(c, o, sender, m, steps, h)
            else 0
    ensures Gained(c, o, sender, m, steps, x)
         >= if Accepts(Signed(m, sender), x) && h == o then 1 else 0
  {
    var w := Signed(m, sender);
    var k := Next(c, Request(o, sender, m));
    Multiplicity(c, o, sender, m, steps, h, x);
    RequestDeliveries(c.nodes[o], sender, m, w, x);
    CountAppend(IsCopy(w, x), c.log, OnLocal(c.nodes[o], sender, m).effects.deliveries);
    LogGrows(k, steps, w, x);
    if m.Send? {
      SessionOfClientIs(c.nodes[o].clients, m.to);
    }
  }

  /** What has been handed out stays so. */
  lemma {:induction false} LogGrows(c: Cluster, steps: seq<Step>, w: Message, x: Id)
    requires Legal(c, steps)
    ensures Copies(Run(c, steps), w, x) >= Copies(c, w, x)
    decreases |steps|
  {
    if steps != [] {
      StepLogs(c, steps[0], w, x);
      LogGrows(Next(c, steps[0]), steps[1..], w, x);
    }
  }

  lemma StepLogs(c: Cluster, step: Step, w: Message, x: Id)
    requires Enabled(c, step)
    ensures Copies(Next(c, step), w, x) >= Copies(c, w, x)
  {
    match step
    case Deliver(i, newId) =>
      var p := c.flight[i];
      CountAppend(IsCopy(w, x), c.log, OnPeer(c.nodes[p.to.node], p.to.session, p.msg, newId).effects.deliveries);
    case Request(o, y, m) => CountAppend(IsCopy(w, x), c.log, OnLocal(c.nodes[o], y, m).effects.deliveries);
    case _ =>
  }

  /** Exactly one open link to every other node, none to itself. */
  ghost predicate Meshed(c: Cluster, o: Id) {
    o in c.nodes && forall h :: h in c.nodes ==> Links(c, o, c.nodes[o].sessions.Keys, h) == if h == o then 0 else 1
  }

  /**
   * In a mesh every client but the sender that stays gets a broadcast exactly once, unless its node drops the
   * session on which its copy was coming; a client of the origin gets it in any case.
   */
  lemma BroadcastOnce(c: Cluster, o: Id, sender: Id, m: Message, steps: seq<Step>, h: Id, x: Id)
    requires Settles(c, o, sender, m, steps) && m.Broadcast? && Meshed(c, o) && LocalAt(c, h, x) && Stays(steps, x)
    ensures Gained(c, o, sender, m, steps, x) == if x == sender then 0 else 1 - Forfeit(c, o, sender, m, steps, h)
    ensures h == o && x != sender ==> Forfeit(c, o, sender, m, steps, h) == 0
  {
    GainedIs(c, o, sender, m, steps, h, x);
  }

  // Publications

  /** The origin knows the subscription of client x of h under every session leading to h. */
  ghost predicate SubscriptionKnown(c: Cluster, o: Id, h: Id, x: Id, ch: Str)
    requires o in c.nodes
  {
    forall s :: LeadsTo(c, o, c.nodes[o].sessions.Keys, h, s) ==> Subscription(s, x, ch) in c.nodes[o].subscriptions
  }

  /** Some session leading to h has a subscription to ch. */
  ghost predicate HostsSubscriber(c: Cluster, o: Id, h: Id, ch: Str)
    requires o in c.nodes
  {
    exists r :: r in c.nodes[o].subscriptions && r.channel == ch
      && LeadsTo(c, o, c.nodes[o].sessions.Keys, h, r.session)
  }

  lemma SubscribedMembers(rows: seq<Subscription>, ch: Str, s: Id)
    ensures s in Subscribed(Filter(OnChannel(ch), rows)) <==> exists r :: r in rows && r.channel == ch && r.session == s
  {
    forall r: Subscription ensures r in Filter(OnChannel(ch), rows) <==> r in rows && r.channel == ch {
      FilterMembers(OnChannel(ch), rows, r);
    }
  }

  /** However many subscribers a peer hosts, each link to it carries at most one copy; none without a subscriber. */
  lemma PublishLinks(c: Cluster, o: Id, m: Message, h: Id)
    requires o in c.nodes && m.Publish?
    ensures Links(c, o, Forwarded(c.nodes[o], m), h) <= Links(c, o, c.nodes[o].sessions.Keys, h)
    ensures Links(c, o, Forwarded(c.nodes[o], m), h) == 0 <==> !HostsSubscriber(c, o, h, m.channel)
  {
    var n := c.nodes[o];
    var who, all, keys := Forwarded(n, m), n.sessions.Keys, Ordered(n.sessions.Keys);
    CountImplies(Leading(c, o, who, h), Leading(c, o, all, h), keys);
    CountNone(Leading(c, o, who, h), keys);
    forall s | s in keys
      ensures LeadsTo(c, o, who, h, s)
          <==> LeadsTo(c, o, all, h, s)
               && (exists r :: r in n.subscriptions && r.channel == m.channel && r.session == s) {
      SubscribedMembers(n.subscriptions, m.channel, s);
    }
    if HostsSubscriber(c, o, h, m.channel) {
      var r :| r in n.subscriptions && r.channel == m.channel && LeadsTo(c, o, all, h, r.session);
      assert r.session in keys;
    }
  }

  lemma PublishLinksOne(c: Cluster, o: Id, m: Message, h: Id, x: Id)
    requires m.Publish? && Meshed(c, o) && h in c.nodes && h != o && SubscriptionKnown(c, o, h, x, m.channel)
    ensures Links(c, o, Forwarded(c.nodes[o], m), h) == 1
  {
    var all, keys := c.nodes[o].sessions.Keys, Ordered(c.nodes[o].sessions.Keys);
    PublishLinks(c, o, m, h);
    assert Links(c, o, all, h) == 1;
    assert HostsSubscriber(c, o, h, m.channel) by {
      CountNone(Leading(c, o, all, h), keys);
      var s :| s in keys && Leading(c, o, all, h)(s);
      assert Subscription(s, x, m.channel) in c.nodes[o].subscriptions;
    }
  }

  /**
   * In a mesh a subscriber whose subscription is known at the origin gets a publication exactly once, unless
   * its node drops the session on which its copy was coming.
   */
  lemma PublishCovers(c: Cluster, o: Id, sender: Id, m: Message, steps: seq<Step>, h: Id, x: Id)
    requires Settles(c, o, sender, m, steps) && m.Publish? && Meshed(c, o)
    requires LocalAt(c, h, x) && x != sender && Stays(steps, x)
    requires h != o ==> SubscriptionKnown(c, o, h, x, m.channel)
    ensures Gained(c, o, sender, m, steps, x) == 1 - Forfeit(c, o, sender, m, steps, h)
    ensures h == o ==> Forfeit(c, o, sender, m, steps, h) == 0
  {
    GainedIs(c, o, sender, m, steps, h, x);
    if h == o {
      PublishLinks(c, o, m, h);
    } else {
      PublishLinksOne(c, o, m, h, x);
    }
  }

  /** Clients of a peer without a subscriber get nothing. */
  lemma PublishSpares(c: Cluster, o: Id, sender: Id, m: Message, steps: seq<Step>, h: Id, x: Id)
    requires Settles(c, o, sender, m, steps) && m.Publish? && LocalAt(c, h, x) && Stays(steps, x) && h != o
    requires !HostsSubscriber(c, o, h, m.channel)
    ensures Gained(c, o, sender, m, steps, x) == 0
  {
    GainedIs(c, o, sender, m, steps, h, x);
    PublishLinks(c, o, m, h);
  }

  /**
   * Subscribed or not, a client gets a publication only if it is not the publisher's own and its node is the
   * origin or hosts a subscriber the origin knows of; and then it does, if nothing was lost on the way.
   */
  lemma PublishReaches(c: Cluster, o: Id, sender: Id, m: Message, steps: seq<Step>, h: Id, x: Id)
    requires Settles(c, o, sender, m, steps) && m.Publish? && LocalAt(c, h, x) && Stays(steps, x)
    ensures Gained(c, o, sender, m, steps, x) > 0 ==> x != sender && (h == o || HostsSubscriber(c, o, h, m.channel))
    ensures Forfeit(c, o, sender, m, steps, h) == 0 ==>
      (Gained(c, o, sender, m, steps, x) > 0 <==> x != sender && (h == o || HostsSubscriber(c, o, h, m.channel)))
    ensures Meshed(c, o) ==> Gained(c, o, sender, m, steps, x) <= 1
  {
    GainedIs(c, o, sender, m, steps, h, x);
    PublishLinks(c, o, m, h);
  }

  lemma AcceptedFirst(start: Cluster, n: Id, x: Id)
    requires Fresh(start) && n in start.nodes
    ensures Enabled(start, Accept(n, x))
    ensures Next(start, Accept(n, x)) == start.(nodes := start.nodes[n := Node(n, map[], [ClientRow(x, n)], [])])
  {
    assert Arrive(start.nodes[n], x).effects.posts == [];
    assert start.nodes[n].clients + [ClientRow(x, n)] == [ClientRow(x, n)];
  }

  lemma AcceptedSecond(start: Cluster, n: Id, y: Id, x: Id)
    requires Fresh(start) && n in start.nodes && x != y
    ensures var c := start.(nodes := start.nodes[n := Node(n, map[], [ClientRow(y, n)], [])]);
      Enabled(c, Accept(n, x))
      && Next(c, Accept(n, x))
        == start.(nodes := start.nodes[n := Node(n, map[], [ClientRow(y, n), ClientRow(x, n)], [])])
  {
    var c := start.(nodes := start.nodes[n := Node(n, map[], [ClientRow(y, n)], [])]);
    assert Arrive(c.nodes[n], x).effects.posts == [];
    var both := Node(n, map[], [ClientRow(y, n), ClientRow(x, n)], []);
    assert Arrive(c.nodes[n], x).node == both;
    assert c.nodes[n := both] == start.nodes[n := both];
  }

  /** A new node with two clients and no subscription. */
  function TwoClients(start: Cluster, n: Id, y: Id, x: Id): Cluster {
    start.(nodes := start.nodes[n := Node(n, map[], [ClientRow(y, n), ClientRow(x, n)], [])])
  }

  lemma TwoClientsReached(start: Cluster, n: Id, y: Id, x: Id) returns (steps: seq<Step>)
    requires Fresh(start) && n in start.nodes && x != y
    ensures Legal(start, steps) && Run(start, steps) == TwoClients(start, n, y, x)
  {
    AcceptedFirst(start, n, y);
    AcceptedSecond(start, n, y, x);
    steps := [Accept(n, y), Accept(n, x)];
    var c := Next(start, Accept(n, y));
    assert steps[1..] == [Accept(n, x)] && steps[1..][1..] == [];
    assert Next(c, Accept(n, x)) == TwoClients(start, n, y, x);
    assert Run(c, steps[1..]) == Run(Next(c, Accept(n, x)), []);
  }

  /** Such a client exists: of two clients of a new node one publishes and the other, not subscribed, receives. */
  lemma UnsubscribedReceives(start: Cluster, n: Id, y: Id, x: Id, m: Message)
    requires Fresh(start) && n in start.nodes && y != x && m.Publish?
    ensures exists steps :: Legal(start, steps) && Run(start, steps) == TwoClients(start, n, y, x)
    ensures Settles(TwoClients(start, n, y, x), n, y, m, [])
    ensures Gained(TwoClients(start, n, y, x), n, y, m, [], x) == 1
  {
    var c := TwoClients(start, n, y, x);
    var steps := TwoClientsReached(start, n, y, x);
    ReachableOrderly(start, steps);
    assert Fanout([], map[], {}, Signed(m, y)) == [];
    assert Next(c, Request(n, y, m)).flight == [];
    GainedIs(c, n, y, m, [], n, x);
    assert Ordered(c.nodes[n].sessions.Keys) == [];
  }

  // Unicast

  /** The origin knows client x to be its own, or to be behind an open session that leads to h. */
  ghost predicate Locates(c: Cluster, o: Id, h: Id, x: Id)
    requires o in c.nodes
  {
    match SessionOfClient(c.nodes[o].clients, x)
    case None => false
    case Some(s) => s == o || LeadsTo(c, o, {s}, h, s)
  }

  lemma UnicastLinks(c: Cluster, o: Id, m: Message, h: Id)
    requires o in c.nodes && c.nodes[o].id == o && m.Send?
    ensures Links(c, o, Forwarded(c.nodes[o], m), h)
         == match SessionOfClient(c.nodes[o].clients, m.to)
            case None => 0
            case Some(s) => if s != o && LeadsTo(c, o, {s}, h, s) then 1 else 0
  {
    var n := c.nodes[o];
    var keys := Ordered(n.sessions.Keys);
    match SessionOfClient(n.clients, m.to)
    case None => NoLinks(c, o, h, keys);
    case Some(s) =>
      if s == o {
        NoLinks(c, o, h, keys);
      } else if LeadsTo(c, o, {s}, h, s) {
        OrderedNoDuplicates(n.sessions.Keys);
        CountOnce(Leading(c, o, {s}, h), keys, s);
      } else {
        CountNone(Leading(c, o, {s}, h), keys);
      }
  }

  /**
   * In any cluster a message for one client reaches it once if the origin locates it and never otherwise, and
   * nobody else; unless its node drops the session on which it was coming.
   */
  lemma UnicastExact(c: Cluster, o: Id, sender: Id, m: Message, steps: seq<Step>, h: Id, x: Id)
    requires Settles(c, o, sender, m, steps) && m.Send? && LocalAt(c, h, x) && Stays(steps, x)
    ensures Gained(c, o, sender, m, steps, x)
         == if x == m.to && Locates(c, o, h, x) then 1 - Forfeit(c, o, sender, m, steps, h) else 0
    ensures 0 <= Gained(c, o, sender, m, steps, x) <= 1
  {
    GainedIs(c, o, sender, m, steps, h, x);
    UnicastLinks(c, o, m, h);
    SessionOfClientIs(c.nodes[o].clients, m.to);
    assert LocalAt(c, o, x) <==> o == h;
  }
}
