/** The count a broadcasting or publishing client is told, against the copies the whole cluster hands out. */
module Totals {
  import opened Sequences
  import opened Json
  import opened Messages
  import opened MultiIndex
  import opened Nodes
  import opened Clusters
  import opened Routing
  import opened Guarantees

  function Says(w: Message): Delivery -> bool { (d: Delivery) => d.msg == w }
  function Getting(self: Id, sender: Id): ClientRow -> bool { (r: ClientRow) => Receives(self, sender, r) }

  /** How many local clients of n a broadcast by sender is handed to. */
  function Receivers(n: Node, sender: Id): nat { Count(Getting(n.id, sender), n.clients) }

  /** A message for everyone, or for everyone at the nodes it is forwarded to. */
  predicate Spread(w: Message) { w.Broadcast? || w.Publish? }

  /** Copies a packet is still going to make of w. */
  ghost function Due(nodes: map<Id, Node>, w: Message): Packet -> nat
    requires Spread(w)
  {
    (p: Packet) => if p.msg == w && Listening(nodes, p.to) then Receivers(nodes[p.to.node], w.client) else 0
  }

  ghost function Owed(nodes: map<Id, Node>, flight: seq<Packet>, w: Message): nat
    requires Spread(w)
  {
    Sum(Due(nodes, w), flight)
  }

  ghost function Total(c: Cluster, w: Message): nat
    requires Spread(w)
  {
    Count(Says(w), c.log) + Owed(c.nodes, c.flight, w)
  }

  ghost predicate SameReceivers(a: map<Id, Node>, b: map<Id, Node>, sender: Id) {
    a.Keys == b.Keys && forall k :: k in a ==> Receivers(b[k], sender) == Receivers(a[k], sender)
  }

  // Deliveries in total

  lemma {:induction false} DeliverEachTotal(rows: seq<ClientRow>, self: Id, sender: Id, m: Message, w: Message)
    ensures Count(Says(w), DeliverEach(rows, self, sender, m))
         == if m == w then Count(Getting(self, sender), rows) else 0
  {
    if rows != [] {
      var head, r := rows[..|rows| - 1], rows[|rows| - 1];
      DeliverEachTotal(head, self, sender, m, w);
      if Receives(self, sender, r) {
        CountSnoc(Says(w), DeliverEach(head, self, sender, m), Delivery(r.id, m));
      } else {
        assert DeliverEach(head, self, sender, m) + [] == DeliverEach(head, self, sender, m);
      }
    }
  }

  lemma DeliverOthersTotal(n: Node, sender: Id, m: Message, w: Message)
    ensures Count(Says(w), DeliverOthers(n, sender, m)) == if m == w then Receivers(n, sender) else 0
  {
    DeliverEachTotal(Listing(ClientByClient(), n.clients), n.id, sender, m, w);
    CountListing(Getting(n.id, sender), ClientByClient(), n.clients);
  }

  lemma PeerTotal(n: Node, s: Id, m: Message, newId: Id, w: Message)
    requires Spread(w)
    ensures Count(Says(w), OnPeer(n, s, m, newId).effects.deliveries) == if m == w then Receivers(n, w.client) else 0
  {
    match m
    case Broadcast(_, sender, _) => DeliverOthersTotal(n, sender, m, w);
    case Publish(_, sender, _, _) => DeliverOthersTotal(n, sender, m, w);
    case _ => CountNone(Says(w), OnPeer(n, s, m, newId).effects.deliveries);
  }

  // Conservation in total

  lemma PeerKeepsReceivers(c: Cluster, p: Packet, newId: Id, sender: Id)
    requires Orderly(c) && p in c.flight && p.to.node in c.nodes
    ensures var n := c.nodes[p.to.node];
      Receivers(OnPeer(n, p.to.session, p.msg, newId).node, sender) == Receivers(n, sender)
  {
    var n := c.nodes[p.to.node];
    assert p.to in c.wire && p.to.session != n.id;
    match p.msg
    case Join(x) =>
      CountAppend(Getting(n.id, sender), n.clients, [ClientRow(x, p.to.session)]);
      assert [ClientRow(x, p.to.session)][..0] == [];
    case Leave(x) =>
      assert !LocalAt(c, p.to.node, x);
      CountFilter(Getting(n.id, sender), NotCalled(x), n.clients);
    case _ =>
  }

  /** Local clients neither come nor go. */
  predicate Fixed(step: Step) { !step.Accept? && !step.Close? }

  lemma ReceiversStay(c: Cluster, step: Step, sender: Id)
    requires Orderly(c) && Enabled(c, step) && Fixed(step)
    ensures SameReceivers(c.nodes, Next(c, step).nodes, sender)
  {
    assert Next(c, step).nodes.Keys == c.nodes.Keys;
    match step
    case Deliver(i, newId) =>
      assert c.flight[i] in c.flight;
      PeerKeepsReceivers(c, c.flight[i], newId, sender);
    case Request(n, x, m) => LocalFrame(c.nodes[n], x, m);
    case Connect(i, target, remote) => ConnectReceivers(c, i, target, remote, sender);
    case Destroy(e) =>
      CountFilter(Getting(c.nodes[e.node].id, sender), NotLearntFrom(e.session), c.nodes[e.node].clients);
    case _ =>
  }

  lemma ConnectReceivers(c: Cluster, i: nat, target: Id, remote: Id, sender: Id)
    requires Enabled(c, Connect(i, target, remote))
    ensures SameReceivers(c.nodes, Connected(c, i, target, remote).nodes, sender)
  {
    var k := Connected(c, i, target, remote);
    assert k.nodes.Keys == c.nodes.Keys;
    forall j | j in c.nodes ensures Receivers(k.nodes[j], sender) == Receivers(c.nodes[j], sender) {
      assert k.nodes[j].clients == c.nodes[j].clients && k.nodes[j].id == c.nodes[j].id;
    }
  }

  /** Unless a session is dropped, what is owed on packets stays so. */
  lemma OwedStays(c: Cluster, step: Step, flight: seq<Packet>, w: Message)
    requires Orderly(c) && Enabled(c, step) && Fixed(step) && !step.Drop? && Spread(w) && Routable(flight, c.wire)
    ensures Owed(Next(c, step).nodes, flight, w) == Owed(c.nodes, flight, w)
  {
    ReceiversStay(c, step, w.client);
    var nodes := Next(c, step).nodes;
    forall p | p in flight ensures Due(nodes, w)(p) == Due(c.nodes, w)(p) {
      StepListens(c, step, p.to);
    }
    SumExt(Due(nodes, w), Due(c.nodes, w), flight);
  }

  lemma DeliverTotal(c: Cluster, i: nat, newId: Id, w: Message)
    requires Orderly(c) && Enabled(c, Deliver(i, newId)) && Spread(w)
    ensures Total(Delivered(c, i, newId), w) == Total(c, w)
  {
    var p := c.flight[i];
    var n := c.nodes[p.to.node];
    DeliverOwed(c, i, newId, w);
    CountAppend(Says(w), c.log, OnPeer(n, p.to.session, p.msg, newId).effects.deliveries);
    PeerTotal(n, p.to.session, p.msg, newId, w);
  }

  /** Delivering a packet settles what is owed on its account and nothing else. */
  lemma DeliverOwed(c: Cluster, i: nat, newId: Id, w: Message)
    requires Orderly(c) && Enabled(c, Deliver(i, newId)) && Spread(w)
    ensures var k := Delivered(c, i, newId); var p := c.flight[i];
      Owed(c.nodes, c.flight, w) == Owed(k.nodes, k.flight, w)
        + if p.msg == w then Receivers(c.nodes[p.to.node], w.client) else 0
  {
    var k := Delivered(c, i, newId);
    var p := c.flight[i];
    var o := OnPeer(c.nodes[p.to.node], p.to.session, p.msg, newId);
    var more := Packets(c.wire, p.to.node, o.effects.posts) + AckPackets(c.wire, p.to, o.effects.reply);
    assert p in c.flight;
    OwedStays(c, Deliver(i, newId), c.flight, w);
    OwedStays(c, Deliver(i, newId), [p], w);
    assert [p][..0] == [];
    SumWithout(Due(k.nodes, w), c.flight, i);
    SumAppend(Due(k.nodes, w), Without(c.flight, i), more);
    forall q | q in more ensures q.msg != w {
      DeliverPostsOther(c, i, newId, w, q);
    }
    SumNone(Due(k.nodes, w), more);
  }

  /** Packets of other messages owe nothing. */
  lemma AddedTotal(c: Cluster, step: Step, more: seq<Packet>, w: Message)
    requires Orderly(c) && Enabled(c, step) && Fixed(step) && !step.Drop? && Spread(w)
    requires Next(c, step).flight == c.flight + more && forall q :: q in more ==> q.msg != w
    ensures Owed(Next(c, step).nodes, Next(c, step).flight, w) == Owed(c.nodes, c.flight, w)
  {
    var nodes := Next(c, step).nodes;
    SumAppend(Due(nodes, w), c.flight, more);
    SumNone(Due(nodes, w), more);
    OwedStays(c, step, c.flight, w);
  }

  lemma OtherDeliveries(n: Node, sender: Id, m: Message, w: Message)
    requires Spread(w) && !(Routed(m) && Signed(m, sender) == w)
    ensures Count(Says(w), OnLocal(n, sender, m).effects.deliveries) == 0
  {
    match m
    case Broadcast(_, _, _) => DeliverOthersTotal(n, sender, Signed(m, sender), w);
    case Publish(_, _, _, _) => DeliverOthersTotal(n, sender, Signed(m, sender), w);
    case _ => CountNone(Says(w), OnLocal(n, sender, m).effects.deliveries);
  }

  lemma OtherTotal(c: Cluster, o: Id, sender: Id, m: Message, w: Message)
    requires Orderly(c) && Enabled(c, Request(o, sender, m)) && Spread(w) && !Asks(Request(o, sender, m), w)
    ensures Total(Next(c, Request(o, sender, m)), w) == Total(c, w)
  {
    var out := OnLocal(c.nodes[o], sender, m);
    forall q | q in Packets(c.wire, o, out.effects.posts) ensures q.msg != w {
      OthersPack(c, o, sender, m, w, q);
    }
    AddedTotal(c, Request(o, sender, m), Packets(c.wire, o, out.effects.posts), w);
    CountAppend(Says(w), c.log, out.effects.deliveries);
    OtherDeliveries(c.nodes[o], sender, m, w);
  }

  /** Copies that packets on their way to a session would have made, had the step not dropped it. */
  ghost function MissedBy(c: Cluster, step: Step, w: Message): nat
    requires Spread(w)
  {
    if step.Drop? && Listening(c.nodes, step.end)
    then Count(Reaching(step.end, w), c.flight) * Receivers(c.nodes[step.end.node], w.client) else 0
  }

  lemma DropTotal(c: Cluster, e: End, w: Message)
    requires Orderly(c) && Enabled(c, Drop(e)) && Spread(w)
    ensures Total(Next(c, Drop(e)), w) + MissedBy(c, Drop(e), w) == Total(c, w)
  {
    ReceiversStay(c, Drop(e), w.client);
    DropOwed(c.nodes, Next(c, Drop(e)).nodes, e, c.flight, w);
  }

  lemma DropOwed(before: map<Id, Node>, after: map<Id, Node>, e: End, flight: seq<Packet>, w: Message)
    requires Spread(w) && SameReceivers(before, after, w.client)
    requires forall x :: Listening(after, x) <==> Listening(before, x) && x != e
    ensures Owed(before, flight, w) == Owed(after, flight, w)
      + if Listening(before, e) then Count(Reaching(e, w), flight) * Receivers(before[e.node], w.client) else 0
  {
    if Listening(before, e) {
      SumMore(Due(before, w), Due(after, w), Reaching(e, w), Receivers(before[e.node], w.client), flight);
    } else {
      SumExt(Due(before, w), Due(after, w), flight);
    }
  }

  lemma StepTotal(c: Cluster, step: Step, w: Message)
    requires Orderly(c) && Enabled(c, step) && Fixed(step) && !Asks(step, w) && Spread(w)
    ensures Total(Next(c, step), w) + MissedBy(c, step, w) == Total(c, w)
  {
    if step.Deliver? {
      DeliverTotal(c, step.i, step.newId, w);
    } else if step.Request? {
      OtherTotal(c, step.node, step.client, step.m, w);
    } else if step.Drop? {
      DropTotal(c, step.end, w);
    } else if step.Lose? {
      SumWithout(Due(c.nodes, w), c.flight, step.i);
    } else if step.Say? {
      AddedTotal(c, step, [Next(c, step).flight[|c.flight|]], w);
    } else {
      OwedStays(c, step, c.flight, w);
    }
  }

  ghost function Missed(c: Cluster, steps: seq<Step>, w: Message): nat
    requires Legal(c, steps) && Spread(w)
    decreases |steps|
  {
    if steps == [] then 0 else MissedBy(c, steps[0], w) + Missed(Next(c, steps[0]), steps[1..], w)
  }

  predicate AllFixed(steps: seq<Step>) {
    forall step :: step in steps ==> Fixed(step)
  }

  /**
   * While local clients neither come nor go, whatever they ask, the copies handed out and owed, and those
   * missed with dropped sessions, add up to the same.
   */
  lemma {:induction false} TotalConserved(c: Cluster, steps: seq<Step>, w: Message)
    requires Orderly(c) && Spread(w) && Legal(c, steps) && AllFixed(steps) && Unrepeated(steps, w)
    ensures Total(Run(c, steps), w) + Missed(c, steps, w) == Total(c, w)
    decreases |steps|
  {
    if steps != [] {
      assert steps[0] in steps && forall step :: step in steps[1..] ==> step in steps;
      StepTotal(c, steps[0], w);
      StepOrderly(c, steps[0]);
      TotalConserved(Next(c, steps[0]), steps[1..], w);
    }
  }

  // The table of the origin, session by session

  /** Rows of node o under session s are exactly the local clients of the node it leads to, and both ends are there. */
  ghost predicate ViewConverged(c: Cluster, o: Id, s: Id)
    requires o in c.nodes
  {
    && s in c.nodes[o].sessions && c.nodes[o].sessions[s].open && End(o, s) in c.wire
    && c.wire[End(o, s)].node != o && Listening(c.nodes, c.wire[End(o, s)])
    && forall x :: ClientRow(x, s) in c.nodes[o].clients <==> LocalAt(c, c.wire[End(o, s)].node, x)
  }

  /** Every row is local or belongs to a known session, and every session's rows have converged. */
  ghost predicate Converged(c: Cluster, o: Id) {
    && o in c.nodes
    && (forall s :: s in c.nodes[o].sessions ==> ViewConverged(c, o, s))
    && (forall r :: r in c.nodes[o].clients ==> r.session == o || r.session in c.nodes[o].sessions)
  }

  function Ids(p: ClientRow -> bool, rows: seq<ClientRow>): set<Id> {
    set r | r in rows && p(r) :: r.id
  }

  lemma IdsSnoc(p: ClientRow -> bool, rows: seq<ClientRow>, r: ClientRow)
    ensures Ids(p, rows + [r]) == Ids(p, rows) + if p(r) then {r.id} else {}
  {
    assert forall x :: x in rows + [r] <==> x in rows || x == r;
  }

  lemma {:induction false} CountIds(p: ClientRow -> bool, rows: seq<ClientRow>)
    requires Distinct(IdOf(), rows)
    ensures Count(p, rows) == |Ids(p, rows)|
  {
    if rows == [] {
      assert Ids(p, rows) == {};
    } else {
      var head, last := rows[..|rows| - 1], rows[|rows| - 1];
      assert rows == head + [last];
      CountIds(p, head);
      IdsSnoc(p, head, last);
      forall r | r in head ensures r.id != last.id {
        var j :| 0 <= j < |head| && rows[j] == r;
        assert IdOf()(rows[j]) != IdOf()(last);
      }
    }
  }

  /** A converged session shows as many rows as its peer has receivers, the sender being elsewhere. */
  lemma ViewCount(c: Cluster, o: Id, s: Id, sender: Id)
    requires Orderly(c) && o in c.nodes && ViewConverged(c, o, s) && LocalAt(c, o, sender)
    ensures c.wire[End(o, s)].node in c.nodes
    ensures Count(LearntFrom(s), c.nodes[o].clients) == Receivers(c.nodes[c.wire[End(o, s)].node], sender)
  {
    var m := c.wire[End(o, s)].node;
    assert c.wire[End(o, s)] in c.wire;
    var n, far := c.nodes[o], c.nodes[m];
    CountIds(LearntFrom(s), n.clients);
    CountIds(Getting(m, sender), far.clients);
    var here, there := Ids(LearntFrom(s), n.clients), Ids(Getting(m, sender), far.clients);
    forall x ensures x in here <==> x in there {
      assert LearntFrom(s)(ClientRow(x, s));
      assert x in here <==> ClientRow(x, s) in n.clients;
      assert x in there <==> ClientRow(x, m) in far.clients && x != sender;
      assert LocalAt(c, m, sender) ==> m == o;
    }
    assert here == there;
  }

  /** Receivers at the far end of session s, if a message sent on it is read there. */
  ghost function Across(c: Cluster, o: Id, sender: Id, s: Id): nat
    requires o in c.nodes
  {
    if Reachable(c.nodes[o].sessions, c.nodes[o].sessions.Keys, s)
      && End(o, s) in c.wire && Listening(c.nodes, c.wire[End(o, s)])
    then Receivers(c.nodes[c.wire[End(o, s)].node], sender) else 0
  }

  ghost function AcrossSome(c: Cluster, o: Id, sender: Id, who: set<Id>): Id -> nat
    requires o in c.nodes
  {
    (s: Id) => if s in who then Across(c, o, sender, s) else 0
  }

  /** Receivers of the nodes that the sessions of o among who lead to. */
  ghost function Beyond(c: Cluster, o: Id, sender: Id, who: set<Id>): nat
    requires o in c.nodes
  {
    Sum(AcrossSome(c, o, sender, who), Ordered(c.nodes[o].sessions.Keys))
  }

  lemma PostOwed(c: Cluster, o: Id, posts: seq<Post>, s: Id, w: Message)
    requires o in c.nodes && Spread(w) && Reachable(c.nodes[o].sessions, c.nodes[o].sessions.Keys, s)
    ensures Owed(c.nodes, Packets(c.wire, o, posts + [Post(s, w)]), w)
         == Owed(c.nodes, Packets(c.wire, o, posts), w) + Across(c, o, w.client, s)
  {
    PacketsSnoc(c.wire, o, posts, Post(s, w));
    if End(o, s) in c.wire {
      SumSnoc(Due(c.nodes, w), Packets(c.wire, o, posts), Packet(c.wire[End(o, s)], w));
    }
  }

  lemma {:induction false} FanoutOwed(c: Cluster, o: Id, keys: seq<Id>, who: set<Id>, w: Message)
    requires o in c.nodes && Spread(w)
    ensures Owed(c.nodes, Packets(c.wire, o, Fanout(keys, c.nodes[o].sessions, who, w)), w)
         == Sum(AcrossSome(c, o, w.client, who), keys)
  {
    if keys != [] {
      var front, s := keys[..|keys| - 1], keys[|keys| - 1];
      FanoutOwed(c, o, front, who, w);
      var posts := Fanout(front, c.nodes[o].sessions, who, w);
      if Reachable(c.nodes[o].sessions, who, s) {
        PostOwed(c, o, posts, s, w);
      } else {
        assert posts + [] == posts;
      }
    }
  }

  function Behind(keys: set<Id>): ClientRow -> bool { (r: ClientRow) => r.session in keys }

  /** Summed over converged sessions, the rows under them are the receivers beyond them. */
  lemma {:induction false} RowsBeyond(c: Cluster, o: Id, keys: seq<Id>, among: set<Id>, sender: Id)
    requires Orderly(c) && Converged(c, o) && LocalAt(c, o, sender) && NoDuplicates(keys)
    requires among <= c.nodes[o].sessions.Keys && forall s :: s in keys <==> s in among
    ensures Count(Behind(among), c.nodes[o].clients) == Sum(AcrossSome(c, o, sender, c.nodes[o].sessions.Keys), keys)
  {
    var rows := c.nodes[o].clients;
    if keys == [] {
      CountNone(Behind(among), rows);
    } else {
      var front, s := keys[..|keys| - 1], keys[|keys| - 1];
      assert keys == front + [s];
      assert forall t :: t in front <==> t in among - {s};
      RowsBeyond(c, o, front, among - {s}, sender);
      assert ViewConverged(c, o, s);
      ViewCount(c, o, s, sender);
      CountUnion(Behind(among - {s}), LearntFrom(s), Behind(among), rows);
    }
  }

  function Anyone(): ClientRow -> bool { (r: ClientRow) => true }
  function NotBehind(keys: set<Id>): ClientRow -> bool { (r: ClientRow) => r.session !in keys }

  lemma DistinctDecides<T, K>(key: T -> K, s: seq<T>, x: T, y: T)
    requires Distinct(key, s) && x in s && y in s && key(x) == key(y)
    ensures x == y
  {
    var i :| 0 <= i < |s| && s[i] == x;
    var j :| 0 <= j < |s| && s[j] == y;
  }

  /** The local rows are the sender and the other receivers. */
  lemma LocalPart(n: Node, sender: Id)
    requires Distinct(IdOf(), n.clients) && ClientRow(sender, n.id) in n.clients
    ensures Count(LearntFrom(n.id), n.clients) == 1 + Receivers(n, sender)
  {
    var self := ClientRow(sender, n.id);
    forall r | r in n.clients && r.id == sender ensures r == self {
      DistinctDecides(IdOf(), n.clients, r, self);
    }
    CountExt(Getting(n.id, sender), OthersOf(n.id, self), n.clients);
    CountUnion(OthersOf(n.id, self), IsRow(self), LearntFrom(n.id), n.clients);
    DistinctRows(n.clients);
    CountOnce(IsRow(self), n.clients, self);
  }

  lemma SplitRows(rows: seq<ClientRow>, o: Id, keys: set<Id>)
    requires o !in keys && forall r :: r in rows ==> r.session == o || r.session in keys
    ensures |rows| == Count(LearntFrom(o), rows) + Count(Behind(keys), rows)
  {
    CountAll(Anyone(), rows);
    CountUnion(NotBehind(keys), Behind(keys), Anyone(), rows);
    CountExt(NotBehind(keys), LearntFrom(o), rows);
  }

  /** The rows are the sender, the other local clients, and those behind sessions. */
  lemma RowsPartition(c: Cluster, o: Id, sender: Id)
    requires Orderly(c) && Converged(c, o) && LocalAt(c, o, sender)
    ensures |c.nodes[o].clients|
      == 1 + Receivers(c.nodes[o], sender) + Beyond(c, o, sender, c.nodes[o].sessions.Keys)
  {
    var n := c.nodes[o];
    assert n.id == o && o !in n.sessions.Keys;
    assert Count(LearntFrom(o), n.clients) == 1 + Receivers(n, sender) by {
      LocalPart(n, sender);
    }
    assert Count(Behind(n.sessions.Keys), n.clients) == Beyond(c, o, sender, n.sessions.Keys) by {
      OrderedNoDuplicates(n.sessions.Keys);
      RowsBeyond(c, o, Ordered(n.sessions.Keys), n.sessions.Keys, sender);
    }
    assert |n.clients| == Count(LearntFrom(o), n.clients) + Count(Behind(n.sessions.Keys), n.clients) by {
      SplitRows(n.clients, o, n.sessions.Keys);
    }
  }

  function OthersOf(o: Id, self: ClientRow): ClientRow -> bool { (r: ClientRow) => r.session == o && r != self }

  /** A request commits the cluster to a copy for each receiver here and beyond the sessions it is forwarded on. */
  lemma SpreadTotal(c: Cluster, o: Id, sender: Id, m: Message)
    requires Orderly(c) && Enabled(c, Request(o, sender, m)) && Spread(m)
    ensures Total(Next(c, Request(o, sender, m)), Signed(m, sender))
         == Total(c, Signed(m, sender)) + Receivers(c.nodes[o], sender) + Beyond(c, o, sender, Forwarded(c.nodes[o], m))
  {
    var n := c.nodes[o];
    var w := Signed(m, sender);
    var k := Next(c, Request(o, sender, m));
    var more := Packets(c.wire, o, OnLocal(n, sender, m).effects.posts);
    assert k.nodes == c.nodes;
    SumAppend(Due(c.nodes, w), c.flight, more);
    FanoutOwed(c, o, Ordered(n.sessions.Keys), Forwarded(n, m), w);
    CountAppend(Says(w), c.log, DeliverOthers(n, sender, w));
    DeliverOthersTotal(n, sender, w, w);
  }

  lemma SettledTotal(c: Cluster, w: Message)
    requires Spread(w) && Gone(c, w)
    ensures Total(c, w) == Count(Says(w), c.log)
  {
    SumNone(Due(c.nodes, w), c.flight);
  }

  /** Copies of the message handed out from the request until it has settled. */
  ghost function Handed(c: Cluster, o: Id, sender: Id, m: Message, steps: seq<Step>): int
    requires Settles(c, o, sender, m, steps)
  {
    var w := Signed(m, sender);
    Count(Says(w), Run(Next(c, Request(o, sender, m)), steps).log) - Count(Says(w), c.log)
  }

  ghost function Unhanded(c: Cluster, o: Id, sender: Id, m: Message, steps: seq<Step>): nat
    requires Settles(c, o, sender, m, steps) && Spread(m)
  {
    Missed(Next(c, Request(o, sender, m)), steps, Signed(m, sender))
  }

  lemma CopiesInAll(c: Cluster, o: Id, sender: Id, m: Message, steps: seq<Step>)
    requires Settles(c, o, sender, m, steps) && Spread(m) && AllFixed(steps)
    ensures Handed(c, o, sender, m, steps) + Unhanded(c, o, sender, m, steps)
         == Receivers(c.nodes[o], sender) + Beyond(c, o, sender, Forwarded(c.nodes[o], m))
  {
    var w := Signed(m, sender);
    var k := Next(c, Request(o, sender, m));
    SpreadTotal(c, o, sender, m);
    RequestOrderly(c, o, sender, m);
    TotalConserved(k, steps, w);
    SettledTotal(c, w);
    SettledTotal(Run(k, steps), w);
  }

  /** The count in the answer is of all the receivers the table shows. */
  lemma ReportedCount(c: Cluster, o: Id, sender: Id, m: Message)
    requires Orderly(c) && LocalAt(c, o, sender) && Spread(m) && Converged(c, o) && |c.nodes[o].clients| < WORDS
    ensures OnLocal(c.nodes[o], sender, m).effects.reply.count
         == Some(Receivers(c.nodes[o], sender) + Beyond(c, o, sender, c.nodes[o].sessions.Keys))
  {
    var rows := c.nodes[o].clients;
    assert ClientRow(sender, o) in rows;
    OthersCountIs(c.nodes[o]);
    RowsPartition(c, o, sender);
    assert OnLocal(c.nodes[o], sender, m).effects.reply.count == Some(OthersCount(c.nodes[o]));
  }

  /**
   * With converged rows and clients that neither come nor go, the count told to a broadcasting client is the
   * number of copies handed out across all nodes once the broadcast has settled, and of those missed with
   * dropped sessions. Others may ask whatever they like meanwhile.
   */
  lemma ReportedCountIsReceivers(c: Cluster, o: Id, sender: Id, m: Message, steps: seq<Step>)
    requires Settles(c, o, sender, m, steps) && m.Broadcast? && Converged(c, o) && AllFixed(steps)
    requires |c.nodes[o].clients| < WORDS
    ensures OnLocal(c.nodes[o], sender, m).effects.reply.count
         == Some(Handed(c, o, sender, m, steps) + Unhanded(c, o, sender, m, steps))
  {
    var told := OnLocal(c.nodes[o], sender, m).effects.reply.count;
    var copies := Handed(c, o, sender, m, steps) + Unhanded(c, o, sender, m, steps);
    assert told == Some(Receivers(c.nodes[o], sender) + Beyond(c, o, sender, c.nodes[o].sessions.Keys)) by {
      ReportedCount(c, o, sender, m);
    }
    assert copies == Receivers(c.nodes[o], sender) + Beyond(c, o, sender, c.nodes[o].sessions.Keys) by {
      CopiesInAll(c, o, sender, m, steps);
    }
  }

  /** Every session that the publication is not forwarded on leads to a node without receivers. */
  ghost predicate NobodySpared(c: Cluster, o: Id, sender: Id, m: Message)
    requires o in c.nodes
  {
    forall s :: s in c.nodes[o].sessions && s !in Forwarded(c.nodes[o], m) ==> Across(c, o, sender, s) == 0
  }

  lemma {:induction false} BeyondLess(c: Cluster, o: Id, sender: Id, who: set<Id>, keys: seq<Id>)
    requires o in c.nodes && forall s :: s in keys ==> s in c.nodes[o].sessions
    ensures Sum(AcrossSome(c, o, sender, who), keys) <= Sum(AcrossSome(c, o, sender, c.nodes[o].sessions.Keys), keys)
    ensures Sum(AcrossSome(c, o, sender, who), keys) == Sum(AcrossSome(c, o, sender, c.nodes[o].sessions.Keys), keys)
      <==> forall s :: s in keys && s !in who ==> Across(c, o, sender, s) == 0
  {
    if keys != [] {
      assert keys == keys[..|keys| - 1] + [keys[|keys| - 1]];
      BeyondLess(c, o, sender, who, keys[..|keys| - 1]);
    }
  }

  /**
   * A publishing client is told the same count. It is that of the copies handed out or missed exactly when
   * every session without a known subscriber leads to a node without receivers; otherwise it is more.
   */
  lemma PublishedCountIff(c: Cluster, o: Id, sender: Id, m: Message, steps: seq<Step>)
    requires Settles(c, o, sender, m, steps) && m.Publish? && Converged(c, o) && AllFixed(steps)
    requires |c.nodes[o].clients| < WORDS
    ensures var told := OnLocal(c.nodes[o], sender, m).effects.reply.count;
      var copies := Handed(c, o, sender, m, steps) + Unhanded(c, o, sender, m, steps);
      told.Some? && told.value >= copies && (told.value == copies <==> NobodySpared(c, o, sender, m))
  {
    CopiesInAll(c, o, sender, m, steps);
    ReportedCount(c, o, sender, m);
    BeyondLess(c, o, sender, Forwarded(c.nodes[o], m), Ordered(c.nodes[o].sessions.Keys));
  }
}
