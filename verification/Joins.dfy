/**
 * Nodes that join one after another through one seed, message by message. Whatever clients do meanwhile, in
 * every state at rest each node has exactly one open link to every other: the mesh that broadcasts and
 * publications rely on.
 */
module Joins {
  import opened Sequences
  import opened Json
  import opened Messages
  import opened Nodes
  import opened Clusters
  import opened Cascades
  import opened Newcomers
  import opened Routing
  import opened Guarantees

  /** No two nodes listen on the same host and port. */
  ghost predicate Distinguishable(address: Id -> Address) {
    && (forall i, j ::
          address(i).host == address(j).host && address(i).sessionsPort == address(j).sessionsPort ==> i == j)
    && (forall i :: address(i).host != NO_HOST && 0 < address(i).sessionsPort < PORTS && address(i).clientsPort < PORTS)
  }

  function Naming(a: Address): Message { Session(a.host, a.sessionsPort, a.clientsPort) }

  predicate Targets(a: Address, d: Dialing) { d.host == a.host && d.sessionsPort == a.sessionsPort }

  /** Messages that make sessions. */
  predicate Formative(m: Message) { m.Register? || m.Session? }

  // What can be on its way between two nodes

  function About(address: Id -> Address, n: Id, h: Id): Packet -> bool {
    (p: Packet) => p.to.node == n && p.msg == Naming(address(h))
  }

  function DialTo(address: Id -> Address, n: Id, h: Id): Dialing -> bool {
    (d: Dialing) => d.at.node == n && Targets(address(h), d)
  }

  function RegisterTo(e: End): Packet -> bool { (p: Packet) => p.to == e && p.msg.Register? }

  function AcceptingTo(wire: map<End, End>, e: End): Accepting -> bool {
    (a: Accepting) => a.at in wire && wire[a.at] == e
  }

  /** Ends at o of wires to h. */
  ghost function Wires(wire: map<End, End>, o: Id, h: Id): set<End> {
    set e | e in wire && e.node == o && wire[e].node == h
  }

  /** Session messages to n about h, dials of n to h, and wires between them. */
  ghost function Prospect(c: Cluster, n: Id, h: Id): nat {
    Count(About(c.address, n, h), c.flight) + Count(DialTo(c.address, n, h), c.dials) + |Wires(c.wire, n, h)|
  }

  ghost function RecordAt(nodes: map<Id, Node>, e: End): Option<Peer> {
    if e.node in nodes && e.session in nodes[e.node].sessions then Some(nodes[e.node].sessions[e.session]) else None
  }

  ghost predicate RegisteredAt(nodes: map<Id, Node>, e: End) {
    RecordAt(nodes, e).Some? && RecordAt(nodes, e).value.registered
  }

  /** At the far end of e someone is registering, has sent its register message, or is registered. */
  ghost function Standing(c: Cluster, e: End): nat {
    Count(RegisterTo(e), c.flight) + Count(AcceptingTo(c.wire, e), c.accepting)
      + if RegisteredAt(c.nodes, e) then 1 else 0
  }

  /** The seed has handled the register message of n. */
  ghost predicate Heard(c: Cluster, seed: Id, n: Id) {
    exists e :: e in Wires(c.wire, seed, n) && RegisteredAt(c.nodes, e)
  }

  // What holds while one node at most is joining

  /** The session object of a peer that listens on a. */
  predicate FitsPeer(r: Peer, a: Address) {
    && r.open && r.host == a.host
    && (if r.registered then r.sessionsPort == a.sessionsPort && r.clientsPort == a.clientsPort
        else r.sessionsPort == 0 || r.sessionsPort == a.sessionsPort)
  }

  /** A session object not connected yet. */
  predicate Stranger(r: Peer) { r.host == NO_HOST && !r.registered }

  ghost predicate RecordsFit(nodes: map<Id, Node>, wire: map<End, End>, address: Id -> Address) {
    && (forall e :: e in wire ==> RecordAt(nodes, e).Some? && FitsPeer(RecordAt(nodes, e).value, address(wire[e].node)))
    && (forall e :: RecordAt(nodes, e).Some? && e !in wire ==> Stranger(RecordAt(nodes, e).value))
  }

  ghost predicate DialsFit(nodes: map<Id, Node>, dials: seq<Dialing>) {
    forall d :: d in dials ==> RecordAt(nodes, d.at).Some? && RecordAt(nodes, d.at).value.sessionsPort == d.sessionsPort
  }

  ghost predicate Parties(wire: map<End, End>, who: set<Id>) {
    forall e :: e in wire ==> e.node in who && wire[e].node != e.node
  }

  /** Register messages carry the address of who sends them, and that it is new only towards the seed. */
  ghost predicate RegistersFit(c: Cluster, seed: Id) {
    forall p :: p in c.flight && p.msg.Register? ==>
      && p.to in c.wire
      && p.msg.sessionsPort == c.address(c.wire[p.to].node).sessionsPort
      && p.msg.clientsPort == c.address(c.wire[p.to].node).clientsPort
      && (p.msg.registered <==> p.to.node != seed)
  }

  /** Session messages go to who is joining and name who has joined. */
  ghost predicate NamesFit(c: Cluster, joined: set<Id>, joining: set<Id>) {
    forall p :: p in c.flight && p.msg.Session? ==>
      p.to.node in joining && exists h :: h in joined && p.msg == Naming(c.address(h))
  }

  ghost predicate TargetsFit(c: Cluster, seed: Id, joined: set<Id>, joining: set<Id>) {
    forall d :: d in c.dials ==>
      && d.at.node in joining
      && (exists h :: h in joined + {seed} && Targets(c.address(h), d))
      && (Targets(c.address(seed), d) <==> d.at.node !in c.registered)
  }

  ghost predicate AcceptingFits(c: Cluster, seed: Id) {
    forall a :: a in c.accepting ==> a.at in c.wire && (Newcomer(a, c.registered) <==> c.wire[a.at].node == seed)
  }

  ghost predicate Signals(c: Cluster, seed: Id, joined: set<Id>, joining: set<Id>) {
    RegistersFit(c, seed) && NamesFit(c, joined, joining) && TargetsFit(c, seed, joined, joining)
      && AcceptingFits(c, seed)
  }

  ghost predicate Pairs(wire: map<End, End>, who: set<Id>) {
    forall h, g :: h in who && g in who && h != g ==> |Wires(wire, h, g)| == 1
  }

  /** Who is joining has one way to the seed, and once the seed has heard of it one way to everyone else. */
  ghost predicate Ways(c: Cluster, seed: Id, joined: set<Id>, joining: set<Id>) {
    && (forall n :: n in joining ==> Count(DialTo(c.address, n, seed), c.dials) + |Wires(c.wire, n, seed)| == 1)
    && (forall n, h :: n in joining && h in joined ==> Prospect(c, n, h) == if Heard(c, seed, n) then 1 else 0)
  }

  ghost predicate Standings(c: Cluster, seed: Id, joined: set<Id>) {
    && (forall e :: e in c.wire && e.node == seed ==> Standing(c, e) == 1)
    && (forall e :: e in c.wire && e.node == seed && c.wire[e].node in joined ==> RegisteredAt(c.nodes, e))
  }

  ghost predicate Parts(c: Cluster, seed: Id, joined: set<Id>, joining: set<Id>) {
    && c.started == joined + joining && joined !! joining && seed !in joined + joining
    && joined + joining + {seed} <= c.nodes.Keys
    && (forall n, k :: n in joining && k in joining ==> n == k)
  }

  ghost predicate Sound(c: Cluster) {
    Wired(c) && Announced(c) && Bootstrapped(c) && Distinguishable(c.address)
  }

  ghost predicate Forming(c: Cluster, seed: Id, joined: set<Id>, joining: set<Id>) {
    && Sound(c) && Parts(c, seed, joined, joining)
    && RecordsFit(c.nodes, c.wire, c.address) && DialsFit(c.nodes, c.dials)
    && Parties(c.wire, joined + joining + {seed})
    && Signals(c, seed, joined, joining)
    && Pairs(c.wire, joined + {seed}) && Ways(c, seed, joined, joining) && Standings(c, seed, joined)
  }

  // Steps that form nothing

  /** The same session and register messages are on their way. */
  ghost predicate SameSignals(c: Cluster, k: Cluster, seed: Id) {
    && (forall p :: p in k.flight && Formative(p.msg) ==> p in c.flight)
    && (forall n, h :: Count(About(c.address, n, h), k.flight) == Count(About(c.address, n, h), c.flight))
    && (forall e: End :: e.node == seed ==> Count(RegisterTo(e), k.flight) == Count(RegisterTo(e), c.flight))
  }

  /** Nothing about links differs, but perhaps what is recorded at nodes other than the seed. */
  ghost predicate SameLinks(c: Cluster, k: Cluster, seed: Id) {
    && k.address == c.address && k.started == c.started && k.registered == c.registered && k.wire == c.wire
    && k.dials == c.dials && k.accepting == c.accepting && k.nodes.Keys == c.nodes.Keys
    && (forall e: End :: e.node == seed ==> (RegisteredAt(k.nodes, e) <==> RegisteredAt(c.nodes, e)))
    && SameSignals(c, k, seed)
  }

  lemma Unmoved(c: Cluster, k: Cluster, seed: Id, joined: set<Id>, joining: set<Id>)
    requires Forming(c, seed, joined, joining) && SameLinks(c, k, seed) && Sound(k)
    requires RecordsFit(k.nodes, k.wire, k.address) && DialsFit(k.nodes, k.dials)
    ensures Forming(k, seed, joined, joining)
  {
    UnmovedSignals(c, k, seed, joined, joining);
    UnmovedWays(c, k, seed, joined, joining);
    UnmovedStandings(c, k, seed, joined);
  }

  lemma UnmovedSignals(c: Cluster, k: Cluster, seed: Id, joined: set<Id>, joining: set<Id>)
    requires Signals(c, seed, joined, joining) && SameLinks(c, k, seed)
    ensures Signals(k, seed, joined, joining)
  {
  }

  lemma UnmovedWays(c: Cluster, k: Cluster, seed: Id, joined: set<Id>, joining: set<Id>)
    requires Ways(c, seed, joined, joining) && SameLinks(c, k, seed)
    ensures Ways(k, seed, joined, joining)
  {
    forall n, h | n in joining && h in joined ensures Prospect(k, n, h) == if Heard(k, seed, n) then 1 else 0 {
      assert Prospect(k, n, h) == Prospect(c, n, h);
      assert Heard(k, seed, n) <==> Heard(c, seed, n);
    }
  }

  lemma UnmovedStandings(c: Cluster, k: Cluster, seed: Id, joined: set<Id>)
    requires Standings(c, seed, joined) && SameLinks(c, k, seed)
    ensures Standings(k, seed, joined)
  {
    forall e | e in k.wire && e.node == seed ensures Standing(k, e) == 1 {
      assert Standing(k, e) == Standing(c, e);
    }
  }

  /** Adding messages that make no session changes no count. */
  lemma AddedSignals(c: Cluster, k: Cluster, more: seq<Packet>, seed: Id)
    requires k.flight == c.flight + more && forall p :: p in more ==> !Formative(p.msg)
    ensures SameSignals(c, k, seed)
  {
    forall n, h ensures Count(About(c.address, n, h), k.flight) == Count(About(c.address, n, h), c.flight) {
      CountAppend(About(c.address, n, h), c.flight, more);
      CountNone(About(c.address, n, h), more);
    }
    forall e ensures Count(RegisterTo(e), k.flight) == Count(RegisterTo(e), c.flight) {
      CountAppend(RegisterTo(e), c.flight, more);
      CountNone(RegisterTo(e), more);
    }
  }

  lemma SameSessionsFit(c: Cluster, k: Cluster)
    requires RecordsFit(c.nodes, c.wire, c.address) && DialsFit(c.nodes, c.dials)
    requires k.wire == c.wire && k.address == c.address && k.dials == c.dials && k.nodes.Keys == c.nodes.Keys
    requires forall o :: o in c.nodes ==> k.nodes[o].sessions == c.nodes[o].sessions
    ensures RecordsFit(k.nodes, k.wire, k.address) && DialsFit(k.nodes, k.dials)
    ensures forall e :: RecordAt(k.nodes, e) == RecordAt(c.nodes, e)
  {
    assert forall e :: RecordAt(k.nodes, e) == RecordAt(c.nodes, e);
  }

  lemma StepSound(c: Cluster, step: Step)
    requires Sound(c) && Enabled(c, step)
    ensures Sound(Next(c, step))
  {
    StepWired(c, step);
    StepAnnounced(c, step);
    StepBootstrapped(c, step);
  }

  /** Clients coming, going and asking. */
  lemma OutsideForms(c: Cluster, step: Step, seed: Id, joined: set<Id>, joining: set<Id>)
    requires Forming(c, seed, joined, joining) && Enabled(c, step) && (step.Request? || step.Accept? || step.Close?)
    ensures Forming(Next(c, step), seed, joined, joining)
  {
    StepSound(c, step);
    OutsideLinks(c, step, seed);
    Unmoved(c, Next(c, step), seed, joined, joining);
  }

  lemma OutsideLinks(c: Cluster, step: Step, seed: Id)
    requires Enabled(c, step) && (step.Request? || step.Accept? || step.Close?)
    requires RecordsFit(c.nodes, c.wire, c.address) && DialsFit(c.nodes, c.dials)
    ensures var k := Next(c, step);
      SameLinks(c, k, seed) && RecordsFit(k.nodes, k.wire, k.address) && DialsFit(k.nodes, k.dials)
  {
    var k := Next(c, step);
    var more := k.flight[|c.flight|..];
    assert k.flight == c.flight + more;
    forall q | q in more ensures !Formative(q.msg) {
      OutsideSays(c, step, q);
    }
    AddedSignals(c, k, more, seed);
    OutsideNodes(c, step);
    SameSessionsFit(c, k);
  }

  lemma OutsideNodes(c: Cluster, step: Step)
    requires Enabled(c, step) && (step.Request? || step.Accept? || step.Close?)
    ensures var k := Next(c, step);
      && k == c.(nodes := k.nodes, flight := k.flight, log := k.log) && k.nodes.Keys == c.nodes.Keys
      && (forall o :: o in c.nodes ==> k.nodes[o].sessions == c.nodes[o].sessions)
  {
    match step
    case Request(n, x, m) =>
      LocalFrame(c.nodes[n], x, m);
      OneNodeChanges(c.nodes, n, OnLocal(c.nodes[n], x, m).node);
    case Accept(n, x) => OneNodeChanges(c.nodes, n, Arrive(c.nodes[n], x).node);
    case Close(n, x) => OneNodeChanges(c.nodes, n, Depart(c.nodes[n], x).node);
  }

  lemma OneNodeChanges(nodes: map<Id, Node>, n: Id, after: Node)
    requires n in nodes && after.sessions == nodes[n].sessions
    ensures nodes[n := after].Keys == nodes.Keys
    ensures forall o :: o in nodes ==> nodes[n := after][o].sessions == nodes[o].sessions
  {
  }

  lemma OutsideSays(c: Cluster, step: Step, q: Packet)
    requires Enabled(c, step) && (step.Request? || step.Accept? || step.Close?)
    requires q in Next(c, step).flight[|c.flight|..]
    ensures !Formative(q.msg)
  {
    match step
    case Request(o, x, m) =>
      PacketsFrom(c.wire, o, OnLocal(c.nodes[o], x, m).effects.posts, q);
      var p :| p in OnLocal(c.nodes[o], x, m).effects.posts && q.msg == p.msg;
      LocalPosts(c.nodes[o], x, m, p);
    case Accept(o, x) =>
      FanoutQuiet(Arrive(c.nodes[o], x).node, Join(x));
      AnnouncedPosts(c, o, Arrive(c.nodes[o], x).effects.posts, q);
    case Close(o, x) =>
      FanoutQuiet(Depart(c.nodes[o], x).node, Leave(x));
      AnnouncedPosts(c, o, Depart(c.nodes[o], x).effects.posts, q);
  }

  // Deliveries

  ghost function Answers(c: Cluster, i: nat, newId: Id): seq<Packet>
    requires Enabled(c, Deliver(i, newId))
  {
    var p := c.flight[i];
    var o := OnPeer(c.nodes[p.to.node], p.to.session, p.msg, newId);
    Packets(c.wire, p.to.node, o.effects.posts) + AckPackets(c.wire, p.to, o.effects.reply)
  }

  lemma DeliverCounts(c: Cluster, i: nat, newId: Id, which: Packet -> bool)
    requires Enabled(c, Deliver(i, newId))
    ensures Delivered(c, i, newId).flight == Without(c.flight, i) + Answers(c, i, newId)
    ensures Count(which, Delivered(c, i, newId).flight) + (if which(c.flight[i]) then 1 else 0)
         == Count(which, c.flight) + Count(which, Answers(c, i, newId))
  {
    CountWithout(which, c.flight, i);
    CountAppend(which, Without(c.flight, i), Answers(c, i, newId));
  }

  /** Only a newcomer's register message is answered by messages that make sessions. */
  lemma AnswersForm(c: Cluster, i: nat, newId: Id, q: Packet)
    requires Enabled(c, Deliver(i, newId)) && q in Answers(c, i, newId) && Formative(q.msg)
    ensures var p := c.flight[i];
      q.msg.Session? && p.msg.Register? && !p.msg.registered && p.to in c.wire && q.to == c.wire[p.to]
  {
    var p := c.flight[i];
    var o := OnPeer(c.nodes[p.to.node], p.to.session, p.msg, newId);
    PacketsFrom(c.wire, p.to.node, o.effects.posts, q);
    var post :| post in o.effects.posts && End(p.to.node, post.session) in c.wire
      && q == Packet(c.wire[End(p.to.node, post.session)], post.msg);
    PeerPosts(c.nodes[p.to.node], p.to.session, p.msg, newId, post);
    assert End(p.to.node, post.session) == p.to;
  }

  /** A delivery of something else than a session message, or than a register message to the seed. */
  lemma DeliverSignals(c: Cluster, i: nat, newId: Id, seed: Id)
    requires RegistersFit(c, seed) && Enabled(c, Deliver(i, newId))
    requires !c.flight[i].msg.Session? && (c.flight[i].msg.Register? ==> c.flight[i].to.node != seed)
    ensures SameSignals(c, Delivered(c, i, newId), seed)
  {
    var p := c.flight[i];
    var k := Delivered(c, i, newId);
    assert p in c.flight;
    forall q | q in Answers(c, i, newId) ensures !Formative(q.msg) {
      if Formative(q.msg) {
        AnswersForm(c, i, newId, q);
      }
    }
    forall n, h ensures Count(About(c.address, n, h), k.flight) == Count(About(c.address, n, h), c.flight) {
      DeliverCounts(c, i, newId, About(c.address, n, h));
      CountNone(About(c.address, n, h), Answers(c, i, newId));
    }
    forall e: End | e.node == seed ensures Count(RegisterTo(e), k.flight) == Count(RegisterTo(e), c.flight) {
      DeliverCounts(c, i, newId, RegisterTo(e));
      CountNone(RegisterTo(e), Answers(c, i, newId));
    }
    forall q | q in k.flight && Formative(q.msg) ensures q in c.flight {
      DeliverCounts(c, i, newId, RegisterTo(p.to));
      if q in Without(c.flight, i) {
        WithoutMembers(c.flight, i, q);
      }
    }
  }

  /** What a register message does to the records. */
  lemma RegisterFits(c: Cluster, i: nat, newId: Id, seed: Id)
    requires RegistersFit(c, seed) && Distinguishable(c.address) && Enabled(c, Deliver(i, newId))
    requires c.flight[i].msg.Register?
    requires RecordsFit(c.nodes, c.wire, c.address) && DialsFit(c.nodes, c.dials)
    requires Unwired(c.dials, c.wire, c.nodes.Keys)
    ensures var k := Delivered(c, i, newId);
      && RecordsFit(k.nodes, k.wire, k.address) && DialsFit(k.nodes, k.dials) && k.dials == c.dials
      && (forall e: End :: RegisteredAt(k.nodes, e) <==> RegisteredAt(c.nodes, e) || e == c.flight[i].to)
  {
    var p := c.flight[i];
    var k := Delivered(c, i, newId);
    assert p in c.flight;
    assert k.nodes
      == c.nodes[p.to.node := RegisterPeer(c.nodes[p.to.node], p.to.session, p.msg.clientsPort, p.msg.sessionsPort)];
    FillOne(c.nodes, p.to, p.msg);
    FilledFits(c.nodes, k.nodes, c.wire, c.address, c.dials, p.to, p.msg);
  }

  lemma FilledFits(nodes: map<Id, Node>, after: map<Id, Node>, wire: map<End, End>, address: Id -> Address,
                   dials: seq<Dialing>, e: End, m: Message)
    requires RecordsFit(nodes, wire, address) && DialsFit(nodes, dials) && Distinguishable(address) && e in wire
    requires m.Register? && m.sessionsPort == address(wire[e].node).sessionsPort
    requires m.clientsPort == address(wire[e].node).clientsPort
    requires forall d :: d in dials ==> d.at != e
    requires var filled := Some(Filled(RecordAt(nodes, e).value, m.clientsPort, m.sessionsPort));
      forall x :: RecordAt(after, x) == if x == e then filled else RecordAt(nodes, x)
    ensures RecordsFit(after, wire, address) && DialsFit(after, dials)
    ensures forall x: End :: RegisteredAt(after, x) <==> RegisteredAt(nodes, x) || x == e
  {
  }

  lemma FillOne(nodes: map<Id, Node>, e: End, m: Message)
    requires m.Register? && RecordAt(nodes, e).Some?
    ensures var k := nodes[e.node := RegisterPeer(nodes[e.node], e.session, m.clientsPort, m.sessionsPort)];
      forall x :: RecordAt(k, x)
        == if x == e then Some(Filled(RecordAt(nodes, e).value, m.clientsPort, m.sessionsPort)) else RecordAt(nodes, x)
  {
  }

  lemma OtherForms(c: Cluster, i: nat, newId: Id, seed: Id, joined: set<Id>, joining: set<Id>)
    requires Forming(c, seed, joined, joining) && Enabled(c, Deliver(i, newId))
    requires !c.flight[i].msg.Session? && (c.flight[i].msg.Register? ==> c.flight[i].to.node != seed)
    ensures Forming(Delivered(c, i, newId), seed, joined, joining)
  {
    StepSound(c, Deliver(i, newId));
    OtherLinks(c, i, newId, seed);
    Unmoved(c, Delivered(c, i, newId), seed, joined, joining);
  }

  lemma OtherLinks(c: Cluster, i: nat, newId: Id, seed: Id)
    requires RegistersFit(c, seed) && Distinguishable(c.address) && Enabled(c, Deliver(i, newId))
    requires !c.flight[i].msg.Session? && (c.flight[i].msg.Register? ==> c.flight[i].to.node != seed)
    requires RecordsFit(c.nodes, c.wire, c.address) && DialsFit(c.nodes, c.dials)
    requires Unwired(c.dials, c.wire, c.nodes.Keys)
    ensures var k := Delivered(c, i, newId);
      SameLinks(c, k, seed) && RecordsFit(k.nodes, k.wire, k.address) && DialsFit(k.nodes, k.dials)
  {
    var p := c.flight[i];
    var k := Delivered(c, i, newId);
    DeliverSignals(c, i, newId, seed);
    assert k.nodes.Keys == c.nodes.Keys && k.dials == c.dials;
    if p.msg.Register? {
      RegisterFits(c, i, newId, seed);
    } else {
      PeerFrame(c.nodes[p.to.node], p.to.session, p.msg, newId);
      SameSessionsFit(c, k);
    }
  }

  // The seed hears of who is joining

  lemma OneElement<T>(s: set<T>, x: T, y: T)
    requires |s| == 1 && x in s && y in s
    ensures x == y
  {
    assert |s - {x}| == 0;
    assert y !in s - {x};
  }

  lemma {:induction false} ImageSize(f: map<End, End>, s: set<End>)
    requires s <= f.Keys && forall a, b :: a in s && b in s && f[a] == f[b] ==> a == b
    ensures |set e | e in s :: f[e]| == |s|
  {
    if s == {} {
      assert (set e | e in s :: f[e]) == {};
    } else {
      var x :| x in s;
      ImageSize(f, s - {x});
      assert (set e | e in s :: f[e]) == (set e | e in s - {x} :: f[e]) + {f[x]};
    }
  }

  lemma Symmetric(wire: map<End, End>, nodes: set<Id>, o: Id, h: Id)
    requires Paired(wire, nodes)
    ensures |Wires(wire, o, h)| == |Wires(wire, h, o)|
  {
    var s := Wires(wire, o, h);
    assert (set e | e in s :: wire[e]) == Wires(wire, h, o) by {
      forall e | e in Wires(wire, h, o) ensures wire[e] in s && wire[wire[e]] == e {
      }
    }
    ImageSize(wire, s);
  }

  /** Session t of the node is listed and leads to h. */
  ghost predicate ListedTo(n: Node, wire: map<End, End>, s: Id, h: Id, t: Id) {
    Listed(n, s, t) && End(n.id, t) in wire && wire[End(n.id, t)].node == h
  }

  ghost function ListedBy(n: Node, wire: map<End, End>, s: Id, h: Id): Id -> bool {
    (t: Id) => ListedTo(n, wire, s, h, t)
  }

  /** A snapshot sends as many session messages about h as there are sessions listed that lead to h. */
  lemma {:induction false} ListCounts(n: Node, wire: map<End, End>, address: Id -> Address, s: Id,
                                      keys: seq<Id>, x: Id, h: Id)
    requires Distinguishable(address) && End(n.id, s) in wire && wire[End(n.id, s)].node == x
    requires forall t :: Listed(n, s, t) ==>
      End(n.id, t) in wire && FitsPeer(n.sessions[t], address(wire[End(n.id, t)].node))
    ensures Count(About(address, x, h), Packets(wire, n.id, SessionPosts(n, s, keys)))
      == Count(ListedBy(n, wire, s, h), keys)
  {
    if keys != [] {
      var front, t := keys[..|keys| - 1], keys[|keys| - 1];
      ListCounts(n, wire, address, s, front, x, h);
      ListOne(n, wire, address, s, SessionPosts(n, s, front), t, x, h);
    }
  }

  lemma ListOne(n: Node, wire: map<End, End>, address: Id -> Address, s: Id, posts: seq<Post>, t: Id, x: Id, h: Id)
    requires Distinguishable(address) && End(n.id, s) in wire && wire[End(n.id, s)].node == x
    requires Listed(n, s, t) ==> End(n.id, t) in wire && FitsPeer(n.sessions[t], address(wire[End(n.id, t)].node))
    ensures var last := if Listed(n, s, t)
        then [Post(s, Session(n.sessions[t].host, n.sessions[t].sessionsPort, n.sessions[t].clientsPort))] else [];
      Count(About(address, x, h), Packets(wire, n.id, posts + last))
        == Count(About(address, x, h), Packets(wire, n.id, posts)) + if ListedBy(n, wire, s, h)(t) then 1 else 0
  {
    if Listed(n, s, t) {
      var far := wire[End(n.id, t)].node;
      var post := Post(s, Session(n.sessions[t].host, n.sessions[t].sessionsPort, n.sessions[t].clientsPort));
      assert post.msg == Naming(address(far));
      assert Naming(address(far)) == Naming(address(h)) <==> far == h;
      PacketsSnoc(wire, n.id, posts, post);
      CountSnoc(About(address, x, h), Packets(wire, n.id, posts), Packet(wire[End(n.id, s)], post.msg));
    } else {
      assert posts + [] == posts;
    }
  }

  lemma {:induction false} PacketsSplit(wire: map<End, End>, node: Id, a: seq<Post>, b: seq<Post>)
    ensures Packets(wire, node, a + b) == Packets(wire, node, a) + Packets(wire, node, b)
  {
    if b == [] {
      assert a + b == a;
    } else {
      assert (a + b)[..|a + b| - 1] == a + b[..|b| - 1];
      PacketsSplit(wire, node, a, b[..|b| - 1]);
    }
  }

  /** What the seed answers to a newcomer: one session message for each session listed. */
  lemma NewcomerIsTold(c: Cluster, i: nat, newId: Id, h: Id)
    requires Distinguishable(c.address) && Enabled(c, Deliver(i, newId)) && Named(c.nodes)
    requires var p := c.flight[i];
      && p.msg.Register? && !p.msg.registered && p.to in c.wire && RecordAt(c.nodes, p.to).Some?
      && RecordAt(c.nodes, p.to).value.open
    requires RecordsFit(Delivered(c, i, newId).nodes, c.wire, c.address)
    ensures var p := c.flight[i]; var x := c.wire[p.to].node; var seat := Delivered(c, i, newId).nodes[p.to.node];
      Count(About(c.address, x, h), Answers(c, i, newId))
        == Count(ListedBy(seat, c.wire, p.to.session, h), Ordered(seat.sessions.Keys))
  {
    var p := c.flight[i];
    var x, s := c.wire[p.to].node, p.to.session;
    var k := Delivered(c, i, newId);
    var seat := k.nodes[p.to.node];
    SeatAfter(c, i, newId);
    SeatFits(k.nodes, c.wire, c.address, p.to.node, s);
    SnapshotCounts(seat, c.wire, c.address, s, x, h);
    AcksSayNothing(c, i, newId, About(c.address, x, h));
  }

  lemma AcksSayNothing(c: Cluster, i: nat, newId: Id, which: Packet -> bool)
    requires Enabled(c, Deliver(i, newId)) && forall q: Packet :: q.msg.Ack? ==> !which(q)
    ensures var p := c.flight[i]; var posts := OnPeer(c.nodes[p.to.node], p.to.session, p.msg, newId).effects.posts;
      Count(which, Answers(c, i, newId)) == Count(which, Packets(c.wire, p.to.node, posts))
  {
    var p := c.flight[i];
    var o := OnPeer(c.nodes[p.to.node], p.to.session, p.msg, newId);
    var acks := AckPackets(c.wire, p.to, o.effects.reply);
    CountAppend(which, Packets(c.wire, p.to.node, o.effects.posts), acks);
    CountNone(which, acks);
  }

  lemma SeatFits(nodes: map<Id, Node>, wire: map<End, End>, address: Id -> Address, o: Id, s: Id)
    requires RecordsFit(nodes, wire, address) && o in nodes && nodes[o].id == o
    ensures forall t :: Listed(nodes[o], s, t) ==>
      End(o, t) in wire && FitsPeer(nodes[o].sessions[t], address(wire[End(o, t)].node))
  {
    forall t | Listed(nodes[o], s, t)
      ensures End(o, t) in wire && FitsPeer(nodes[o].sessions[t], address(wire[End(o, t)].node))
    {
      assert RecordAt(nodes, End(o, t)) == Some(nodes[o].sessions[t]);
    }
  }

  lemma SeatAfter(c: Cluster, i: nat, newId: Id)
    requires Enabled(c, Deliver(i, newId)) && Named(c.nodes) && RecordAt(c.nodes, c.flight[i].to).Some?
    requires c.flight[i].msg.Register? && !c.flight[i].msg.registered && RecordAt(c.nodes, c.flight[i].to).value.open
    ensures var p := c.flight[i]; var seat := Delivered(c, i, newId).nodes[p.to.node];
      && seat.id == p.to.node && p.to.session in seat.sessions && seat.sessions[p.to.session].open
      && OnPeer(c.nodes[p.to.node], p.to.session, p.msg, newId).effects.posts == Sync(seat, p.to.session, false)
  {
  }

  lemma SnapshotCounts(n: Node, wire: map<End, End>, address: Id -> Address, s: Id, x: Id, h: Id)
    requires Distinguishable(address) && End(n.id, s) in wire && wire[End(n.id, s)].node == x
    requires s in n.sessions && n.sessions[s].open
    requires forall t :: Listed(n, s, t) ==>
      End(n.id, t) in wire && FitsPeer(n.sessions[t], address(wire[End(n.id, t)].node))
    ensures Count(About(address, x, h), Packets(wire, n.id, Sync(n, s, false)))
         == Count(ListedBy(n, wire, s, h), Ordered(n.sessions.Keys))
  {
    var lists := SessionPosts(n, s, Ordered(n.sessions.Keys));
    var rest := JoinPosts(s, Filter(LearntFrom(n.id), n.clients))
      + SubscribePosts(s, Filter(SubFrom(n.id), n.subscriptions));
    assert Sync(n, s, false) == lists + rest;
    PacketsSplit(wire, n.id, lists, rest);
    var others := Packets(wire, n.id, rest);
    forall q | q in others ensures !q.msg.Session? {
      PacketsFrom(wire, n.id, rest, q);
    }
    CountAppend(About(address, x, h), Packets(wire, n.id, lists), others);
    CountNone(About(address, x, h), others);
    ListCounts(n, wire, address, s, Ordered(n.sessions.Keys), x, h);
  }

  /** A packet has been replaced by its answers. */
  lemma ReplacedCounts(before: seq<Packet>, i: nat, answers: seq<Packet>, which: Packet -> bool)
    requires i < |before|
    ensures Count(which, Without(before, i) + answers) + (if which(before[i]) then 1 else 0)
         == Count(which, before) + Count(which, answers)
  {
    CountWithout(which, before, i);
    CountAppend(which, Without(before, i), answers);
  }

  lemma ReplacedMembers(before: seq<Packet>, i: nat, answers: seq<Packet>, q: Packet)
    requires i < |before| && q in Without(before, i) + answers
    ensures q in before || q in answers
  {
    if q in Without(before, i) {
      WithoutMembers(before, i, q);
    }
  }

  /** The newcomer behind a register message to the seed, which the seed has not heard yet. */
  ghost predicate Claims(c: Cluster, i: nat, seed: Id, joining: set<Id>) {
    i < |c.flight| &&
    var p := c.flight[i];
    && p.msg.Register? && !p.msg.registered && p.to.node == seed
    && p.to in c.wire && c.wire[p.to].node in joining && !RegisteredAt(c.nodes, p.to)
    && Wires(c.wire, seed, c.wire[p.to].node) == {p.to}
    && Count(RegisterTo(p.to), c.flight) == 1 && Count(AcceptingTo(c.wire, p.to), c.accepting) == 0
  }

  lemma StandsOnce(c: Cluster, i: nat)
    requires i < |c.flight| && c.flight[i].msg.Register? && Standing(c, c.flight[i].to) == 1
    ensures var e := c.flight[i].to;
      !RegisteredAt(c.nodes, e) && Count(RegisterTo(e), c.flight) == 1
        && Count(AcceptingTo(c.wire, e), c.accepting) == 0
  {
    var p := c.flight[i];
    assert p in c.flight && RegisterTo(p.to)(p);
    CountNone(RegisterTo(p.to), c.flight);
  }

  lemma OnlyEnd(wire: map<End, End>, nodes: set<Id>, e: End)
    requires Paired(wire, nodes) && e in wire && |Wires(wire, wire[e].node, e.node)| <= 1
    ensures Wires(wire, e.node, wire[e].node) == {e}
  {
    var ends := Wires(wire, e.node, wire[e].node);
    Symmetric(wire, nodes, e.node, wire[e].node);
    assert e in ends && |ends - {e}| == |ends| - 1;
  }

  lemma Claimant(c: Cluster, i: nat, seed: Id, joined: set<Id>, joining: set<Id>)
    requires RegistersFit(c, seed) && Standings(c, seed, joined) && Paired(c.wire, c.nodes.Keys)
    requires Parties(c.wire, joined + joining + {seed})
    requires forall n :: n in joining ==> |Wires(c.wire, n, seed)| <= 1
    requires i < |c.flight| && c.flight[i].msg.Register? && c.flight[i].to.node == seed
    ensures Claims(c, i, seed, joining)
  {
    var p := c.flight[i];
    assert p in c.flight;
    assert Standing(c, p.to) == 1;
    StandsOnce(c, i);
    OnlyEnd(c.wire, c.nodes.Keys, p.to);
  }

  /** The seed lists exactly one session of each node that has joined. */
  lemma ListedOnceEach(wire: map<End, End>, nodes: map<Id, Node>, seed: Id, joined: set<Id>, s: Id, h: Id)
    requires Paired(wire, nodes.Keys) && seed in nodes && nodes[seed].id == seed
    requires h in joined && |Wires(wire, seed, h)| == 1
    requires forall e :: e in wire && e.node == seed && wire[e].node in joined ==> RegisteredAt(nodes, e)
    requires End(seed, s) in wire && wire[End(seed, s)].node != h
    ensures Count(ListedBy(nodes[seed], wire, s, h), Ordered(nodes[seed].sessions.Keys)) == 1
  {
    var seat := nodes[seed];
    var ends := Wires(wire, seed, h);
    var e :| e in ends;
    forall t ensures ListedTo(seat, wire, s, h, t) <==> t == e.session {
      if ListedTo(seat, wire, s, h, t) {
        OneElement(ends, e, End(seed, t));
      }
    }
    OrderedNoDuplicates(seat.sessions.Keys);
    CountOnce(ListedBy(seat, wire, s, h), Ordered(seat.sessions.Keys), e.session);
  }

  lemma SnapshotNames(n: Node, s: Id, post: Post)
    requires post in Sync(n, s, false) && post.msg.Session?
    ensures exists t :: Introduces(n, s, t, post.msg)
  {
    var lists := SessionPosts(n, s, Ordered(n.sessions.Keys));
    SessionPostsAre(n, s, Ordered(n.sessions.Keys), post);
    assert post in lists;
  }

  /** Whom a listed session leads to. */
  lemma ListedNode(wire: map<End, End>, nodes: map<Id, Node>, address: Id -> Address, seed: Id,
                   joined: set<Id>, joining: set<Id>, s: Id, t: Id, m: Message)
    requires RecordsFit(nodes, wire, address) && Parties(wire, joined + joining + {seed}) && Paired(wire, nodes.Keys)
    requires forall n, k :: n in joining && k in joining ==> n == k
    requires seed in nodes && nodes[seed].id == seed && End(seed, s) in wire && wire[End(seed, s)].node in joining
    requires Wires(wire, seed, wire[End(seed, s)].node) == {End(seed, s)}
    requires Introduces(nodes[seed], s, t, m)
    ensures exists h :: h in joined && m == Naming(address(h))
  {
    var e := End(seed, t);
    assert RecordAt(nodes, e) == Some(nodes[seed].sessions[t]) && e in wire;
    var h := wire[e].node;
    assert m == Naming(address(h));
    assert h != seed;
    assert e != End(seed, s) && e !in Wires(wire, seed, wire[End(seed, s)].node);
    assert h !in joining && h in joined;
  }

  /** What hearing of the newcomer comes to. */
  ghost predicate Hears(c: Cluster, k: Cluster, i: nat, answers: seq<Packet>, joined: set<Id>, joining: set<Id>)
    requires i < |c.flight|
  {
    var e := c.flight[i].to;
    && k == c.(nodes := k.nodes, flight := Without(c.flight, i) + answers) && k.nodes.Keys == c.nodes.Keys
    && (forall x: End :: RegisteredAt(k.nodes, x) <==> RegisteredAt(c.nodes, x) || x == e)
    && (forall q :: q in answers && Formative(q.msg) ==>
          q.msg.Session? && q.to.node in joining && exists h :: h in joined && q.msg == Naming(c.address(h)))
    && (e in c.wire ==> forall h :: h in joined ==> Count(About(c.address, c.wire[e].node, h), answers) == 1)
  }

  lemma SeedAnswers(c: Cluster, i: nat, newId: Id, seed: Id, joined: set<Id>, joining: set<Id>, q: Packet)
    requires Enabled(c, Deliver(i, newId)) && Claims(c, i, seed, joining) && Named(c.nodes)
    requires Paired(c.wire, c.nodes.Keys)
    requires Parties(c.wire, joined + joining + {seed}) && forall n, k :: n in joining && k in joining ==> n == k
    requires RecordsFit(Delivered(c, i, newId).nodes, c.wire, c.address)
    requires q in Answers(c, i, newId) && Formative(q.msg)
    ensures q.msg.Session? && q.to.node in joining && exists h :: h in joined && q.msg == Naming(c.address(h))
  {
    var p := c.flight[i];
    AnswersForm(c, i, newId, q);
    DeliveredOnlyMoves(c, i, newId);
    var k := Delivered(c, i, newId);
    var o := OnPeer(c.nodes[seed], p.to.session, p.msg, newId);
    PacketsFrom(c.wire, seed, o.effects.posts, q);
    var post :| post in o.effects.posts && q.msg == post.msg;
    SnapshotNames(k.nodes[seed], p.to.session, post);
    var t :| Introduces(k.nodes[seed], p.to.session, t, q.msg);
    ListedNode(c.wire, k.nodes, c.address, seed, joined, joining, p.to.session, t, q.msg);
  }

  lemma SeedHears(c: Cluster, i: nat, newId: Id, seed: Id, joined: set<Id>, joining: set<Id>)
    requires Wired(c) && Distinguishable(c.address) && RegistersFit(c, seed)
    requires Enabled(c, Deliver(i, newId)) && Claims(c, i, seed, joining)
    requires RecordsFit(c.nodes, c.wire, c.address) && DialsFit(c.nodes, c.dials)
    requires Parties(c.wire, joined + joining + {seed}) && forall n, k :: n in joining && k in joining ==> n == k
    requires joined !! joining && Pairs(c.wire, joined + {seed}) && seed !in joined && Standings(c, seed, joined)
    ensures Hears(c, Delivered(c, i, newId), i, Answers(c, i, newId), joined, joining)
    ensures RecordsFit(Delivered(c, i, newId).nodes, c.wire, c.address)
      && DialsFit(Delivered(c, i, newId).nodes, c.dials)
  {
    var p := c.flight[i];
    var k := Delivered(c, i, newId);
    RegisterFits(c, i, newId, seed);
    forall q | q in Answers(c, i, newId) && Formative(q.msg)
      ensures q.msg.Session? && q.to.node in joining && exists h :: h in joined && q.msg == Naming(c.address(h))
    {
      SeedAnswers(c, i, newId, seed, joined, joining, q);
    }
    forall h | h in joined ensures Count(About(c.address, c.wire[p.to].node, h), Answers(c, i, newId)) == 1 {
      SeedTellsOf(c, i, newId, seed, joined, joining, h);
    }
    DeliveredOnlyMoves(c, i, newId);
  }

  lemma SeedTellsOf(c: Cluster, i: nat, newId: Id, seed: Id, joined: set<Id>, joining: set<Id>, h: Id)
    requires Wired(c) && Distinguishable(c.address) && Enabled(c, Deliver(i, newId)) && Claims(c, i, seed, joining)
    requires RecordsFit(c.nodes, c.wire, c.address) && RecordsFit(Delivered(c, i, newId).nodes, c.wire, c.address)
    requires forall e: End :: RegisteredAt(c.nodes, e) ==> RegisteredAt(Delivered(c, i, newId).nodes, e)
    requires forall e :: e in c.wire && e.node == seed && c.wire[e].node in joined ==> RegisteredAt(c.nodes, e)
    requires h in joined && joined !! joining && |Wires(c.wire, seed, h)| == 1
    ensures Count(About(c.address, c.wire[c.flight[i].to].node, h), Answers(c, i, newId)) == 1
  {
    var k := Delivered(c, i, newId);
    DeliveredOnlyMoves(c, i, newId);
    DeliveredKeepsId(c, i, newId);
    NewcomerIsTold(c, i, newId, h);
    ListedOnceEach(c.wire, k.nodes, seed, joined, c.flight[i].to.session, h);
  }

  lemma DeliveredKeepsId(c: Cluster, i: nat, newId: Id)
    requires Enabled(c, Deliver(i, newId)) && Named(c.nodes)
    ensures Named(Delivered(c, i, newId).nodes)
  {
  }

  lemma DeliveredOnlyMoves(c: Cluster, i: nat, newId: Id)
    requires Enabled(c, Deliver(i, newId)) && c.flight[i].msg.Register?
    ensures var k := Delivered(c, i, newId);
      k == c.(nodes := k.nodes, flight := Without(c.flight, i) + Answers(c, i, newId)) && k.nodes.Keys == c.nodes.Keys
  {
    assert Delivered(c, i, newId).nodes.Keys == c.nodes.Keys;
    assert Delivered(c, i, newId).dials == c.dials && Delivered(c, i, newId).log == c.log;
  }

  lemma HeardSignals(c: Cluster, k: Cluster, i: nat, answers: seq<Packet>, seed: Id, joined: set<Id>, joining: set<Id>)
    requires Signals(c, seed, joined, joining) && i < |c.flight| && Hears(c, k, i, answers, joined, joining)
    ensures Signals(k, seed, joined, joining)
  {
    forall q | q in k.flight && Formative(q.msg) ensures q in c.flight || q in answers {
      ReplacedMembers(c.flight, i, answers, q);
    }
  }

  lemma HeardWays(c: Cluster, k: Cluster, i: nat, answers: seq<Packet>, seed: Id, joined: set<Id>, joining: set<Id>)
    requires Ways(c, seed, joined, joining) && Claims(c, i, seed, joining) && Hears(c, k, i, answers, joined, joining)
    requires forall n, k :: n in joining && k in joining ==> n == k
    ensures Ways(k, seed, joined, joining)
  {
    var p := c.flight[i];
    var n := c.wire[p.to].node;
    assert p.to in Wires(k.wire, seed, n) && RegisteredAt(k.nodes, p.to);
    assert Heard(k, seed, n) && !Heard(c, seed, n);
    forall h | h in joined ensures Prospect(k, n, h) == 1 {
      assert Prospect(c, n, h) == 0;
      ReplacedCounts(c.flight, i, answers, About(c.address, n, h));
    }
  }

  lemma HeardStandings(c: Cluster, k: Cluster, i: nat, answers: seq<Packet>, seed: Id,
                       joined: set<Id>, joining: set<Id>)
    requires Standings(c, seed, joined) && Claims(c, i, seed, joining) && Hears(c, k, i, answers, joined, joining)
    ensures Standings(k, seed, joined)
  {
    forall e | e in k.wire && e.node == seed ensures Standing(k, e) == 1 {
      assert Standing(c, e) == 1;
      ReplacedCounts(c.flight, i, answers, RegisterTo(e));
      CountNone(RegisterTo(e), answers);
    }
  }

  /** The seed handles the newcomer's register message. */
  lemma HeardForms(c: Cluster, i: nat, newId: Id, seed: Id, joined: set<Id>, joining: set<Id>)
    requires Forming(c, seed, joined, joining) && Enabled(c, Deliver(i, newId))
    requires c.flight[i].msg.Register? && c.flight[i].to.node == seed
    ensures Forming(Delivered(c, i, newId), seed, joined, joining)
  {
    var k, answers := Delivered(c, i, newId), Answers(c, i, newId);
    StepSound(c, Deliver(i, newId));
    Claimant(c, i, seed, joined, joining);
    SeedHears(c, i, newId, seed, joined, joining);
    HeardSignals(c, k, i, answers, seed, joined, joining);
    HeardWays(c, k, i, answers, seed, joined, joining);
    HeardStandings(c, k, i, answers, seed, joined, joining);
  }

  // Who is joining reads of a peer

  /** Who is known is wired. */
  lemma KnownIsWired(c: Cluster, n: Id, h: Id)
    requires RecordsFit(c.nodes, c.wire, c.address) && Distinguishable(c.address) && n in c.nodes
    ensures var a := c.address(h);
      PeerKnown(c.nodes[n], a.host, a.sessionsPort, a.clientsPort) ==> Wires(c.wire, n, h) != {}
  {
    var a := c.address(h);
    if PeerKnown(c.nodes[n], a.host, a.sessionsPort, a.clientsPort) {
      var t :| t in c.nodes[n].sessions && Matches(c.nodes[n].sessions[t], a.host, a.sessionsPort, a.clientsPort);
      var e := End(n, t);
      assert RecordAt(c.nodes, e) == Some(c.nodes[n].sessions[t]);
      assert e in c.wire && c.wire[e].node == h;
      assert e in Wires(c.wire, n, h);
    }
  }

  /** A peer one is told of is not known yet. */
  lemma NotKnownYet(c: Cluster, i: nat, h: Id)
    requires RecordsFit(c.nodes, c.wire, c.address) && Distinguishable(c.address)
    requires i < |c.flight| && c.flight[i].msg == Naming(c.address(h)) && c.flight[i].to.node in c.nodes
    requires Prospect(c, c.flight[i].to.node, h) <= 1
    ensures var a := c.address(h); !PeerKnown(c.nodes[c.flight[i].to.node], a.host, a.sessionsPort, a.clientsPort)
  {
    var p, a := c.flight[i], c.address(h);
    var n := p.to.node;
    assert p in c.flight && About(c.address, n, h)(p);
    CountNone(About(c.address, n, h), c.flight);
    KnownIsWired(c, n, h);
  }

  /** So it is dialled. */
  ghost predicate Dials(c: Cluster, k: Cluster, i: nat, newId: Id, answers: seq<Packet>, h: Id)
    requires i < |c.flight|
  {
    var a := c.address(h);
    var d := Dialing(End(c.flight[i].to.node, newId), a.host, a.sessionsPort);
    && k == c.(nodes := k.nodes, flight := Without(c.flight, i) + answers, dials := c.dials + [d])
    && k.nodes.Keys == c.nodes.Keys
    && (forall e :: RecordAt(k.nodes, e)
                 == if e == d.at then Some(Dialled(a.sessionsPort, a.clientsPort)) else RecordAt(c.nodes, e))
    && (forall q :: q in answers ==> !Formative(q.msg))
  }

  lemma ToldDials(c: Cluster, i: nat, newId: Id, h: Id)
    requires Enabled(c, Deliver(i, newId)) && c.flight[i].msg == Naming(c.address(h))
    requires var a := c.address(h); !PeerKnown(c.nodes[c.flight[i].to.node], a.host, a.sessionsPort, a.clientsPort)
    ensures Dials(c, Delivered(c, i, newId), i, newId, Answers(c, i, newId), h)
  {
    var p := c.flight[i];
    var k := Delivered(c, i, newId);
    forall q | q in Answers(c, i, newId) ensures !Formative(q.msg) {
      if Formative(q.msg) {
        AnswersForm(c, i, newId, q);
      }
    }
    var after := AddSession(c.nodes[p.to.node], newId, Dialled(p.msg.sessionsPort, p.msg.clientsPort));
    assert OnPeer(c.nodes[p.to.node], p.to.session, p.msg, newId).node == after;
    assert k.nodes == c.nodes[p.to.node := after];
    assert k.log == c.log;
  }

  lemma ToldFits(c: Cluster, k: Cluster, i: nat, newId: Id, answers: seq<Packet>, h: Id)
    requires Enabled(c, Deliver(i, newId)) && Dials(c, k, i, newId, answers, h) && Distinguishable(c.address)
    requires RecordsFit(c.nodes, c.wire, c.address) && DialsFit(c.nodes, c.dials)
    ensures RecordsFit(k.nodes, k.wire, k.address) && DialsFit(k.nodes, k.dials)
  {
    var n := c.flight[i].to.node;
    forall e | e in c.wire ensures e != End(n, newId) {
    }
    forall d | d in c.dials ensures d.at != End(n, newId) {
    }
  }

  lemma ToldSignals(c: Cluster, k: Cluster, i: nat, newId: Id, answers: seq<Packet>, seed: Id,
                    joined: set<Id>, joining: set<Id>, h: Id)
    requires Signals(c, seed, joined, joining) && Distinguishable(c.address) && seed !in joined && h in joined
    requires i < |c.flight| && c.flight[i].to.node in joining && c.flight[i].to.node in c.registered
    requires Dials(c, k, i, newId, answers, h)
    ensures Signals(k, seed, joined, joining)
  {
    forall q | q in k.flight && Formative(q.msg) ensures q in c.flight {
      ReplacedMembers(c.flight, i, answers, q);
    }
    var d := k.dials[|c.dials|];
    assert !Targets(c.address(seed), d) && Targets(c.address(h), d) && h in joined + {seed};
    forall x | x in k.dials ensures x in c.dials || x == d {
    }
  }

  lemma ToldWays(c: Cluster, k: Cluster, i: nat, newId: Id, answers: seq<Packet>, seed: Id,
                 joined: set<Id>, joining: set<Id>, h: Id)
    requires Ways(c, seed, joined, joining) && Distinguishable(c.address) && seed !in joined + joining
    requires h in joined && i < |c.flight| && c.flight[i].msg == Naming(c.address(h))
    requires c.flight[i].to.node in joining && Dials(c, k, i, newId, answers, h)
    ensures Ways(k, seed, joined, joining)
  {
    var d := k.dials[|c.dials|];
    assert k.dials == c.dials + [d];
    assert forall g :: Targets(c.address(g), d) <==> g == h;
    forall x ensures Count(DialTo(c.address, x, seed), k.dials) == Count(DialTo(c.address, x, seed), c.dials) {
      assert !DialTo(c.address, x, seed)(d);
      CountSnoc(DialTo(c.address, x, seed), c.dials, d);
    }
    forall x, g | x in joining && g in joined ensures Prospect(k, x, g) == Prospect(c, x, g) {
      ReplacedCounts(c.flight, i, answers, About(c.address, x, g));
      CountNone(About(c.address, x, g), answers);
      CountSnoc(DialTo(c.address, x, g), c.dials, d);
      assert DialTo(c.address, x, g)(d) <==> x == d.at.node && g == h;
      assert Naming(c.address(h)) == Naming(c.address(g)) <==> h == g;
    }
    forall x ensures Heard(k, seed, x) <==> Heard(c, seed, x) {
      assert forall e: End :: e.node == seed ==> (RegisteredAt(k.nodes, e) <==> RegisteredAt(c.nodes, e));
    }
  }

  lemma ToldStandings(c: Cluster, k: Cluster, i: nat, newId: Id, answers: seq<Packet>, seed: Id, joined: set<Id>, h: Id)
    requires Standings(c, seed, joined) && i < |c.flight| && c.flight[i].msg == Naming(c.address(h))
    requires c.flight[i].to.node != seed && Dials(c, k, i, newId, answers, h)
    ensures Standings(k, seed, joined)
  {
    forall e | e in k.wire && e.node == seed ensures Standing(k, e) == 1 {
      assert Standing(c, e) == 1;
      ReplacedCounts(c.flight, i, answers, RegisterTo(e));
      CountNone(RegisterTo(e), answers);
    }
  }

  lemma ToldForms(c: Cluster, i: nat, newId: Id, seed: Id, joined: set<Id>, joining: set<Id>)
    requires Forming(c, seed, joined, joining) && Enabled(c, Deliver(i, newId)) && c.flight[i].msg.Session?
    ensures Forming(Delivered(c, i, newId), seed, joined, joining)
  {
    StepSound(c, Deliver(i, newId));
    var h := ToldWhom(c, i, seed, joined, joining);
    ToldDials(c, i, newId, h);
    ToldAll(c, Delivered(c, i, newId), i, newId, Answers(c, i, newId), seed, joined, joining, h);
  }

  lemma ToldWhom(c: Cluster, i: nat, seed: Id, joined: set<Id>, joining: set<Id>) returns (h: Id)
    requires Forming(c, seed, joined, joining) && i < |c.flight| && c.flight[i].msg.Session?
    ensures h in joined && c.flight[i].msg == Naming(c.address(h)) && c.flight[i].to.node in joining
    ensures c.flight[i].to.node in c.nodes
    ensures var a := c.address(h); !PeerKnown(c.nodes[c.flight[i].to.node], a.host, a.sessionsPort, a.clientsPort)
  {
    assert c.flight[i] in c.flight;
    h :| h in joined && c.flight[i].msg == Naming(c.address(h));
    assert Prospect(c, c.flight[i].to.node, h) <= 1;
    NotKnownYet(c, i, h);
  }

  lemma ToldAll(c: Cluster, k: Cluster, i: nat, newId: Id, answers: seq<Packet>, seed: Id,
                joined: set<Id>, joining: set<Id>, h: Id)
    requires Forming(c, seed, joined, joining) && Sound(k) && Enabled(c, Deliver(i, newId))
    requires h in joined && c.flight[i].msg == Naming(c.address(h)) && c.flight[i].to.node in joining
    requires Dials(c, k, i, newId, answers, h)
    ensures Forming(k, seed, joined, joining)
  {
    assert c.flight[i] in c.flight;
    ToldFits(c, k, i, newId, answers, h);
    ToldSignals(c, k, i, newId, answers, seed, joined, joining, h);
    ToldWays(c, k, i, newId, answers, seed, joined, joining, h);
    ToldStandings(c, k, i, newId, answers, seed, joined, h);
  }

  // A dial is answered

  /** Both ends of a connection made by the dial at b. */
  ghost predicate Connects(c: Cluster, k: Cluster, i: nat, a: End)
    requires i < |c.dials|
  {
    var b := c.dials[i].at;
    && a !in c.wire && b !in c.wire && a != b && RecordAt(c.nodes, b).Some?
    && (forall x :: x in c.dials ==> x.at != a)
    && k == c.(nodes := k.nodes, wire := c.wire[a := b][b := a], accepting := c.accepting + [Accepting(b, Entered)],
               dials := Without(c.dials, i))
    && k.nodes.Keys == c.nodes.Keys
    && (forall x :: RecordAt(k.nodes, x) ==
          if x == a then Some(Peer(c.address(b.node).host, 0, 0, false, true))
          else if x == b then Some(RecordAt(c.nodes, b).value.(host := c.dials[i].host, open := true))
          else RecordAt(c.nodes, x))
  }

  lemma ConnectConnects(c: Cluster, i: nat, target: Id, remote: Id)
    requires Wired(c) && Enabled(c, Connect(i, target, remote)) && DialsFit(c.nodes, c.dials)
    ensures Connects(c, Connected(c, i, target, remote), i, End(target, remote))
  {
    var k := Connected(c, i, target, remote);
    assert c.dials[i] in c.dials;
    assert k.nodes.Keys == c.nodes.Keys;
    var b := c.dials[i].at;
    var seat := AddSession(c.nodes[target], remote, Peer(c.address(b.node).host, 0, 0, false, true));
    var nodes := c.nodes[target := seat];
    assert k.nodes == nodes[b.node := Opened(nodes[b.node], b.session, c.dials[i].host)];
    assert b.session != remote;
    assert remote !in c.nodes[target].sessions && remote !in c.nodes[b.node].sessions;
  }

  /** Whom it connects to. */
  lemma Target(c: Cluster, i: nat, target: Id, seed: Id, joined: set<Id>, joining: set<Id>)
    requires TargetsFit(c, seed, joined, joining) && Distinguishable(c.address) && i < |c.dials|
    requires Targets(c.address(target), c.dials[i])
    ensures target in joined + {seed} && c.dials[i].at.node in joining
    ensures c.dials[i].at.node !in c.registered <==> target == seed
    ensures forall n, h :: DialTo(c.address, n, h)(c.dials[i]) <==> n == c.dials[i].at.node && h == target
  {
    assert c.dials[i] in c.dials;
  }

  lemma ConnectFits(c: Cluster, k: Cluster, i: nat, a: End)
    requires i < |c.dials| && Connects(c, k, i, a) && Targets(c.address(a.node), c.dials[i])
    requires Distinguishable(c.address)
    requires RecordsFit(c.nodes, c.wire, c.address) && DialsFit(c.nodes, c.dials)
    ensures RecordsFit(k.nodes, k.wire, k.address) && DialsFit(k.nodes, k.dials)
  {
    assert c.dials[i] in c.dials;
    forall d | d in k.dials ensures d in c.dials {
      WithoutMembers(c.dials, i, d);
    }
  }

  lemma ConnectSignals(c: Cluster, k: Cluster, i: nat, a: End, seed: Id, joined: set<Id>, joining: set<Id>)
    requires i < |c.dials| && Connects(c, k, i, a) && Signals(c, seed, joined, joining)
    requires c.dials[i].at.node !in c.registered <==> a.node == seed
    ensures Signals(k, seed, joined, joining)
  {
    forall d | d in k.dials ensures d in c.dials {
      WithoutMembers(c.dials, i, d);
    }
  }

  lemma ConnectWires(wire: map<End, End>, a: End, b: End, o: Id, h: Id)
    requires a !in wire && b !in wire && a.node != b.node
    ensures Wires(wire[a := b][b := a], o, h) == Wires(wire, o, h)
      + if o == a.node && h == b.node then {a} else if o == b.node && h == a.node then {b} else {}
    ensures |Wires(wire[a := b][b := a], o, h)| == |Wires(wire, o, h)|
      + if (o == a.node && h == b.node) || (o == b.node && h == a.node) then 1 else 0
  {
    assert a !in Wires(wire, o, h) && b !in Wires(wire, o, h);
  }

  lemma ConnectWays(c: Cluster, k: Cluster, i: nat, a: End, seed: Id, joined: set<Id>, joining: set<Id>)
    requires i < |c.dials| && Connects(c, k, i, a) && Ways(c, seed, joined, joining)
    requires a.node in joined + {seed} && c.dials[i].at.node in joining && joined !! joining
    requires seed !in joined + joining
    requires forall n, h :: DialTo(c.address, n, h)(c.dials[i]) <==> n == c.dials[i].at.node && h == a.node
    ensures Ways(k, seed, joined, joining)
  {
    forall n | n in joining ensures Count(DialTo(c.address, n, seed), k.dials) + |Wires(k.wire, n, seed)| == 1 {
      ConnectProspect(c, k, i, a, n, seed);
    }
    forall n, h | n in joining && h in joined ensures Prospect(k, n, h) == if Heard(k, seed, n) then 1 else 0 {
      ConnectProspect(c, k, i, a, n, h);
      ConnectHeard(c, k, i, a, seed, n);
    }
  }

  /** A dial becomes a wire. */
  lemma ConnectProspect(c: Cluster, k: Cluster, i: nat, a: End, n: Id, h: Id)
    requires i < |c.dials| && Connects(c, k, i, a) && a.node != c.dials[i].at.node && n != a.node
    requires DialTo(c.address, n, h)(c.dials[i]) <==> n == c.dials[i].at.node && h == a.node
    ensures Prospect(k, n, h) == Prospect(c, n, h)
    ensures Count(DialTo(c.address, n, h), k.dials) + |Wires(k.wire, n, h)|
         == Count(DialTo(c.address, n, h), c.dials) + |Wires(c.wire, n, h)|
  {
    CountWithout(DialTo(c.address, n, h), c.dials, i);
    ConnectWires(c.wire, a, c.dials[i].at, n, h);
  }

  lemma ConnectHeard(c: Cluster, k: Cluster, i: nat, a: End, seed: Id, n: Id)
    requires i < |c.dials| && Connects(c, k, i, a) && a.node != c.dials[i].at.node && seed != c.dials[i].at.node
    ensures Heard(k, seed, n) <==> Heard(c, seed, n)
  {
    ConnectWires(c.wire, a, c.dials[i].at, seed, n);
    if Heard(c, seed, n) {
      var e :| e in Wires(c.wire, seed, n) && RegisteredAt(c.nodes, e);
      assert e in Wires(k.wire, seed, n) && RegisteredAt(k.nodes, e);
    }
  }

  lemma ConnectPairs(c: Cluster, k: Cluster, i: nat, a: End, joining: set<Id>, who: set<Id>)
    requires i < |c.dials| && Connects(c, k, i, a) && Pairs(c.wire, who) && Parties(c.wire, who + joining)
    requires a.node in who && c.dials[i].at.node in joining && who !! joining
    ensures Pairs(k.wire, who) && Parties(k.wire, who + joining)
  {
    forall h, g | h in who && g in who && h != g ensures |Wires(k.wire, h, g)| == 1 {
      ConnectWires(c.wire, a, c.dials[i].at, h, g);
    }
  }

  lemma ConnectStanding(c: Cluster, k: Cluster, i: nat, a: End, e: End)
    requires Wired(c) && i < |c.dials| && Connects(c, k, i, a) && e != c.dials[i].at
    requires e in c.wire || e == a
    ensures Standing(k, e) == if e == a then 1 else Standing(c, e)
  {
    var b := c.dials[i].at;
    CountSnoc(AcceptingTo(k.wire, e), c.accepting, Accepting(b, Entered));
    if e == a {
      CountNone(AcceptingTo(k.wire, e), c.accepting);
      CountNone(RegisterTo(e), c.flight);
    } else {
      CountExt(AcceptingTo(k.wire, e), AcceptingTo(c.wire, e), c.accepting);
    }
  }

  lemma ConnectStandings(c: Cluster, k: Cluster, i: nat, a: End, seed: Id, joined: set<Id>, joining: set<Id>)
    requires Wired(c) && i < |c.dials| && Connects(c, k, i, a) && Standings(c, seed, joined)
    requires c.dials[i].at.node in joining && joined !! joining && seed !in joining
    ensures Standings(k, seed, joined)
  {
    forall e | e in k.wire && e.node == seed ensures Standing(k, e) == 1 {
      ConnectStanding(c, k, i, a, e);
    }
  }

  lemma ConnectForms(c: Cluster, i: nat, target: Id, remote: Id, seed: Id, joined: set<Id>, joining: set<Id>)
    requires Forming(c, seed, joined, joining) && Enabled(c, Connect(i, target, remote))
    ensures Forming(Connected(c, i, target, remote), seed, joined, joining)
  {
    StepSound(c, Connect(i, target, remote));
    ConnectConnects(c, i, target, remote);
    ConnectAll(c, Connected(c, i, target, remote), i, End(target, remote), seed, joined, joining);
  }

  lemma ConnectAll(c: Cluster, k: Cluster, i: nat, a: End, seed: Id, joined: set<Id>, joining: set<Id>)
    requires Forming(c, seed, joined, joining) && Sound(k)
    requires i < |c.dials| && Connects(c, k, i, a) && Targets(c.address(a.node), c.dials[i])
    ensures Forming(k, seed, joined, joining)
  {
    Target(c, i, a.node, seed, joined, joining);
    ConnectFits(c, k, i, a);
    ConnectLinks(c, k, i, a, seed, joined, joining);
  }

  lemma ConnectLinks(c: Cluster, k: Cluster, i: nat, a: End, seed: Id, joined: set<Id>, joining: set<Id>)
    requires Wired(c) && i < |c.dials| && Connects(c, k, i, a) && Parties(c.wire, joined + joining + {seed})
    requires Signals(c, seed, joined, joining) && Pairs(c.wire, joined + {seed})
    requires Ways(c, seed, joined, joining) && Standings(c, seed, joined)
    requires a.node in joined + {seed} && c.dials[i].at.node in joining && joined !! joining
    requires seed !in joined + joining
    requires c.dials[i].at.node !in c.registered <==> a.node == seed
    requires forall n, h :: DialTo(c.address, n, h)(c.dials[i]) <==> n == c.dials[i].at.node && h == a.node
    ensures Parties(k.wire, joined + joining + {seed}) && Signals(k, seed, joined, joining)
    ensures Pairs(k.wire, joined + {seed}) && Ways(k, seed, joined, joining) && Standings(k, seed, joined)
  {
    ConnectSignals(c, k, i, a, seed, joined, joining);
    ConnectWays(c, k, i, a, seed, joined, joining);
    assert joined + {seed} + joining == joined + joining + {seed};
    ConnectPairs(c, k, i, a, joining, joined + {seed});
    ConnectStandings(c, k, i, a, seed, joined, joining);
  }

  // Who has dialled registers

  lemma AdvanceStandings(c: Cluster, k: Cluster, i: nat, stage: Stage, seed: Id, joined: set<Id>)
    requires i < |c.accepting| && Standings(c, seed, joined)
    requires k == c.(accepting := c.accepting[i := At(c.accepting[i], stage)], registered := k.registered)
    ensures Standings(k, seed, joined)
  {
    forall e | e in k.wire && e.node == seed ensures Standing(k, e) == 1 {
      assert Standing(c, e) == 1;
      CountUpdate(AcceptingTo(c.wire, e), c.accepting, i, At(c.accepting[i], stage));
    }
  }

  lemma AdvanceWays(c: Cluster, k: Cluster, seed: Id, joined: set<Id>, joining: set<Id>)
    requires Ways(c, seed, joined, joining) && k == c.(accepting := k.accepting, registered := k.registered)
    ensures Ways(k, seed, joined, joining)
  {
    forall n, h | n in joining && h in joined ensures Prospect(k, n, h) == if Heard(k, seed, n) then 1 else 0 {
      assert Prospect(k, n, h) == Prospect(c, n, h);
      assert Heard(k, seed, n) <==> Heard(c, seed, n);
    }
  }

  lemma LoadFits(c: Cluster, i: nat, seed: Id)
    requires AcceptingFits(c, seed) && Enabled(c, Load(i))
    ensures AcceptingFits(Next(c, Load(i)), seed)
  {
    var k := Next(c, Load(i));
    assert c.accepting[i] in c.accepting;
    forall a | a in k.accepting ensures a in c.accepting || a == k.accepting[i] {
    }
  }

  /** When the flag is set no other connection of the node was counting on its being unset. */
  lemma StoreFits(c: Cluster, i: nat, seed: Id, joined: set<Id>, joining: set<Id>)
    requires AcceptingFits(c, seed) && TargetsFit(c, seed, joined, joining) && Bootstrapped(c) && Enabled(c, Store(i))
    ensures AcceptingFits(Next(c, Store(i)), seed) && TargetsFit(Next(c, Store(i)), seed, joined, joining)
  {
    var k := Next(c, Store(i));
    var me := c.accepting[i].at.node;
    assert c.accepting[i] in c.accepting && AcceptingOf(me)(c.accepting[i]);
    CountNone(AcceptingOf(me), c.accepting);
    CountNone(DialsOf(me), c.dials);
    forall j | 0 <= j < |k.accepting|
      ensures k.accepting[j].at in k.wire
      ensures Newcomer(k.accepting[j], k.registered) <==> k.wire[k.accepting[j].at].node == seed
    {
      assert c.accepting[j] in c.accepting;
      if j != i && me !in c.registered && c.accepting[j].at.node == me {
        CountTwo(AcceptingOf(me), c.accepting, if i < j then i else j, if i < j then j else i);
      }
    }
    forall d | d in c.dials ensures d.at.node in c.registered <==> d.at.node in k.registered {
      assert d.at.node == me ==> DialsOf(me)(d);
    }
  }

  lemma AdvanceForms(c: Cluster, step: Step, seed: Id, joined: set<Id>, joining: set<Id>)
    requires Forming(c, seed, joined, joining) && Enabled(c, step) && (step.Load? || step.Store?)
    ensures Forming(Next(c, step), seed, joined, joining)
  {
    var k := Next(c, step);
    StepSound(c, step);
    if step.Load? {
      LoadFits(c, step.i, seed);
    } else {
      StoreFits(c, step.i, seed, joined, joining);
    }
    AdvanceStandings(c, k, step.i, k.accepting[step.i].stage, seed, joined);
    AdvanceWays(c, k, seed, joined, joining);
  }

  lemma SaySignals(c: Cluster, i: nat, seed: Id, joined: set<Id>, joining: set<Id>)
    requires Signals(c, seed, joined, joining) && Paired(c.wire, c.nodes.Keys) && Enabled(c, Say(i))
    ensures Signals(Said(c, i), seed, joined, joining)
  {
    var a := c.accepting[i];
    assert a in c.accepting;
    forall x | x in Without(c.accepting, i) ensures x in c.accepting {
      WithoutMembers(c.accepting, i, x);
    }
  }

  lemma SayWays(c: Cluster, i: nat, seed: Id, joined: set<Id>, joining: set<Id>)
    requires Ways(c, seed, joined, joining) && Enabled(c, Say(i))
    ensures Ways(Said(c, i), seed, joined, joining)
  {
    var k := Said(c, i);
    var q := Packet(c.wire[c.accepting[i].at], Registration(c, c.accepting[i]));
    assert k.flight == c.flight + [q] && !q.msg.Session?;
    forall n, h | n in joining && h in joined ensures Prospect(k, n, h) == if Heard(k, seed, n) then 1 else 0 {
      CountSnoc(About(c.address, n, h), c.flight, q);
      assert !About(c.address, n, h)(q);
      assert Prospect(k, n, h) == Prospect(c, n, h);
      assert Heard(k, seed, n) <==> Heard(c, seed, n);
    }
  }

  lemma SayStandings(c: Cluster, i: nat, seed: Id, joined: set<Id>)
    requires Standings(c, seed, joined) && Enabled(c, Say(i))
    ensures Standings(Said(c, i), seed, joined)
  {
    var k := Said(c, i);
    forall e | e in k.wire && e.node == seed ensures Standing(k, e) == 1 {
      assert Standing(c, e) == 1;
      CountSnoc(RegisterTo(e), c.flight, k.flight[|c.flight|]);
      CountWithout(AcceptingTo(c.wire, e), c.accepting, i);
    }
  }

  lemma SayForms(c: Cluster, i: nat, seed: Id, joined: set<Id>, joining: set<Id>)
    requires Forming(c, seed, joined, joining) && Enabled(c, Say(i))
    ensures Forming(Said(c, i), seed, joined, joining)
  {
    StepSound(c, Say(i));
    SaySignals(c, i, seed, joined, joining);
    SayWays(c, i, seed, joined, joining);
    SayStandings(c, i, seed, joined);
  }

  // The next one starts

  /** No connection is being made and no message about one is on its way. */
  ghost predicate AtRest(c: Cluster) {
    c.dials == [] && c.accepting == [] && forall p :: p in c.flight ==> !Formative(p.msg)
  }

  lemma StartFits(c: Cluster, n: Id, newId: Id, p: Address)
    requires Enabled(c, Start(n, newId, p)) && p.sessionsPort < PORTS
    requires RecordsFit(c.nodes, c.wire, c.address) && DialsFit(c.nodes, c.dials)
    ensures var k := Next(c, Start(n, newId, p));
      && RecordsFit(k.nodes, k.wire, k.address) && DialsFit(k.nodes, k.dials) && k.nodes.Keys == c.nodes.Keys
      && forall e :: RegisteredAt(k.nodes, e) <==> RegisteredAt(c.nodes, e)
  {
    var k := Next(c, Start(n, newId, p));
    var r := Dialled(p.sessionsPort, p.clientsPort);
    assert k.nodes.Keys == c.nodes.Keys;
    assert forall e :: RecordAt(k.nodes, e) == if e == End(n, newId) then Some(r) else RecordAt(c.nodes, e);
    forall e | e in c.wire ensures e != End(n, newId) {
    }
    forall d | d in c.dials ensures d.at != End(n, newId) {
    }
  }

  lemma StartWays(c: Cluster, k: Cluster, n: Id, newId: Id, seed: Id, joined: set<Id>)
    requires Distinguishable(c.address) && seed !in joined && n !in joined + {seed} && AtRest(c)
    requires Parties(c.wire, joined + {seed}) && Paired(c.wire, c.nodes.Keys)
    requires k == c.(nodes := k.nodes, started := k.started,
      dials := [Dialing(End(n, newId), c.address(seed).host, c.address(seed).sessionsPort)])
    ensures Ways(k, seed, joined, {n})
  {
    var d := Dialing(End(n, newId), c.address(seed).host, c.address(seed).sessionsPort);
    assert k.dials == [d];
    assert forall h :: h in joined + {seed} ==> Wires(k.wire, n, h) == {} && Wires(k.wire, seed, n) == {};
    assert Targets(c.address(seed), d);
    CountSingle(DialTo(c.address, n, seed), d);
    forall h | h in joined ensures Prospect(k, n, h) == 0 {
      assert !Targets(c.address(h), d);
      CountSingle(DialTo(c.address, n, h), d);
      CountNone(About(c.address, n, h), c.flight);
    }
  }

  lemma StartForms(c: Cluster, n: Id, newId: Id, seed: Id, joined: set<Id>)
    requires Forming(c, seed, joined, {}) && AtRest(c) && n != seed && Enabled(c, Start(n, newId, c.address(seed)))
    ensures Forming(Next(c, Start(n, newId, c.address(seed))), seed, joined, {n})
  {
    StepSound(c, Start(n, newId, c.address(seed)));
    StartFits(c, n, newId, c.address(seed));
    StartOnlyDials(c, n, newId, c.address(seed));
    StartAll(c, Next(c, Start(n, newId, c.address(seed))), n, newId, seed, joined);
  }

  lemma StartOnlyDials(c: Cluster, n: Id, newId: Id, p: Address)
    requires Enabled(c, Start(n, newId, p)) && c.dials == []
    ensures var k := Next(c, Start(n, newId, p));
      k == c.(nodes := k.nodes, started := c.started + {n}, dials := [Dialing(End(n, newId), p.host, p.sessionsPort)])
  {
  }

  lemma StartAll(c: Cluster, k: Cluster, n: Id, newId: Id, seed: Id, joined: set<Id>)
    requires Forming(c, seed, joined, {}) && AtRest(c) && Sound(k) && n != seed && n in c.nodes && n !in c.started
    requires k == c.(nodes := k.nodes, started := c.started + {n},
      dials := [Dialing(End(n, newId), c.address(seed).host, c.address(seed).sessionsPort)])
    requires RecordsFit(k.nodes, k.wire, k.address) && DialsFit(k.nodes, k.dials) && k.nodes.Keys == c.nodes.Keys
    requires forall e :: RegisteredAt(k.nodes, e) <==> RegisteredAt(c.nodes, e)
    ensures Forming(k, seed, joined, {n})
  {
    StartWays(c, k, n, newId, seed, joined);
    StartSignals(c, k, n, newId, seed, joined);
    StartStandings(c, k, seed, joined);
  }

  lemma StartSignals(c: Cluster, k: Cluster, n: Id, newId: Id, seed: Id, joined: set<Id>)
    requires Signals(c, seed, joined, {}) && AtRest(c) && n !in c.registered
    requires k == c.(nodes := k.nodes, started := k.started,
      dials := [Dialing(End(n, newId), c.address(seed).host, c.address(seed).sessionsPort)])
    ensures Signals(k, seed, joined, {n})
  {
    assert Targets(c.address(seed), k.dials[0]) && seed in joined + {seed};
  }

  lemma StartStandings(c: Cluster, k: Cluster, seed: Id, joined: set<Id>)
    requires Standings(c, seed, joined) && k == c.(nodes := k.nodes, started := k.started, dials := k.dials)
    requires forall e :: RegisteredAt(k.nodes, e) <==> RegisteredAt(c.nodes, e)
    ensures Standings(k, seed, joined)
  {
    forall e | e in k.wire && e.node == seed ensures Standing(k, e) == 1 {
      assert Standing(k, e) == Standing(c, e);
    }
  }

  // and has joined once all is at rest

  lemma RestPairs(c: Cluster, seed: Id, joined: set<Id>, joining: set<Id>)
    requires Forming(c, seed, joined, joining) && AtRest(c)
    ensures Pairs(c.wire, joined + joining + {seed}) && Standings(c, seed, joined + joining)
  {
    forall e | e in c.wire && e.node == seed ensures RegisteredAt(c.nodes, e) {
      assert Standing(c, e) == 1;
      CountNone(RegisterTo(e), c.flight);
    }
    forall n, h | n in joining && h in joined + {seed} ensures |Wires(c.wire, n, h)| == 1 == |Wires(c.wire, h, n)| {
      RestOne(c, seed, joined, joining, n, h);
      Symmetric(c.wire, c.nodes.Keys, n, h);
    }
  }

  lemma RestOne(c: Cluster, seed: Id, joined: set<Id>, joining: set<Id>, n: Id, h: Id)
    requires Ways(c, seed, joined, joining) && AtRest(c) && Paired(c.wire, c.nodes.Keys)
    requires n in joining && h in joined + {seed}
    requires forall e :: e in c.wire && e.node == seed ==> RegisteredAt(c.nodes, e)
    ensures |Wires(c.wire, n, h)| == 1
  {
    if h in joined {
      Symmetric(c.wire, c.nodes.Keys, n, seed);
      var ends := Wires(c.wire, seed, n);
      var e :| e in ends;
      assert Heard(c, seed, n);
      CountNone(About(c.address, n, h), c.flight);
      assert Prospect(c, n, h) == 1;
    }
  }

  lemma RestForms(c: Cluster, seed: Id, joined: set<Id>, joining: set<Id>)
    requires Forming(c, seed, joined, joining) && AtRest(c)
    ensures Forming(c, seed, joined + joining, {})
  {
    RestPairs(c, seed, joined, joining);
  }

  // Whole runs

  /** The seed never starts, everyone else starts by dialling it when all is at rest, and no session is lost. */
  ghost predicate InTurnStep(c: Cluster, step: Step, seed: Id)
    requires Enabled(c, step)
  {
    && !step.Drop? && !step.Destroy?
    && (step.Start? ==> step.node != seed && step.peer == c.address(seed) && AtRest(c))
  }

  ghost predicate InTurn(c: Cluster, steps: seq<Step>, seed: Id)
    requires Legal(c, steps)
    decreases |steps|
  {
    steps == [] || (InTurnStep(c, steps[0], seed) && InTurn(Next(c, steps[0]), steps[1..], seed))
  }

  lemma DeliverForms(c: Cluster, i: nat, newId: Id, seed: Id, joined: set<Id>, joining: set<Id>)
    requires Forming(c, seed, joined, joining) && Enabled(c, Deliver(i, newId))
    ensures Forming(Delivered(c, i, newId), seed, joined, joining)
  {
    var p := c.flight[i];
    if p.msg.Session? {
      ToldForms(c, i, newId, seed, joined, joining);
    } else if p.msg.Register? && p.to.node == seed {
      HeardForms(c, i, newId, seed, joined, joining);
    } else {
      OtherForms(c, i, newId, seed, joined, joining);
    }
  }

  /** No session having been dropped, whatever arrives is read. */
  lemma EveryoneListens(c: Cluster, i: nat, seed: Id, joined: set<Id>, joining: set<Id>)
    requires Forming(c, seed, joined, joining) && i < |c.flight|
    ensures Listening(c.nodes, c.flight[i].to)
  {
    assert c.flight[i] in c.flight && RecordAt(c.nodes, c.flight[i].to).Some?;
  }

  lemma StepForms(c: Cluster, step: Step, seed: Id, joined: set<Id>, joining: set<Id>) returns (j: set<Id>, n: set<Id>)
    requires Forming(c, seed, joined, joining) && Enabled(c, step) && InTurnStep(c, step, seed)
    ensures Forming(Next(c, step), seed, j, n) && (!step.Start? ==> j == joined && n == joining)
  {
    j, n := joined, joining;
    if step.Deliver? {
      DeliverForms(c, step.i, step.newId, seed, joined, joining);
    } else if step.Lose? {
      EveryoneListens(c, step.i, seed, joined, joining);
      assert false;
    } else if step.Connect? {
      ConnectForms(c, step.i, step.target, step.remote, seed, joined, joining);
    } else if step.Load? || step.Store? {
      AdvanceForms(c, step, seed, joined, joining);
    } else if step.Say? {
      SayForms(c, step.i, seed, joined, joining);
    } else if step.Start? {
      RestForms(c, seed, joined, joining);
      StartForms(c, step.node, step.newId, seed, joined + joining);
      j, n := joined + joining, {step.node};
    } else {
      OutsideForms(c, step, seed, joined, joining);
    }
  }

  lemma {:induction false} RunForms(c: Cluster, steps: seq<Step>, seed: Id, joined: set<Id>, joining: set<Id>)
    returns (j: set<Id>, n: set<Id>)
    requires Forming(c, seed, joined, joining) && Legal(c, steps) && InTurn(c, steps, seed)
    ensures Forming(Run(c, steps), seed, j, n)
    decreases |steps|
  {
    j, n := joined, joining;
    if steps != [] {
      j, n := StepForms(c, steps[0], seed, joined, joining);
      j, n := RunForms(Next(c, steps[0]), steps[1..], seed, j, n);
    }
  }

  lemma FreshForms(c: Cluster, seed: Id)
    requires Fresh(c) && seed in c.nodes && Distinguishable(c.address)
    ensures Forming(c, seed, {}, {})
  {
    FreshWired(c);
  }

  /** One wire is one open session. */
  lemma WiresAreLinks(c: Cluster, o: Id, h: Id)
    requires RecordsFit(c.nodes, c.wire, c.address) && Paired(c.wire, c.nodes.Keys)
    requires o in c.nodes && |Wires(c.wire, o, h)| <= 1
    ensures Links(c, o, c.nodes[o].sessions.Keys, h) == |Wires(c.wire, o, h)|
  {
    var all := c.nodes[o].sessions.Keys;
    var keys := Ordered(all);
    var ends := Wires(c.wire, o, h);
    forall s ensures LeadsTo(c, o, all, h, s) <==> End(o, s) in ends {
      if End(o, s) in ends {
        assert RecordAt(c.nodes, End(o, s)).Some? && RecordAt(c.nodes, c.wire[End(o, s)]).Some?;
      }
    }
    if ends == {} {
      CountNone(Leading(c, o, all, h), keys);
    } else {
      var e :| e in ends;
      forall s ensures LeadsTo(c, o, all, h, s) <==> s == e.session {
        if LeadsTo(c, o, all, h, s) {
          OneElement(ends, e, End(o, s));
        }
      }
      OrderedNoDuplicates(all);
      CountOnce(Leading(c, o, all, h), keys, e.session);
    }
  }

  lemma WiredIsMeshed(c: Cluster, o: Id)
    requires RecordsFit(c.nodes, c.wire, c.address) && Paired(c.wire, c.nodes.Keys) && o in c.nodes
    requires forall h :: h in c.nodes ==> |Wires(c.wire, o, h)| == if h == o then 0 else 1
    ensures Meshed(c, o)
  {
    forall h | h in c.nodes ensures Links(c, o, c.nodes[o].sessions.Keys, h) == if h == o then 0 else 1 {
      WiresAreLinks(c, o, h);
    }
  }

  lemma MeshedAtRest(c: Cluster, seed: Id, joined: set<Id>, joining: set<Id>, o: Id)
    requires Forming(c, seed, joined, joining) && AtRest(c)
    requires c.nodes.Keys == c.started + {seed} && o in c.nodes
    ensures Meshed(c, o)
  {
    RestForms(c, seed, joined, joining);
    assert Wires(c.wire, o, o) == {};
    WiredIsMeshed(c, o);
  }

  /**
   * Once everyone has joined in turn through the seed, in every state at rest each node has exactly one open
   * link to every other and none to itself, whatever clients came, went and asked in between.
   */
  lemma MeshedInTurn(start: Cluster, steps: seq<Step>, seed: Id, o: Id)
    requires Fresh(start) && seed in start.nodes && Distinguishable(start.address)
    requires Legal(start, steps) && InTurn(start, steps, seed) && AtRest(Run(start, steps))
    requires Run(start, steps).nodes.Keys == Run(start, steps).started + {seed} && o in Run(start, steps).nodes
    ensures Meshed(Run(start, steps), o)
  {
    FreshForms(start, seed);
    var joined, joining := RunForms(start, steps, seed, {}, {});
    MeshedAtRest(Run(start, steps), seed, joined, joining, o);
  }

  /** So every client but the sender gets a broadcast exactly once, whatever anyone does meanwhile. */
  lemma BroadcastInTurn(start: Cluster, before: seq<Step>, seed: Id, c: Cluster, o: Id, sender: Id, m: Message,
                        steps: seq<Step>, h: Id, x: Id)
    requires Fresh(start) && seed in start.nodes && Distinguishable(start.address)
    requires Legal(start, before) && InTurn(start, before, seed) && c == Run(start, before)
    requires AtRest(c) && c.nodes.Keys == c.started + {seed}
    requires Settles(c, o, sender, m, steps) && m.Broadcast? && LocalAt(c, h, x) && Stays(steps, x)
    ensures Gained(c, o, sender, m, steps, x) == if x == sender then 0 else 1 - Forfeit(c, o, sender, m, steps, h)
  {
    MeshedInTurn(start, before, seed, o);
    BroadcastOnce(c, o, sender, m, steps, h, x);
  }

  // Such runs exist

  lemma InTurnCons(c: Cluster, first: Step, rest: seq<Step>, seed: Id)
    requires Enabled(c, first) && InTurnStep(c, first, seed)
    requires Legal(Next(c, first), rest) && InTurn(Next(c, first), rest, seed)
    ensures Legal(c, [first] + rest) && InTurn(c, [first] + rest, seed)
    ensures Run(c, [first] + rest) == Run(Next(c, first), rest)
  {
    assert ([first] + rest)[1..] == rest;
  }

  /** Whatever is going on, something can be done about it. */
  lemma SomethingToDo(c: Cluster, seed: Id, joined: set<Id>, joining: set<Id>) returns (step: Step)
    requires Forming(c, seed, joined, joining) && (c.flight != [] || c.accepting != [] || c.dials != [])
    ensures Internal(step) && Enabled(c, step)
  {
    var newId := SomeIdIsUnused(c);
    if c.flight != [] {
      step := Arrival(c, newId);
    } else if c.accepting != [] {
      assert c.accepting[0] in c.accepting;
      step := Onward(c.accepting[0], 0);
    } else {
      assert c.dials[0] in c.dials;
      var h :| h in joined + {seed} && Targets(c.address(h), c.dials[0]);
      step := Connect(0, h, newId);
    }
  }

  lemma InternalKeeps(c: Cluster, step: Step, seed: Id, joined: set<Id>, joining: set<Id>)
    requires Forming(c, seed, joined, joining) && Internal(step) && Enabled(c, step)
    ensures Forming(Next(c, step), seed, joined, joining) && InTurnStep(c, step, seed)
    ensures Next(c, step).started == c.started && Next(c, step).nodes.Keys == c.nodes.Keys
  {
    var j, n := StepForms(c, step, seed, joined, joining);
    InternalStays(c, step);
  }

  lemma InternalStays(c: Cluster, step: Step)
    requires Internal(step) && Enabled(c, step)
    ensures Next(c, step).started == c.started && Next(c, step).nodes.Keys == c.nodes.Keys
  {
    if step.Deliver? {
      assert Next(c, step).nodes.Keys == c.nodes.Keys;
    } else if step.Connect? {
      assert Next(c, step).nodes.Keys == c.nodes.Keys;
    }
  }

  /** The nodes among themselves can bring every joining to an end. */
  lemma {:induction false} ComesToRest(c: Cluster, seed: Id, joined: set<Id>, joining: set<Id>)
    returns (steps: seq<Step>)
    requires Forming(c, seed, joined, joining)
    ensures Legal(c, steps) && InTurn(c, steps, seed) && AtRest(Run(c, steps))
    ensures Forming(Run(c, steps), seed, joined, joining)
    ensures Run(c, steps).started == c.started && Run(c, steps).nodes.Keys == c.nodes.Keys
    decreases RankOf(c).first, RankOf(c).sessions, RankOf(c).later, RankOf(c).ordinary, RankOf(c).acks
  {
    if c.flight == [] && c.accepting == [] && c.dials == [] {
      steps := [];
    } else {
      var first := SomethingToDo(c, seed, joined, joining);
      InternalKeeps(c, first, seed, joined, joining);
      InternalDescends(c, first);
      var rest := ComesToRest(Next(c, first), seed, joined, joining);
      InTurnCons(c, first, rest, seed);
      steps := [first] + rest;
    }
  }

  lemma StartStays(c: Cluster, n: Id, newId: Id, p: Address)
    requires Enabled(c, Start(n, newId, p))
    ensures var k := Next(c, Start(n, newId, p)); k.nodes.Keys == c.nodes.Keys && k.started == c.started + {n}
  {
    assert Next(c, Start(n, newId, p)).nodes.Keys == c.nodes.Keys;
  }

  /** The next node to start, when all is at rest. */
  lemma Another(c: Cluster, seed: Id, joined: set<Id>, joining: set<Id>) returns (step: Step)
    requires Forming(c, seed, joined, joining) && AtRest(c) && c.nodes.Keys != c.started + {seed}
    ensures step.Start? && Enabled(c, step) && InTurnStep(c, step, seed)
    ensures Forming(Next(c, step), seed, joined + joining, {step.node})
    ensures Next(c, step).nodes.Keys == c.nodes.Keys && Next(c, step).started == c.started + {step.node}
  {
    var n :| n in c.nodes && n !in c.started + {seed};
    var newId := SomeIdIsUnused(c);
    step := Start(n, newId, c.address(seed));
    RestForms(c, seed, joined, joining);
    StartForms(c, n, newId, seed, joined + joining);
    StartStays(c, n, newId, c.address(seed));
  }

  /** One step further: of the nodes among themselves, or the next node's start. */
  lemma Further(c: Cluster, seed: Id, joined: set<Id>, joining: set<Id>)
    returns (step: Step, j: set<Id>, n: set<Id>)
    requires Forming(c, seed, joined, joining)
    requires c.flight != [] || c.accepting != [] || c.dials != [] || c.nodes.Keys != c.started + {seed}
    ensures Enabled(c, step) && InTurnStep(c, step, seed) && Forming(Next(c, step), seed, j, n)
    ensures Next(c, step).nodes.Keys == c.nodes.Keys && (Internal(step) || step.Start?)
    ensures Next(c, step).started > c.started
      || (Next(c, step).started == c.started && Below(RankOf(Next(c, step)), RankOf(c)))
  {
    if c.flight != [] || c.accepting != [] || c.dials != [] {
      j, n := joined, joining;
      step := SomethingToDo(c, seed, joined, joining);
      InternalKeeps(c, step, seed, joined, joining);
      InternalDescends(c, step);
    } else {
      step := Another(c, seed, joined, joining);
      j, n := joined + joining, {step.node};
    }
  }

  lemma {:induction false} EveryoneJoins(c: Cluster, seed: Id, joined: set<Id>, joining: set<Id>)
    returns (steps: seq<Step>)
    requires Forming(c, seed, joined, joining)
    ensures Legal(c, steps) && InTurn(c, steps, seed) && AtRest(Run(c, steps))
    ensures Run(c, steps).nodes.Keys == c.nodes.Keys == Run(c, steps).started + {seed}
    ensures forall step :: step in steps ==> Internal(step) || step.Start?
    decreases c.nodes.Keys - c.started,
      RankOf(c).first, RankOf(c).sessions, RankOf(c).later, RankOf(c).ordinary, RankOf(c).acks
  {
    if c.flight == [] && c.accepting == [] && c.dials == [] && c.nodes.Keys == c.started + {seed} {
      steps := [];
    } else {
      var first, j, n := Further(c, seed, joined, joining);
      var k := Next(c, first);
      if k.started == c.started {
        assert k.nodes.Keys - k.started == c.nodes.Keys - c.started;
      } else {
        assert k.started <= k.nodes.Keys;
        var x :| x in k.started && x !in c.started;
        assert x in c.nodes.Keys - c.started && x !in k.nodes.Keys - k.started;
      }
      var rest := EveryoneJoins(k, seed, j, n);
      InTurnCons(c, first, rest, seed);
      steps := [first] + rest;
    }
  }

  /** New nodes can always become a mesh. */
  lemma BecomesMeshed(start: Cluster, seed: Id) returns (steps: seq<Step>)
    requires Fresh(start) && seed in start.nodes && Distinguishable(start.address)
    ensures Legal(start, steps) && InTurn(start, steps, seed) && AtRest(Run(start, steps))
    ensures Run(start, steps).nodes.Keys == start.nodes.Keys == Run(start, steps).started + {seed}
    ensures forall step :: step in steps ==> Internal(step) || step.Start?
    ensures forall o :: o in start.nodes ==> Meshed(Run(start, steps), o)
  {
    FreshForms(start, seed);
    steps := EveryoneJoins(start, seed, {}, {});
    forall o | o in start.nodes ensures Meshed(Run(start, steps), o) {
      MeshedInTurn(start, steps, seed, o);
    }
  }
}
