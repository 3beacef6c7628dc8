/**
 * Mesh formation: nodes join through one seed, are told of one another, and dial whom they are told of
 * unless they find that peer among their sessions already.
 */
module Mesh {
  import opened Sequences
  import opened Json
  import Messages
  import opened Nodes
  import opened Seeds

  /** Connecting: both session objects exist. Ready: the handshake is over. Joined: register was handled. */
  datatype LinkPhase = Connecting | Ready | Joined

  datatype Link = Link(from: Id, to: Id, phase: LinkPhase)

  datatype Mesh = Mesh(
    seed: Seed,
    seedAddress: Address,
    mail: set<Notice>,       // notices on their way
    links: seq<Link>)

  datatype MeshStep =
    | AtSeed(step: SeedStep)
    | Handle(n: Notice, j: Id)   // the notice is about node j
    | Handshake(k: nat)
    | Register(k: nat)

  /** The session object of the dialling node. */
  ghost function DiallerPeer(m: Mesh, l: Link): Peer {
    var a := m.seed.address(l.to);
    var p := Dialled(a.sessionsPort, a.clientsPort);
    if l.phase == Connecting then p else p.(host := a.host, open := true)
  }

  /** The session object of the dialled node: its ports come with the register message. */
  ghost function ListenerPeer(m: Mesh, l: Link): Peer {
    var a := m.seed.address(l.from);
    match l.phase
    case Connecting => Peer(NO_HOST, 0, 0, false, false)
    case Ready => Peer(a.host, 0, 0, false, true)
    case Joined => Filled(Peer(a.host, 0, 0, false, true), a.clientsPort, a.sessionsPort)
  }

  /** These are the session objects the handlers and the handshake leave behind. */
  lemma PeersFollowHandlers(m: Mesh, l: Link, n: Node, t: Id, s: Id)
    ensures var a, c := m.seed.address(l.to), l.(phase := Connecting);
      !PeerKnown(n, a.host, a.sessionsPort, a.clientsPort) && s !in n.sessions ==>
        var after := OnPeer(n, t, Messages.Session(a.host, a.sessionsPort, a.clientsPort), s).node;
        s in after.sessions && after.sessions[s] == DiallerPeer(m, c)
    ensures s in n.sessions && n.sessions[s] == DiallerPeer(m, l.(phase := Connecting))
      ==> Opened(n, s, m.seed.address(l.to).host).sessions[s] == DiallerPeer(m, l.(phase := Ready))
    ensures s in n.sessions && n.sessions[s] == ListenerPeer(m, l.(phase := Connecting))
      ==> Opened(n, s, m.seed.address(l.from).host).sessions[s] == ListenerPeer(m, l.(phase := Ready))
    ensures var b := m.seed.address(l.from);
      s in n.sessions && n.sessions[s] == ListenerPeer(m, l.(phase := Ready))
      ==> RegisterPeer(n, s, b.clientsPort, b.sessionsPort).sessions[s] == ListenerPeer(m, l.(phase := Joined))
  {
  }

  ghost predicate Is(p: Peer, a: Address) { Matches(p, a.host, a.sessionsPort, a.clientsPort) }

  /** Some session of node i, to the seed or on a link, has this host and these ports. */
  ghost predicate Found(m: Mesh, i: Id, a: Address) {
    || a == m.seedAddress
    || exists k :: 0 <= k < |m.links|
        && ((m.links[k].from == i && Is(DiallerPeer(m, m.links[k]), a))
         || (m.links[k].to == i && Is(ListenerPeer(m, m.links[k]), a)))
  }

  ghost predicate CanDo(m: Mesh, step: MeshStep) {
    match step
    case AtSeed(st) => Enabled(m.seed, st)
    case Handle(n, j) => n in m.mail && m.seed.address(j) == n.address
    case Handshake(k) => k < |m.links| && m.links[k].phase == Connecting
    case Register(k) => k < |m.links| && m.links[k].phase == Ready
  }

  /** Notices added to the end. */
  function Sent(before: seq<Notice>, after: seq<Notice>): seq<Notice> {
    if |before| <= |after| then after[|before|..] else []
  }

  ghost function After(m: Mesh, step: MeshStep): Mesh
    requires CanDo(m, step)
  {
    match step
    case AtSeed(st) =>
      var t := Seeds.Next(m.seed, st);
      m.(seed := t, mail := m.mail + set n | n in Sent(m.seed.told, t.told))
    case Handle(n, j) =>
      m.(mail := m.mail - {n}, links := m.links + if Found(m, n.to, n.address) then [] else [Link(n.to, j, Connecting)])
    case Handshake(k) => m.(links := m.links[k := m.links[k].(phase := Ready)])
    case Register(k) => m.(links := m.links[k := m.links[k].(phase := Joined)])
  }

  ghost predicate Start(m: Mesh) {
    && Seeds.Initial(m.seed) && m.mail == {} && m.links == []
    && (forall i :: m.seed.address(i) != m.seedAddress)
  }

  ghost predicate Allowed(m: Mesh, steps: seq<MeshStep>)
    decreases |steps|
  {
    steps == [] || (CanDo(m, steps[0]) && Allowed(After(m, steps[0]), steps[1..]))
  }

  ghost function Evolve(m: Mesh, steps: seq<MeshStep>): Mesh
    requires Allowed(m, steps)
    decreases |steps|
  {
    if steps == [] then m else Evolve(After(m, steps[0]), steps[1..])
  }

  // Invariants

  ghost predicate DialledBy(m: Mesh, i: Id, j: Id) {
    exists l :: l in m.links && l.from == i && l.to == j
  }

  ghost predicate Linked(m: Mesh, i: Id, j: Id) { DialledBy(m, i, j) || DialledBy(m, j, i) }

  function Pair(): Link -> (Id, Id) { (l: Link) => (l.from, l.to) }

  ghost predicate LinksFit(m: Mesh) {
    && Distinct(Pair(), m.links)
    && (forall l :: l in m.links ==>
          l.from != l.to && Told(m.seed, l.from, l.to) && Notice(l.from, m.seed.address(l.to)) !in m.mail)
  }

  ghost predicate MailFits(m: Mesh) {
    && (forall n :: n in m.mail ==> n in m.seed.told)
    && (forall i, j :: Told(m.seed, i, j) && Notice(i, m.seed.address(j)) !in m.mail ==> Linked(m, i, j))
  }

  ghost predicate MeshInv(m: Mesh) {
    && Seeds.Inv(m.seed) && LinksFit(m) && MailFits(m)
    && (forall i :: m.seed.address(i) != m.seedAddress)
  }

  lemma DiallerIs(m: Mesh, l: Link, j: Id)
    requires Addressable(m.seed) && Is(DiallerPeer(m, l), m.seed.address(j))
    ensures l.to == j
  {
    assert m.seed.address(l.to) == m.seed.address(j);
  }

  lemma ListenerIs(m: Mesh, l: Link, j: Id)
    requires Addressable(m.seed) && Is(ListenerPeer(m, l), m.seed.address(j))
    ensures l.from == j
  {
    assert m.seed.address(l.from) == m.seed.address(j);
  }

  /** Only a session with that very node can match its address. */
  lemma FoundMeansLinked(m: Mesh, i: Id, j: Id)
    requires MeshInv(m) && Found(m, i, m.seed.address(j))
    ensures Linked(m, i, j)
  {
    var k :| 0 <= k < |m.links|
        && ((m.links[k].from == i && Is(DiallerPeer(m, m.links[k]), m.seed.address(j)))
         || (m.links[k].to == i && Is(ListenerPeer(m, m.links[k]), m.seed.address(j))));
    assert m.links[k] in m.links;
    if m.links[k].from == i && Is(DiallerPeer(m, m.links[k]), m.seed.address(j)) {
      DiallerIs(m, m.links[k], j);
    } else {
      ListenerIs(m, m.links[k], j);
    }
  }

  lemma SeedStepTold(s: Seed, st: SeedStep)
    requires Seeds.Inv(s) && Enabled(s, st)
    ensures s.told <= Seeds.Next(s, st).told
  {
    if st.Look? {
      LookTells(s, st.i, st.j);
    }
  }

  /** Notices sent by a step were not sent before. */
  lemma SentIsNew(before: seq<Notice>, after: seq<Notice>)
    requires NoDuplicates(after) && before <= after
    ensures after == before + Sent(before, after)
    ensures forall n :: n in before ==> n in after && n !in Sent(before, after)
  {
    var more := Sent(before, after);
    assert after == before + more;
    forall n | n in before ensures n !in more {
      var a :| 0 <= a < |before| && after[a] == n;
      forall b | 0 <= b < |more| ensures more[b] != n {
        assert more[b] == after[|before| + b];
      }
    }
  }

  lemma SeedMeshKeeps(m: Mesh, st: SeedStep)
    requires MeshInv(m) && CanDo(m, AtSeed(st))
    ensures MeshInv(After(m, AtSeed(st)))
  {
    var k := After(m, AtSeed(st));
    Seeds.StepKeeps(m.seed, st);
    SeedStepTold(m.seed, st);
    SentIsNew(m.seed.told, k.seed.told);
    forall i, j | Told(k.seed, i, j) && Notice(i, k.seed.address(j)) !in k.mail ensures Linked(k, i, j) {
      assert Told(m.seed, i, j);
      assert Linked(m, i, j);
    }
    assert k.links == m.links;
  }

  lemma HandleKeeps(m: Mesh, n: Notice, j: Id)
    requires MeshInv(m) && CanDo(m, Handle(n, j))
    ensures MeshInv(After(m, Handle(n, j)))
    ensures Linked(After(m, Handle(n, j)), n.to, j)
  {
    var k := After(m, Handle(n, j));
    assert n == Notice(n.to, m.seed.address(j)) && n in m.seed.told;
    if Found(m, n.to, n.address) {
      FoundMeansLinked(m, n.to, j);
      assert k.links == m.links;
    } else {
      var l := Link(n.to, j, Connecting);
      assert k.links == m.links + [l] && l in k.links;
      forall x | x in m.links ensures Pair()(x) != Pair()(l) && x in k.links {
        assert Notice(x.from, m.seed.address(x.to)) !in m.mail;
      }
      assert Distinct(Pair(), k.links);
    }
    forall a, b | Told(k.seed, a, b) && Notice(a, k.seed.address(b)) !in k.mail ensures Linked(k, a, b) {
      if Notice(a, m.seed.address(b)) != n {
        assert Linked(m, a, b);
        LinkedGrows(m, k, a, b);
      } else {
        assert m.seed.address(a) == m.seed.address(a);
      }
    }
  }

  lemma LinkedGrows(m: Mesh, k: Mesh, a: Id, b: Id)
    requires Linked(m, a, b) && forall l :: l in m.links ==> l in k.links
    ensures Linked(k, a, b)
  {
  }

  ghost predicate SameEnds(x: seq<Link>, y: seq<Link>) {
    |x| == |y| && forall i :: 0 <= i < |x| ==> Pair()(x[i]) == Pair()(y[i])
  }

  lemma SameEndsMember(x: seq<Link>, y: seq<Link>, l: Link)
    requires SameEnds(x, y) && l in x
    ensures exists r :: r in y && r.from == l.from && r.to == l.to
  {
    var i :| 0 <= i < |x| && x[i] == l;
    assert Pair()(x[i]) == Pair()(y[i]) && y[i] in y;
  }

  lemma SameEndsDialled(m: Mesh, t: Mesh, a: Id, b: Id)
    requires SameEnds(m.links, t.links)
    ensures DialledBy(m, a, b) ==> DialledBy(t, a, b)
  {
    if DialledBy(m, a, b) {
      var l :| l in m.links && l.from == a && l.to == b;
      SameEndsMember(m.links, t.links, l);
    }
  }

  /** Advancing a handshake changes no end points. */
  lemma PhaseKeeps(m: Mesh, k: nat, p: LinkPhase)
    requires MeshInv(m) && k < |m.links|
    ensures MeshInv(m.(links := m.links[k := m.links[k].(phase := p)]))
  {
    var t := m.(links := m.links[k := m.links[k].(phase := p)]);
    assert SameEnds(m.links, t.links) && SameEnds(t.links, m.links);
    forall x | x in t.links
      ensures x.from != x.to && Told(t.seed, x.from, x.to) && Notice(x.from, t.seed.address(x.to)) !in t.mail
    {
      SameEndsMember(t.links, m.links, x);
    }
    forall a, b | Linked(m, a, b) ensures Linked(t, a, b) {
      SameEndsDialled(m, t, a, b);
      SameEndsDialled(m, t, b, a);
    }
    assert MailFits(t) by {
      forall i, j | Told(t.seed, i, j) && Notice(i, t.seed.address(j)) !in t.mail ensures Linked(t, i, j) {
        assert Linked(m, i, j);
      }
    }
    assert Distinct(Pair(), t.links) by {
      forall a, b | 0 <= a < b < |t.links| ensures Pair()(t.links[a]) != Pair()(t.links[b]) {
        assert Pair()(m.links[a]) != Pair()(m.links[b]);
      }
    }
  }

  lemma MeshStepKeeps(m: Mesh, step: MeshStep)
    requires MeshInv(m) && CanDo(m, step)
    ensures MeshInv(After(m, step))
  {
    match step
    case AtSeed(st) => SeedMeshKeeps(m, st);
    case Handle(n, j) => HandleKeeps(m, n, j);
    case Handshake(k) => PhaseKeeps(m, k, Ready);
    case Register(k) => PhaseKeeps(m, k, Joined);
  }

  lemma {:induction false} EvolveKeeps(m: Mesh, steps: seq<MeshStep>)
    requires MeshInv(m) && Allowed(m, steps)
    ensures MeshInv(Evolve(m, steps))
    decreases |steps|
  {
    if steps != [] {
      MeshStepKeeps(m, steps[0]);
      EvolveKeeps(After(m, steps[0]), steps[1..]);
    }
  }

  lemma EvolvedInv(m: Mesh, steps: seq<MeshStep>)
    requires Start(m) && Allowed(m, steps)
    ensures MeshInv(Evolve(m, steps)) && Evolve(m, steps).seed.address == m.seed.address
  {
    EvolveKeeps(m, steps);
    AddressesStay(m, steps);
  }

  lemma {:induction false} AddressesStay(m: Mesh, steps: seq<MeshStep>)
    requires Allowed(m, steps)
    ensures Evolve(m, steps).seed.address == m.seed.address
    decreases |steps|
  {
    if steps != [] {
      AddressesStay(After(m, steps[0]), steps[1..]);
    }
  }

  // Completeness

  ghost predicate Quiet(m: Mesh) {
    && (forall i :: i in m.seed.members ==> At(m.seed, i, Done))
    && m.mail == {}
    && (forall l :: l in m.links ==> l.phase == Joined)
  }

  function Between(i: Id, j: Id): Link -> bool {
    (l: Link) => (l.from == i && l.to == j) || (l.from == j && l.to == i)
  }

  function Dials(i: Id, j: Id): Link -> bool { (l: Link) => l.from == i && l.to == j }

  /** At no time does a node have more than one link of its own making to another. */
  lemma DialledOnce(m: Mesh, steps: seq<MeshStep>, i: Id, j: Id)
    requires Start(m) && Allowed(m, steps)
    ensures Count(Dials(i, j), Evolve(m, steps).links) <= 1
  {
    EvolvedInv(m, steps);
    CountDistinct(Evolve(m, steps).links, i, j);
  }

  lemma {:induction false} CountDistinct(links: seq<Link>, i: Id, j: Id)
    requires Distinct(Pair(), links)
    ensures Count(Dials(i, j), links) <= 1
    ensures Count(Dials(i, j), links) == 1 <==> exists l :: l in links && l.from == i && l.to == j
  {
    if links != [] {
      var head, last := links[..|links| - 1], links[|links| - 1];
      CountDistinct(head, i, j);
      assert links == head + [last];
      forall l | l in head ensures Pair()(l) != Pair()(last) {
        var a :| 0 <= a < |head| && head[a] == l;
        assert Pair()(links[a]) != Pair()(links[|links| - 1]);
      }
    }
  }

  lemma {:induction false} BetweenIsBoth(links: seq<Link>, i: Id, j: Id)
    requires i != j
    ensures Count(Between(i, j), links) == Count(Dials(i, j), links) + Count(Dials(j, i), links)
  {
    if links != [] {
      BetweenIsBoth(links[..|links| - 1], i, j);
    }
  }

  /**
   * However the joins interleave and whoever the seed loses, once all is quiet any two nodes it still has
   * are linked, by as many links as dials were made between them: one or one each way.
   */
  lemma MeshComplete(m: Mesh, steps: seq<MeshStep>, i: Id, j: Id)
    requires Start(m) && Allowed(m, steps) && Quiet(Evolve(m, steps))
    requires i in Evolve(m, steps).seed.members && j in Evolve(m, steps).seed.members && i != j
    ensures var k := Evolve(m, steps);
      Count(Between(i, j), k.links)
        == (if DialledBy(k, i, j) then 1 else 0) + (if DialledBy(k, j, i) then 1 else 0) >= 1
  {
    var k := Evolve(m, steps);
    EvolvedInv(m, steps);
    assert RecordFits(k.seed, i) && RecordFits(k.seed, j);
    assert WillLearn(k.seed, i, j) || WillLearn(k.seed, j, i);
    assert Told(k.seed, i, j) ==> Linked(k, i, j);
    assert Told(k.seed, j, i) ==> Linked(k, j, i);
    CountDistinct(k.links, i, j);
    CountDistinct(k.links, j, i);
    BetweenIsBoth(k.links, i, j);
  }

  // Exactly one

  /** Node i has a session that shows node j's address: its own dial once open, or j's once registered. */
  ghost predicate Visible(m: Mesh, i: Id, j: Id) {
    exists l :: l in m.links
      && ((l.from == i && l.to == j && l.phase != Connecting) || (l.from == j && l.to == i && l.phase == Joined))
  }

  /** Which of its ends show a link, and when. */
  lemma LinkShows(m: Mesh, l: Link, j: Id)
    requires Addressable(m.seed)
    ensures Is(DiallerPeer(m, l), m.seed.address(j)) <==> l.to == j && l.phase != Connecting
    ensures Is(ListenerPeer(m, l), m.seed.address(j)) <==> l.from == j && l.phase == Joined
  {
    if Is(DiallerPeer(m, l), m.seed.address(j)) {
      DiallerIs(m, l, j);
    }
    if Is(ListenerPeer(m, l), m.seed.address(j)) {
      ListenerIs(m, l, j);
    }
  }

  /** The scan of the session handler finds a peer exactly by such a session. */
  lemma FoundIff(m: Mesh, i: Id, j: Id)
    requires MeshInv(m)
    ensures Found(m, i, m.seed.address(j)) <==> Visible(m, i, j)
  {
    forall l: Link
      ensures Is(DiallerPeer(m, l), m.seed.address(j)) <==> l.to == j && l.phase != Connecting
      ensures Is(ListenerPeer(m, l), m.seed.address(j)) <==> l.from == j && l.phase == Joined
    {
      LinkShows(m, l, j);
    }
    assert m.seed.address(j) != m.seedAddress;
  }

  /** One of the two reads of the other while the other has dialled it and not been registered yet. */
  ghost predicate Crosses(m: Mesh, step: MeshStep, i: Id, j: Id) {
    && step.Handle?
    && ((step.n.to == i && step.j == j) || (step.n.to == j && step.j == i))
    && exists l :: l in m.links && l.from == step.j && l.to == step.n.to && l.phase != Joined
  }

  ghost predicate Crossed(m: Mesh, steps: seq<MeshStep>, i: Id, j: Id)
    requires Allowed(m, steps)
    decreases |steps|
  {
    steps != [] && (Crosses(m, steps[0], i, j) || Crossed(After(m, steps[0]), steps[1..], i, j))
  }

  ghost predicate BothDialled(m: Mesh, i: Id, j: Id) { DialledBy(m, i, j) && DialledBy(m, j, i) }

  lemma SamePair(m: Mesh, x: Link, y: Link)
    requires Distinct(Pair(), m.links) && x in m.links && y in m.links && Pair()(x) == Pair()(y)
    ensures x == y
  {
    var a :| 0 <= a < |m.links| && m.links[a] == x;
    var b :| 0 <= b < |m.links| && m.links[b] == y;
  }

  /** A node that reads of a peer dials it unless the peer's own dial has been registered. */
  lemma HandleDials(m: Mesh, n: Notice, j: Id)
    requires MeshInv(m) && CanDo(m, Handle(n, j))
    ensures !DialledBy(m, n.to, j)
    ensures var k := After(m, Handle(n, j));
      && (DialledBy(k, n.to, j) <==> !(exists l :: l in m.links && l.from == j && l.to == n.to && l.phase == Joined))
      && (forall a, b :: !(a == n.to && b == j) ==> (DialledBy(k, a, b) <==> DialledBy(m, a, b)))
  {
    var k := After(m, Handle(n, j));
    assert n == Notice(n.to, m.seed.address(j));
    FoundIff(m, n.to, j);
    if Found(m, n.to, n.address) {
      assert k.links == m.links;
    } else {
      var l := Link(n.to, j, Connecting);
      assert k.links == m.links + [l] && l in k.links;
      assert forall x :: x in k.links <==> x in m.links || x == l;
    }
  }

  lemma PhaseDials(m: Mesh, k: nat, p: LinkPhase, a: Id, b: Id)
    requires k < |m.links|
    ensures DialledBy(m.(links := m.links[k := m.links[k].(phase := p)]), a, b) <==> DialledBy(m, a, b)
  {
    var t := m.(links := m.links[k := m.links[k].(phase := p)]);
    assert SameEnds(m.links, t.links) && SameEnds(t.links, m.links);
    SameEndsDialled(m, t, a, b);
    SameEndsDialled(t, m, a, b);
  }

  lemma CrossingDialsBoth(m: Mesh, n: Notice, j: Id)
    requires MeshInv(m) && CanDo(m, Handle(n, j)) && n.to != j
    ensures BothDialled(After(m, Handle(n, j)), n.to, j) <==> Crosses(m, Handle(n, j), n.to, j)
  {
    HandleDials(m, n, j);
    if DialledBy(m, j, n.to) {
      var l :| l in m.links && l.from == j && l.to == n.to;
      forall x | x in m.links && x.from == j && x.to == n.to ensures x == l {
        SamePair(m, x, l);
      }
    }
  }

  lemma BothByCrossing(m: Mesh, step: MeshStep, i: Id, j: Id)
    requires MeshInv(m) && CanDo(m, step) && i != j
    ensures BothDialled(After(m, step), i, j) <==> BothDialled(m, i, j) || Crosses(m, step, i, j)
  {
    match step
    case AtSeed(_) =>
    case Handle(n, y) =>
      HandleDials(m, n, y);
      if (n.to == i && y == j) || (n.to == j && y == i) {
        CrossingDialsBoth(m, n, y);
      }
    case Handshake(k) =>
      PhaseDials(m, k, Ready, i, j);
      PhaseDials(m, k, Ready, j, i);
    case Register(k) =>
      PhaseDials(m, k, Joined, i, j);
      PhaseDials(m, k, Joined, j, i);
  }

  lemma {:induction false} BothIffCrossed(m: Mesh, steps: seq<MeshStep>, i: Id, j: Id)
    requires MeshInv(m) && Allowed(m, steps) && i != j
    ensures BothDialled(Evolve(m, steps), i, j) <==> BothDialled(m, i, j) || Crossed(m, steps, i, j)
    decreases |steps|
  {
    if steps != [] {
      MeshStepKeeps(m, steps[0]);
      BothByCrossing(m, steps[0], i, j);
      BothIffCrossed(After(m, steps[0]), steps[1..], i, j);
    }
  }

  /**
   * Once all is quiet two nodes have exactly one link if and only if neither ever read of the other between
   * that one's dialling it and that one's registration: otherwise they have two.
   */
  lemma ExactlyOneIff(m: Mesh, steps: seq<MeshStep>, i: Id, j: Id)
    requires Start(m) && Allowed(m, steps) && Quiet(Evolve(m, steps))
    requires i in Evolve(m, steps).seed.members && j in Evolve(m, steps).seed.members && i != j
    ensures Count(Between(i, j), Evolve(m, steps).links) == if Crossed(m, steps, i, j) then 2 else 1
  {
    MeshComplete(m, steps, i, j);
    BothIffCrossed(m, steps, i, j);
  }

  // One after another

  /** Nodes join only when all earlier joins have come to rest. */
  ghost predicate InTurn(m: Mesh, steps: seq<MeshStep>)
    requires Allowed(m, steps)
    decreases |steps|
  {
    steps == [] || ((steps[0].AtSeed? && steps[0].step.Accept? ==> Quiet(m)) && InTurn(After(m, steps[0]), steps[1..]))
  }

  /** Its register handler has finished, or will never run since the seed has lost it. */
  ghost predicate Settled(s: Seed, i: Id) {
    At(s, i, Done) || (i in s.phase && i !in s.members && Idle(s.phase[i]))
  }

  /** Only the last to join is still busy, and everyone is told only of nodes that joined before. */
  ghost predicate Queued(s: Seed, order: seq<Id>) {
    && NoDuplicates(order)
    && (forall i :: i in s.phase <==> i in order)
    && (forall a :: 0 <= a < |order| - 1 ==> Settled(s, order[a]))
    && (forall i, j :: Told(s, i, j) ==> exists a, b :: 0 <= a < b < |order| && order[a] == j && order[b] == i)
  }

  lemma AcceptQueued(m: Mesh, i: Id, order: seq<Id>)
    requires MeshInv(m) && Queued(m.seed, order) && CanDo(m, AtSeed(Accept(i))) && Quiet(m)
    ensures Queued(After(m, AtSeed(Accept(i))).seed, order + [i])
  {
    var k := After(m, AtSeed(Accept(i)));
    var longer := order + [i];
    assert k.seed.told == m.seed.told;
    forall a | 0 <= a < |longer| - 1 ensures Settled(k.seed, longer[a]) {
      assert order[a] in m.seed.phase;
    }
    forall x, y | Told(k.seed, x, y) ensures exists a, b :: 0 <= a < b < |longer| && longer[a] == y && longer[b] == x {
      assert Told(m.seed, x, y);
      var a, b :| 0 <= a < b < |order| && order[a] == y && order[b] == x;
      assert longer[a] == y && longer[b] == x;
    }
  }

  lemma OnlyLastIsBusy(s: Seed, order: seq<Id>, i: Id)
    requires Queued(s, order) && i in s.phase && !Settled(s, i)
    ensures order != [] && order[|order| - 1] == i
  {
    forall a | 0 <= a < |order| - 1 ensures order[a] != i {
      assert Settled(s, order[a]);
    }
  }

  lemma LaterThan(order: seq<Id>, i: Id, j: Id)
    requires order != [] && order[|order| - 1] == i && j in order
    ensures i != j ==> exists a, b :: 0 <= a < b < |order| && order[a] == j && order[b] == i
  {
    var a :| 0 <= a < |order| && order[a] == j;
    if i != j {
      assert a < |order| - 1;
    }
  }

  lemma SeedQueued(m: Mesh, st: SeedStep, order: seq<Id>)
    requires MeshInv(m) && Queued(m.seed, order) && CanDo(m, AtSeed(st)) && !st.Accept?
    ensures Queued(After(m, AtSeed(st)).seed, order)
  {
    var s, t := m.seed, After(m, AtSeed(st)).seed;
    if !Settled(s, st.i) {
      OnlyLastIsBusy(s, order, st.i);
    }
    assert t.phase.Keys == s.phase.Keys && t.address == s.address;
    if st.Look? {
      LookTells(s, st.i, st.j);
      LaterThan(order, st.i, st.j);
    } else {
      assert t.told == s.told;
    }
    forall i, j | Told(t, i, j) ensures exists a, b :: 0 <= a < b < |order| && order[a] == j && order[b] == i {
      assert Told(s, i, j) || (st == Look(i, j) && i != j);
    }
    forall a | 0 <= a < |order| - 1 ensures Settled(t, order[a]) {
      assert Settled(s, order[a]);
    }
  }

  lemma StepQueued(m: Mesh, step: MeshStep, order: seq<Id>) returns (next: seq<Id>)
    requires MeshInv(m) && Queued(m.seed, order) && CanDo(m, step)
    requires step.AtSeed? && step.step.Accept? ==> Quiet(m)
    ensures Queued(After(m, step).seed, next)
  {
    next := order;
    if step.AtSeed? {
      if step.step.Accept? {
        AcceptQueued(m, step.step.i, order);
        next := order + [step.step.i];
      } else {
        SeedQueued(m, step.step, order);
      }
    }
  }

  lemma OneIsTold(s: Seed, order: seq<Id>, i: Id, j: Id)
    requires Queued(s, order) && Told(s, i, j)
    ensures !Told(s, j, i)
  {
    var a, b :| 0 <= a < b < |order| && order[a] == j && order[b] == i;
    assert forall c, d :: 0 <= c < d < |order| && order[c] == i && order[d] == j ==> c == b && d == a;
  }

  lemma QueuedDoesNotCross(m: Mesh, step: MeshStep, order: seq<Id>, i: Id, j: Id)
    requires MeshInv(m) && Queued(m.seed, order) && CanDo(m, step) && i != j
    ensures !Crosses(m, step, i, j)
  {
    if Crosses(m, step, i, j) {
      assert step.n == Notice(step.n.to, m.seed.address(step.j)) && step.n in m.seed.told;
      OneIsTold(m.seed, order, step.n.to, step.j);
    }
  }

  lemma {:induction false} InTurnDoesNotCross(m: Mesh, steps: seq<MeshStep>, order: seq<Id>, i: Id, j: Id)
    requires MeshInv(m) && Queued(m.seed, order) && Allowed(m, steps) && InTurn(m, steps) && i != j
    ensures !Crossed(m, steps, i, j)
    decreases |steps|
  {
    if steps != [] {
      QueuedDoesNotCross(m, steps[0], order, i, j);
      MeshStepKeeps(m, steps[0]);
      var next := StepQueued(m, steps[0], order);
      InTurnDoesNotCross(After(m, steps[0]), steps[1..], next, i, j);
    }
  }

  /** When nodes join one after another none cross, and every quiet state has one link between any two of them. */
  lemma OneLinkInTurn(m: Mesh, steps: seq<MeshStep>, i: Id, j: Id)
    requires Start(m) && Allowed(m, steps) && InTurn(m, steps) && Quiet(Evolve(m, steps))
    requires i in Evolve(m, steps).seed.members && j in Evolve(m, steps).seed.members && i != j
    ensures Count(Between(i, j), Evolve(m, steps).links) == 1
  {
    InTurnDoesNotCross(m, steps, [], i, j);
    ExactlyOneIff(m, steps, i, j);
  }

  // All at once

  lemma FirstDials(m: Mesh, i: Id, j: Id)
    requires MeshInv(m) && i != j
    requires Notice(i, m.seed.address(j)) in m.mail && Notice(j, m.seed.address(i)) in m.mail
    ensures !Linked(m, i, j)
    ensures var first := Handle(Notice(i, m.seed.address(j)), j);
      && CanDo(m, first) && MeshInv(After(m, first))
      && After(m, first) == m.(links := m.links + [Link(i, j, Connecting)], mail := m.mail - {first.n})
  {
    assert !Linked(m, i, j);
    FoundIff(m, i, j);
    HandleKeeps(m, Notice(i, m.seed.address(j)), j);
  }

  /** Two nodes told of each other before either has acted on it both dial, and end up with two links. */
  lemma CrossedNoticesDialTwice(m: Mesh, i: Id, j: Id)
    requires MeshInv(m) && i != j
    requires Notice(i, m.seed.address(j)) in m.mail && Notice(j, m.seed.address(i)) in m.mail
    ensures var first, second := Handle(Notice(i, m.seed.address(j)), j), Handle(Notice(j, m.seed.address(i)), i);
      CanDo(m, first) && CanDo(After(m, first), second)
      && After(After(m, first), second).links == m.links + [Link(i, j, Connecting), Link(j, i, Connecting)]
      && Count(Between(i, j), After(After(m, first), second).links) == 2
  {
    var first, second := Handle(Notice(i, m.seed.address(j)), j), Handle(Notice(j, m.seed.address(i)), i);
    var k := After(m, first);
    FirstDials(m, i, j);
    UnknownWhileConnecting(m, i, j);
    var t := After(k, second);
    HandleKeeps(k, second.n, i);
    assert t.links == m.links + [Link(i, j, Connecting), Link(j, i, Connecting)];
    assert t.links[|m.links|] in t.links && t.links[|m.links| + 1] in t.links;
    CountDistinct(t.links, i, j);
    CountDistinct(t.links, j, i);
    BetweenIsBoth(t.links, i, j);
  }

  /** A node being dialled does not recognise the dialler before its register message. */
  lemma UnknownWhileConnecting(m: Mesh, i: Id, j: Id)
    requires MeshInv(m) && i != j && !Linked(m, i, j)
    ensures !Found(m.(links := m.links + [Link(i, j, Connecting)]), j, m.seed.address(i))
  {
    var k := m.(links := m.links + [Link(i, j, Connecting)]);
    if Found(k, j, m.seed.address(i)) {
      var x :| 0 <= x < |k.links|
        && ((k.links[x].from == j && Is(DiallerPeer(k, k.links[x]), m.seed.address(i)))
         || (k.links[x].to == j && Is(ListenerPeer(k, k.links[x]), m.seed.address(i))));
      if x < |m.links| {
        assert Found(m, j, m.seed.address(i)) by { assert k.links[x] == m.links[x]; }
        FoundMeansLinked(m, j, i);
      }
    }
  }

  // A run that crosses

  lemma {:induction false} EvolveAppend(m: Mesh, xs: seq<MeshStep>, ys: seq<MeshStep>)
    requires Allowed(m, xs) && Allowed(Evolve(m, xs), ys)
    ensures Allowed(m, xs + ys) && Evolve(m, xs + ys) == Evolve(Evolve(m, xs), ys)
    decreases |xs|
  {
    if xs == [] {
      assert xs + ys == ys;
    } else {
      assert (xs + ys)[0] == xs[0] && (xs + ys)[1..] == xs[1..] + ys;
      EvolveAppend(After(m, xs[0]), xs[1..], ys);
    }
  }

  /** One step more. */
  lemma Then(m: Mesh, steps: seq<MeshStep>, step: MeshStep) returns (longer: seq<MeshStep>)
    requires Allowed(m, steps) && CanDo(Evolve(m, steps), step)
    ensures Allowed(m, longer) && Evolve(m, longer) == After(Evolve(m, steps), step)
  {
    assert [step][1..] == [];
    EvolveAppend(m, steps, [step]);
    longer := steps + [step];
  }

  /** A step at the seed that tells nobody anything. */
  lemma ThenAtSeed(m: Mesh, steps: seq<MeshStep>, st: SeedStep) returns (longer: seq<MeshStep>)
    requires Allowed(m, steps) && Enabled(Evolve(m, steps).seed, st)
    requires Seeds.Next(Evolve(m, steps).seed, st).told == Evolve(m, steps).seed.told
    ensures Allowed(m, longer)
    ensures Evolve(m, longer) == Evolve(m, steps).(seed := Seeds.Next(Evolve(m, steps).seed, st))
  {
    longer := Then(m, steps, AtSeed(st));
    assert Sent(Evolve(m, steps).seed.told, Evolve(m, longer).seed.told) == [];
  }

  lemma Opens(m: Mesh, i: Id) returns (steps: seq<MeshStep>)
    requires MeshInv(m) && i !in m.seed.phase && i != m.seed.id
    ensures Allowed(m, steps)
    ensures var s, t := m.seed, Evolve(m, steps).seed;
      && Evolve(m, steps) == m.(seed := t)
      && t == s.(records := t.records, members := s.members + {i}, phase := s.phase[i := Open])
      && t.records.Keys == s.records.Keys + {i}
  {
    steps := ThenAtSeed(m, [], Accept(i));
    steps := ThenAtSeed(m, steps, OpenSession(i));
  }

  lemma Writes(m: Mesh, i: Id) returns (steps: seq<MeshStep>)
    requires At(m.seed, i, Open) && i in m.seed.members && i in m.seed.records
    ensures Allowed(m, steps)
    ensures var s, t := m.seed, Evolve(m, steps).seed;
      && Evolve(m, steps) == m.(seed := t)
      && t == s.(records := t.records, phase := s.phase[i := Marked])
  {
    steps := ThenAtSeed(m, [], SetClientsPort(i));
    steps := ThenAtSeed(m, steps, SetSessionsPort(i));
    steps := ThenAtSeed(m, steps, Mark(i));
  }

  /** Node i is accepted and its register handler runs up to the mark. */
  lemma Registers(m: Mesh, i: Id) returns (steps: seq<MeshStep>)
    requires MeshInv(m) && i !in m.seed.phase && i != m.seed.id
    ensures Allowed(m, steps) && MeshInv(Evolve(m, steps))
    ensures var s, t := m.seed, Evolve(m, steps).seed;
      && Evolve(m, steps) == m.(seed := t)
      && t == s.(records := t.records, members := s.members + {i}, phase := s.phase[i := Marked])
  {
    var opening := Opens(m, i);
    var writing := Writes(Evolve(m, opening), i);
    EvolveAppend(m, opening, writing);
    steps := opening + writing;
    EvolveKeeps(m, steps);
  }

  lemma Skips(m: Mesh, i: Id, j: Id) returns (steps: seq<MeshStep>)
    requires MeshInv(m) && At(m.seed, i, Marked) && m.seed.members == {i, j} && i != j
    ensures Allowed(m, steps)
    ensures Evolve(m, steps) == m.(seed := m.seed.(phase := m.seed.phase[i := Listing({j})]))
  {
    steps := ThenAtSeed(m, [], Snapshot(i));
    assert i in m.seed.records && !Listed(Objects(Evolve(m, steps).seed), i, i);
    assert {i, j} - {i} == {j};
    steps := ThenAtSeed(m, steps, Look(i, i));
  }

  lemma Tells(m: Mesh, i: Id, j: Id) returns (steps: seq<MeshStep>)
    requires MeshInv(m) && At(m.seed, i, Listing({j})) && i != j && Registered(m.seed, j)
    ensures Allowed(m, steps)
    ensures var s, n := m.seed, Notice(i, m.seed.address(j));
      Evolve(m, steps) == m.(seed := s.(phase := s.phase[i := Done], told := s.told + [n]), mail := m.mail + {n})
  {
    LookTells(m.seed, i, j);
    steps := Then(m, [], AtSeed(Look(i, j)));
    assert {j} - {j} == {};
    steps := ThenAtSeed(m, steps, Finish(i));
  }

  /** The handler of i then lists the two members, itself and j, and tells it of j. */
  lemma Reads(m: Mesh, i: Id, j: Id) returns (steps: seq<MeshStep>)
    requires MeshInv(m) && At(m.seed, i, Marked) && m.seed.members == {i, j} && i != j && Registered(m.seed, j)
    ensures Allowed(m, steps) && MeshInv(Evolve(m, steps))
    ensures var s, t := m.seed, Evolve(m, steps).seed;
      && Evolve(m, steps) == m.(seed := t, mail := m.mail + {Notice(i, s.address(j))})
      && t == s.(phase := s.phase[i := Done], told := s.told + [Notice(i, s.address(j))])
  {
    var skipping := Skips(m, i, j);
    EvolveKeeps(m, skipping);
    var telling := Tells(Evolve(m, skipping), i, j);
    EvolveAppend(m, skipping, telling);
    steps := skipping + telling;
    EvolveKeeps(m, steps);
  }

  /** Both links come up. */
  lemma BothJoin(m: Mesh, i: Id, j: Id) returns (steps: seq<MeshStep>)
    requires m.links == [Link(i, j, Connecting), Link(j, i, Connecting)]
    ensures Allowed(m, steps) && Evolve(m, steps) == m.(links := [Link(i, j, Joined), Link(j, i, Joined)])
  {
    steps := Then(m, [], Handshake(0));
    steps := Then(m, steps, Handshake(1));
    steps := Then(m, steps, Register(0));
    steps := Then(m, steps, Register(1));
  }

  /** Both notices are read, and the two links they lead to come up. */
  lemma Collide(m: Mesh, i: Id, j: Id) returns (steps: seq<MeshStep>)
    requires MeshInv(m) && i != j && m.links == []
    requires m.mail == {Notice(i, m.seed.address(j)), Notice(j, m.seed.address(i))}
    ensures Allowed(m, steps) && Evolve(m, steps).seed == m.seed && Evolve(m, steps).mail == {}
    ensures Evolve(m, steps).links == [Link(i, j, Joined), Link(j, i, Joined)]
    ensures Count(Between(i, j), Evolve(m, steps).links) == 2
  {
    CrossedNoticesDialTwice(m, i, j);
    var reading := Then(m, [], Handle(Notice(i, m.seed.address(j)), j));
    reading := Then(m, reading, Handle(Notice(j, m.seed.address(i)), i));
    var joining := BothJoin(Evolve(m, reading), i, j);
    EvolveAppend(m, reading, joining);
    steps := reading + joining;
    CountSnoc(Between(i, j), [Link(i, j, Joined)], Link(j, i, Joined));
    CountSnoc(Between(i, j), [], Link(i, j, Joined));
  }

  /** Both register before either handler lists the session map. */
  lemma TellsBoth(m: Mesh, i: Id, j: Id) returns (steps: seq<MeshStep>)
    requires Start(m) && i != j && i != m.seed.id && j != m.seed.id
    ensures Allowed(m, steps)
    ensures var k := Evolve(m, steps);
      && k.links == [] && k.mail == {Notice(i, m.seed.address(j)), Notice(j, m.seed.address(i))}
      && k.seed.address == m.seed.address && k.seed.members == {i, j} && At(k.seed, i, Done) && At(k.seed, j, Done)
  {
    var registering := RegisterBoth(m, i, j);
    var k := Evolve(m, registering);
    assert RecordFits(k.seed, i) && RecordFits(k.seed, j);
    var reading := Reads(k, i, j);
    assert {i, j} == {j, i};
    var more := Reads(Evolve(k, reading), j, i);
    EvolveAppend(k, reading, more);
    EvolveAppend(m, registering, reading + more);
    steps := registering + (reading + more);
  }

  lemma RegisterBoth(m: Mesh, i: Id, j: Id) returns (steps: seq<MeshStep>)
    requires Start(m) && i != j && i != m.seed.id && j != m.seed.id
    ensures Allowed(m, steps) && MeshInv(Evolve(m, steps))
    ensures var k := Evolve(m, steps);
      && k.links == [] && k.mail == {} && k.seed.address == m.seed.address
      && k.seed.members == {i, j} && At(k.seed, i, Marked) && At(k.seed, j, Marked)
  {
    var first := Registers(m, i);
    var second := Registers(Evolve(m, first), j);
    EvolveAppend(m, first, second);
    steps := first + second;
  }

  /** From every start any two nodes can come to have two links: both register before either is told. */
  lemma TwoLinksReachable(m: Mesh, i: Id, j: Id) returns (steps: seq<MeshStep>)
    requires Start(m) && i != j && i != m.seed.id && j != m.seed.id
    ensures Allowed(m, steps) && Quiet(Evolve(m, steps)) && {i, j} <= Evolve(m, steps).seed.members
    ensures Crossed(m, steps, i, j) && Count(Between(i, j), Evolve(m, steps).links) == 2
  {
    var telling := TellsBoth(m, i, j);
    var k := Evolve(m, telling);
    EvolveKeeps(m, telling);
    var colliding := Collide(k, i, j);
    EvolveAppend(m, telling, colliding);
    steps := telling + colliding;
    ExactlyOneIff(m, steps, i, j);
  }

  // The mesh on its nodes

  ghost predicate Ends(l: Link, i: Id) { l.from == i || l.to == i }

  /** Node i's end of link l. */
  ghost function Own(m: Mesh, l: Link, i: Id): Peer {
    if l.from == i then DiallerPeer(m, l) else ListenerPeer(m, l)
  }

  /** Session t is node i's end of the link at k. */
  ghost predicate IsEnd(m: Mesh, i: Id, at: seq<Id>, k: int, t: Id) {
    0 <= k < |m.links| == |at| && Ends(m.links[k], i) && at[k] == t
  }

  /** Every link of node i has its own session object, that of its end. */
  ghost predicate EndsShown(m: Mesh, i: Id, n: Node, seed: Id, at: seq<Id>) {
    forall k, t :: IsEnd(m, i, at, k, t) ==> t != seed && t in n.sessions && n.sessions[t] == Own(m, m.links[k], i)
  }

  ghost predicate EndsApart(m: Mesh, i: Id, at: seq<Id>) {
    forall j, k, t :: IsEnd(m, i, at, j, t) && IsEnd(m, i, at, k, t) ==> j == k
  }

  ghost predicate OnlyEnds(m: Mesh, i: Id, n: Node, seed: Id, at: seq<Id>) {
    forall t :: t in n.sessions && t != seed ==> exists k :: IsEnd(m, i, at, k, t)
  }

  /** The sessions of n are what the mesh gives node i: one to the seed, and for each link its end, under at. */
  ghost predicate Shows(m: Mesh, i: Id, n: Node, seed: Id, at: seq<Id>) {
    && |at| == |m.links|
    && seed in n.sessions && Is(n.sessions[seed], m.seedAddress)
    && EndsShown(m, i, n, seed, at) && EndsApart(m, i, at) && OnlyEnds(m, i, n, seed, at)
  }

  /** What the scan of node i's session map finds is what the mesh says it finds. */
  lemma ScanIsFound(m: Mesh, i: Id, n: Node, seed: Id, at: seq<Id>, a: Address)
    requires LinksFit(m) && Shows(m, i, n, seed, at)
    ensures Found(m, i, a) <==> exists t ::
      t in n.sessions && n.sessions[t].host == a.host
      && n.sessions[t].sessionsPort == a.sessionsPort && n.sessions[t].clientsPort == a.clientsPort
  {
    if t :| t in n.sessions && Is(n.sessions[t], a) && t != seed {
      var k :| IsEnd(m, i, at, k, t);
      assert Is(Own(m, m.links[k], i), a);
    }
    if Found(m, i, a) && a != m.seedAddress {
      var k :| 0 <= k < |m.links|
        && ((m.links[k].from == i && Is(DiallerPeer(m, m.links[k]), a))
         || (m.links[k].to == i && Is(ListenerPeer(m, m.links[k]), a)));
      assert m.links[k] in m.links && IsEnd(m, i, at, k, at[k]);
      assert Is(n.sessions[at[k]], a);
    }
  }

  /**
   * The session handler of node i dials exactly when the mesh makes a link: not if it finds the peer, and
   * otherwise the peer's session port, under one new session object.
   */
  lemma HandlerDials(m: Mesh, i: Id, n: Node, seed: Id, at: seq<Id>, a: Address, t: Id, newId: Id)
    requires LinksFit(m) && Shows(m, i, n, seed, at)
    ensures var out := OnPeer(n, t, Messages.Session(a.host, a.sessionsPort, a.clientsPort), newId);
      && out.effects.dial == (if Found(m, i, a) then None else Some(Dial(newId, a.host, a.sessionsPort)))
      && (Found(m, i, a) ==> out.node == n)
      && (!Found(m, i, a) && newId !in n.sessions ==>
            out.node == n.(sessions := n.sessions[newId := Dialled(a.sessionsPort, a.clientsPort)]))
  {
    ScanIsFound(m, i, n, seed, at, a);
    SessionIs(n, t, a.host, a.sessionsPort, a.clientsPort, newId);
  }

  /**
   * What happens at node i when the mesh makes a step: its handlers read of a peer or a registration, a
   * connection is accepted, or a handshake ends. It reads on session t and draws newId.
   */
  ghost function Following(m: Mesh, step: MeshStep, i: Id, n: Node, at: seq<Id>, t: Id, told: bool, newId: Id): Node
    requires CanDo(m, step) && |at| == |m.links|
  {
    match step
    case AtSeed(_) => n
    case Handle(notice, j) =>
      var a := notice.address;
      if notice.to == i then OnPeer(n, t, Messages.Session(a.host, a.sessionsPort, a.clientsPort), newId).node
      else if j == i && !Found(m, notice.to, a) then AddSession(n, newId, Peer(NO_HOST, 0, 0, false, false))
      else n
    case Handshake(k) =>
      var l := m.links[k];
      if l.from == i then Opened(n, at[k], m.seed.address(l.to).host)
      else if l.to == i then Opened(n, at[k], m.seed.address(l.from).host)
      else n
    case Register(k) =>
      var a := m.seed.address(m.links[k].from);
      if m.links[k].to == i
      then OnPeer(n, at[k], Messages.Register(told, a.clientsPort, a.sessionsPort), newId).node else n
  }

  /** Which sessions are ends, with one link more. */
  lemma EndsGrow(m: Mesh, k: Mesh, i: Id, at: seq<Id>, l: Link, newId: Id)
    requires |at| == |m.links| && k.links == m.links + [l]
    ensures forall x, t ::
      IsEnd(k, i, at + [newId], x, t) <==> IsEnd(m, i, at, x, t) || (x == |m.links| && Ends(l, i) && t == newId)
  {
  }

  /** A link elsewhere. */
  lemma ElsewhereShows(m: Mesh, k: Mesh, i: Id, n: Node, seed: Id, at: seq<Id>, l: Link, newId: Id)
    requires Shows(m, i, n, seed, at) && !Ends(l, i)
    requires k == m.(links := k.links, mail := k.mail) && k.links == m.links + [l]
    ensures Shows(k, i, n, seed, at + [newId])
  {
    EndsGrow(m, k, i, at, l, newId);
    forall t | t in n.sessions && t != seed ensures exists x :: IsEnd(k, i, at + [newId], x, t) {
      var x :| IsEnd(m, i, at, x, t);
      assert IsEnd(k, i, at + [newId], x, t);
    }
    forall x, t | IsEnd(k, i, at + [newId], x, t)
      ensures t != seed && t in n.sessions && n.sessions[t] == Own(k, k.links[x], i)
    {
      assert IsEnd(m, i, at, x, t) && k.links[x] == m.links[x];
    }
    assert EndsApart(k, i, at + [newId]);
  }

  /** A new link's session object goes under the id drawn for it. */
  ghost function Places(m: Mesh, step: MeshStep, at: seq<Id>, newId: Id): (there: seq<Id>)
    requires CanDo(m, step) && |at| == |m.links|
    ensures |there| == |After(m, step).links|
  {
    if |After(m, step).links| > |m.links| then at + [newId] else at
  }

  /** A session object for a new link. */
  lemma AddedShows(m: Mesh, k: Mesh, i: Id, n: Node, seed: Id, at: seq<Id>, l: Link, newId: Id)
    requires Shows(m, i, n, seed, at) && newId !in n.sessions && Ends(l, i)
    requires k == m.(links := k.links, mail := k.mail) && k.links == m.links + [l]
    ensures Shows(k, i, n.(sessions := n.sessions[newId := Own(k, l, i)]), seed, at + [newId])
  {
    var there, after := at + [newId], n.(sessions := n.sessions[newId := Own(k, l, i)]);
    EndsGrow(m, k, i, at, l, newId);
    forall t | t in after.sessions && t != seed ensures exists x :: IsEnd(k, i, there, x, t) {
      if t == newId {
        assert IsEnd(k, i, there, |m.links|, t);
      } else {
        var x :| IsEnd(m, i, at, x, t);
        assert IsEnd(k, i, there, x, t);
      }
    }
    forall x, t | IsEnd(k, i, there, x, t)
      ensures t != seed && t in after.sessions && after.sessions[t] == Own(k, k.links[x], i)
    {
      if x < |m.links| {
        assert IsEnd(m, i, at, x, t) && k.links[x] == m.links[x];
      }
    }
    forall x, y, t | IsEnd(k, i, there, x, t) && IsEnd(k, i, there, y, t) ensures x == y {
      if x < |m.links| {
        assert IsEnd(m, i, at, x, t);
      }
      if y < |m.links| {
        assert IsEnd(m, i, at, y, t);
      }
    }
  }

  /** The session object of a link that goes on. */
  lemma AdvancedShows(m: Mesh, x: nat, l: Link, i: Id, n: Node, seed: Id, at: seq<Id>)
    requires Shows(m, i, n, seed, at) && x < |m.links| && l == m.links[x].(phase := l.phase)
    ensures Ends(l, i) ==> at[x] in n.sessions && n.sessions[at[x]] == Own(m, m.links[x], i)
    ensures var k := m.(links := m.links[x := l]);
      var after := if Ends(l, i) then n.(sessions := n.sessions[at[x] := Own(k, l, i)]) else n;
      Shows(k, i, after, seed, at)
  {
    var k := m.(links := m.links[x := l]);
    var after := if Ends(l, i) then n.(sessions := n.sessions[at[x] := Own(k, l, i)]) else n;
    assert forall y, t :: IsEnd(k, i, at, y, t) <==> IsEnd(m, i, at, y, t);
    if Ends(l, i) {
      assert IsEnd(m, i, at, x, at[x]);
    }
    forall y, t | IsEnd(k, i, at, y, t)
      ensures t != seed && t in after.sessions && after.sessions[t] == Own(k, k.links[y], i)
    {
      assert IsEnd(m, i, at, y, t);
    }
    forall t | t in after.sessions && t != seed ensures exists y :: IsEnd(k, i, at, y, t) {
      var y :| IsEnd(m, i, at, y, t);
      assert IsEnd(k, i, at, y, t);
    }
    assert EndsApart(k, i, at);
  }

  /** The end of a handshake, and the register message, at either end. */
  lemma AdvanceActs(m: Mesh, x: nat, i: Id, n: Node, at: seq<Id>, t: Id, told: bool, newId: Id)
    requires |at| == |m.links| && x < |m.links| && m.links[x].from != m.links[x].to && Ends(m.links[x], i)
    requires at[x] in n.sessions && n.sessions[at[x]] == Own(m, m.links[x], i)
    ensures CanDo(m, Handshake(x)) ==>
      Following(m, Handshake(x), i, n, at, t, told, newId)
      == n.(sessions := n.sessions[at[x] := Own(m, m.links[x].(phase := Ready), i)])
    ensures CanDo(m, Register(x)) ==>
      Following(m, Register(x), i, n, at, t, told, newId)
      == n.(sessions := n.sessions[at[x] := Own(m, m.links[x].(phase := Joined), i)])
  {
    var a := m.seed.address(m.links[x].from);
    RegisterIs(n, at[x], told, a.clientsPort, a.sessionsPort, newId);
    assert n.sessions == n.sessions[at[x] := n.sessions[at[x]]];
  }

  lemma AdvanceFollows(m: Mesh, x: nat, step: MeshStep, i: Id, n: Node, seed: Id, at: seq<Id>,
                       t: Id, told: bool, newId: Id)
    requires Shows(m, i, n, seed, at) && CanDo(m, step)
    requires step == Handshake(x) || step == Register(x)
    requires m.links[x].from != m.links[x].to
    ensures Shows(After(m, step), i, Following(m, step, i, n, at, t, told, newId), seed, at)
  {
    var l := m.links[x].(phase := if step.Handshake? then Ready else Joined);
    AdvancedShows(m, x, l, i, n, seed, at);
    if Ends(l, i) {
      AdvanceActs(m, x, i, n, at, t, told, newId);
    }
  }

  /** What is read of a peer, at the node that reads, at the peer and elsewhere. */
  lemma NoticeActs(m: Mesh, notice: Notice, j: Id, i: Id, n: Node, seed: Id, at: seq<Id>,
                   t: Id, told: bool, newId: Id)
    requires LinksFit(m) && CanDo(m, Handle(notice, j)) && notice.to != j
    requires Shows(m, i, n, seed, at) && newId !in n.sessions
    ensures var l := Link(notice.to, j, Connecting);
      Following(m, Handle(notice, j), i, n, at, t, told, newId)
      == if Found(m, notice.to, notice.address) || !Ends(l, i) then n
         else n.(sessions := n.sessions[newId := Own(m, l, i)])
  {
    if notice.to == i {
      HandlerDials(m, i, n, seed, at, notice.address, t, newId);
    }
  }

  lemma NoticeFollows(m: Mesh, notice: Notice, j: Id, i: Id, n: Node, seed: Id, at: seq<Id>,
                      t: Id, told: bool, newId: Id)
    requires LinksFit(m) && CanDo(m, Handle(notice, j)) && notice.to != j
    requires Shows(m, i, n, seed, at) && newId !in n.sessions
    ensures var step := Handle(notice, j);
      Shows(After(m, step), i, Following(m, step, i, n, at, t, told, newId), seed, Places(m, step, at, newId))
  {
    var k, l := After(m, Handle(notice, j)), Link(notice.to, j, Connecting);
    NoticeActs(m, notice, j, i, n, seed, at, t, told, newId);
    if Found(m, notice.to, notice.address) {
      SameShows(m, k, i, n, seed, at);
    } else {
      if Ends(l, i) {
        AddedShows(m, k, i, n, seed, at, l, newId);
      } else {
        ElsewhereShows(m, k, i, n, seed, at, l, newId);
      }
    }
  }

  /**
   * A step of the mesh, followed at a node by its own handlers, leaves the node with the sessions the mesh
   * has for it.
   */
  lemma FollowsHandlers(m: Mesh, step: MeshStep, i: Id, n: Node, seed: Id, at: seq<Id>, t: Id, told: bool, newId: Id)
    requires CanDo(m, step) && Shows(m, i, n, seed, at) && newId !in n.sessions
    requires LinksFit(m) && (step.Handle? ==> step.n.to != step.j)
    ensures
      Shows(After(m, step), i, Following(m, step, i, n, at, t, told, newId), seed, Places(m, step, at, newId))
  {
    match step
    case AtSeed(_) => SameShows(m, After(m, step), i, n, seed, at);
    case Handle(notice, j) => NoticeFollows(m, notice, j, i, n, seed, at, t, told, newId);
    case Handshake(x) =>
      assert m.links[x] in m.links;
      AdvanceFollows(m, x, step, i, n, seed, at, t, told, newId);
    case Register(x) =>
      assert m.links[x] in m.links;
      AdvanceFollows(m, x, step, i, n, seed, at, t, told, newId);
  }

  lemma NoticeIsOfAnother(m: Mesh, notice: Notice, j: Id)
    requires MeshInv(m) && CanDo(m, Handle(notice, j))
    ensures notice.to != j
  {
    MeshStepKeeps(m, Handle(notice, j));
    HandleKeeps(m, notice, j);
    var k := After(m, Handle(notice, j));
    if Found(m, notice.to, notice.address) {
      FoundMeansLinked(m, notice.to, j);
    }
    assert forall l :: l in k.links ==> l.from != l.to;
  }

  lemma SameShows(m: Mesh, k: Mesh, i: Id, n: Node, seed: Id, at: seq<Id>)
    requires Shows(m, i, n, seed, at)
    requires k.links == m.links && k.seed.address == m.seed.address && k.seedAddress == m.seedAddress
    ensures Shows(k, i, n, seed, at)
  {
    assert forall y, t :: IsEnd(k, i, at, y, t) <==> IsEnd(m, i, at, y, t);
    forall y, t | IsEnd(k, i, at, y, t)
      ensures t != seed && t in n.sessions && n.sessions[t] == Own(k, k.links[y], i)
    {
      assert IsEnd(m, i, at, y, t);
    }
    forall t | t in n.sessions && t != seed ensures exists y :: IsEnd(k, i, at, y, t) {
      var y :| IsEnd(m, i, at, y, t);
      assert IsEnd(k, i, at, y, t);
    }
    assert EndsApart(k, i, at);
  }

  /** The session a step is read on, the flag a register message carries, and the id a session would draw. */
  datatype Reading = Reading(session: Id, told: bool, newId: Id)

  /** A node, and which of its sessions are the ends of its links. */
  datatype Seat = Seat(node: Node, at: seq<Id>)

  ghost function Takes(m: Mesh, step: MeshStep, i: Id, x: Seat, r: Reading): (y: Seat)
    requires CanDo(m, step) && |x.at| == |m.links|
    ensures |y.at| == |After(m, step).links|
  {
    Seat(Following(m, step, i, x.node, x.at, r.session, r.told, r.newId), Places(m, step, x.at, r.newId))
  }

  ghost predicate AllFresh(m: Mesh, steps: seq<MeshStep>, i: Id, x: Seat, readings: seq<Reading>)
    requires Allowed(m, steps) && |readings| == |steps| && |x.at| == |m.links|
    decreases |steps|
  {
    steps == [] || (
      && readings[0].newId !in x.node.sessions
      && AllFresh(After(m, steps[0]), steps[1..], i, Takes(m, steps[0], i, x, readings[0]), readings[1..]))
  }

  /** Node i at the end of a run, its sessions made and changed by its handlers alone. */
  ghost function Followed(m: Mesh, steps: seq<MeshStep>, i: Id, x: Seat, readings: seq<Reading>): Seat
    requires Allowed(m, steps) && |readings| == |steps| && |x.at| == |m.links|
    decreases |steps|
  {
    if steps == [] then x
    else Followed(After(m, steps[0]), steps[1..], i, Takes(m, steps[0], i, x, readings[0]), readings[1..])
  }

  /** Over every run the handlers of a node keep exactly the sessions the mesh has for it. */
  lemma {:induction false} RunFollowsHandlers(m: Mesh, steps: seq<MeshStep>, i: Id, x: Seat, seed: Id,
                                              readings: seq<Reading>)
    requires MeshInv(m) && Allowed(m, steps) && Shows(m, i, x.node, seed, x.at)
    requires |readings| == |steps| && AllFresh(m, steps, i, x, readings)
    ensures var y := Followed(m, steps, i, x, readings); Shows(Evolve(m, steps), i, y.node, seed, y.at)
    decreases |steps|
  {
    if steps != [] {
      TakesFollows(m, steps[0], i, x, seed, readings[0]);
      MeshStepKeeps(m, steps[0]);
      RunFollowsHandlers(After(m, steps[0]), steps[1..], i, Takes(m, steps[0], i, x, readings[0]), seed, readings[1..]);
    }
  }

  lemma TakesFollows(m: Mesh, step: MeshStep, i: Id, x: Seat, seed: Id, r: Reading)
    requires MeshInv(m) && CanDo(m, step) && Shows(m, i, x.node, seed, x.at) && r.newId !in x.node.sessions
    ensures var y := Takes(m, step, i, x, r); Shows(After(m, step), i, y.node, seed, y.at)
  {
    if step.Handle? {
      NoticeIsOfAnother(m, step.n, step.j);
    }
    FollowsHandlers(m, step, i, x.node, seed, x.at, r.session, r.told, r.newId);
  }
}
