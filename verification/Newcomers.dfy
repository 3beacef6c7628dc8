/**
 * Being new to the cluster. A node reads its registered flag in one access and sets it in another, and
 * handshakes of several of its sessions may interleave between the two; still it says at most once that it
 * is new, and is told of the other peers at most once.
 */
module Newcomers {
  import opened Sequences
  import opened Json
  import opened Messages
  import opened Nodes
  import opened Clusters
  import opened Cascades

  function DialsOf(n: Id): Dialing -> bool { (d: Dialing) => d.at.node == n }
  function AcceptingOf(n: Id): Accepting -> bool { (a: Accepting) => a.at.node == n }

  /** About to say that its node is new. */
  function Claiming(n: Id): Accepting -> bool {
    (a: Accepting) => a.at.node == n && !a.stage.Entered? && !a.stage.before
  }

  /** Connections of n whose register message is still to come. */
  ghost function Beginnings(c: Cluster, n: Id): nat {
    Count(DialsOf(n), c.dials) + Count(AcceptingOf(n), c.accepting)
  }

  /** A node whose flag is not set has at most the one connection it made when it started. */
  ghost predicate Bootstrapped(c: Cluster) {
    && c.registered <= c.started
    && (forall a :: a in c.accepting && a.stage.Loaded? ==> (a.stage.before <==> a.at.node in c.registered))
    && (forall n :: n !in c.registered ==> Beginnings(c, n) <= if n in c.started then 1 else 0)
  }

  // Every step keeps it

  lemma DeliverBootstrapped(c: Cluster, i: nat, newId: Id)
    requires Announced(c) && Bootstrapped(c) && Enabled(c, Deliver(i, newId))
    ensures Bootstrapped(Delivered(c, i, newId))
  {
    var p := c.flight[i];
    var o := OnPeer(c.nodes[p.to.node], p.to.session, p.msg, newId);
    assert p in c.flight;
    assert o.effects.dial != None ==> p.msg.Session?;
    forall n | n !in c.registered ensures Beginnings(Delivered(c, i, newId), n) == Beginnings(c, n) {
      CountAppend(DialsOf(n), c.dials, NewDials(p.to.node, o.effects.dial));
      CountNone(DialsOf(n), NewDials(p.to.node, o.effects.dial));
    }
  }

  lemma ConnectBootstrapped(c: Cluster, i: nat, target: Id, remote: Id)
    requires Bootstrapped(c) && Enabled(c, Connect(i, target, remote))
    ensures Bootstrapped(Connected(c, i, target, remote))
  {
    forall n ensures Beginnings(Connected(c, i, target, remote), n) == Beginnings(c, n) {
      CountWithout(DialsOf(n), c.dials, i);
      CountSnoc(AcceptingOf(n), c.accepting, Accepting(c.dials[i].at, Entered));
    }
  }

  lemma LoadBootstrapped(c: Cluster, i: nat)
    requires Bootstrapped(c) && Enabled(c, Load(i))
    ensures Bootstrapped(Next(c, Load(i)))
  {
    var k := Next(c, Load(i));
    forall n ensures Beginnings(k, n) == Beginnings(c, n) {
      CountUpdate(AcceptingOf(n), c.accepting, i, k.accepting[i]);
    }
    forall a | a in k.accepting ensures a in c.accepting || a == k.accepting[i] {
    }
  }

  lemma StoreBootstrapped(c: Cluster, i: nat)
    requires Bootstrapped(c) && Enabled(c, Store(i))
    ensures Bootstrapped(Next(c, Store(i)))
  {
    var k := Next(c, Store(i));
    var me := c.accepting[i].at.node;
    forall n ensures Beginnings(k, n) == Beginnings(c, n) {
      CountUpdate(AcceptingOf(n), c.accepting, i, k.accepting[i]);
    }
    CountNone(AcceptingOf(me), c.accepting);
    assert c.accepting[i] in c.accepting && AcceptingOf(me)(c.accepting[i]);
    assert me in c.started;
    forall j | 0 <= j < |k.accepting| && k.accepting[j].stage.Loaded?
      ensures k.accepting[j].stage.before <==> k.accepting[j].at.node in k.registered
    {
      assert j != i && k.accepting[j] in c.accepting;
      if me !in c.registered && k.accepting[j].at.node == me {
        CountTwo(AcceptingOf(me), c.accepting, if i < j then i else j, if i < j then j else i);
      }
    }
  }

  lemma SayBootstrapped(c: Cluster, i: nat)
    requires Bootstrapped(c) && Enabled(c, Say(i))
    ensures Bootstrapped(Said(c, i))
  {
    forall n ensures Beginnings(Said(c, i), n) <= Beginnings(c, n) {
      CountWithout(AcceptingOf(n), c.accepting, i);
    }
    forall a | a in Without(c.accepting, i) ensures a in c.accepting {
      WithoutMembers(c.accepting, i, a);
    }
  }

  lemma StartBootstrapped(c: Cluster, n: Id, newId: Id, p: Address)
    requires Bootstrapped(c) && Enabled(c, Start(n, newId, p))
    ensures Bootstrapped(Next(c, Start(n, newId, p)))
  {
    forall x ensures Beginnings(Next(c, Start(n, newId, p)), x) == Beginnings(c, x) + if x == n then 1 else 0 {
      CountSnoc(DialsOf(x), c.dials, Dialing(End(n, newId), p.host, p.sessionsPort));
    }
  }

  lemma StepBootstrapped(c: Cluster, step: Step)
    requires Announced(c) && Bootstrapped(c) && Enabled(c, step)
    ensures Bootstrapped(Next(c, step))
  {
    match step
    case Deliver(i, newId) => DeliverBootstrapped(c, i, newId);
    case Connect(i, target, remote) => ConnectBootstrapped(c, i, target, remote);
    case Load(i) => LoadBootstrapped(c, i);
    case Store(i) => StoreBootstrapped(c, i);
    case Say(i) => SayBootstrapped(c, i);
    case Start(n, newId, p) => StartBootstrapped(c, n, newId, p);
    case _ => assert forall n :: Beginnings(Next(c, step), n) == Beginnings(c, n);
  }

  // Saying so once

  /** The step sends a register message of n that says it is new. */
  ghost predicate SaysNew(c: Cluster, step: Step, n: Id)
    requires Enabled(c, step)
  {
    step.Say? && c.accepting[step.i].at.node == n && !Registration(c, c.accepting[step.i]).registered
  }

  /** How often n may still say so. */
  ghost function Chances(c: Cluster, n: Id): nat {
    if n !in c.registered then 1 else Count(Claiming(n), c.accepting)
  }

  lemma StoreSpends(c: Cluster, i: nat, n: Id)
    requires Bootstrapped(c) && Enabled(c, Store(i))
    ensures Chances(Next(c, Store(i)), n) <= Chances(c, n)
  {
    var k := Next(c, Store(i));
    CountUpdate(Claiming(n), c.accepting, i, k.accepting[i]);
    if n !in c.registered && n in k.registered {
      CountUpdate(AcceptingOf(n), c.accepting, i, k.accepting[i]);
      CountImplies(Claiming(n), AcceptingOf(n), k.accepting);
    }
  }

  lemma StepSpends(c: Cluster, step: Step, n: Id)
    requires Announced(c) && Bootstrapped(c) && Enabled(c, step)
    ensures Chances(Next(c, step), n) + (if SaysNew(c, step, n) then 1 else 0) <= Chances(c, n)
  {
    match step
    case Connect(i, _, _) => CountSnoc(Claiming(n), c.accepting, Accepting(c.dials[i].at, Entered));
    case Load(i) => CountUpdate(Claiming(n), c.accepting, i, Next(c, step).accepting[i]);
    case Store(i) => StoreSpends(c, i, n);
    case Say(i) =>
      CountWithout(Claiming(n), c.accepting, i);
      assert c.accepting[i] in c.accepting;
    case _ =>
  }

  ghost function TimesNew(c: Cluster, steps: seq<Step>, n: Id): nat
    requires Legal(c, steps)
    decreases |steps|
  {
    if steps == [] then 0
    else (if SaysNew(c, steps[0], n) then 1 else 0) + TimesNew(Next(c, steps[0]), steps[1..], n)
  }

  lemma {:induction false} ChancesSpent(c: Cluster, steps: seq<Step>, n: Id)
    requires Wired(c) && Announced(c) && Bootstrapped(c) && Legal(c, steps)
    ensures TimesNew(c, steps, n) <= Chances(c, n)
    decreases |steps|
  {
    if steps != [] {
      StepWired(c, steps[0]);
      StepAnnounced(c, steps[0]);
      StepBootstrapped(c, steps[0]);
      StepSpends(c, steps[0], n);
      ChancesSpent(Next(c, steps[0]), steps[1..], n);
    }
  }

  /** In every run each node says at most once that it is new, although reading and setting its flag are apart. */
  lemma NewcomerOnce(start: Cluster, steps: seq<Step>, n: Id)
    requires Fresh(start) && Legal(start, steps)
    ensures TimesNew(start, steps, n) <= 1
  {
    FreshWired(start);
    ChancesSpent(start, steps, n);
  }

  // One list of peers

  /** Handling the packet sends n the address of some other peer. */
  ghost predicate Lists(c: Cluster, step: Step, n: Id)
    requires Enabled(c, step)
  {
    step.Deliver? &&
    var p := c.flight[step.i];
    exists post :: post in OnPeer(c.nodes[p.to.node], p.to.session, p.msg, step.newId).effects.posts
      && post.msg.Session? && End(p.to.node, post.session) in c.wire && c.wire[End(p.to.node, post.session)].node == n
  }

  /** A register message of n on its way that says n is new. */
  ghost function Claim(wire: map<End, End>, n: Id): Packet -> bool {
    (p: Packet) => p.to in wire && wire[p.to].node == n && p.msg.Register? && !p.msg.registered
  }

  /** How many lists n may still be sent. */
  ghost function Prospects(c: Cluster, n: Id): nat {
    Chances(c, n) + Count(Claim(c.wire, n), c.flight)
  }

  lemma ListsAnswerClaims(c: Cluster, step: Step, n: Id)
    requires Enabled(c, step) && Lists(c, step, n)
    ensures Claim(c.wire, n)(c.flight[step.i])
  {
    var p := c.flight[step.i];
    var post :| post in OnPeer(c.nodes[p.to.node], p.to.session, p.msg, step.newId).effects.posts
      && post.msg.Session? && End(p.to.node, post.session) in c.wire && c.wire[End(p.to.node, post.session)].node == n;
    PeerPosts(c.nodes[p.to.node], p.to.session, p.msg, step.newId, post);
    assert End(p.to.node, post.session) == p.to;
  }

  lemma DeliverClaims(c: Cluster, i: nat, newId: Id, n: Id)
    requires Enabled(c, Deliver(i, newId))
    ensures Count(Claim(c.wire, n), Delivered(c, i, newId).flight) + (if Claim(c.wire, n)(c.flight[i]) then 1 else 0)
         == Count(Claim(c.wire, n), c.flight)
  {
    var p := c.flight[i];
    var o := OnPeer(c.nodes[p.to.node], p.to.session, p.msg, newId);
    var more := Packets(c.wire, p.to.node, o.effects.posts) + AckPackets(c.wire, p.to, o.effects.reply);
    forall q | q in more ensures !q.msg.Register? {
      if q in Packets(c.wire, p.to.node, o.effects.posts) {
        PacketsFrom(c.wire, p.to.node, o.effects.posts, q);
        var post :| post in o.effects.posts && q.msg == post.msg;
        PeerPosts(c.nodes[p.to.node], p.to.session, p.msg, newId, post);
      }
    }
    CountNone(Claim(c.wire, n), more);
    CountAppend(Claim(c.wire, n), Without(c.flight, i), more);
    CountWithout(Claim(c.wire, n), c.flight, i);
  }

  lemma ConnectClaims(c: Cluster, i: nat, target: Id, remote: Id, n: Id)
    requires Wired(c) && Enabled(c, Connect(i, target, remote))
    ensures Count(Claim(Connected(c, i, target, remote).wire, n), c.flight) == Count(Claim(c.wire, n), c.flight)
  {
    assert c.dials[i] in c.dials;
    CountExt(Claim(Connected(c, i, target, remote).wire, n), Claim(c.wire, n), c.flight);
  }

  /** What the outside world makes a node say is never that it is new. */
  lemma OutsideClaims(c: Cluster, step: Step, n: Id)
    requires Enabled(c, step) && (step.Request? || step.Accept? || step.Close?)
    ensures Count(Claim(c.wire, n), Next(c, step).flight) == Count(Claim(c.wire, n), c.flight)
  {
    var more := Next(c, step).flight[|c.flight|..];
    assert Next(c, step).flight == c.flight + more;
    forall q | q in more ensures !q.msg.Register? {
      match step
      case Request(o, x, m) =>
        PacketsFrom(c.wire, o, OnLocal(c.nodes[o], x, m).effects.posts, q);
        var p :| p in OnLocal(c.nodes[o], x, m).effects.posts && q.msg == p.msg;
        LocalPosts(c.nodes[o], x, m, p);
      case Accept(o, x) =>
        FanoutQuiet(Arrive(c.nodes[o], x).node, Join(x));
        AnnouncedPosts(c, o, Arrive(c.nodes[o], x).effects.posts, q);
      case Close(o, x) =>
        FanoutQuiet(Depart(c.nodes[o], x).node, Leave(x));
        AnnouncedPosts(c, o, Depart(c.nodes[o], x).effects.posts, q);
    }
    CountNone(Claim(c.wire, n), more);
    CountAppend(Claim(c.wire, n), c.flight, more);
  }

  lemma StepLists(c: Cluster, step: Step, n: Id)
    requires Wired(c) && Announced(c) && Bootstrapped(c) && Enabled(c, step)
    ensures Prospects(Next(c, step), n) + (if Lists(c, step, n) then 1 else 0) <= Prospects(c, n)
  {
    StepSpends(c, step, n);
    match step
    case Lose(i) => CountWithout(Claim(c.wire, n), c.flight, i);
    case Deliver(i, newId) =>
      DeliverClaims(c, i, newId, n);
      if Lists(c, step, n) {
        ListsAnswerClaims(c, step, n);
      }
    case Connect(i, target, remote) => ConnectClaims(c, i, target, remote, n);
    case Say(i) =>
      assert c.accepting[i] in c.accepting;
      CountSnoc(Claim(c.wire, n), c.flight, Packet(c.wire[c.accepting[i].at], Registration(c, c.accepting[i])));
    case Request(_, _, _) => OutsideClaims(c, step, n);
    case Accept(_, _) => OutsideClaims(c, step, n);
    case Close(_, _) => OutsideClaims(c, step, n);
    case _ =>
  }

  ghost function TimesListed(c: Cluster, steps: seq<Step>, n: Id): nat
    requires Legal(c, steps)
    decreases |steps|
  {
    if steps == [] then 0
    else (if Lists(c, steps[0], n) then 1 else 0) + TimesListed(Next(c, steps[0]), steps[1..], n)
  }

  lemma {:induction false} ProspectsSpent(c: Cluster, steps: seq<Step>, n: Id)
    requires Wired(c) && Announced(c) && Bootstrapped(c) && Legal(c, steps)
    ensures TimesListed(c, steps, n) <= Prospects(c, n)
    decreases |steps|
  {
    if steps != [] {
      StepWired(c, steps[0]);
      StepAnnounced(c, steps[0]);
      StepBootstrapped(c, steps[0]);
      StepLists(c, steps[0], n);
      ProspectsSpent(Next(c, steps[0]), steps[1..], n);
    }
  }

  /** In every run each node is sent a list of peers at most once, by one other node in answer to one message. */
  lemma ListedOnce(start: Cluster, steps: seq<Step>, n: Id)
    requires Fresh(start) && Legal(start, steps)
    ensures TimesListed(start, steps, n) <= 1
  {
    FreshWired(start);
    ProspectsSpent(start, steps, n);
  }
}
