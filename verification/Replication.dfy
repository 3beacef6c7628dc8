/**
 * One direction of a link between two nodes: how the announcer's local clients and subscriptions reach
 * the rows the receiver keeps under the link's session.
 *
 * A local change and its announcement are separate steps, a snapshot holds one table's lock while it
 * posts row after row, and everything else (other peers, other handlers, the queue) interleaves freely.
 */
module Replication {
  import opened Sequences
  import opened Json
  import opened Messages
  import opened Nodes

  datatype Kind = Clients | Subscriptions

  datatype Fact =
    | ClientFact(client: Id)
    | SubFact(client: Id, channel: Str)
  {
    function Kind(): Kind { if ClientFact? then Clients else Subscriptions }
  }

  /** A change made to the table but not yet announced; the peers to tell are listed in between. */
  datatype Pending = Pending(present: bool, collected: bool, included: bool)

  datatype Scan = Scan(kind: Kind, todo: set<Fact>)

  datatype Link = Link(
    a: Node,                     // the announcer
    b: Node,                     // the receiver
    s: Id,                       // the session b keeps for this link
    mine: iset<Id>,              // client ids drawn by a
    listed: bool,                // a's session object is in a's session map
    open: bool,                  // and its socket is open
    queue: seq<Message>,         // posted by a, not yet handled by b
    pending: map<Fact, Pending>,
    scan: Option<Scan>,
    scanned: set<Kind>,
    missed: set<Fact>)           // rows older than the link, neither changed nor scanned since

  // Facts in tables and messages

  ghost predicate Holds(n: Node, tag: Id, f: Fact) {
    match f
    case ClientFact(c) => ClientRow(c, tag) in n.clients
    case SubFact(c, ch) => Subscription(tag, c, ch) in n.subscriptions
  }

  ghost function Facts(n: Node): set<Fact> {
    (set r | r in n.clients && r.session == n.id :: ClientFact(r.id))
    + (set r | r in n.subscriptions && r.session == n.id :: SubFact(r.client, r.channel))
  }

  lemma FactsAreHeld(n: Node, f: Fact)
    ensures f in Facts(n) <==> Holds(n, n.id, f)
  {
  }

  function Telling(f: Fact, present: bool): Message {
    match f
    case ClientFact(c) => if present then Join(c) else Leave(c)
    case SubFact(c, ch) => if present then Subscribe(c, ch) else Unsubscribe(c, ch)
  }

  predicate Tells(m: Message, f: Fact) {
    m == Telling(f, true) || m == Telling(f, false)
  }

  predicate NamesClient(m: Message) {
    m.Join? || m.Leave?
  }

  predicate Announces(m: Message) {
    NamesClient(m) || m.Subscribe? || m.Unsubscribe?
  }

  /** The local change itself. */
  function Change(n: Node, f: Fact, present: bool): Node {
    match f
    case ClientFact(c) => if present then AddClient(n, ClientRow(c, n.id)) else RemoveClient(n, c)
    case SubFact(c, ch) =>
      var sub := Subscription(n.id, c, ch);
      if present then AddSubscription(n, sub) else RemoveSubscription(n, sub)
  }

  /** Clients of mine appear in n's table only under the given tag. */
  ghost predicate OnlyUnder(n: Node, mine: iset<Id>, tag: Id) {
    forall r :: r in n.clients && r.id in mine ==> r.session == tag
  }

  lemma ChangeActs(n: Node, mine: iset<Id>, f: Fact, present: bool, g: Fact)
    requires OnlyUnder(n, mine, n.id) && (f.ClientFact? ==> f.client in mine)
    ensures Holds(Change(n, f, present), n.id, g) <==> if g == f then present else Holds(n, n.id, g)
    ensures OnlyUnder(Change(n, f, present), mine, n.id)
  {
    match f
    case ClientFact(c) =>
      forall r: ClientRow ensures r in RemoveClient(n, c).clients <==> r in n.clients && r.id != c {
        FilterMembers(NotCalled(c), n.clients, r);
      }
    case SubFact(c, ch) =>
      forall r: Subscription ensures r in RemoveSubscription(n, Subscription(n.id, c, ch)).subscriptions
                                 <==> r in n.subscriptions && r != Subscription(n.id, c, ch) {
        FilterMembers(OtherThan(Subscription(n.id, c, ch)), n.subscriptions, r);
      }
  }

  /** The handlers of the receiver turn an announcement into exactly that fact under the session's tag. */
  lemma HandlerActs(n: Node, s: Id, mine: iset<Id>, m: Message, newId: Id, g: Fact)
    requires OnlyUnder(n, mine, s) && (NamesClient(m) ==> m.client in mine)
    ensures Holds(OnPeer(n, s, m, newId).node, s, g) <==> if Tells(m, g) then m == Telling(g, true) else Holds(n, s, g)
    ensures OnlyUnder(OnPeer(n, s, m, newId).node, mine, s)
  {
    match m
    case Leave(c) =>
      forall r: ClientRow ensures r in RemoveClient(n, c).clients <==> r in n.clients && r.id != c {
        FilterMembers(NotCalled(c), n.clients, r);
      }
    case Unsubscribe(c, ch) =>
      forall r: Subscription ensures r in RemoveSubscription(n, Subscription(s, c, ch)).subscriptions
                                 <==> r in n.subscriptions && r != Subscription(s, c, ch) {
        FilterMembers(OtherThan(Subscription(s, c, ch)), n.subscriptions, r);
      }
    case _ =>
  }

  /** Messages on other sessions leave these rows alone as long as client ids are not shared. */
  lemma OthersDoNot(n: Node, tag: Id, other: Id, mine: iset<Id>, m: Message, newId: Id, g: Fact)
    requires OnlyUnder(n, mine, tag) && other != tag
    requires NamesClient(m) ==> m.client !in mine
    requires Holds(n, tag, g) && g.ClientFact? ==> g.client in mine
    ensures Holds(OnPeer(n, other, m, newId).node, tag, g) <==> Holds(n, tag, g)
    ensures OnlyUnder(OnPeer(n, other, m, newId).node, mine, tag)
  {
    PeerFrame(n, other, m, newId);
    match m
    case Leave(c) =>
      forall r: ClientRow ensures r in RemoveClient(n, c).clients <==> r in n.clients && r.id != c {
        FilterMembers(NotCalled(c), n.clients, r);
      }
    case _ =>
  }

  lemma LocalsDoNot(n: Node, tag: Id, c: Id, mine: iset<Id>, m: Message, g: Fact)
    requires OnlyUnder(n, mine, tag) && tag != n.id
    ensures Holds(OnLocal(n, c, m).node, tag, g) <==> Holds(n, tag, g)
    ensures OnlyUnder(OnLocal(n, c, m).node, mine, tag)
  {
    LocalFrame(n, c, m);
  }

  // Steps

  datatype Step =
    | Alter(f: Fact, present: bool)           // the table changes, under its lock
    | Collect(f: Fact)                        // the sessions to tell are listed
    | Announce(f: Fact)                       // and told
    | List                                    // add_session
    | Open                                    // the handshake completes
    | Lock(kind: Kind)                        // a snapshot of one table begins
    | PostRow(f: Fact)
    | Unlock
    | PostOther(m: Message)                   // anything else a says on the link
    | Deliver(newId: Id)
    | OtherAtA(session: Id, m: Message, newId: Id)
    | OtherAtB(session: Id, m: Message, newId: Id)
    | LocalAtB(client: Id, m: Message)
    | LocalFactAtB(f: Fact, present: bool)

  ghost predicate Up(l: Link) { l.listed && l.open }

  ghost predicate Locked(l: Link, f: Fact) {
    l.scan.Some? && l.scan.value.kind == f.Kind()
  }

  ghost predicate Enabled(l: Link, step: Step) {
    match step
    case Alter(f, _) => f !in l.pending && !Locked(l, f) && (f.ClientFact? ==> f.client in l.mine)
    case Collect(f) => f in l.pending && !l.pending[f].collected
    case Announce(f) => f in l.pending && l.pending[f].collected
    case List => !l.listed
    case Open => !l.open
    case Lock(_) => Up(l) && l.scan == None
    case PostRow(f) => l.scan.Some? && f in l.scan.value.todo
    case Unlock => l.scan.Some? && l.scan.value.todo == {}
    case PostOther(m) => !Announces(m)
    case Deliver(_) => l.queue != []
    case OtherAtA(t, m, _) => t != l.a.id && (NamesClient(m) ==> m.client !in l.mine)
    case OtherAtB(t, m, _) => t != l.s && (NamesClient(m) ==> m.client !in l.mine)
    case LocalAtB(_, _) => true
    case LocalFactAtB(f, _) => f.ClientFact? ==> f.client !in l.mine
  }

  ghost function SetUp(l: Link): Link {
    if Up(l) then l.(missed := set f | f in Facts(l.a) && Due(l, f) == None) else l
  }

  ghost function Next(l: Link, step: Step): Link
    requires Enabled(l, step)
  {
    match step
    case Alter(f, p) =>
      l.(a := Change(l.a, f, p), pending := l.pending[f := Pending(p, false, false)], missed := l.missed - {f})
    case Collect(f) => l.(pending := l.pending[f := l.pending[f].(collected := true, included := l.listed)])
    case Announce(f) =>
      l.(pending := l.pending - {f},
         queue := l.queue + if l.pending[f].included && l.open then [Telling(f, l.pending[f].present)] else [])
    case List => SetUp(l.(listed := true))
    case Open => SetUp(l.(open := true))
    case Lock(k) => l.(scan := Some(Scan(k, set f | f in Facts(l.a) && f.Kind() == k)))
    case PostRow(f) =>
      l.(queue := l.queue + [Telling(f, true)], missed := l.missed - {f},
         scan := Some(Scan(l.scan.value.kind, l.scan.value.todo - {f})))
    case Unlock => l.(scan := None, scanned := l.scanned + {l.scan.value.kind})
    case PostOther(m) => l.(queue := l.queue + if l.open then [m] else [])
    case Deliver(newId) => l.(b := OnPeer(l.b, l.s, l.queue[0], newId).node, queue := l.queue[1..])
    case OtherAtA(t, m, newId) => l.(a := OnPeer(l.a, t, m, newId).node)
    case OtherAtB(t, m, newId) => l.(b := OnPeer(l.b, t, m, newId).node)
    case LocalAtB(c, m) => l.(b := OnLocal(l.b, c, m).node)
    case LocalFactAtB(f, p) => l.(b := Change(l.b, f, p))
  }

  /** Before the session object exists on either side, nothing of a is known at b. */
  ghost predicate Initial(l: Link) {
    && !l.listed && !l.open && l.queue == [] && l.scan == None && l.scanned == {} && l.missed == {}
    && l.s != l.b.id
    && OnlyUnder(l.a, l.mine, l.a.id) && OnlyUnder(l.b, l.mine, l.s)
    && (forall f :: !Holds(l.b, l.s, f))
    && (forall f :: Holds(l.a, l.a.id, f) && f.ClientFact? ==> f.client in l.mine)
    && (forall f :: f in l.pending ==> !l.pending[f].included && (Holds(l.a, l.a.id, f) <==> l.pending[f].present))
    && (forall f :: f in l.pending && f.ClientFact? ==> f.client in l.mine)
  }

  ghost predicate Legal(l: Link, steps: seq<Step>)
    decreases |steps|
  {
    steps == [] || (Enabled(l, steps[0]) && Legal(Next(l, steps[0]), steps[1..]))
  }

  ghost function Run(l: Link, steps: seq<Step>): Link
    requires Legal(l, steps)
    decreases |steps|
  {
    if steps == [] then l else Run(Next(l, steps[0]), steps[1..])
  }

  // The replay invariant

  /** The truth of f at b once the queue is handled. */
  ghost function Replay(now: bool, queue: seq<Message>, f: Fact): bool {
    if queue == [] then now
    else
      var m := queue[|queue| - 1];
      if Tells(m, f) then m == Telling(f, true) else Replay(now, queue[..|queue| - 1], f)
  }

  /** What a pending announcement is certain to say on this link. */
  ghost function Due(l: Link, f: Fact): Option<bool> {
    if Up(l) && f in l.pending && (l.pending[f].collected ==> l.pending[f].included)
    then Some(l.pending[f].present) else None
  }

  ghost function Expected(l: Link, f: Fact): bool {
    match Due(l, f)
    case Some(p) => p
    case None => Replay(Holds(l.b, l.s, f), l.queue, f)
  }

  ghost predicate Sane(l: Link) {
    && l.s != l.b.id
    && OnlyUnder(l.a, l.mine, l.a.id) && OnlyUnder(l.b, l.mine, l.s)
    && (forall f :: Holds(l.a, l.a.id, f) && f.ClientFact? ==> f.client in l.mine)
    && (forall f :: Holds(l.b, l.s, f) && f.ClientFact? ==> f.client in l.mine)
    && (forall i :: 0 <= i < |l.queue| && NamesClient(l.queue[i]) ==> l.queue[i].client in l.mine)
    && (forall f :: f in l.pending ==> (Holds(l.a, l.a.id, f) <==> l.pending[f].present))
    && (forall f :: f in l.pending && f.ClientFact? ==> f.client in l.mine)
    && (forall f :: f in l.pending && l.pending[f].included ==> l.listed)
  }

  ghost predicate Scanning(l: Link) {
    && (forall f :: f in l.missed ==> Holds(l.a, l.a.id, f) && Due(l, f) == None)
    && (forall f :: f in l.missed ==> f.Kind() !in l.scanned)
    && (l.scan.Some? ==> Up(l))
    && (l.scan.Some? ==> forall f :: f in l.scan.value.todo ==> Holds(l.a, l.a.id, f) && f.Kind() == l.scan.value.kind)
    && (l.scan.Some? ==> forall f :: f in l.missed && f.Kind() == l.scan.value.kind ==> f in l.scan.value.todo)
    && (!Up(l) ==> l.missed == {} && l.scanned == {})
  }

  ghost predicate Replayed(l: Link, f: Fact) {
    if Up(l) then Expected(l, f) <==> Holds(l.a, l.a.id, f) && f !in l.missed
    else !Replay(Holds(l.b, l.s, f), l.queue, f)
  }

  ghost predicate Inv(l: Link) {
    Sane(l) && Scanning(l) && forall f :: Replayed(l, f)
  }

  lemma ReplaySnoc(now: bool, q: seq<Message>, m: Message, f: Fact)
    ensures Replay(now, q + [m], f) == if Tells(m, f) then m == Telling(f, true) else Replay(now, q, f)
  {
    assert (q + [m])[..|q|] == q;
  }

  lemma {:induction false} ReplayCons(now: bool, q: seq<Message>, f: Fact)
    requires q != []
    ensures Replay(now, q, f) == Replay(if Tells(q[0], f) then q[0] == Telling(f, true) else now, q[1..], f)
  {
    var head := q[..|q| - 1];
    if head != [] {
      ReplayCons(now, head, f);
      assert q[1..][..|q[1..]| - 1] == head[1..];
    }
  }

  // Preservation, step by step

  lemma AlterKeeps(l: Link, f: Fact, present: bool)
    requires Inv(l) && Enabled(l, Alter(f, present))
    ensures Inv(Next(l, Alter(f, present)))
  {
    var k := Next(l, Alter(f, present));
    forall g ensures Holds(k.a, k.a.id, g) <==> if g == f then present else Holds(l.a, l.a.id, g) {
      ChangeActs(l.a, l.mine, f, present, g);
    }
    ChangeActs(l.a, l.mine, f, present, f);
    forall g ensures Replayed(k, g) {
      assert Replayed(l, g);
      assert g != f ==> Due(k, g) == Due(l, g);
    }
  }

  lemma CollectKeeps(l: Link, f: Fact)
    requires Inv(l) && Enabled(l, Collect(f))
    ensures Inv(Next(l, Collect(f)))
  {
    var k := Next(l, Collect(f));
    forall g ensures Replayed(k, g) && (Up(l) ==> Due(k, g) == Due(l, g)) {
      assert Replayed(l, g);
    }
  }

  lemma AnnounceKeeps(l: Link, f: Fact)
    requires Inv(l) && Enabled(l, Announce(f))
    ensures Inv(Next(l, Announce(f)))
  {
    var k := Next(l, Announce(f));
    assert l.queue + [] == l.queue;
    forall g ensures Replayed(k, g) && (g != f ==> Due(k, g) == Due(l, g)) {
      AnnounceReplays(l, f, g);
    }
    assert Scanning(k);
  }

  lemma AnnounceReplays(l: Link, f: Fact, g: Fact)
    requires Inv(l) && Enabled(l, Announce(f))
    ensures Replayed(Next(l, Announce(f)), g) && (g != f ==> Due(Next(l, Announce(f)), g) == Due(l, g))
  {
    assert Replayed(l, g);
    if l.pending[f].included && l.open {
      ReplaySnoc(Holds(l.b, l.s, g), l.queue, Telling(f, l.pending[f].present), g);
    } else {
      assert l.queue + [] == l.queue;
    }
  }

  lemma UpKeeps(l: Link, step: Step)
    requires Inv(l) && (step == List || step == Open) && Enabled(l, step)
    ensures Inv(Next(l, step))
  {
    var k := Next(l, step);
    forall g ensures Replayed(k, g) {
      assert Replayed(l, g);
      FactsAreHeld(l.a, g);
    }
    forall g | g in k.missed ensures Holds(k.a, k.a.id, g) && Due(k, g) == None {
      FactsAreHeld(l.a, g);
    }
  }

  lemma LockKeeps(l: Link, kind: Kind)
    requires Inv(l) && Enabled(l, Lock(kind))
    ensures Inv(Next(l, Lock(kind)))
  {
    var k := Next(l, Lock(kind));
    forall g ensures Replayed(k, g) && Due(k, g) == Due(l, g) {
      assert Replayed(l, g);
    }
    forall f ensures f in k.scan.value.todo <==> Holds(l.a, l.a.id, f) && f.Kind() == kind {
      FactsAreHeld(l.a, f);
    }
  }

  lemma PostRowKeeps(l: Link, f: Fact)
    requires Inv(l) && Enabled(l, PostRow(f))
    ensures Inv(Next(l, PostRow(f)))
  {
    var k := Next(l, PostRow(f));
    forall g ensures Replayed(k, g) && Due(k, g) == Due(l, g) {
      assert Replayed(l, g);
      ReplaySnoc(Holds(l.b, l.s, g), l.queue, Telling(f, true), g);
    }
  }

  lemma UnlockKeeps(l: Link)
    requires Inv(l) && Enabled(l, Unlock)
    ensures Inv(Next(l, Unlock))
  {
    var k := Next(l, Unlock);
    forall g ensures Replayed(k, g) && Due(k, g) == Due(l, g) {
      assert Replayed(l, g);
    }
  }

  lemma PostOtherKeeps(l: Link, m: Message)
    requires Inv(l) && Enabled(l, PostOther(m))
    ensures Inv(Next(l, PostOther(m)))
  {
    var k := Next(l, PostOther(m));
    forall g ensures Replayed(k, g) && Due(k, g) == Due(l, g) {
      assert Replayed(l, g);
      ReplaySnoc(Holds(l.b, l.s, g), l.queue, m, g);
      assert l.queue + [] == l.queue;
    }
  }

  lemma DeliverKeeps(l: Link, newId: Id)
    requires Inv(l) && Enabled(l, Deliver(newId))
    ensures Inv(Next(l, Deliver(newId)))
  {
    var k := Next(l, Deliver(newId));
    HandlerActs(l.b, l.s, l.mine, l.queue[0], newId, SubFact(0, NO_HOST));
    forall g ensures Replayed(k, g) && Due(k, g) == Due(l, g)
             ensures Holds(k.b, k.s, g) ==> Tells(l.queue[0], g) || Holds(l.b, l.s, g) {
      assert Replayed(l, g);
      HandlerActs(l.b, l.s, l.mine, l.queue[0], newId, g);
      ReplayCons(Holds(l.b, l.s, g), l.queue, g);
    }
    PeerKeepsId(l.b, l.s, l.queue[0], newId);
  }

  lemma PeerKeepsId(n: Node, s: Id, m: Message, newId: Id)
    ensures OnPeer(n, s, m, newId).node.id == n.id
  {
  }

  lemma OtherAtAKeeps(l: Link, t: Id, m: Message, newId: Id)
    requires Inv(l) && Enabled(l, OtherAtA(t, m, newId))
    ensures Inv(Next(l, OtherAtA(t, m, newId)))
  {
    var k := Next(l, OtherAtA(t, m, newId));
    PeerKeepsId(l.a, t, m, newId);
    OthersDoNot(l.a, l.a.id, t, l.mine, m, newId, SubFact(0, NO_HOST));
    forall g ensures Holds(k.a, k.a.id, g) <==> Holds(l.a, l.a.id, g) {
      OthersDoNot(l.a, l.a.id, t, l.mine, m, newId, g);
    }
    forall g ensures Replayed(k, g) && Due(k, g) == Due(l, g) {
      assert Replayed(l, g);
    }
  }

  lemma FactAtBDoesNot(n: Node, tag: Id, mine: iset<Id>, f: Fact, present: bool, g: Fact)
    requires OnlyUnder(n, mine, tag) && tag != n.id
    requires f.ClientFact? ==> f.client !in mine
    requires Holds(n, tag, g) && g.ClientFact? ==> g.client in mine
    ensures Holds(Change(n, f, present), tag, g) <==> Holds(n, tag, g)
    ensures OnlyUnder(Change(n, f, present), mine, tag)
  {
    match f
    case ClientFact(c) =>
      forall r: ClientRow ensures r in RemoveClient(n, c).clients <==> r in n.clients && r.id != c {
        FilterMembers(NotCalled(c), n.clients, r);
      }
    case SubFact(c, ch) =>
      forall r: Subscription ensures r in RemoveSubscription(n, Subscription(n.id, c, ch)).subscriptions
                                 <==> r in n.subscriptions && r != Subscription(n.id, c, ch) {
        FilterMembers(OtherThan(Subscription(n.id, c, ch)), n.subscriptions, r);
      }
  }

  lemma AtBKeeps(l: Link, step: Step)
    requires Inv(l) && (step.OtherAtB? || step.LocalAtB? || step.LocalFactAtB?) && Enabled(l, step)
    ensures Inv(Next(l, step))
  {
    var k := Next(l, step);
    forall g: Fact ensures (Holds(k.b, k.s, g) <==> Holds(l.b, l.s, g)) && OnlyUnder(k.b, k.mine, k.s) {
      match step
      case OtherAtB(t, m, newId) => OthersDoNot(l.b, l.s, t, l.mine, m, newId, g);
      case LocalAtB(c, m) => LocalsDoNot(l.b, l.s, c, l.mine, m, g);
      case LocalFactAtB(f, p) => FactAtBDoesNot(l.b, l.s, l.mine, f, p, g);
    }
    assert Holds(k.b, k.s, SubFact(0, NO_HOST)) <==> Holds(l.b, l.s, SubFact(0, NO_HOST));
    forall g ensures Replayed(k, g) && Due(k, g) == Due(l, g) {
      assert Replayed(l, g);
    }
  }

  lemma StepKeeps(l: Link, step: Step)
    requires Inv(l) && Enabled(l, step)
    ensures Inv(Next(l, step))
  {
    match step
    case Alter(f, p) => AlterKeeps(l, f, p);
    case Collect(f) => CollectKeeps(l, f);
    case Announce(f) => AnnounceKeeps(l, f);
    case List => UpKeeps(l, step);
    case Open => UpKeeps(l, step);
    case Lock(kind) => LockKeeps(l, kind);
    case PostRow(f) => PostRowKeeps(l, f);
    case Unlock => UnlockKeeps(l);
    case PostOther(m) => PostOtherKeeps(l, m);
    case Deliver(newId) => DeliverKeeps(l, newId);
    case OtherAtA(t, m, newId) => OtherAtAKeeps(l, t, m, newId);
    case _ => AtBKeeps(l, step);
  }

  lemma InitialInv(l: Link)
    requires Initial(l)
    ensures Inv(l)
  {
    forall f ensures Replayed(l, f) {
      assert !Holds(l.b, l.s, f);
    }
  }

  lemma {:induction false} RunKeeps(l: Link, steps: seq<Step>)
    requires Inv(l) && Legal(l, steps)
    ensures Inv(Run(l, steps))
    decreases |steps|
  {
    if steps != [] {
      StepKeeps(l, steps[0]);
      RunKeeps(Next(l, steps[0]), steps[1..]);
    }
  }

  // What has been learnt about the two nodes

  /** Everything posted has been handled and every change announced. */
  ghost predicate Drained(l: Link) {
    l.queue == [] && l.pending == map[]
  }

  ghost predicate Mirrors(l: Link) {
    forall f :: Holds(l.b, l.s, f) <==> Holds(l.a, l.a.id, f)
  }

  /**
   * In every reachable state with the link up, replaying over b's rows what is queued and what is still
   * to be announced gives a's local rows less the missed ones.
   */
  lemma ReplayInvariant(l: Link, steps: seq<Step>, f: Fact)
    requires Initial(l) && Legal(l, steps) && Up(Run(l, steps))
    ensures var k := Run(l, steps); Expected(k, f) <==> Holds(k.a, k.a.id, f) && f !in k.missed
  {
    InitialInv(l);
    RunKeeps(l, steps);
    assert Replayed(Run(l, steps), f);
  }

  /** Hence in a drained state the two agree exactly when no missed row is left. */
  lemma MirrorsIffNothingMissed(l: Link, steps: seq<Step>)
    requires Initial(l) && Legal(l, steps)
    requires Up(Run(l, steps)) && Drained(Run(l, steps))
    ensures Mirrors(Run(l, steps)) <==> Run(l, steps).missed == {}
  {
    var k := Run(l, steps);
    InitialInv(l);
    RunKeeps(l, steps);
    forall f ensures Holds(k.b, k.s, f) <==> Holds(k.a, k.a.id, f) && f !in k.missed {
      ReplayInvariant(l, steps, f);
    }
    if k.missed != {} {
      var f :| f in k.missed;
      assert Holds(k.a, k.a.id, f);
    }
  }

  /**
   * Acceptor to connector: once the two snapshots have been taken, whatever else ran in between and
   * runs afterwards, every drained state mirrors the acceptor.
   */
  lemma SnapshotConverges(l: Link, steps: seq<Step>)
    requires Initial(l) && Legal(l, steps)
    requires Run(l, steps).scanned == {Clients, Subscriptions} && Drained(Run(l, steps))
    ensures Mirrors(Run(l, steps))
  {
    InitialInv(l);
    RunKeeps(l, steps);
    assert forall f: Fact :: f.Kind() in {Clients, Subscriptions};
    assert Run(l, steps).missed == {};
    MirrorsIffNothingMissed(l, steps);
  }

  // Without snapshots

  /** Facts changed at a by these steps. */
  function Altered(steps: seq<Step>): set<Fact> {
    set step | step in steps && step.Alter? :: step.f
  }

  ghost predicate NoSnapshot(steps: seq<Step>) {
    forall step :: step in steps ==> !step.PostRow?
  }

  lemma {:induction false} MissedUntilAltered(l: Link, steps: seq<Step>)
    requires Inv(l) && Up(l) && Legal(l, steps) && NoSnapshot(steps)
    ensures Up(Run(l, steps)) && Run(l, steps).missed == l.missed - Altered(steps)
    decreases |steps|
  {
    if steps != [] {
      assert steps[0] in steps && forall step :: step in steps[1..] ==> step in steps;
      StepKeeps(l, steps[0]);
      MissedUntilAltered(Next(l, steps[0]), steps[1..]);
      assert Altered(steps) == Altered([steps[0]]) + Altered(steps[1..]) by {
        assert steps == [steps[0]] + steps[1..];
      }
    }
  }

  lemma {:induction false} RunAppend(l: Link, xs: seq<Step>, ys: seq<Step>)
    requires Legal(l, xs) && Legal(Run(l, xs), ys)
    ensures Legal(l, xs + ys) && Run(l, xs + ys) == Run(Run(l, xs), ys)
    decreases |xs|
  {
    if xs == [] {
      assert xs + ys == ys;
    } else {
      assert (xs + ys)[0] == xs[0] && (xs + ys)[1..] == xs[1..] + ys;
      RunAppend(Next(l, xs[0]), xs[1..], ys);
    }
  }

  /** A local row that nobody is going to announce on this link. */
  ghost predicate Unannounced(l: Link, f: Fact) {
    Holds(l.a, l.a.id, f) && Due(l, f) == None
  }

  /**
   * Connector to acceptor, where no snapshot is ever taken: a drained state mirrors the connector exactly
   * when every row that was unannounced at the moment the link came up has been changed since. In
   * particular it does if there was none.
   */
  lemma ConnectorConverges(l: Link, before: seq<Step>, rise: Step, after: seq<Step>)
    requires Initial(l) && Legal(l, before) && !Up(Run(l, before))
    requires Enabled(Run(l, before), rise) && Up(Next(Run(l, before), rise))
    requires Legal(Next(Run(l, before), rise), after) && NoSnapshot(after)
    requires Drained(Run(Next(Run(l, before), rise), after))
    ensures var k := Next(Run(l, before), rise);
      Mirrors(Run(k, after)) <==> forall f :: Unannounced(k, f) ==> f in Altered(after)
  {
    var k0 := Run(l, before);
    var k := Next(k0, rise);
    InitialInv(l);
    RunKeeps(l, before);
    StepKeeps(k0, rise);
    forall f ensures f in k.missed <==> Unannounced(k, f) {
      FactsAreHeld(k.a, f);
    }
    MissedUntilAltered(k, after);
    RunAppend(l, before, [rise] + after);
    MirrorsIffNothingMissed(l, before + ([rise] + after));
  }

  /** With nothing to announce when the socket opens, being listed first is what makes the connector's rows known. */
  lemma EmptyWhenOpened(l: Link, before: seq<Step>, after: seq<Step>)
    requires Initial(l) && Legal(l, before) && Run(l, before).listed && !Run(l, before).open
    requires Facts(Run(l, before).a) == {}
    requires Legal(Next(Run(l, before), Open), after) && NoSnapshot(after)
    requires Drained(Run(Next(Run(l, before), Open), after))
    ensures Mirrors(Run(Next(Run(l, before), Open), after))
  {
    var k := Next(Run(l, before), Open);
    ConnectorConverges(l, before, Open, after);
    forall f ensures !Unannounced(k, f) {
      FactsAreHeld(k.a, f);
    }
  }

  /** Listed late, it can miss a client accepted after the socket opened, when it had none. */
  lemma LateListMisses(a: Node, b: Node)
    requires a.clients == b.clients == [] && a.subscriptions == b.subscriptions == [] && b.id != 7
    ensures var c := ClientFact(5);
      var l := Link(a, b, 7, iset{5}, false, false, [], map[], None, {}, {});
      var steps := [Open] + ([Alter(c, true)] + ([Collect(c)] + ([Announce(c)] + [List])));
      Initial(l) && Legal(l, steps) && Up(Run(l, steps)) && Drained(Run(l, steps)) && !Mirrors(Run(l, steps))
  {
    var c := ClientFact(5);
    var l := Link(a, b, 7, iset{5}, false, false, [], map[], None, {}, {});
    var l1 := Next(l, Open);
    var l2 := Next(l1, Alter(c, true));
    var l3 := Next(l2, Collect(c));
    var l4 := Next(l3, Announce(c));
    var l5 := Next(l4, List);
    assert l4.pending == map[];
    assert [List] + [] == [List];
    RunCons(l4, List, []);
    RunCons(l3, Announce(c), [List]);
    RunCons(l2, Collect(c), [Announce(c)] + [List]);
    RunCons(l1, Alter(c, true), [Collect(c)] + ([Announce(c)] + [List]));
    RunCons(l, Open, [Alter(c, true)] + ([Collect(c)] + ([Announce(c)] + [List])));
    assert Holds(l5.a, l5.a.id, c) && !Holds(l5.b, l5.s, c);
  }

  lemma RunCons(l: Link, step: Step, rest: seq<Step>)
    requires Enabled(l, step) && Legal(Next(l, step), rest)
    ensures Legal(l, [step] + rest) && Run(l, [step] + rest) == Run(Next(l, step), rest)
  {
    assert ([step] + rest)[1..] == rest;
  }

  /** Such a row exists: a client accepted and announced before the socket opens stays unknown. */
  lemma LateLinkMisses(a: Node, b: Node)
    requires a.clients == b.clients == [] && a.subscriptions == b.subscriptions == [] && b.id != 7
    ensures var c := ClientFact(5);
      var l := Link(a, b, 7, iset{5}, false, false, [], map[], None, {}, {});
      var steps := [List] + ([Alter(c, true)] + ([Collect(c)] + ([Announce(c)] + [Open])));
      Initial(l) && Legal(l, steps) && Up(Run(l, steps)) && Drained(Run(l, steps)) && !Mirrors(Run(l, steps))
  {
    var c := ClientFact(5);
    var l := Link(a, b, 7, iset{5}, false, false, [], map[], None, {}, {});
    var l1 := Next(l, List);
    var l2 := Next(l1, Alter(c, true));
    var l3 := Next(l2, Collect(c));
    var l4 := Next(l3, Announce(c));
    var l5 := Next(l4, Open);
    assert l4.pending == map[];
    assert [Open] + [] == [Open];
    RunCons(l4, Open, []);
    RunCons(l3, Announce(c), [Open]);
    RunCons(l2, Collect(c), [Announce(c)] + [Open]);
    RunCons(l1, Alter(c, true), [Collect(c)] + ([Announce(c)] + [Open]));
    RunCons(l, List, [Alter(c, true)] + ([Collect(c)] + ([Announce(c)] + [Open])));
    assert Holds(l5.a, l5.a.id, c) && !Holds(l5.b, l5.s, c);
  }
}
