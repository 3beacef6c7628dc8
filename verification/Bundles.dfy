/**
 * Several links between the same two nodes, as concurrent joins can leave them. Every link carries the
 * announcer's changes on its own, with its own queue and snapshots, but the receiver has one client table:
 * the first join wins and a leave erases the client whichever link it comes on. A link may be lost, and the
 * rows the receiver learnt through it go with it.
 */
module Bundles {
  import opened Sequences
  import opened Json
  import opened Messages
  import opened Nodes
  import opened Replication

  /**
   * The links are kept by the receiver's session ids. Each link's own receiver is what that link alone
   * would have taught it; b is the receiver they really share.
   */
  datatype Bundle = Bundle(
    a: Node,
    b: Node,
    mine: iset<Id>,
    links: map<Id, Link>,
    heard: map<Id, set<Fact>>,   // facts announced by messages handled on each link
    gone: set<Id>)               // heard of on a link since lost, left unknown by that, not heard of since

  datatype Move =
    | Everywhere(step: Step)      // the announcer changes: every link sees it
    | On(s: Id, step: Step)       // something happens on one link
    | Elsewhere(step: Step)       // the receiver hears from others
    | Sever(s: Id)                // a link is lost

  predicate AtAnnouncer(step: Step) { step.Alter? || step.Collect? || step.OtherAtA? }
  predicate AtReceiver(step: Step) { step.OtherAtB? || step.LocalAtB? || step.LocalFactAtB? }

  ghost predicate CanMove(w: Bundle, m: Move) {
    match m
    case Everywhere(step) => AtAnnouncer(step) && forall s :: s in w.links ==> Enabled(w.links[s], step)
    case On(s, step) => !AtAnnouncer(step) && !AtReceiver(step) && s in w.links && Enabled(w.links[s], step)
    case Elsewhere(step) =>
      (match step
       case OtherAtB(t, msg, _) => t !in w.links && (NamesClient(msg) ==> msg.client !in w.mine)
       case LocalAtB(_, _) => true
       case LocalFactAtB(f, _) => f.ClientFact? ==> f.client !in w.mine
       case _ => false)
    case Sever(s) => s in w.links
  }

  /** The facts a message is about. */
  function About(m: Message): set<Fact> {
    match m
    case Join(c) => {ClientFact(c)}
    case Leave(c) => {ClientFact(c)}
    case Subscribe(c, ch) => {SubFact(c, ch)}
    case Unsubscribe(c, ch) => {SubFact(c, ch)}
    case _ => {}
  }

  function NowHeard(l: Link, step: Step, heard: set<Fact>): set<Fact>
    requires step.Deliver? ==> l.queue != []
  {
    if step.Deliver? then heard + About(l.queue[0]) else heard
  }

  function AnnouncerAfter(a: Node, step: Step): Node {
    match step
    case Alter(f, p) => Change(a, f, p)
    case OtherAtA(t, m, newId) => OnPeer(a, t, m, newId).node
    case _ => a
  }

  /** The clients that facts are about. */
  function ClientsOf(facts: set<Fact>): set<Id> {
    set f | f in facts && f.ClientFact? :: f.client
  }

  /** Clients heard of on link s whom the receiver does not know without it. */
  ghost function Orphans(w: Bundle, s: Id): set<Id>
    requires w.heard.Keys == w.links.Keys && s in w.links
  {
    set c | c in ClientsOf(w.heard[s]) && !Known(Purge(w.b, s), w.links.Keys - {s}, c)
  }

  ghost function Moved(w: Bundle, m: Move): Bundle
    requires CanMove(w, m) && w.heard.Keys == w.links.Keys
  {
    match m
    case Everywhere(step) =>
      w.(a := AnnouncerAfter(w.a, step), links := map s | s in w.links :: Next(w.links[s], step))
    case On(s, step) =>
      var b := if step.Deliver? then OnPeer(w.b, s, w.links[s].queue[0], step.newId).node else w.b;
      w.(b := b, links := w.links[s := Next(w.links[s], step)],
        heard := w.heard[s := NowHeard(w.links[s], step, w.heard[s])],
        gone := if step.Deliver? then w.gone - ClientsOf(About(w.links[s].queue[0])) else w.gone)
    case Elsewhere(step) =>
      w.(b := match step
         case OtherAtB(t, msg, newId) => OnPeer(w.b, t, msg, newId).node
         case LocalAtB(c, msg) => OnLocal(w.b, c, msg).node
         case LocalFactAtB(f, p) => Change(w.b, f, p)
         case _ => w.b)
    case Sever(s) =>
      w.(b := Purge(w.b, s), links := w.links - {s}, heard := w.heard - {s}, gone := w.gone + Orphans(w, s))
  }

  ghost predicate CanRun(w: Bundle, moves: seq<Move>)
    decreases |moves|
  {
    w.heard.Keys == w.links.Keys && (moves == [] || (CanMove(w, moves[0]) && CanRun(Moved(w, moves[0]), moves[1..])))
  }

  ghost function After(w: Bundle, moves: seq<Move>): Bundle
    requires CanRun(w, moves)
    decreases |moves|
  {
    if moves == [] then w else After(Moved(w, moves[0]), moves[1..])
  }

  ghost predicate Begin(w: Bundle) {
    && w.heard.Keys == w.links.Keys && w.b.id !in w.links && w.gone == {}
    && (forall s :: s in w.links ==> Initial(w.links[s]) && Fits(w, s) && w.heard[s] == {})
    && (forall r :: r in w.b.clients ==> r.id !in w.mine && r.session !in w.links)
    && (forall r :: r in w.b.subscriptions ==> r.session !in w.links)
  }

  ghost predicate Fits(w: Bundle, s: Id)
    requires s in w.links
  {
    w.links[s].a == w.a && w.links[s].s == s && w.links[s].mine == w.mine
  }

  // What the receiver has

  /** The receiver has client c under some of the links. */
  ghost predicate Known(n: Node, tags: set<Id>, c: Id) {
    exists s :: s in tags && ClientRow(c, s) in n.clients
  }

  ghost predicate OnlyAmong(n: Node, mine: iset<Id>, tags: set<Id>) {
    forall r :: r in n.clients && r.id in mine ==> r.session in tags
  }

  /** A message handled on any of the links makes a client known or unknown, whichever link it was known by. */
  lemma SharedActs(n: Node, tags: set<Id>, s: Id, mine: iset<Id>, m: Message, newId: Id)
    requires OnlyAmong(n, mine, tags) && s in tags && (NamesClient(m) ==> m.client in mine)
    ensures var after := OnPeer(n, s, m, newId).node;
      && OnlyAmong(after, mine, tags) && after.id == n.id
      && (forall c :: Known(after, tags, c) <==> if Tells(m, ClientFact(c)) then m.Join? else Known(n, tags, c))
      && (forall c, t :: ClientRow(c, t) in after.clients ==>
            if Tells(m, ClientFact(c)) then m.Join? && (t == s || ClientRow(c, t) in n.clients)
            else ClientRow(c, t) in n.clients)
      && (forall t, f: Fact :: t != s && f.SubFact? ==> (Holds(after, t, f) <==> Holds(n, t, f)))
  {
    var after := OnPeer(n, s, m, newId).node;
    PeerFrame(n, s, m, newId);
    match m
    case Join(c) =>
      assert after.clients == n.clients || after.clients == n.clients + [ClientRow(c, s)];
      assert KnowsClient(n, c) ==> Known(n, tags, c);
      assert KnowsClient(n, c) || ClientRow(c, s) in after.clients;
      forall x ensures Known(after, tags, x) <==> x == c || Known(n, tags, x) {
      }
    case Leave(c) =>
      assert forall x :: Known(after, tags, x) <==> x != c && Known(n, tags, x);
    case _ => assert after.clients == n.clients;
  }

  /** What the receiver hears from others leaves the rows under the links alone. */
  lemma OthersShare(w: Bundle, step: Step)
    requires CanMove(w, Elsewhere(step)) && w.heard.Keys == w.links.Keys
    requires OnlyAmong(w.b, w.mine, w.links.Keys) && w.b.id !in w.links
    requires forall c :: c !in w.mine ==> !Known(w.b, w.links.Keys, c)
    ensures var b := Moved(w, Elsewhere(step)).b;
      && OnlyAmong(b, w.mine, w.links.Keys) && b.id == w.b.id
      && (forall c, s :: s in w.links ==> (ClientRow(c, s) in b.clients <==> ClientRow(c, s) in w.b.clients))
      && (forall s, f: Fact :: s in w.links && f.SubFact? ==> (Holds(b, s, f) <==> Holds(w.b, s, f)))
  {
    assert forall c, s :: c !in w.mine && s in w.links ==> ClientRow(c, s) !in w.b.clients;
    match step
    case OtherAtB(t, m, newId) => PeerFrame(w.b, t, m, newId);
    case LocalAtB(c, m) => LocalFrame(w.b, c, m);
    case LocalFactAtB(f, p) =>
      if f.ClientFact? {
        forall r: ClientRow ensures r in RemoveClient(w.b, f.client).clients <==> r in w.b.clients && r.id != f.client {
          FilterMembers(NotCalled(f.client), w.b.clients, r);
        }
      } else {
        var sub := Subscription(w.b.id, f.client, f.channel);
        forall r ensures r in RemoveSubscription(w.b, sub).subscriptions <==> r in w.b.subscriptions && r != sub {
          FilterMembers(OtherThan(sub), w.b.subscriptions, r);
        }
      }
  }

  // What each link has said

  /** Nothing was said on a link before it was up, nor about what it has missed; what it taught was heard on it. */
  ghost predicate Faithful(l: Link, heard: set<Fact>) {
    && (!Up(l) ==> heard == {} && forall m :: m in l.queue ==> !Announces(m))
    && (forall f :: f in l.missed ==> f !in heard && forall m :: m in l.queue ==> !Tells(m, f))
    && (forall f :: Holds(l.b, l.s, f) ==> f in heard)
  }

  lemma FaithfulStep(l: Link, step: Step, heard: set<Fact>)
    requires Inv(l) && Enabled(l, step) && !AtReceiver(step) && Faithful(l, heard)
    ensures Faithful(Next(l, step), NowHeard(l, step, heard))
  {
    var k := Next(l, step);
    match step
    case Deliver(newId) =>
      var m := l.queue[0];
      assert m in l.queue && forall x :: x in k.queue ==> x in l.queue;
      forall f ensures f in About(m) <==> Tells(m, f) {
      }
      forall f | Holds(k.b, k.s, f) ensures f in heard + About(m) {
        HandlerActs(l.b, l.s, l.mine, m, newId, f);
      }
    case Announce(f) =>
      assert forall m :: m in k.queue ==> m in l.queue || (Due(l, f).Some? && m == Telling(f, l.pending[f].present));
    case _ =>
  }

  lemma LinkStep(l: Link, step: Step, heard: set<Fact>)
    requires Inv(l) && Enabled(l, step) && !AtReceiver(step) && Faithful(l, heard)
    ensures Inv(Next(l, step)) && Faithful(Next(l, step), NowHeard(l, step, heard))
    ensures var k := Next(l, step);
      k.s == l.s && k.mine == l.mine && (!step.Deliver? ==> k.b == l.b) && (!AtAnnouncer(step) ==> k.a == l.a)
  {
    StepKeeps(l, step);
    FaithfulStep(l, step, heard);
  }

  /** If a client is unknown it was never announced, or the last word of some link is that it left, or it is gone. */
  ghost predicate Agreed(w: Bundle, c: Id)
    requires w.heard.Keys == w.links.Keys
  {
    || Known(w.b, w.links.Keys, c)
    || c in w.gone
    || (forall s :: s in w.links ==> ClientFact(c) !in w.heard[s])
    || (exists s :: s in w.links && Denies(w, s, c))
  }

  ghost predicate Denies(w: Bundle, s: Id, c: Id)
    requires w.heard.Keys == w.links.Keys && s in w.links
  {
    ClientFact(c) in w.heard[s] && !Holds(w.links[s].b, s, ClientFact(c))
  }

  /** A row under a link is one that link alone would have taught, and who is gone is unknown. */
  ghost predicate Backed(w: Bundle) {
    && (forall s, c :: s in w.links && ClientRow(c, s) in w.b.clients ==> Holds(w.links[s].b, s, ClientFact(c)))
    && (forall c :: c in w.gone ==> !Known(w.b, w.links.Keys, c))
  }

  ghost predicate LinkGood(w: Bundle, s: Id)
    requires w.heard.Keys == w.links.Keys && s in w.links
  {
    OneLink(w.links[s], w.a, s, w.mine, w.heard[s])
  }

  ghost predicate OneLink(l: Link, a: Node, s: Id, mine: iset<Id>, heard: set<Fact>) {
    l.a == a && l.s == s && l.mine == mine && Inv(l) && Faithful(l, heard)
  }

  ghost predicate Shared(n: Node, mine: iset<Id>, tags: set<Id>) {
    && n.id !in tags && OnlyAmong(n, mine, tags)
    && (forall c :: c !in mine ==> !Known(n, tags, c))
  }

  ghost predicate SubsAgree(w: Bundle) {
    forall s, f: Fact :: s in w.links && f.SubFact? ==> (Holds(w.b, s, f) <==> Holds(w.links[s].b, s, f))
  }

  ghost predicate Good(w: Bundle) {
    && LinksGood(w.links, w.a, w.mine, w.heard)
    && Shared(w.b, w.mine, w.links.Keys)
    && SubsAgree(w) && Backed(w)
    && (forall c :: Agreed(w, c))
  }

  /** The parts of a link that matter to what is shared. */
  ghost predicate Alike(w: Bundle, k: Bundle) {
    && w.heard.Keys == w.links.Keys == k.links.Keys && k.heard == w.heard && k.mine == w.mine
    && k.gone == w.gone
    && (forall s :: s in w.links ==> k.links[s].b == w.links[s].b)
    && (forall c, s :: s in w.links ==> (ClientRow(c, s) in k.b.clients <==> ClientRow(c, s) in w.b.clients))
    && (forall s, f: Fact :: s in w.links && f.SubFact? ==> (Holds(k.b, s, f) <==> Holds(w.b, s, f)))
  }

  /** What is agreed stays so while nobody at b hears anything about these rows. */
  lemma AgreedStays(w: Bundle, k: Bundle, c: Id)
    requires Alike(w, k) && Agreed(w, c)
    ensures Agreed(k, c)
  {
    assert Known(k.b, w.links.Keys, c) <==> Known(w.b, w.links.Keys, c);
    if exists s :: s in w.links && Denies(w, s, c) {
      var s :| s in w.links && Denies(w, s, c);
      assert Denies(k, s, c);
    }
  }

  lemma LinkEverywhere(l: Link, a: Node, s: Id, mine: iset<Id>, heard: set<Fact>, step: Step)
    requires OneLink(l, a, s, mine, heard) && AtAnnouncer(step) && Enabled(l, step)
    ensures OneLink(Next(l, step), AnnouncerAfter(a, step), s, mine, heard) && Next(l, step).b == l.b
  {
    LinkStep(l, step, heard);
  }

  /** All links are in order. */
  ghost predicate LinksGood(links: map<Id, Link>, a: Node, mine: iset<Id>, heard: map<Id, set<Fact>>) {
    heard.Keys == links.Keys && forall s :: s in links ==> OneLink(links[s], a, s, mine, heard[s])
  }

  lemma EverywhereLinks(w: Bundle, k: Bundle, step: Step)
    requires LinksGood(w.links, w.a, w.mine, w.heard) && AtAnnouncer(step)
    requires forall s :: s in w.links ==> Enabled(w.links[s], step)
    requires k.links.Keys == w.links.Keys && k.heard == w.heard && k.mine == w.mine && k.a == AnnouncerAfter(w.a, step)
    requires forall s :: s in w.links ==> k.links[s] == Next(w.links[s], step)
    ensures LinksGood(k.links, k.a, k.mine, k.heard)
    ensures forall s :: s in w.links ==> k.links[s].b == w.links[s].b
  {
    forall s | s in w.links
      ensures OneLink(k.links[s], k.a, s, k.mine, k.heard[s]) && k.links[s].b == w.links[s].b
    {
      LinkEverywhere(w.links[s], w.a, s, w.mine, w.heard[s], step);
    }
  }

  lemma EverywhereAlike(w: Bundle, step: Step)
    requires w.heard.Keys == w.links.Keys && CanMove(w, Everywhere(step))
    requires forall s :: s in w.links ==> Moved(w, Everywhere(step)).links[s].b == w.links[s].b
    ensures Alike(w, Moved(w, Everywhere(step))) && Moved(w, Everywhere(step)).b == w.b
  {
  }

  lemma OnLink(w: Bundle, s: Id, step: Step, t: Id)
    requires w.heard.Keys == w.links.Keys && CanMove(w, On(s, step)) && t in w.links && LinkGood(w, s) && LinkGood(w, t)
    ensures w.links.Keys == Moved(w, On(s, step)).links.Keys == Moved(w, On(s, step)).heard.Keys
    ensures LinkGood(Moved(w, On(s, step)), t)
    ensures !step.Deliver? || t != s ==> Moved(w, On(s, step)).links[t].b == w.links[t].b
  {
    LinkStep(w.links[s], step, w.heard[s]);
  }

  lemma OnAlike(w: Bundle, s: Id, step: Step)
    requires w.heard.Keys == w.links.Keys && CanMove(w, On(s, step)) && !step.Deliver?
    requires Moved(w, On(s, step)).links[s].b == w.links[s].b
    ensures Alike(w, Moved(w, On(s, step))) && Moved(w, On(s, step)).b == w.b
  {
    var k := Moved(w, On(s, step));
    assert k.heard == w.heard;
  }

  /** The effect of a delivery on what is shared. */
  ghost predicate Taught(w: Bundle, k: Bundle, s: Id, m: Message, newId: Id) {
    && w.heard.Keys == w.links.Keys == k.links.Keys == k.heard.Keys && s in w.links && k.mine == w.mine
    && w.links[s].s == s && w.links[s].mine == w.mine
    && (NamesClient(m) ==> m.client in w.mine) && OnlyUnder(w.links[s].b, w.mine, s)
    && k.b == OnPeer(w.b, s, m, newId).node && k.links[s].b == OnPeer(w.links[s].b, s, m, newId).node
    && k.heard == w.heard[s := w.heard[s] + About(m)] && k.gone == w.gone - ClientsOf(About(m))
    && (forall t :: t in w.links && t != s ==> k.links[t].b == w.links[t].b)
  }

  lemma DeliverTaught(w: Bundle, s: Id, newId: Id)
    requires w.heard.Keys == w.links.Keys && CanMove(w, On(s, Deliver(newId))) && LinkGood(w, s)
    ensures Taught(w, Moved(w, On(s, Deliver(newId))), s, w.links[s].queue[0], newId)
  {
  }

  lemma TaughtAgrees(w: Bundle, k: Bundle, s: Id, m: Message, newId: Id, c: Id)
    requires Taught(w, k, s, m, newId) && OnlyAmong(w.b, w.mine, w.links.Keys) && Agreed(w, c)
    ensures Agreed(k, c)
  {
    var f := ClientFact(c);
    SharedActs(w.b, w.links.Keys, s, w.mine, m, newId);
    HandlerActs(w.links[s].b, s, w.mine, m, newId, f);
    assert f in About(m) <==> Tells(m, f);
    if Tells(m, f) {
      assert m.Join? || Denies(k, s, c);
    } else if exists t :: t in w.links && Denies(w, t, c) {
      var t :| t in w.links && Denies(w, t, c);
      assert Denies(k, t, c);
    }
  }

  lemma TaughtBacked(w: Bundle, k: Bundle, s: Id, m: Message, newId: Id)
    requires Taught(w, k, s, m, newId) && OnlyAmong(w.b, w.mine, w.links.Keys) && Backed(w)
    ensures Backed(k)
  {
    SharedActs(w.b, w.links.Keys, s, w.mine, m, newId);
    forall t, c | t in k.links && ClientRow(c, t) in k.b.clients ensures Holds(k.links[t].b, t, ClientFact(c)) {
      HandlerActs(w.links[s].b, s, w.mine, m, newId, ClientFact(c));
    }
    forall c | c in k.gone ensures !Known(k.b, k.links.Keys, c) {
      assert Tells(m, ClientFact(c)) ==> ClientFact(c) in About(m) && c in ClientsOf(About(m));
    }
  }

  lemma SubscriptionActs(n: Node, s: Id, m: Message, newId: Id, f: Fact)
    requires f.SubFact?
    ensures Holds(OnPeer(n, s, m, newId).node, s, f) <==> if Tells(m, f) then m == Telling(f, true) else Holds(n, s, f)
  {
    match m
    case Unsubscribe(c, ch) =>
      FilterMembers(OtherThan(Subscription(s, c, ch)), n.subscriptions, Subscription(s, f.client, f.channel));
    case _ =>
  }

  lemma TaughtSubs(w: Bundle, k: Bundle, s: Id, m: Message, newId: Id, t: Id, f: Fact)
    requires Taught(w, k, s, m, newId) && OnlyAmong(w.b, w.mine, w.links.Keys) && t in w.links && f.SubFact?
    requires Holds(w.b, t, f) <==> Holds(w.links[t].b, t, f)
    ensures Holds(k.b, t, f) <==> Holds(k.links[t].b, t, f)
  {
    SharedActs(w.b, w.links.Keys, s, w.mine, m, newId);
    if t == s {
      SubscriptionActs(w.links[s].b, s, m, newId, f);
      SubscriptionActs(w.b, s, m, newId, f);
    }
  }

  /** What b shares is in order after a delivery, */
  lemma TaughtGood(w: Bundle, k: Bundle, s: Id, m: Message, newId: Id)
    requires Taught(w, k, s, m, newId) && Shared(w.b, w.mine, w.links.Keys) && SubsAgree(w) && Backed(w)
    requires forall c :: Agreed(w, c)
    ensures Shared(k.b, k.mine, k.links.Keys) && SubsAgree(k) && Backed(k) && forall c :: Agreed(k, c)
  {
    TaughtBacked(w, k, s, m, newId);
    SharedActs(w.b, w.links.Keys, s, w.mine, m, newId);
    forall t, f: Fact | t in w.links && f.SubFact? ensures Holds(k.b, t, f) <==> Holds(k.links[t].b, t, f) {
      TaughtSubs(w, k, s, m, newId, t, f);
    }
    forall c ensures Agreed(k, c) {
      TaughtAgrees(w, k, s, m, newId, c);
    }
  }

  /** and after anything else. */
  lemma AlikeGood(w: Bundle, k: Bundle)
    requires Alike(w, k) && Shared(k.b, k.mine, k.links.Keys) && SubsAgree(w) && Backed(w)
    requires forall c :: Agreed(w, c)
    ensures SubsAgree(k) && Backed(k) && forall c :: Agreed(k, c)
  {
    forall c ensures Agreed(k, c) {
      AgreedStays(w, k, c);
    }
  }

  lemma EverywhereKeeps(w: Bundle, step: Step)
    requires Good(w) && CanMove(w, Everywhere(step))
    ensures Good(Moved(w, Everywhere(step)))
  {
    EverywhereLinks(w, Moved(w, Everywhere(step)), step);
    EverywhereAlike(w, step);
    AlikeGood(w, Moved(w, Everywhere(step)));
  }

  lemma OnKeeps(w: Bundle, s: Id, step: Step)
    requires Good(w) && CanMove(w, On(s, step))
    ensures Good(Moved(w, On(s, step)))
  {
    var k := Moved(w, On(s, step));
    forall t | t in w.links ensures k.links.Keys == w.links.Keys == k.heard.Keys && LinkGood(k, t) {
      OnLink(w, s, step, t);
    }
    OnLink(w, s, step, s);
    if step.Deliver? {
      DeliverTaught(w, s, step.newId);
      TaughtGood(w, k, s, w.links[s].queue[0], step.newId);
    } else {
      OnAlike(w, s, step);
      AlikeGood(w, k);
    }
  }

  lemma ElsewhereKeeps(w: Bundle, step: Step)
    requires Good(w) && CanMove(w, Elsewhere(step))
    ensures Good(Moved(w, Elsewhere(step)))
  {
    var k := Moved(w, Elsewhere(step));
    OthersShare(w, step);
    forall s | s in w.links ensures LinkGood(k, s) {
      assert LinkGood(w, s);
    }
    AlikeGood(w, k);
  }

  lemma MoveKeeps(w: Bundle, m: Move)
    requires Good(w) && CanMove(w, m)
    ensures Good(Moved(w, m))
  {
    match m
    case Everywhere(step) => EverywhereKeeps(w, step);
    case On(s, step) => OnKeeps(w, s, step);
    case Elsewhere(step) => ElsewhereKeeps(w, step);
    case Sever(s) => SeverKeeps(w, s);
  }

  /** The rows that stay when those of session s go. */
  lemma Purged(n: Node, s: Id)
    ensures forall c, t :: ClientRow(c, t) in Purge(n, s).clients <==> ClientRow(c, t) in n.clients && t != s
    ensures forall t, f: Fact :: t != s && f.SubFact? ==> (Holds(Purge(n, s), t, f) <==> Holds(n, t, f))
  {
    forall c, t ensures ClientRow(c, t) in Purge(n, s).clients <==> ClientRow(c, t) in n.clients && t != s {
      FilterMembers(NotLearntFrom(s), n.clients, ClientRow(c, t));
    }
    forall t, f: Fact | t != s && f.SubFact? ensures Holds(Purge(n, s), t, f) <==> Holds(n, t, f) {
      FilterMembers(NotSubFrom(s), n.subscriptions, Subscription(t, f.client, f.channel));
    }
  }

  lemma SeverAgrees(w: Bundle, s: Id, c: Id)
    requires w.heard.Keys == w.links.Keys && s in w.links && Agreed(w, c) && Backed(w)
    requires forall f :: Holds(w.links[s].b, s, f) ==> f in w.heard[s]
    ensures Moved(w, Sever(s)).heard.Keys == Moved(w, Sever(s)).links.Keys && Agreed(Moved(w, Sever(s)), c)
  {
    var k := Moved(w, Sever(s));
    Purged(w.b, s);
    assert k.links.Keys == w.links.Keys - {s} == k.heard.Keys;
    if ClientFact(c) in w.heard[s] {
      assert c in ClientsOf(w.heard[s]);
    } else if exists t :: t in w.links && Denies(w, t, c) {
      var t :| t in w.links && Denies(w, t, c);
      assert Denies(k, t, c);
    } else if Known(w.b, w.links.Keys, c) {
      var t :| t in w.links && ClientRow(c, t) in w.b.clients;
      assert t in k.links && ClientRow(c, t) in k.b.clients;
    }
  }

  lemma SeverKeeps(w: Bundle, s: Id)
    requires Good(w) && s in w.links
    ensures Good(Moved(w, Sever(s)))
  {
    var k := Moved(w, Sever(s));
    Purged(w.b, s);
    assert k.links.Keys == w.links.Keys - {s} == k.heard.Keys;
    assert OneLink(w.links[s], w.a, s, w.mine, w.heard[s]);
    forall c ensures Agreed(k, c) {
      SeverAgrees(w, s, c);
    }
  }

  lemma BeginGood(w: Bundle)
    requires Begin(w)
    ensures Good(w)
  {
    assert LinksGood(w.links, w.a, w.mine, w.heard) by {
      forall s | s in w.links ensures OneLink(w.links[s], w.a, s, w.mine, w.heard[s]) {
        BeginLink(w, s);
      }
    }
    assert forall s, c :: s in w.links ==> ClientRow(c, s) !in w.b.clients;
    assert SubsAgree(w) by {
      forall s, f: Fact | s in w.links && f.SubFact? ensures !Holds(w.b, s, f) && !Holds(w.links[s].b, s, f) {
        assert Initial(w.links[s]);
      }
    }
  }

  lemma BeginLink(w: Bundle, s: Id)
    requires Begin(w) && s in w.links
    ensures OneLink(w.links[s], w.a, s, w.mine, w.heard[s])
  {
    InitialInv(w.links[s]);
  }

  lemma {:induction false} RunGood(w: Bundle, moves: seq<Move>)
    requires Good(w) && CanRun(w, moves)
    ensures Good(After(w, moves))
    decreases |moves|
  {
    if moves != [] {
      MoveKeeps(w, moves[0]);
      RunGood(Moved(w, moves[0]), moves[1..]);
    }
  }

  // When all is drained

  ghost predicate AllDrained(w: Bundle) {
    forall s :: s in w.links ==> Drained(w.links[s])
  }

  /** Every client of a is known at b under one link or another, and no client of a's past is. */
  ghost predicate ClientsMirrored(w: Bundle) {
    forall c :: Known(w.b, w.links.Keys, c) <==> Holds(w.a, w.a.id, ClientFact(c))
  }

  ghost predicate SubsMirrored(w: Bundle, s: Id) {
    forall f: Fact :: f.SubFact? ==> (Holds(w.b, s, f) <==> Holds(w.a, w.a.id, f))
  }

  /** Some link is up and has not missed the client. */
  ghost predicate Covered(w: Bundle, c: Id) {
    exists s :: s in w.links && Up(w.links[s]) && ClientFact(c) !in w.links[s].missed
  }

  lemma LinkTaught(w: Bundle, s: Id, f: Fact)
    requires Good(w) && s in w.links && Drained(w.links[s])
    ensures Holds(w.links[s].b, s, f) <==> Up(w.links[s]) && Holds(w.a, w.a.id, f) && f !in w.links[s].missed
    ensures f in w.heard[s] ==> Up(w.links[s]) && f !in w.links[s].missed
    ensures Holds(w.links[s].b, s, f) ==> f in w.heard[s]
  {
    assert LinkGood(w, s);
    assert Replayed(w.links[s], f);
  }

  lemma KnownIff(w: Bundle, c: Id)
    requires Good(w) && AllDrained(w)
    ensures Known(w.b, w.links.Keys, c) <==> Holds(w.a, w.a.id, ClientFact(c)) && Covered(w, c) && c !in w.gone
  {
    forall s | s in w.links ensures Settled(w, s, ClientFact(c)) {
      LinkTaught(w, s, ClientFact(c));
    }
    KnownBySettled(w, c);
  }

  /** What a drained link has taught. */
  ghost predicate Settled(w: Bundle, s: Id, f: Fact)
    requires w.heard.Keys == w.links.Keys && s in w.links
  {
    var l := w.links[s];
    && (Holds(l.b, s, f) <==> Up(l) && Holds(w.a, w.a.id, f) && f !in l.missed)
    && (f in w.heard[s] ==> Up(l) && f !in l.missed)
    && (Holds(l.b, s, f) ==> f in w.heard[s])
  }

  lemma KnownBySettled(w: Bundle, c: Id)
    requires w.heard.Keys == w.links.Keys && Agreed(w, c) && Backed(w)
    requires forall s :: s in w.links ==> Settled(w, s, ClientFact(c))
    ensures Known(w.b, w.links.Keys, c) <==> Holds(w.a, w.a.id, ClientFact(c)) && Covered(w, c) && c !in w.gone
  {
    var f := ClientFact(c);
    if Known(w.b, w.links.Keys, c) {
      var s :| s in w.links && ClientRow(c, s) in w.b.clients;
      assert Settled(w, s, f);
    } else if Holds(w.a, w.a.id, f) && Covered(w, c) {
      var s :| s in w.links && Up(w.links[s]) && f !in w.links[s].missed;
      assert Settled(w, s, f) && f in w.heard[s];
      assert forall t :: t in w.links && Denies(w, t, c) ==> !Settled(w, t, f);
    }
  }

  /**
   * However many links there are and however many have been lost: once those left have drained, b's table
   * shows a's clients under their sessions taken together exactly when each of those clients was missed by
   * not all of them and was not left unknown by the loss of one without having been heard of since; and a's
   * subscriptions under each session that is up exactly when that link missed none.
   */
  lemma BundleMirrorsIff(w: Bundle, moves: seq<Move>)
    requires Begin(w) && CanRun(w, moves) && AllDrained(After(w, moves))
    ensures var k := After(w, moves);
      && (ClientsMirrored(k) <==>
            forall c :: Holds(k.a, k.a.id, ClientFact(c)) ==> Covered(k, c) && c !in k.gone)
      && (forall s :: s in k.links && Up(k.links[s]) ==>
            (SubsMirrored(k, s) <==> forall f :: f in k.links[s].missed ==> !f.SubFact?))
  {
    BeginGood(w);
    RunGood(w, moves);
    var k := After(w, moves);
    forall c
      ensures Known(k.b, k.links.Keys, c) <==> Holds(k.a, k.a.id, ClientFact(c)) && Covered(k, c) && c !in k.gone
    {
      KnownIff(k, c);
    }
    forall s | s in k.links && Up(k.links[s])
      ensures SubsMirrored(k, s) <==> forall f :: f in k.links[s].missed ==> !f.SubFact?
    {
      SubsIff(k, s);
    }
  }

  lemma SubsIff(k: Bundle, s: Id)
    requires Good(k) && s in k.links && Up(k.links[s]) && Drained(k.links[s])
    ensures SubsMirrored(k, s) <==> forall f :: f in k.links[s].missed ==> !f.SubFact?
  {
    forall f: Fact | f.SubFact? ensures Holds(k.b, s, f) <==> Holds(k.a, k.a.id, f) && f !in k.links[s].missed {
      LinkTaught(k, s, f);
    }
    assert LinkGood(k, s);
    assert forall f :: f in k.links[s].missed ==> Holds(k.a, k.a.id, f);
  }

  // After the last loss

  ghost predicate NoLoss(moves: seq<Move>) {
    forall m :: m in moves ==> !m.Sever?
  }

  /** Nobody heard of on this link is gone. */
  ghost predicate Vouches(w: Bundle, s: Id) {
    s in w.links && s in w.heard && forall c :: c in w.gone ==> ClientFact(c) !in w.heard[s]
  }

  lemma MoveVouches(w: Bundle, m: Move, s: Id)
    requires w.heard.Keys == w.links.Keys && Vouches(w, s) && CanMove(w, m) && !m.Sever?
    ensures Vouches(Moved(w, m), s)
  {
    if m.On? && m.step.Deliver? && m.s == s {
      var said := About(w.links[s].queue[0]);
      forall c | c in Moved(w, m).gone ensures ClientFact(c) !in w.heard[s] + said {
        assert ClientFact(c) in said ==> c in ClientsOf(said);
      }
    }
  }

  lemma {:induction false} RunVouches(w: Bundle, moves: seq<Move>, s: Id)
    requires CanRun(w, moves) && Vouches(w, s) && NoLoss(moves)
    ensures Vouches(After(w, moves), s)
    decreases |moves|
  {
    if moves != [] {
      assert moves[0] in moves && forall m :: m in moves[1..] ==> m in moves;
      MoveVouches(w, moves[0], s);
      RunVouches(Moved(w, moves[0]), moves[1..], s);
    }
  }

  /**
   * One link with both snapshots is enough for all clients, if it was silent when the last link was lost: at
   * the start, or taken up afresh after it. Subscriptions need snapshots on each link.
   */
  lemma BundleConverges(w: Bundle, before: seq<Move>, mid: Bundle, moves: seq<Move>, k: Bundle, s: Id)
    requires Begin(w) && CanRun(w, before) && mid == After(w, before)
    requires s in mid.links && s in mid.heard && mid.heard[s] == {}
    requires CanRun(mid, moves) && k == After(mid, moves) && NoLoss(moves)
    requires AllDrained(k) && s in k.links && k.links[s].scanned == {Clients, Subscriptions}
    ensures ClientsMirrored(k) && SubsMirrored(k, s)
  {
    BeginGood(w);
    RunGood(w, before);
    RunGood(mid, moves);
    RunVouches(mid, moves, s);
    Converges(k, s);
  }

  lemma Converges(k: Bundle, s: Id)
    requires Good(k) && AllDrained(k) && Vouches(k, s) && k.links[s].scanned == {Clients, Subscriptions}
    ensures ClientsMirrored(k) && SubsMirrored(k, s)
  {
    var l := k.links[s];
    assert LinkGood(k, s);
    assert forall f: Fact :: f.Kind() in {Clients, Subscriptions};
    assert l.missed == {} && Up(l);
    forall c ensures Known(k.b, k.links.Keys, c) <==> Holds(k.a, k.a.id, ClientFact(c)) {
      KnownIff(k, c);
      LinkTaught(k, s, ClientFact(c));
    }
    SubsIff(k, s);
  }
}
