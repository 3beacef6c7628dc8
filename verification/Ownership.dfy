/**
 * Who owns the rows of a node's tables. Session objects are created, enlisted, heard, delisted and
 * destroyed; the rows learnt through one of them last as long as it does and no longer.
 */
module Ownership {
  import opened Sequences
  import opened Json
  import opened Messages
  import opened Nodes

  datatype World = World(
    node: Node,
    alive: set<Id>,      // session objects not yet destroyed
    dying: set<Id>,      // those whose destructor has purged the client table already
    dead: set<Id>)

  datatype Event =
    | Create(s: Id)                          // a session object comes into being
    | Enlist(s: Id, p: Peer)                 // add_session
    | Hear(s: Id, m: Message, newId: Id)     // a session handles any message whatever
    | Ask(c: Id, m: Message)                 // so does a client
    | Arrive(c: Id)
    | Depart(c: Id)
    | Delist(s: Id)                          // remove_session
    | DestroyFirst(s: Id)                    // the destructor: the client table,
    | DestroySecond(s: Id)                   // then the subscription table

  predicate Unused(w: World, s: Id) {
    s != w.node.id && s !in w.alive && s !in w.dead
  }

  predicate Enabled(w: World, e: Event) {
    match e
    case Create(s) => Unused(w, s)
    case Enlist(s, _) => s in w.alive && s !in w.dying
    case Hear(s, _, newId) => s in w.alive && s !in w.dying && Unused(w, newId)
    case Ask(_, _) => true
    case Arrive(_) => true
    case Depart(_) => true
    case Delist(_) => true
    case DestroyFirst(s) => s in w.alive && s !in w.dying && s !in w.node.sessions
    case DestroySecond(s) => s in w.dying
  }

  function Next(w: World, e: Event): World
    requires Enabled(w, e)
  {
    match e
    case Create(s) => w.(alive := w.alive + {s})
    case Enlist(s, p) => w.(node := AddSession(w.node, s, p))
    case Hear(s, m, newId) =>
      var o := OnPeer(w.node, s, m, newId);
      w.(node := o.node, alive := w.alive + if o.effects.dial.Some? then {newId} else {})
    case Ask(c, m) => w.(node := OnLocal(w.node, c, m).node)
    case Arrive(c) => w.(node := AddClient(w.node, ClientRow(c, w.node.id)))
    case Depart(c) => w.(node := RemoveClient(w.node, c))
    case Delist(s) => w.(node := RemoveSession(w.node, s))
    case DestroyFirst(s) => w.(node := PurgeClients(w.node, s), dying := w.dying + {s})
    case DestroySecond(s) =>
      w.(node := PurgeSubscriptions(w.node, s), alive := w.alive - {s}, dying := w.dying - {s}, dead := w.dead + {s})
  }

  predicate Legal(w: World, events: seq<Event>)
    decreases |events|
  {
    events == [] || (Enabled(w, events[0]) && Legal(Next(w, events[0]), events[1..]))
  }

  function Run(w: World, events: seq<Event>): World
    requires Legal(w, events)
    decreases |events|
  {
    if events == [] then w else Run(Next(w, events[0]), events[1..])
  }

  predicate Start(w: World) {
    w.node == Node(w.node.id, map[], [], []) && w.alive == {} && w.dying == {} && w.dead == {}
  }

  /** Every row belongs to the node itself or to a living session object that may still have such rows. */
  ghost predicate Owned(w: World) {
    && (forall r :: r in w.node.clients ==> r.session == w.node.id || (r.session in w.alive && r.session !in w.dying))
    && (forall r :: r in w.node.subscriptions ==> r.session == w.node.id || r.session in w.alive)
  }

  ghost predicate Inv(w: World) {
    && Owned(w)
    && w.dying <= w.alive && w.alive !! w.dead
    && w.node.id !in w.alive && w.node.id !in w.dead
    && w.node.sessions.Keys <= w.alive - w.dying
  }

  lemma FilterSubset<T>(p: T -> bool, s: seq<T>)
    ensures forall x :: x in Filter(p, s) <==> x in s && p(x)
  {
    forall x ensures x in Filter(p, s) <==> x in s && p(x) {
      FilterMembers(p, s, x);
    }
  }

  lemma HearKeeps(w: World, s: Id, m: Message, newId: Id)
    requires Inv(w) && Enabled(w, Hear(s, m, newId))
    ensures Inv(Next(w, Hear(s, m, newId)))
  {
    match m
    case Leave(c) => FilterSubset(NotCalled(c), w.node.clients);
    case Unsubscribe(c, ch) => FilterSubset(OtherThan(Subscription(s, c, ch)), w.node.subscriptions);
    case _ =>
  }

  lemma AskKeeps(w: World, c: Id, m: Message)
    requires Inv(w)
    ensures Inv(Next(w, Ask(c, m)))
  {
    match m
    case Unsubscribe(_, ch) => FilterSubset(OtherThan(Subscription(w.node.id, c, ch)), w.node.subscriptions);
    case _ =>
  }

  lemma EventKeeps(w: World, e: Event)
    requires Inv(w) && Enabled(w, e)
    ensures Inv(Next(w, e))
  {
    match e
    case Hear(s, m, newId) => HearKeeps(w, s, m, newId);
    case Ask(c, m) => AskKeeps(w, c, m);
    case Depart(c) => FilterSubset(NotCalled(c), w.node.clients);
    case DestroyFirst(s) => FilterSubset(NotLearntFrom(s), w.node.clients);
    case DestroySecond(s) => FilterSubset(NotSubFrom(s), w.node.subscriptions);
    case _ =>
  }

  lemma NothingRevives(w: World, e: Event)
    requires Enabled(w, e)
    ensures w.dead <= Next(w, e).dead && Next(w, e).node.id == w.node.id
  {
  }

  lemma {:induction false} RunKeeps(w: World, events: seq<Event>)
    requires Inv(w) && Legal(w, events)
    ensures Inv(Run(w, events))
    ensures w.dead <= Run(w, events).dead && Run(w, events).node.id == w.node.id
    decreases |events|
  {
    if events != [] {
      EventKeeps(w, events[0]);
      NothingRevives(w, events[0]);
      RunKeeps(Next(w, events[0]), events[1..]);
    }
  }

  /** In every reachable state each row is tagged with this node or with a session object that lives. */
  lemma RowsHaveOwners(w: World, events: seq<Event>)
    requires Start(w) && Legal(w, events)
    ensures Owned(Run(w, events))
  {
    RunKeeps(w, events);
  }

  /** Once a session object is destroyed no row carries its tag, then or ever after. */
  lemma NoRowOutlivesItsSession(w: World, before: seq<Event>, after: seq<Event>, s: Id)
    requires Start(w) && Legal(w, before) && s in Run(w, before).dead && Legal(Run(w, before), after)
    ensures var n := Run(Run(w, before), after).node;
      && (forall r :: r in n.clients ==> r.session != s)
      && (forall r :: r in n.subscriptions ==> r.session != s)
      && s !in n.sessions
  {
    RunKeeps(w, before);
    RunKeeps(Run(w, before), after);
  }
}
