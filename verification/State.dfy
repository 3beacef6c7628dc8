/**
 * The state of a running node: the session map and the two multi-index tables, changed in place by the
 * action handlers. Every method is proved against the node specification.
 */
module States {
  import opened Sequences
  import opened Json
  import opened Messages
  import opened MultiIndex
  import opened Nodes

  const BY_SESSION := 0
  const CLIENTS_BY_CLIENT := 1
  const CLIENTS_BY_CLIENT_SESSION := 2
  const SUBS_BY_CHANNEL := 2
  const SUBS_BY_CLIENT_CHANNEL := 3
  const SUBS_BY_ALL := 4

  function ClientIndexes(): seq<Index<ClientRow>> {
    [Index(ClientBySession(), false), Index(ClientByClient(), true), Index(ClientByClientSession(), true)]
  }

  function SubscriptionIndexes(): seq<Index<Subscription>> {
    [Index(SubBySession(), false), Index(SubByClient(), false), Index(SubByChannel(), false),
     Index(SubByClientChannel(), false), Index(SubByAll(), true)]
  }

  // What the index keys mean

  lemma ClientVacancy(rows: seq<ClientRow>, r: ClientRow)
    ensures (forall i :: 0 <= i < 3 && ClientIndexes()[i].unique ==> Vacant(ClientIndexes()[i], rows, r))
        <==> forall x :: x in rows ==> x.id != r.id
  {
    var byClient := ClientIndexes()[CLIENTS_BY_CLIENT];
    assert forall x: ClientRow :: (byClient.key)(x) == [x.id];
    if Vacant(byClient, rows, r) {
      forall x | x in rows ensures x.id != r.id {
        assert (byClient.key)(x) != (byClient.key)(r);
      }
    }
    var both := ClientIndexes()[CLIENTS_BY_CLIENT_SESSION];
    forall x: ClientRow | (both.key)(x) == (both.key)(r) ensures x.id == r.id {
      assert (both.key)(x)[0] == x.id && (both.key)(r)[0] == r.id;
    }
    forall x: ClientRow | (byClient.key)(x) == (byClient.key)(r) ensures x.id == r.id {
      assert (byClient.key)(x)[0] == x.id && (byClient.key)(r)[0] == r.id;
    }
  }

  lemma SubKeyInjective(a: Subscription, b: Subscription)
    ensures SubByAll()(a) == SubByAll()(b) <==> a == b
  {
    var x, y := SubByAll()(a), SubByAll()(b);
    if x == y {
      assert x[0] == y[0] && x[1] == y[1] && x[2..] == StrKey(a.channel) && y[2..] == StrKey(b.channel);
      StrKeyInjective(a.channel, b.channel);
    }
  }

  lemma SubscriptionVacancy(rows: seq<Subscription>, r: Subscription)
    ensures (forall i :: 0 <= i < 5 && SubscriptionIndexes()[i].unique ==> Vacant(SubscriptionIndexes()[i], rows, r))
        <==> r !in rows
  {
    var all := SubscriptionIndexes()[SUBS_BY_ALL];
    forall x: Subscription ensures (all.key)(x) == (all.key)(r) <==> x == r {
      SubKeyInjective(x, r);
    }
    assert Vacant(all, rows, r) <==> forall x :: x in rows ==> x != r;
  }

  lemma ClientSelections(rows: seq<ClientRow>, k: Id)
    ensures Filter(WithKey(ClientBySession(), [k]), rows) == Filter(LearntFrom(k), rows)
    ensures Filter(WithoutKey(ClientBySession(), [k]), rows) == Filter(NotLearntFrom(k), rows)
    ensures Filter(WithKey(ClientByClient(), [k]), rows) == Filter(Called(k), rows)
    ensures Filter(WithoutKey(ClientByClient(), [k]), rows) == Filter(NotCalled(k), rows)
  {
    forall r: ClientRow ensures ClientBySession()(r) == [k] <==> r.session == k {
      assert ClientBySession()(r)[0] == r.session;
    }
    forall r: ClientRow ensures ClientByClient()(r) == [k] <==> r.id == k {
      assert ClientByClient()(r)[0] == r.id;
    }
    FilterExt(WithKey(ClientBySession(), [k]), LearntFrom(k), rows);
    FilterExt(WithoutKey(ClientBySession(), [k]), NotLearntFrom(k), rows);
    FilterExt(WithKey(ClientByClient(), [k]), Called(k), rows);
    FilterExt(WithoutKey(ClientByClient(), [k]), NotCalled(k), rows);
  }

  lemma SubscriptionSelections(rows: seq<Subscription>, s: Id, ch: Str, sub: Subscription)
    ensures Filter(WithKey(SubBySession(), [s]), rows) == Filter(SubFrom(s), rows)
    ensures Filter(WithoutKey(SubBySession(), [s]), rows) == Filter(NotSubFrom(s), rows)
    ensures Filter(WithKey(SubByChannel(), StrKey(ch)), rows) == Filter(OnChannel(ch), rows)
    ensures Filter(WithoutKey(SubByAll(), SubByAll()(sub)), rows) == Filter(OtherThan(sub), rows)
  {
    forall r: Subscription ensures SubBySession()(r) == [s] <==> r.session == s {
      assert SubBySession()(r)[0] == r.session;
    }
    forall r: Subscription ensures SubByChannel()(r) == StrKey(ch) <==> r.channel == ch {
      if SubByChannel()(r) == StrKey(ch) {
        StrKeyInjective(r.channel, ch);
      }
    }
    forall r: Subscription ensures SubByAll()(r) == SubByAll()(sub) <==> r == sub {
      SubKeyInjective(r, sub);
    }
    FilterExt(WithKey(SubBySession(), [s]), SubFrom(s), rows);
    FilterExt(WithoutKey(SubBySession(), [s]), NotSubFrom(s), rows);
    FilterExt(WithKey(SubByChannel(), StrKey(ch)), OnChannel(ch), rows);
    FilterExt(WithoutKey(SubByAll(), SubByAll()(sub)), OtherThan(sub), rows);
  }

  /** The stretch of the channel index that holds the subscribers of a channel. */
  lemma SubscribersRange(rows: seq<Subscription>, ch: Str)
    ensures Filter(WithKey(SubscriptionIndexes()[SUBS_BY_CHANNEL].key, StrKey(ch)), rows) == Filter(OnChannel(ch), rows)
  {
    SubscriptionSelections(rows, 0, ch, Subscription(0, 0, ch));
  }

  /** The stretches of the session indexes that hold the rows learnt from one session. */
  lemma SessionRanges(clients: seq<ClientRow>, subs: seq<Subscription>, s: Id)
    ensures Filter(WithKey(ClientIndexes()[BY_SESSION].key, [s]), clients) == Filter(LearntFrom(s), clients)
    ensures Filter(WithKey(SubscriptionIndexes()[BY_SESSION].key, [s]), subs) == Filter(SubFrom(s), subs)
  {
    ClientSelections(clients, s);
    SubscriptionSelections(subs, s, NO_HOST, Subscription(s, s, NO_HOST));
  }

  lemma ClientChannelKey(r: Subscription, c: Id, ch: Str)
    ensures SubByClientChannel()(r) == [c] + StrKey(ch) <==> r.client == c && r.channel == ch
  {
    var x, y := SubByClientChannel()(r), [c] + StrKey(ch);
    if x == y {
      assert x[0] == y[0] && x[1..] == StrKey(r.channel) && y[1..] == StrKey(ch);
      StrKeyInjective(r.channel, ch);
    }
  }

  lemma {:induction false} LookupBySelection(rows: seq<ClientRow>, c: Id)
    ensures var found := Filter(Called(c), rows);
      SessionOfClient(rows, c) == if found == [] then None else Some(found[|found| - 1].session)
  {
    if rows != [] {
      LookupBySelection(rows[..|rows| - 1], c);
    }
  }

  /** A selection is empty exactly when removing it changes nothing. */
  lemma {:induction false} NothingSelected<T>(p: T -> bool, q: T -> bool, rows: seq<T>)
    requires forall x :: p(x) <==> !q(x)
    ensures |Filter(p, rows)| + |Filter(q, rows)| == |rows|
    ensures |Filter(p, rows)| == 0 <==> Filter(q, rows) == rows
  {
    if rows != [] {
      NothingSelected(p, q, rows[..|rows| - 1]);
    }
  }

  class State {
    const id: Id
    const address: Address
    const clients: Container<ClientRow>
    const subscriptions: Container<Subscription>
    var sessions: map<Id, Peer>
    var registered: bool           // this node has sent a register message

    // What sessions and client sockets have been asked to send so far
    var posts: seq<Post>
    var deliveries: seq<Delivery>

    ghost predicate Valid()
      reads clients, subscriptions
    {
      && clients.Valid() && clients.spec == ClientIndexes()
      && subscriptions.Valid() && subscriptions.spec == SubscriptionIndexes()
    }

    ghost function Now(): Node
      reads this`sessions, clients, subscriptions
    {
      Node(id, sessions, clients.contents, subscriptions.contents)
    }

    constructor (id: Id, address: Address)
      ensures Valid() && Now() == Node(id, map[], [], [])
      ensures posts == [] && deliveries == [] && !registered && this.address == address
      ensures fresh(clients) && fresh(subscriptions)
    {
      this.id := id;
      this.address := address;
      registered := false;
      this.clients := new Container<ClientRow>(ClientIndexes());
      this.subscriptions := new Container<Subscription>(SubscriptionIndexes());
      sessions := map[];
      posts, deliveries := [], [];
    }

    // Tables

    method AddSession(s: Id, p: Peer) returns (inserted: bool)
      requires Valid()
      modifies this`sessions
      ensures Valid() && Now() == Nodes.AddSession(old(Now()), s, p)
      ensures inserted <==> s !in old(sessions)
    {
      inserted := s !in sessions;
      if inserted {
        sessions := sessions[s := p];
      }
    }

    method RemoveSession(s: Id) returns (removed: bool)
      requires Valid()
      modifies this`sessions
      ensures Valid() && Now() == Nodes.RemoveSession(old(Now()), s)
      ensures removed <==> s in old(sessions)
    {
      removed := s in sessions;
      sessions := sessions - {s};
    }

    method AddClient(row: ClientRow) returns (inserted: bool)
      requires Valid()
      modifies clients
      ensures Valid() && Now() == Nodes.AddClient(old(Now()), row)
      ensures inserted <==> !KnowsClient(old(Now()), row.id)
    {
      ClientVacancy(clients.contents, row);
      inserted := clients.Add(row);
    }

    method RemoveClient(c: Id) returns (removed: bool)
      requires Valid()
      modifies clients
      ensures Valid() && Now() == Nodes.RemoveClient(old(Now()), c)
      ensures removed <==> Now() != old(Now())
    {
      ClientSelections(clients.contents, c);
      NothingSelected(Called(c), NotCalled(c), clients.contents);
      var count := clients.EraseKey(CLIENTS_BY_CLIENT, [c]);
      removed := count > 0;
    }

    method Subscribe(sub: Subscription) returns (inserted: bool)
      requires Valid()
      modifies subscriptions
      ensures Valid() && Now() == AddSubscription(old(Now()), sub)
      ensures inserted <==> Now() != old(Now())
    {
      SubscriptionVacancy(subscriptions.contents, sub);
      inserted := subscriptions.Add(sub);
    }

    method Unsubscribe(sub: Subscription) returns (removed: bool)
      requires Valid()
      modifies subscriptions
      ensures Valid() && Now() == RemoveSubscription(old(Now()), sub)
      ensures removed <==> Now() != old(Now())
    {
      SubscriptionSelections(subscriptions.contents, sub.session, sub.channel, sub);
      NothingSelected(WithKey(SubByAll(), SubByAll()(sub)), WithoutKey(SubByAll(), SubByAll()(sub)),
        subscriptions.contents);
      var count := subscriptions.EraseKey(SUBS_BY_ALL, SubByAll()(sub));
      removed := count > 0;
    }

    method RemoveStateOfSession(s: Id)
      requires Valid()
      modifies clients, subscriptions
      ensures Valid() && Now() == Purge(old(Now()), s)
    {
      ClientSelections(clients.contents, s);
      SubscriptionSelections(subscriptions.contents, s, NO_HOST, Subscription(s, s, NO_HOST));
      var _ := clients.EraseKey(BY_SESSION, [s]);
      var _ := subscriptions.EraseKey(BY_SESSION, [s]);
    }

    /** get_client: the session through which the client is known. */
    method FindClient(c: Id) returns (session: Option<Id>)
      requires Valid()
      ensures session == SessionOfClient(clients.contents, c)
    {
      var lo, hi := clients.EqualRange(CLIENTS_BY_CLIENT, [c]);
      ClientSelections(clients.contents, c);
      LookupBySelection(clients.contents, c);
      if lo == hi {
        return None;
      }
      return Some(clients.indexes[CLIENTS_BY_CLIENT][hi - 1].session);
    }

    method IsSubscribed(c: Id, ch: Str) returns (yes: bool)
      requires Valid()
      ensures yes <==> exists r :: r in subscriptions.contents && r.client == c && r.channel == ch
    {
      var k := [c] + StrKey(ch);
      var lo, hi := subscriptions.EqualRange(SUBS_BY_CLIENT_CHANNEL, k);
      yes := lo < hi;
      ghost var rows := subscriptions.indexes[SUBS_BY_CLIENT_CHANNEL][lo..hi];
      forall r ensures r in rows <==> r in subscriptions.contents && r.client == c && r.channel == ch {
        FilterMembers(WithKey(SubByClientChannel(), k), subscriptions.contents, r);
        ClientChannelKey(r, c, ch);
      }
      assert lo < hi ==> rows[0] in rows;
    }

    // Sending

    method SendToSessions(m: Message) returns (count: nat)
      requires Valid()
      modifies this`posts
      ensures posts == old(posts) + PostAll(Now(), m)
      ensures OncePerOpen(posts[|old(posts)|..], sessions, sessions.Keys, m)
      ensures count == |sessions|
    {
      var keys := Ordered(sessions.Keys);
      for i := 0 to |keys|
        invariant posts == old(posts) + Fanout(keys[..i], sessions, sessions.Keys, m)
      {
        assert keys[..i + 1][..i] == keys[..i];
        if sessions[keys[i]].open {
          posts := posts + [Post(keys[i], m)];
        }
      }
      assert keys[..|keys|] == keys;
      Added(old(posts), PostAll(Now(), m));
      FanoutOnce(sessions, sessions.Keys, m);
      return |keys|;
    }

    method SendToSession(s: Id, m: Message)
      requires Valid()
      modifies this`posts
      ensures posts == old(posts) + Fanout(Ordered(sessions.Keys), sessions, {s}, m)
      ensures OncePerOpen(posts[|old(posts)|..], sessions, {s}, m)
    {
      var keys := Ordered(sessions.Keys);
      for i := 0 to |keys|
        invariant posts == old(posts) + Fanout(keys[..i], sessions, {s}, m)
      {
        assert keys[..i + 1][..i] == keys[..i];
        if keys[i] == s && sessions[keys[i]].open {
          posts := posts + [Post(keys[i], m)];
        }
      }
      assert keys[..|keys|] == keys;
      Added(old(posts), Fanout(keys, sessions, {s}, m));
      FanoutOnce(sessions, {s}, m);
    }

    /** Each session with a subscriber gets one message, however many subscribers it has. */
    method SendToSubscribedSessions(m: Message, ch: Str) returns (count: nat)
      requires Valid()
      modifies this`posts
      ensures posts == old(posts) + PostSubscribed(Now(), ch, m)
      ensures OncePerOpen(posts[|old(posts)|..], sessions,
                          set r | r in subscriptions.contents && r.channel == ch :: r.session, m)
      ensures count == |Subscribed(Filter(OnChannel(ch), subscriptions.contents))|
    {
      var receivers := SubscribedSessions(ch);
      if receivers == {} {
        FanoutToNobody(Ordered(sessions.Keys), sessions, m);
      } else {
        SendToAny(m, receivers);
      }
      Added(old(posts), PostSubscribed(Now(), ch, m));
      SubscribedAre(subscriptions.contents, ch);
      FanoutOnce(sessions, receivers, m);
      return |receivers|;
    }

    /** The loop over the session map that picks out the receivers. */
    method SendToAny(m: Message, receivers: set<Id>)
      modifies this`posts
      ensures posts == old(posts) + Fanout(Ordered(sessions.Keys), sessions, receivers, m)
    {
      var keys := Ordered(sessions.Keys);
      for i := 0 to |keys|
        invariant posts == old(posts) + Fanout(keys[..i], sessions, receivers, m)
      {
        assert keys[..i + 1][..i] == keys[..i];
        if keys[i] in receivers && sessions[keys[i]].open {
          posts := posts + [Post(keys[i], m)];
        }
      }
      assert keys[..|keys|] == keys;
    }

    method SubscribedSessions(ch: Str) returns (receivers: set<Id>)
      requires Valid()
      ensures receivers == Subscribed(Filter(OnChannel(ch), subscriptions.contents))
    {
      var lo, hi := subscriptions.EqualRange(SUBS_BY_CHANNEL, StrKey(ch));
      var rows := subscriptions.indexes[SUBS_BY_CHANNEL][lo..hi];
      SubscribersRange(subscriptions.contents, ch);
      receivers := SessionsOf(rows);
    }

    /** The loop over one channel's stretch of the index. */
    method SessionsOf(rows: seq<Subscription>) returns (receivers: set<Id>)
      ensures receivers == Subscribed(rows)
    {
      receivers := {};
      for i := 0 to |rows|
        invariant receivers == Subscribed(rows[..i])
      {
        assert rows[..i + 1] == rows[..i] + [rows[i]];
        SubscribedSnoc(rows[..i], rows[i]);
        if rows[i].session !in receivers {
          receivers := receivers + {rows[i].session};
        }
      }
      assert rows[..|rows|] == rows;
    }

    method SendToOthersClients(m: Message, session: Id, sender: Id) returns (count: nat)
      requires Valid()
      modifies this`deliveries
      ensures deliveries
        == old(deliveries) + DeliverEach(Listing(ClientByClient(), clients.contents), session, sender, m)
      ensures count == OthersCount(Now())
    {
      var all := clients.indexes[CLIENTS_BY_CLIENT];
      assert all == Listing(ClientByClient(), clients.contents);
      DeliverToOthers(all, m, session, sender);
      ListingLength(ClientByClient(), clients.contents);
      return (|all| + WORDS - 1) % WORDS;
    }

    /** The loop over all clients, which passes over the sender and other sessions' clients. */
    method DeliverToOthers(all: seq<ClientRow>, m: Message, session: Id, sender: Id)
      modifies this`deliveries
      ensures deliveries == old(deliveries) + DeliverEach(all, session, sender, m)
    {
      for i := 0 to |all|
        invariant deliveries == old(deliveries) + DeliverEach(all[..i], session, sender, m)
      {
        DeliverSnoc(all[..i], all[i], session, sender, m);
        assert all[..i + 1] == all[..i] + [all[i]];
        if !(all[i].id == sender || all[i].session != session) {
          deliveries := deliveries + [Delivery(all[i].id, m)];
        }
      }
      assert all[..|all|] == all;
    }

    /** What a peer is told when it registers: other registered peers, then clients, then subscriptions. */
    method Sync(s: Id, registered: bool)
      requires Valid() && s in sessions
      modifies this`posts
      ensures posts == old(posts) + Nodes.Sync(Now(), s, registered)
    {
      ghost var n := Now();
      ghost var open := sessions[s].open;
      ghost var p0 := posts;
      if !registered {
        SyncSessions(s);
      }
      ghost var p1 := posts;
      assert p1 == p0 + PeersPart(n, s, registered);
      SyncClients(s);
      ghost var p2 := posts;
      SyncSubscriptions(s);
      SyncParts(n, s, registered, p0, p1, p2, posts);
    }

    method SyncSessions(s: Id)
      requires Valid() && s in sessions
      modifies this`posts
      ensures posts == old(posts) + if sessions[s].open then SessionPosts(Now(), s, Ordered(sessions.Keys)) else []
    {
      var keys := Ordered(sessions.Keys);
      for i := 0 to |keys|
        invariant posts == old(posts) + if sessions[s].open then SessionPosts(Now(), s, keys[..i]) else []
      {
        assert keys[..i + 1][..i] == keys[..i];
        var t := sessions[keys[i]];
        if keys[i] == id || keys[i] == s || !t.registered {
          continue;
        }
        SendOn(s, Message.Session(t.host, t.sessionsPort, t.clientsPort));
      }
      assert keys[..|keys|] == keys;
    }

    method SyncClients(s: Id)
      requires Valid() && s in sessions
      modifies this`posts
      ensures posts == old(posts)
        + if sessions[s].open then JoinPosts(s, Filter(LearntFrom(id), clients.contents)) else []
    {
      var lo, hi := clients.EqualRange(BY_SESSION, [id]);
      var rows := clients.indexes[BY_SESSION][lo..hi];
      SessionRanges(clients.contents, subscriptions.contents, id);
      SendJoins(s, rows);
    }

    /** The loop over the node's own stretch of the client index. */
    method SendJoins(s: Id, rows: seq<ClientRow>)
      requires s in sessions
      modifies this`posts
      ensures posts == old(posts) + if sessions[s].open then JoinPosts(s, rows) else []
    {
      for i := 0 to |rows|
        invariant posts == old(posts) + if sessions[s].open then JoinPosts(s, rows[..i]) else []
      {
        JoinSnoc(s, rows[..i], rows[i]);
        assert rows[..i + 1] == rows[..i] + [rows[i]];
        SendOn(s, Join(rows[i].id));
      }
      assert rows[..|rows|] == rows;
    }

    method SyncSubscriptions(s: Id)
      requires Valid() && s in sessions
      modifies this`posts
      ensures posts == old(posts)
        + if sessions[s].open then SubscribePosts(s, Filter(SubFrom(id), subscriptions.contents)) else []
    {
      var lo, hi := subscriptions.EqualRange(BY_SESSION, [id]);
      var rows := subscriptions.indexes[BY_SESSION][lo..hi];
      SessionRanges(clients.contents, subscriptions.contents, id);
      SendSubscribes(s, rows);
    }

    /** The loop over the node's own stretch of the subscription index. */
    method SendSubscribes(s: Id, rows: seq<Subscription>)
      requires s in sessions
      modifies this`posts
      ensures posts == old(posts) + if sessions[s].open then SubscribePosts(s, rows) else []
    {
      for i := 0 to |rows|
        invariant posts == old(posts) + if sessions[s].open then SubscribePosts(s, rows[..i]) else []
      {
        SubscribeSnoc(s, rows[..i], rows[i]);
        assert rows[..i + 1] == rows[..i] + [rows[i]];
        SendOn(s, Message.Subscribe(rows[i].client, rows[i].channel));
      }
      assert rows[..|rows|] == rows;
    }

    /** session::send: dropped unless the session is open. */
    method SendOn(s: Id, m: Message)
      requires s in sessions
      modifies this`posts
      ensures posts == old(posts) + if sessions[s].open then [Post(s, m)] else []
    {
      if sessions[s].open {
        posts := posts + [Post(s, m)];
      }
    }
  }

  lemma {:induction false} FanoutToNobody(keys: seq<Id>, sessions: map<Id, Peer>, m: Message)
    ensures Fanout(keys, sessions, {}, m) == []
  {
    if keys != [] {
      FanoutToNobody(keys[..|keys| - 1], sessions, m);
    }
  }

  lemma Added<T>(before: seq<T>, more: seq<T>)
    ensures (before + more)[|before|..] == more
  {
  }

  lemma SubscribedSnoc(rows: seq<Subscription>, r: Subscription)
    ensures Subscribed(rows + [r]) == Subscribed(rows) + {r.session}
  {
    assert r in rows + [r];
  }

  lemma DeliverSnoc(rows: seq<ClientRow>, r: ClientRow, self: Id, sender: Id, m: Message)
    ensures DeliverEach(rows + [r], self, sender, m)
         == DeliverEach(rows, self, sender, m) + if Receives(self, sender, r) then [Delivery(r.id, m)] else []
  {
    assert (rows + [r])[..|rows|] == rows;
  }

  /** The first part of the snapshot, when the session is open to receive it. */
  ghost function PeersPart(n: Node, s: Id, registered: bool): seq<Post>
    requires s in n.sessions
  {
    if n.sessions[s].open && !registered then SessionPosts(n, s, Ordered(n.sessions.Keys)) else []
  }

  lemma SyncParts(n: Node, s: Id, registered: bool, p0: seq<Post>, p1: seq<Post>, p2: seq<Post>, p3: seq<Post>)
    requires s in n.sessions
    requires p1 == p0 + PeersPart(n, s, registered)
    requires p2 == p1 + if n.sessions[s].open then JoinPosts(s, Filter(LearntFrom(n.id), n.clients)) else []
    requires p3 == p2 + if n.sessions[s].open then SubscribePosts(s, Filter(SubFrom(n.id), n.subscriptions)) else []
    ensures p3 == p0 + Nodes.Sync(n, s, registered)
  {
    if n.sessions[s].open {
      var a, b, c := PeersPart(n, s, registered), JoinPosts(s, Filter(LearntFrom(n.id), n.clients)),
                     SubscribePosts(s, Filter(SubFrom(n.id), n.subscriptions));
      assert Nodes.Sync(n, s, registered) == a + b + c;
      assert p0 + a + b + c == p0 + (a + b + c);
    } else {
      assert p3 == p0 + [] + [] + [];
    }
  }

  lemma JoinSnoc(s: Id, rows: seq<ClientRow>, r: ClientRow)
    ensures JoinPosts(s, rows + [r]) == JoinPosts(s, rows) + [Post(s, Join(r.id))]
  {
  }

  lemma SubscribeSnoc(s: Id, rows: seq<Subscription>, r: Subscription)
    ensures SubscribePosts(s, rows + [r]) == SubscribePosts(s, rows) + [Post(s, Message.Subscribe(r.client, r.channel))]
  {
  }
}
