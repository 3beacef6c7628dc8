/**
 * The two tables over whole histories: whatever is inserted and erased in whatever order, the client table
 * is one map from client to session and the subscription table one set of subscriptions.
 */
module Tables {
  import opened Sequences
  import opened Json
  import opened Nodes

  datatype Op =
    | InsertClient(row: ClientRow)
    | EraseClient(client: Id)
    | InsertSubscription(sub: Subscription)
    | EraseSubscription(sub: Subscription)
    | EraseSession(session: Id)

  function Apply(n: Node, op: Op): Node {
    match op
    case InsertClient(row) => AddClient(n, row)
    case EraseClient(c) => RemoveClient(n, c)
    case InsertSubscription(sub) => AddSubscription(n, sub)
    case EraseSubscription(sub) => RemoveSubscription(n, sub)
    case EraseSession(s) => Purge(n, s)
  }

  function ApplyAll(n: Node, ops: seq<Op>): Node
    decreases |ops|
  {
    if ops == [] then n else ApplyAll(Apply(n, ops[0]), ops[1..])
  }

  /** The tables without order or indexes. The first insertion of a client wins. */
  datatype Bare = Bare(clients: map<Id, Id>, subscriptions: set<Subscription>)

  function ApplyBare(p: Bare, op: Op): Bare {
    match op
    case InsertClient(row) => if row.id in p.clients then p else p.(clients := p.clients[row.id := row.session])
    case EraseClient(c) => p.(clients := p.clients - {c})
    case InsertSubscription(sub) => p.(subscriptions := p.subscriptions + {sub})
    case EraseSubscription(sub) => p.(subscriptions := p.subscriptions - {sub})
    case EraseSession(s) =>
      Bare(map c | c in p.clients && p.clients[c] != s :: p.clients[c],
            set sub | sub in p.subscriptions && sub.session != s)
  }

  function ApplyAllBare(p: Bare, ops: seq<Op>): Bare
    decreases |ops|
  {
    if ops == [] then p else ApplyAllBare(ApplyBare(p, ops[0]), ops[1..])
  }

  /** The same rows, each of them once. */
  ghost predicate Agree(n: Node, p: Bare) {
    && Distinct(IdOf(), n.clients) && NoDuplicates(n.subscriptions)
    && (forall c, s :: ClientRow(c, s) in n.clients <==> c in p.clients && p.clients[c] == s)
    && (forall sub :: sub in n.subscriptions <==> sub in p.subscriptions)
  }

  lemma ErasedClients(n: Node, keep: ClientRow -> bool)
    requires Distinct(IdOf(), n.clients)
    ensures Distinct(IdOf(), Filter(keep, n.clients))
    ensures forall r :: r in Filter(keep, n.clients) <==> r in n.clients && keep(r)
  {
    FilterKeepsDistinct(IdOf(), keep, n.clients);
    forall r ensures r in Filter(keep, n.clients) <==> r in n.clients && keep(r) {
      FilterMembers(keep, n.clients, r);
    }
  }

  lemma ErasedSubscriptions(n: Node, keep: Subscription -> bool)
    requires NoDuplicates(n.subscriptions)
    ensures NoDuplicates(Filter(keep, n.subscriptions))
    ensures forall r :: r in Filter(keep, n.subscriptions) <==> r in n.subscriptions && keep(r)
  {
    FilterKeepsNoDuplicates(keep, n.subscriptions);
    forall r ensures r in Filter(keep, n.subscriptions) <==> r in n.subscriptions && keep(r) {
      FilterMembers(keep, n.subscriptions, r);
    }
  }

  lemma ApplyAgrees(n: Node, p: Bare, op: Op)
    requires Agree(n, p)
    ensures Agree(Apply(n, op), ApplyBare(p, op))
  {
    match op
    case InsertClient(row) =>
      assert KnowsClient(n, row.id) <==> row.id in p.clients by {
        if row.id in p.clients {
          assert ClientRow(row.id, p.clients[row.id]) in n.clients;
        }
      }
    case EraseClient(c) => ErasedClients(n, NotCalled(c));
    case InsertSubscription(_) =>
    case EraseSubscription(sub) => ErasedSubscriptions(n, OtherThan(sub));
    case EraseSession(s) =>
      ErasedClients(n, NotLearntFrom(s));
      ErasedSubscriptions(PurgeClients(n, s), NotSubFrom(s));
  }

  lemma {:induction false} TablesAreBare(n: Node, p: Bare, ops: seq<Op>)
    requires Agree(n, p)
    ensures Agree(ApplyAll(n, ops), ApplyAllBare(p, ops))
    decreases |ops|
  {
    if ops != [] {
      ApplyAgrees(n, p, ops[0]);
      TablesAreBare(Apply(n, ops[0]), ApplyBare(p, ops[0]), ops[1..]);
    }
  }
}
