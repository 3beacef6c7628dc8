/** The smallest cluster in which the assumptions of the guarantees all hold, and what they then say. */
module Couples {
  import opened Sequences
  import opened Json
  import opened Messages
  import opened Nodes
  import opened Clusters
  import opened Cascades
  import opened Routing
  import opened Guarantees
  import opened Joins
  import opened Totals

  /** Two nodes with a client each, linked by the dial of the second, and knowing of each other's client. */
  function Couple(address: Id -> Address, o: Id, h: Id, s: Id, t: Id, x: Id, y: Id): Cluster {
    var a, b := address(o), address(h);
    var atO := map[s := Peer(b.host, b.sessionsPort, b.clientsPort, true, true)];
    var atH := map[t := Peer(a.host, a.sessionsPort, a.clientsPort, false, true)];
    Cluster(map[o := Node(o, atO, [ClientRow(x, o), ClientRow(y, s)], []),
                h := Node(h, atH, [ClientRow(y, h), ClientRow(x, t)], [])],
            address, {h}, {h}, map[End(o, s) := End(h, t), End(h, t) := End(o, s)], [], [], [], [])
  }

  predicate Apart(o: Id, h: Id, s: Id, t: Id, x: Id, y: Id) { o != h && s !in {o, h} && t !in {o, h} && x != y }

  lemma CoupleOrderly(address: Id -> Address, o: Id, h: Id, s: Id, t: Id, x: Id, y: Id)
    requires Apart(o, h, s, t, x, y)
    ensures var c := Couple(address, o, h, s, t, x, y); Orderly(c) && Announced(c)
  {
    var c := Couple(address, o, h, s, t, x, y);
    assert c.nodes.Keys == {o, h};
    assert Paired(c.wire, c.nodes.Keys);
    CoupleLocals(address, o, h, s, t, x, y);
    assert TablesOrderly(c.nodes);
  }

  lemma CoupleLocals(address: Id -> Address, o: Id, h: Id, s: Id, t: Id, x: Id, y: Id)
    requires Apart(o, h, s, t, x, y)
    ensures var c := Couple(address, o, h, s, t, x, y);
      forall k, z :: LocalAt(c, k, z) <==> (k == o && z == x) || (k == h && z == y)
  {
  }

  /** The views have converged on both sides. */
  lemma CoupleConverged(address: Id -> Address, o: Id, h: Id, s: Id, t: Id, x: Id, y: Id)
    requires Apart(o, h, s, t, x, y)
    ensures var c := Couple(address, o, h, s, t, x, y); Converged(c, o) && Converged(c, h)
  {
    CoupleLocals(address, o, h, s, t, x, y);
  }

  /** The two are a mesh. */
  lemma CoupleMeshed(address: Id -> Address, o: Id, h: Id, s: Id, t: Id, x: Id, y: Id)
    requires Apart(o, h, s, t, x, y) && Distinguishable(address)
    ensures var c := Couple(address, o, h, s, t, x, y); Meshed(c, o) && Meshed(c, h)
  {
    var c := Couple(address, o, h, s, t, x, y);
    CoupleFits(address, o, h, s, t, x, y);
    CoupleWires(address, o, h, s, t, x, y);
    assert c.nodes.Keys == {o, h};
    CoupleOrderly(address, o, h, s, t, x, y);
    WiredIsMeshed(c, o);
    WiredIsMeshed(c, h);
  }

  lemma CoupleFits(address: Id -> Address, o: Id, h: Id, s: Id, t: Id, x: Id, y: Id)
    requires Apart(o, h, s, t, x, y) && Distinguishable(address)
    ensures var c := Couple(address, o, h, s, t, x, y); RecordsFit(c.nodes, c.wire, c.address)
  {
    var c := Couple(address, o, h, s, t, x, y);
    assert forall e :: RecordAt(c.nodes, e).Some? <==> e == End(o, s) || e == End(h, t);
  }

  lemma CoupleWires(address: Id -> Address, o: Id, h: Id, s: Id, t: Id, x: Id, y: Id)
    requires Apart(o, h, s, t, x, y)
    ensures var w := Couple(address, o, h, s, t, x, y).wire;
      |Wires(w, o, o)| == 0 && |Wires(w, h, h)| == 0 && |Wires(w, o, h)| == 1 && |Wires(w, h, o)| == 1
  {
    var w := Couple(address, o, h, s, t, x, y).wire;
    assert Wires(w, o, h) == {End(o, s)} && Wires(w, h, o) == {End(h, t)};
    assert Wires(w, o, o) == {} && Wires(w, h, h) == {};
  }

  lemma CoupleSettles(address: Id -> Address, o: Id, h: Id, s: Id, t: Id, x: Id, y: Id, m: Message)
    returns (steps: seq<Step>)
    requires Apart(o, h, s, t, x, y) && m.Broadcast?
    ensures var c := Couple(address, o, h, s, t, x, y);
      Settles(c, o, x, m, steps) && Stays(steps, x) && Stays(steps, y) && Forfeit(c, o, x, m, steps, h) == 0
  {
    CoupleAsks(address, o, h, s, t, x, y, m);
    steps := SettlesAlone(Couple(address, o, h, s, t, x, y), o, x, m);
  }

  lemma CoupleAsks(address: Id -> Address, o: Id, h: Id, s: Id, t: Id, x: Id, y: Id, m: Message)
    requires Apart(o, h, s, t, x, y)
    ensures var c := Couple(address, o, h, s, t, x, y);
      Orderly(c) && Announced(c) && c.flight == [] && Enabled(c, Request(o, x, m))
  {
    CoupleOrderly(address, o, h, s, t, x, y);
    CoupleLocals(address, o, h, s, t, x, y);
  }

  /** So a broadcast by one client can always settle, and then the other has had it and the sender knows of one. */
  lemma CoupleBroadcasts(address: Id -> Address, o: Id, h: Id, s: Id, t: Id, x: Id, y: Id, m: Message)
    returns (steps: seq<Step>)
    requires Apart(o, h, s, t, x, y) && Distinguishable(address) && m.Broadcast?
    ensures var c := Couple(address, o, h, s, t, x, y);
      && Settles(c, o, x, m, steps)
      && Gained(c, o, x, m, steps, y) == 1 && Gained(c, o, x, m, steps, x) == 0
      && OnLocal(c.nodes[o], x, m).effects.reply.count == Some(1)
  {
    var c := Couple(address, o, h, s, t, x, y);
    steps := CoupleSettles(address, o, h, s, t, x, y, m);
    CoupleFacts(address, o, h, s, t, x, y);
    TwoHear(c, o, h, x, y, m, steps);
  }

  lemma CoupleFacts(address: Id -> Address, o: Id, h: Id, s: Id, t: Id, x: Id, y: Id)
    requires Apart(o, h, s, t, x, y) && Distinguishable(address)
    ensures var c := Couple(address, o, h, s, t, x, y);
      Meshed(c, o) && LocalAt(c, o, x) && LocalAt(c, h, y) && |c.nodes[o].clients| == 2
  {
    CoupleMeshed(address, o, h, s, t, x, y);
    CoupleLocals(address, o, h, s, t, x, y);
  }

  lemma TwoHear(c: Cluster, o: Id, h: Id, x: Id, y: Id, m: Message, steps: seq<Step>)
    requires Settles(c, o, x, m, steps) && m.Broadcast? && Meshed(c, o)
    requires Stays(steps, x) && Stays(steps, y) && Forfeit(c, o, x, m, steps, h) == 0
    requires LocalAt(c, o, x) && LocalAt(c, h, y) && x != y && |c.nodes[o].clients| == 2
    ensures Gained(c, o, x, m, steps, y) == 1 && Gained(c, o, x, m, steps, x) == 0
    ensures OnLocal(c.nodes[o], x, m).effects.reply.count == Some(1)
  {
    BroadcastOnce(c, o, x, m, steps, h, y);
    BroadcastOnce(c, o, x, m, steps, o, x);
    OthersCountIs(c.nodes[o]);
  }
}
