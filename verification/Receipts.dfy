/** The answer a broadcasting or publishing client reads, against the copies the whole cluster hands out. */
module Receipts {
  import opened Sequences
  import opened Json
  import opened Messages
  import opened Nodes
  import opened Clusters
  import opened Routing
  import opened Guarantees
  import opened Totals
  import opened Views
  import Wire
  import Requests

  /** The answer is a success under the request's transaction that reports count, ok if that is positive. */
  predicate Reports(r: Wire.Response, tid: Id, count: int) {
    && count >= 0 && r.Response?
    && r.data.Keys == {"transaction_id", "action", "status", "message", "data"}
    && r.data["transaction_id"] == Text(UuidText(tid, 0)) && r.data["action"] == Text(Plain("ack"))
    && r.data["status"] == Text(Plain("success"))
    && r.data["message"] == Text(Plain(if count > 0 then "ok" else "no effect"))
    && r.data["data"] == Object(map["count" := Uint(count)])
  }

  /** The answer sender reads to data at n reports count. */
  predicate Reported(n: Node, sender: Id, data: Wire.Fields, newId: Id, tid: Id, count: int) {
    Reports(Wire.Kernel(n, data, OnClient, sender, newId).1, tid, count)
  }

  /** What the handler counts is what is reported. */
  lemma CountIsReported(n: Node, sender: Id, data: Wire.Fields, tid: Id, m: Message, newId: Id, count: int)
    requires Spread(m) && Requests.ClientAsks(data, sender, tid, m)
    requires n.clients != [] && |n.clients| < WORDS
    requires OnLocal(n, sender, m).effects.reply.count == Some(count)
    ensures count == |n.clients| - 1 && Reported(n, sender, data, newId, tid, count)
  {
    OthersCountIs(n);
    Requests.ClientAnswered(n, data, sender, tid, m, newId);
  }

  lemma SenderIsLocal(c: Cluster, o: Id, sender: Id, m: Message, steps: seq<Step>)
    requires Settles(c, o, sender, m, steps)
    ensures o in c.nodes && c.nodes[o].clients != []
  {
    assert LocalAt(c, o, sender);
  }

  /** What a client reads after its broadcast is the number of copies handed out, and missed by clients gone. */
  lemma BroadcastReceipt(c: Cluster, o: Id, sender: Id, m: Message, steps: seq<Step>,
                         data: Wire.Fields, tid: Id, newId: Id)
    requires Settles(c, o, sender, m, steps) && m.Broadcast? && Converged(c, o) && AllFixed(steps)
    requires |c.nodes[o].clients| < WORDS
    requires Requests.ClientAsks(data, sender, tid, m)
    ensures Reported(c.nodes[o], sender, data, newId, tid,
                     Handed(c, o, sender, m, steps) + Unhanded(c, o, sender, m, steps))
  {
    ReportedCountIsReceivers(c, o, sender, m, steps);
    SenderIsLocal(c, o, sender, m, steps);
    CountIsReported(c.nodes[o], sender, data, tid, m, newId,
      Handed(c, o, sender, m, steps) + Unhanded(c, o, sender, m, steps));
  }

  /** After a publication it is at least that, and exactly that if nobody was spared. */
  lemma PublishReceipt(c: Cluster, o: Id, sender: Id, m: Message, steps: seq<Step>,
                       data: Wire.Fields, tid: Id, newId: Id) returns (count: nat)
    requires Settles(c, o, sender, m, steps) && m.Publish? && Converged(c, o) && AllFixed(steps)
    requires |c.nodes[o].clients| < WORDS
    requires Requests.ClientAsks(data, sender, tid, m)
    ensures Reported(c.nodes[o], sender, data, newId, tid, count)
    ensures var copies := Handed(c, o, sender, m, steps) + Unhanded(c, o, sender, m, steps);
      count >= copies && (count == copies <==> NobodySpared(c, o, sender, m))
  {
    PublishedCountIff(c, o, sender, m, steps);
    SenderIsLocal(c, o, sender, m, steps);
    count := OnLocal(c.nodes[o], sender, m).effects.reply.count.value;
    CountIsReported(c.nodes[o], sender, data, tid, m, newId, count);
  }

  /** With nodes joined in turn nothing need be assumed about tables or links. */
  lemma ReceiptInTurn(start: Cluster, joins: seq<Step>, seed: Id, c0: Cluster, traffic: seq<Step>, home: Id -> Id,
                      c: Cluster, o: Id, sender: Id, m: Message, steps: seq<Step>,
                      data: Wire.Fields, tid: Id, newId: Id)
    requires Serving(start, joins, seed, c0, traffic, home, c)
    requires Settles(c, o, sender, m, steps) && m.Broadcast? && AllFixed(steps)
    requires |c.nodes[o].clients| < WORDS
    requires Requests.ClientAsks(data, sender, tid, m)
    ensures Reported(c.nodes[o], sender, data, newId, tid,
                     Handed(c, o, sender, m, steps) + Unhanded(c, o, sender, m, steps))
  {
    assert Converged(c, o) by {
      ViewsConverge(start, joins, seed, c0, traffic, home, c, o);
    }
    BroadcastReceipt(c, o, sender, m, steps, data, tid, newId);
  }
}
