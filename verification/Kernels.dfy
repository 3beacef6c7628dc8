/** The kernel on a running state: envelope, parameters, dispatch, response. */
module Kernels {
  import opened Sequences
  import opened Json
  import opened Messages
  import opened Nodes
  import opened States
  import opened Handlers
  import opened Wire
  import opened Requests

  const NOTHING: Effects := Effects([], [], None, Silent)

  /** The effects of an object that is read: none unless it passes every validator. */
  ghost function EffectsOf(n: Node, data: Fields, context: Context, entity: Id, newId: Id): Effects {
    match Envelope(data)
    case Fine(action) =>
      (match CastId(data["transaction_id"])
       case Fine(tid) =>
         (match Parse(data, Recognised(action), context, entity, tid)
          case Fine(Some(m)) => Handle(n, context, entity, m, newId).effects
          case _ => NOTHING)
       case _ => NOTHING)
    case _ => NOTHING
  }

  /** They are those of what is asked for, on a client */
  lemma ClientEffects(n: Node, data: Fields, c: Id, tid: Id, m: Message, newId: Id)
    requires ClientAsks(data, c, tid, m)
    ensures var e := EffectsOf(n, data, OnClient, c, newId); var o := OnLocal(n, c, m).effects;
      e.posts == o.posts && e.deliveries == o.deliveries && e.dial == None
  {
    AskedIsParsed(data, OnClient, c, tid, m);
    LocalTables(n, c, m);
  }

  /** and on a session; */
  lemma PeerEffects(n: Node, data: Fields, s: Id, tid: Id, m: Message, newId: Id)
    requires PeerAsks(data, tid, m)
    ensures EffectsOf(n, data, OnSession, s, newId) == OnPeer(n, s, m, newId).effects
  {
    AskedIsParsed(data, OnSession, s, tid, m);
  }

  /** and where nothing is, there are none. */
  lemma NoEffects(n: Node, data: Fields, context: Context, entity: Id, newId: Id)
    requires forall tid, m :: !Asks(data, context, entity, tid, m)
    ensures EffectsOf(n, data, context, entity, newId) == NOTHING
  {
    if Envelope(data).Fine? && CastId(data["transaction_id"]).Fine? {
      var tid := CastId(data["transaction_id"]).value;
      if Parse(data, Recognised(Envelope(data).value), context, entity, tid).Fine? {
        var m := ParsedIsAsked(data, context, entity, tid);
      }
    }
  }

  /**
   * What an object asks for, by the texts a client or a peer writes, is done and nothing else: the node
   * becomes what the request makes of it, and what it posts and delivers follows what was there.
   */
  method Process(st: State, data: Fields, context: Context, entity: Id, newId: Id)
    returns (r: Response, dial: Option<Dial>)
    requires st.Valid()
    modifies st, st.clients, st.subscriptions
    ensures st.Valid() && (st.Now(), r) == Wire.Kernel(old(st.Now()), data, context, entity, newId)
    ensures var e := EffectsOf(old(st.Now()), data, context, entity, newId);
      st.posts == old(st.posts) + e.posts && st.deliveries == old(st.deliveries) + e.deliveries && dial == e.dial
    ensures forall tid, m :: context == OnClient && ClientAsks(data, entity, tid, m) ==>
      var o := OnLocal(old(st.Now()), entity, m);
      && st.Now() == o.node && dial == None
      && st.posts == old(st.posts) + o.effects.posts && st.deliveries == old(st.deliveries) + o.effects.deliveries
    ensures forall tid, m :: context == OnSession && PeerAsks(data, tid, m) ==>
      var o := OnPeer(old(st.Now()), entity, m, newId);
      && st.Now() == o.node && dial == o.effects.dial
      && st.posts == old(st.posts) + o.effects.posts && st.deliveries == old(st.deliveries) + o.effects.deliveries
    ensures (forall tid, m :: !Asks(data, context, entity, tid, m)) ==>
      && st.Now() == old(st.Now()) && dial == None
      && st.posts == old(st.posts) && st.deliveries == old(st.deliveries)
  {
    ghost var n := st.Now();
    WhatIsDone(n, data, context, entity, newId);
    dial := None;
    match Envelope(data) {
      case Invalid(field, reason) =>
        var named := "transaction_id" in data && IsUuid(data["transaction_id"]);
        if !named {
          r := Response(FailedData(NIL, field, reason));
        } else {
          var tid := CastId(data["transaction_id"]);
          r := if tid.Fine? then Response(FailedData(tid.value, field, reason)) else Exception;
        }
      case Throws => r := Exception;
      case Fine(action) =>
        var tid := CastId(data["transaction_id"]);
        if !tid.Fine? {
          r := Exception;
          return;
        }
        match Parse(data, Recognised(action), context, entity, tid.value) {
          case Fine(Some(m)) =>
            var reply: Reply;
            reply, dial := Dispatch(st, context, entity, m, newId);
            r := Respond(tid.value, reply);
          case Fine(None) => r := Respond(tid.value, Success(NoEffect, None));
          case Invalid(field, reason) => r := Response(FailedData(tid.value, field, reason));
          case Throws => r := Exception;
        }
    }
  }

  lemma WhatIsDone(n: Node, data: Fields, context: Context, entity: Id, newId: Id)
    ensures var e, after := EffectsOf(n, data, context, entity, newId), Wire.Kernel(n, data, context, entity, newId).0;
      && (forall tid, m :: context == OnClient && ClientAsks(data, entity, tid, m) ==>
            var o := OnLocal(n, entity, m);
            after == o.node && e.posts == o.effects.posts && e.deliveries == o.effects.deliveries && e.dial == None)
      && (forall tid, m :: context == OnSession && PeerAsks(data, tid, m) ==>
            OnPeer(n, entity, m, newId) == Outcome(after, e))
      && ((forall tid, m :: !Asks(data, context, entity, tid, m)) ==> after == n && e == NOTHING)
  {
    var after := Wire.Kernel(n, data, context, entity, newId).0;
    forall tid, m | context == OnClient && ClientAsks(data, entity, tid, m)
      ensures var o, e := OnLocal(n, entity, m), EffectsOf(n, data, context, entity, newId);
        after == o.node && e.posts == o.effects.posts && e.deliveries == o.effects.deliveries && e.dial == None
    {
      ClientAnswered(n, data, entity, tid, m, newId);
      ClientEffects(n, data, entity, tid, m, newId);
    }
    forall tid, m | context == OnSession && PeerAsks(data, tid, m)
      ensures OnPeer(n, entity, m, newId) == Outcome(after, EffectsOf(n, data, context, entity, newId))
    {
      PeerAnswered(n, data, entity, tid, m, newId);
      PeerEffects(n, data, entity, tid, m, newId);
    }
    if forall tid, m :: !Asks(data, context, entity, tid, m) {
      OnlyAsked(n, data, context, entity, newId);
      NoEffects(n, data, context, entity, newId);
    }
  }

  /** session::on_read: acks are not answered, and what is no object is answered without the kernel. */
  method ReadFromSession(st: State, s: Id, v: Value, newId: Id) returns (r: Response, dial: Option<Dial>)
    requires st.Valid()
    modifies st, st.clients, st.subscriptions
    ensures st.Valid() && (st.Now(), r) == Read(old(st.Now()), s, v, newId)
    ensures var e := if v.Object? then EffectsOf(old(st.Now()), v.fields, OnSession, s, newId) else NOTHING;
      st.posts == old(st.posts) + e.posts && st.deliveries == old(st.deliveries) + e.deliveries && dial == e.dial
    ensures !v.Object? ==> IsUnreadable(r) && st.Now() == old(st.Now())
    ensures forall tid, m :: v.Object? && PeerAsks(v.fields, tid, m) ==>
      var o := OnPeer(old(st.Now()), s, m, newId);
      && st.Now() == o.node && dial == o.effects.dial
      && st.posts == old(st.posts) + o.effects.posts && st.deliveries == old(st.deliveries) + o.effects.deliveries
  {
    if !v.Object? {
      return Response(UNREADABLE), None;
    }
    r, dial := Process(st, v.fields, OnSession, s, newId);
  }

  /** What is answered to a text that is no object. */
  predicate IsUnreadable(r: Response) {
    r == Response(map["transaction_id" := Null, "status" := Text(Plain("failed")),
                      "message" := Text(Plain("unprocessable entity")),
                      "data" := Object(map["body" := Text(Plain("body must be json object"))])])
  }

  /**
   * client::on_read: whatever the kernel returns is sent, an empty object for an ack; nothing is where a
   * getter threw.
   */
  method ReadFromClient(st: State, c: Id, v: Value, newId: Id) returns (answer: Option<Fields>)
    requires st.Valid()
    modifies st, st.clients, st.subscriptions
    ensures st.Valid()
    ensures !v.Object? ==>
      && answer.Some? && IsUnreadable(Response(answer.value))
      && st.Now() == old(st.Now()) && st.posts == old(st.posts) && st.deliveries == old(st.deliveries)
    ensures v.Object? ==>
      var (after, r) := Wire.Kernel(old(st.Now()), v.fields, OnClient, c, newId);
      && st.Now() == after
      && answer == match r case NoResponse => Some(map[]) case Response(data) => Some(data) case Exception => None
    ensures forall tid, m :: v.Object? && ClientAsks(v.fields, c, tid, m) ==>
      var o := OnLocal(old(st.Now()), c, m);
      && st.Now() == o.node && answer.Some?
      && st.posts == old(st.posts) + o.effects.posts && st.deliveries == old(st.deliveries) + o.effects.deliveries
  {
    if !v.Object? {
      return Some(UNREADABLE);
    }
    ghost var n := st.Now();
    forall tid, m | ClientAsks(v.fields, c, tid, m)
      ensures Wire.Kernel(n, v.fields, OnClient, c, newId).1 != Exception
    {
      ClientAnswered(n, v.fields, c, tid, m, newId);
      AskedIsParsed(v.fields, OnClient, c, tid, m);
    }
    var r, _ := Process(st, v.fields, OnClient, c, newId);
    match r
    case NoResponse => return Some(map[]);
    case Response(data) => return Some(data);
    case Exception => return None;
  }
}
