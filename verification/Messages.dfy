/** JSON values as the program sees them, and the messages nodes exchange. */
module Json {

  /** A boost uuid; 0 stands for the nil uuid. */
  type Id = nat

  const NIL: Id := 0

  /**
   * A string, split by whether the uuid text parser accepts it. Form 0 is the canonical text of the
   * uuid and the other even forms its variants in upper case; odd forms (braces, no dashes) are accepted
   * by the validators but rejected by the lexical cast of the parameter getters.
   */
  datatype Str =
    | Plain(text: string)
    | UuidText(id: Id, form: nat)

  /**
   * Numbers keep the kind boost::json gives them: Uint is the unsigned 64-bit kind, Int the signed
   * one.
   */
  datatype Value =
    | Null
    | Bool(b: bool)
    | Int(i: int)
    | Uint(u: nat)
    | Text(s: Str)
    | Array(items: seq<Value>)
    | Object(fields: map<string, Value>)

  predicate Castable(form: nat) { form % 2 == 0 }

  /** The canonical text of a uuid. */
  function IdText(id: Id): Value {
    Text(UuidText(id, 0))
  }
}

/** What nodes and clients say to each other, with the envelope's random ids left out. */
module Messages {
  import opened Json

  datatype Message =
    | Ping
    | Ack
    | Register(registered: bool, clientsPort: nat, sessionsPort: nat)
    | Session(host: Str, sessionsPort: nat, clientsPort: nat)
    | Join(client: Id)
    | Leave(client: Id)
    | Subscribe(client: Id, channel: Str)
    | Unsubscribe(client: Id, channel: Str)
    | IsSubscribed(channel: Str)
    | Broadcast(tid: Id, client: Id, payload: Value)
    | Publish(tid: Id, client: Id, channel: Str, payload: Value)
    | Send(from: Id, to: Id, payload: Value)
    | Unimplemented
}
