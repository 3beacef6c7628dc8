/**
 * The write queue of a connection. Sends are queued and written one at a time; a completed write starts
 * the next. A session starts a write without looking at its socket, a client only if its socket is open.
 */
module Writers {

  datatype Side = SessionSide | ClientSide

  datatype Channel<T> = Channel(
    side: Side,
    queue: seq<T>,
    outstanding: seq<T>,   // writes started and not completed, oldest first
    written: seq<T>)       // writes completed without error

  datatype Event<T> =
    | OnSend(data: T, open: bool)
    | OnWrite(failed: bool, open: bool)

  /** A completion is only reported for a write that was started. */
  predicate Possible<T>(c: Channel<T>, e: Event<T>) {
    e.OnWrite? ==> c.outstanding != []
  }

  /** The queue without its front. Serial channels, below, never erase from an empty queue. */
  function Erased<T>(queue: seq<T>): seq<T> {
    if queue == [] then [] else queue[1..]
  }

  function StartWrite<T>(c: Channel<T>, open: bool): Channel<T>
    requires c.queue != []
  {
    if c.side == ClientSide && !open then c else c.(outstanding := c.outstanding + [c.queue[0]])
  }

  function Next<T>(c: Channel<T>, e: Event<T>): Channel<T>
    requires Possible(c, e)
  {
    match e
    case OnSend(data, open) =>
      var d := c.(queue := c.queue + [data]);
      if |d.queue| > 1 then d else StartWrite(d, open)
    case OnWrite(failed, open) =>
      if failed then c.(outstanding := c.outstanding[1..])
      else
        var d := c.(queue := Erased(c.queue), outstanding := c.outstanding[1..],
                    written := c.written + [c.outstanding[0]]);
        if d.queue == [] then d else StartWrite(d, open)
  }

  class Writer<T(==)> {
    const side: Side
    var queue: seq<T>
    ghost var outstanding: seq<T>
    ghost var written: seq<T>

    ghost function Now(): Channel<T>
      reads this
    {
      Channel(side, queue, outstanding, written)
    }

    constructor (side: Side)
      ensures Now() == Channel(side, [], [], [])
    {
      this.side := side;
      queue, outstanding, written := [], [], [];
    }

    method AsyncWrite(open: bool)
      requires queue != []
      modifies this`outstanding
      ensures Now() == StartWrite(old(Now()), open)
    {
      if side == SessionSide || open {
        outstanding := outstanding + [queue[0]];
      }
    }

    method Send(data: T, open: bool)
      modifies this
      ensures Now() == Next(old(Now()), OnSend(data, open))
    {
      queue := queue + [data];
      if |queue| > 1 {
        return;
      }
      AsyncWrite(open);
    }

    method Complete(failed: bool, open: bool)
      requires outstanding != [] && queue != []
      modifies this
      ensures Now() == Next(old(Now()), OnWrite(failed, open))
    {
      ghost var done := outstanding[0];
      outstanding := outstanding[1..];
      if failed {
        return;
      }
      written := written + [done];
      queue := queue[1..];
      if queue != [] {
        AsyncWrite(open);
      }
    }
  }

  // Runs

  predicate Legal<T>(c: Channel<T>, events: seq<Event<T>>)
    decreases |events|
  {
    events == [] || (Possible(c, events[0]) && Legal(Next(c, events[0]), events[1..]))
  }

  function Run<T>(c: Channel<T>, events: seq<Event<T>>): Channel<T>
    requires Legal(c, events)
    decreases |events|
  {
    if events == [] then c else Run(Next(c, events[0]), events[1..])
  }

  /** What a plain first-in first-out channel would carry. */
  function Sent<T>(events: seq<Event<T>>): seq<T> {
    if events == [] then []
    else (if events[0].OnSend? then [events[0].data] else []) + Sent(events[1..])
  }

  /** At most one write is under way, and it is of the front of the queue. */
  ghost predicate Serial<T>(c: Channel<T>) {
    c.outstanding == [] || (c.queue != [] && c.outstanding == [c.queue[0]])
  }

  ghost predicate Stalled<T>(c: Channel<T>) {
    c.queue != [] && c.outstanding == []
  }

  lemma {:induction false} RunIsSerial<T>(c: Channel<T>, events: seq<Event<T>>)
    requires Serial(c) && Legal(c, events)
    ensures Serial(Run(c, events))
    ensures var d := Run(c, events); d.written + d.queue == c.written + c.queue + Sent(events)
    decreases |events|
  {
    if events != [] {
      var d := Next(c, events[0]);
      RunIsSerial(d, events[1..]);
      assert d.written + d.queue == c.written + c.queue + if events[0].OnSend? then [events[0].data] else [];
    }
  }

  /**
   * Over any run from an empty queue: one write at a time, always of the front, and what has been written
   * followed by what is queued is exactly what was sent, in order.
   */
  lemma RefinesFifo<T>(side: Side, events: seq<Event<T>>)
    requires Legal(Channel(side, [], [], []), events)
    ensures var d := Run(Channel(side, [], [], []), events);
      Serial(d) && |d.outstanding| <= 1 && d.written + d.queue == Sent(events) && d.written <= Sent(events)
  {
    var c: Channel<T> := Channel(side, [], [], []);
    RunIsSerial(c, events);
    assert c.written + c.queue + Sent(events) == Sent(events);
  }

  /** A stalled queue never writes again, whatever is sent. */
  lemma {:induction false} StalledForGood<T>(c: Channel<T>, events: seq<Event<T>>)
    requires Stalled(c) && Legal(c, events)
    ensures Stalled(Run(c, events)) && Run(c, events).written == c.written
    decreases |events|
  {
    if events != [] {
      StalledForGood(Next(c, events[0]), events[1..]);
    }
  }

  /** What starts no write: a failure, or on a client a closed socket. */
  predicate Trouble<T>(side: Side, e: Event<T>) {
    (e.OnWrite? && e.failed) || (side == ClientSide && !e.open)
  }

  /** Only trouble stalls a queue. */
  lemma {:induction false} StallsOnlyInTrouble<T>(c: Channel<T>, events: seq<Event<T>>)
    requires Serial(c) && !Stalled(c) && Legal(c, events)
    requires Stalled(Run(c, events))
    ensures exists e :: e in events && Trouble(c.side, e)
    decreases |events|
  {
    if !Trouble(c.side, events[0]) {
      StallsOnlyInTrouble(Next(c, events[0]), events[1..]);
      var e :| e in events[1..] && Trouble(c.side, e);
      assert e in events;
    }
  }

  /** When a write starts: the queue has just got a front to write, and a client's socket is open. */
  predicate Starts<T>(c: Channel<T>, e: Event<T>) {
    && (c.side == SessionSide || e.open)
    && (match e
        case OnSend(_, _) => c.queue == []
        case OnWrite(failed, _) => !failed && |c.queue| > 1)
  }

  /** Exactly then, and it is of the new front. In particular trouble starts none. */
  lemma WritesExactlyWhen<T>(c: Channel<T>, e: Event<T>)
    requires Serial(c) && Possible(c, e)
    ensures var d := Next(c, e); var left := if e.OnWrite? then c.outstanding[1..] else c.outstanding;
      && (Starts(c, e) ==> d.queue != [])
      && d.outstanding == left + (if Starts(c, e) then [d.queue[0]] else [])
    ensures Trouble(c.side, e) ==> !Starts(c, e)
  {
    var left := if e.OnWrite? then c.outstanding[1..] else c.outstanding;
    assert left + [] == left;
  }

  /** A queue stalls exactly when trouble leaves it an unwritten front, and then for good. */
  lemma StallsExactlyWhen<T>(c: Channel<T>, e: Event<T>)
    requires Serial(c) && Possible(c, e)
    ensures Stalled(Next(c, e)) <==>
      || Stalled(c)
      || (Trouble(c.side, e) && (match e
                                 case OnSend(_, _) => c.queue == []
                                 case OnWrite(failed, _) => failed || |c.queue| > 1))
  {
  }

  /** Nothing is ever written after such an event. */
  lemma TroubleEndsWriting<T>(c: Channel<T>, e: Event<T>, events: seq<Event<T>>)
    requires Serial(c) && Possible(c, e) && Legal(Next(c, e), events)
    requires Trouble(c.side, e) && (match e
                                    case OnSend(_, _) => c.queue == []
                                    case OnWrite(failed, _) => failed || |c.queue| > 1)
    ensures Run(Next(c, e), events).written == Next(c, e).written && Run(Next(c, e), events).outstanding == []
  {
    StallsExactlyWhen(c, e);
    StalledForGood(Next(c, e), events);
  }

  function Completions<T>(n: nat): seq<Event<T>> {
    seq(n, i => OnWrite(false, true))
  }

  /** A queue that has not stalled is written out by as many completions as it has entries. */
  lemma {:induction false} DrainsCompletely<T>(c: Channel<T>)
    requires Serial(c) && !Stalled(c)
    ensures Legal(c, Completions<T>(|c.queue|))
    ensures var d := Run(c, Completions<T>(|c.queue|)); d.queue == [] && d.written == c.written + c.queue
    decreases |c.queue|
  {
    var events := Completions<T>(|c.queue|);
    if c.queue != [] {
      assert events[0] == OnWrite(false, true) && events[1..] == Completions<T>(|c.queue| - 1);
      var d := Next(c, events[0]);
      assert d.queue == c.queue[1..] && d.side == c.side;
      DrainsCompletely(d);
      assert c.written + c.queue == c.written + [c.queue[0]] + c.queue[1..];
    }
  }
}
