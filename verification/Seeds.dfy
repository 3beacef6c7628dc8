/**
 * Nodes registering concurrently with one seed. Each register handler writes the peer's ports, marks it
 * registered and only then lists the session map and looks at every session in turn; the handlers of
 * different sessions interleave at every one of these accesses.
 */
module Seeds {
  import opened Sequences
  import opened Json
  import opened Nodes

  datatype Phase =
    | Accepted                 // in the session map, handshake pending
    | Open                     // its address is known
    | ClientsPortSet
    | PortsSet
    | Marked
    | Listing(todo: set<Id>)   // sessions of its snapshot not looked at yet
    | Done

  /** A session message: tells a registrant the address of another. */
  datatype Notice = Notice(to: Id, address: Address)

  datatype Seed = Seed(
    id: Id,
    address: Id -> Address,    // what each node listens on
    records: map<Id, Peer>,    // the session object of each registrant
    members: set<Id>,          // the session map
    phase: map<Id, Phase>,
    told: seq<Notice>)

  datatype SeedStep =
    | Accept(i: Id)
    | OpenSession(i: Id)
    | SetClientsPort(i: Id)
    | SetSessionsPort(i: Id)
    | Mark(i: Id)
    | Snapshot(i: Id)
    | Look(i: Id, j: Id)
    | Finish(i: Id)
    | Drop(i: Id)

  ghost predicate At(s: Seed, i: Id, p: Phase) { i in s.phase && s.phase[i] == p }

  predicate Looking(s: Seed, i: Id) { i in s.phase && s.phase[i].Listing? }

  ghost predicate Enabled(s: Seed, step: SeedStep) {
    match step
    case Accept(i) => i !in s.phase && i !in s.records && i != s.id
    case OpenSession(i) => At(s, i, Accepted) && i in s.records
    case SetClientsPort(i) => At(s, i, Open) && i in s.records && i in s.members
    case SetSessionsPort(i) => At(s, i, ClientsPortSet) && i in s.records
    case Mark(i) => At(s, i, PortsSet) && i in s.records
    case Snapshot(i) => At(s, i, Marked)
    case Look(i, j) => Looking(s, i) && j in s.phase[i].todo && j in s.records
    case Finish(i) => At(s, i, Listing({}))
    case Drop(i) => i in s.phase && Idle(s.phase[i])
  }

  function AddressOf(p: Peer): Address { Address(p.host, p.sessionsPort, p.clientsPort) }

  /** The seed as a node with these session objects. */
  function Objects(s: Seed): Node { Node(s.id, s.records, [], []) }

  ghost function Next(s: Seed, step: SeedStep): Seed
    requires Enabled(s, step)
  {
    match step
    case Accept(i) =>
      s.(records := s.records[i := Peer(NO_HOST, 0, 0, false, false)],
         members := s.members + {i}, phase := s.phase[i := Accepted])
    case OpenSession(i) =>
      s.(records := s.records[i := s.records[i].(host := s.address(i).host, open := true)], phase := s.phase[i := Open])
    case SetClientsPort(i) =>
      s.(records := s.records[i := s.records[i].(clientsPort := s.address(i).clientsPort % PORTS)],
        phase := s.phase[i := ClientsPortSet])
    case SetSessionsPort(i) =>
      s.(records := s.records[i := s.records[i].(sessionsPort := s.address(i).sessionsPort % PORTS)],
        phase := s.phase[i := PortsSet])
    case Mark(i) => s.(records := s.records[i := s.records[i].(registered := true)], phase := s.phase[i := Marked])
    case Snapshot(i) => s.(phase := s.phase[i := Listing(s.members)])
    case Look(i, j) =>
      s.(phase := s.phase[i := Listing(s.phase[i].todo - {j})],
         told := s.told + if Listed(Objects(s), i, j) then [Notice(i, AddressOf(s.records[j]))] else [])
    case Finish(i) => s.(phase := s.phase[i := Done])
    case Drop(i) => s.(members := s.members - {i})
  }

  ghost predicate Initial(s: Seed) {
    s.records == map[] && s.members == {} && s.phase == map[] && s.told == [] && Addressable(s)
  }

  /** Nodes listen on different addresses, and none on the empty host. */
  ghost predicate Addressable(s: Seed) {
    && (forall i, j :: s.address(i) == s.address(j) ==> i == j)
    && (forall i :: s.address(i).host != NO_HOST
          && 0 < s.address(i).sessionsPort < PORTS && s.address(i).clientsPort < PORTS)
  }

  // What holds while they run

  ghost predicate Told(s: Seed, i: Id, j: Id) { Notice(i, s.address(j)) in s.told }

  ghost predicate Registered(s: Seed, i: Id) { i in s.records && s.records[i].registered }

  /** i has been told of j or is certain to be. */
  ghost predicate WillLearn(s: Seed, i: Id, j: Id) {
    Told(s, i, j) || At(s, i, Marked) || (Looking(s, i) && j in s.phase[i].todo)
  }

  /** The fields written so far, in the order the handler writes them. */
  ghost predicate RecordFits(s: Seed, i: Id)
    requires i in s.records && i in s.phase
  {
    var r, a, p := s.records[i], s.address(i), s.phase[i];
    && (r.registered <==> p == Marked || p.Listing? || p == Done)
    && (p != Accepted ==> r.host == a.host)
    && (p != Accepted && p != Open ==> r.clientsPort == a.clientsPort)
    && (p == PortsSet || r.registered ==> r.sessionsPort == a.sessionsPort)
  }

  ghost predicate RecordsFit(s: Seed) {
    && s.records.Keys == s.phase.Keys && s.members <= s.phase.Keys && s.id !in s.phase
    && (forall i :: i in s.phase ==> RecordFits(s, i))
    && (forall i :: Looking(s, i) ==> s.phase[i].todo <= s.phase.Keys)
    && (forall i :: i in s.phase && i !in s.members ==> Idle(s.phase[i]))
  }

  /** No register handler is running. */
  predicate Idle(p: Phase) { p == Accepted || p == Open || p == Done }

  ghost predicate Fair(s: Seed) {
    forall i, j :: i != j && i in s.members && j in s.members && Registered(s, i) && Registered(s, j)
      ==> WillLearn(s, i, j) || WillLearn(s, j, i)
  }

  /** Notices are honest and never repeated. */
  ghost predicate Honest(s: Seed) {
    && (forall n :: n in s.told ==> (exists j :: j != n.to && Registered(s, j) && n.address == s.address(j)))
    && (forall n :: n in s.told ==> n.to in s.phase && (s.phase[n.to].Listing? || s.phase[n.to] == Done))
    && NoDuplicates(s.told)
    && (forall i, j :: Looking(s, i) && j in s.phase[i].todo ==> !Told(s, i, j))
  }

  ghost predicate Inv(s: Seed) {
    Addressable(s) && RecordsFit(s) && Fair(s) && Honest(s)
  }

  /** The three writes together are what the register handler does to the session object. */
  lemma WritesAreTheHandler(s: Seed, i: Id)
    requires At(s, i, Open) && i in s.records && i in s.members
    ensures Enabled(s, SetClientsPort(i))
    ensures var s1 := Next(s, SetClientsPort(i));
      Enabled(s1, SetSessionsPort(i)) &&
      var s2 := Next(s1, SetSessionsPort(i));
      Enabled(s2, Mark(i)) &&
      Objects(Next(s2, Mark(i))) == RegisterPeer(Objects(s), i, s.address(i).clientsPort, s.address(i).sessionsPort)
  {
  }

  lemma RecordsStep(s: Seed, step: SeedStep)
    requires Inv(s) && Enabled(s, step)
    ensures RecordsFit(Next(s, step))
  {
    var t := Next(s, step);
    assert t.records.Keys == t.phase.Keys;
    forall i | i in t.phase ensures RecordFits(t, i) {
      RecordStep(s, step, i);
    }
  }

  lemma RecordStep(s: Seed, step: SeedStep, i: Id)
    requires Addressable(s) && s.records.Keys == s.phase.Keys && Enabled(s, step)
    requires i in Next(s, step).phase && (i in s.phase ==> RecordFits(s, i))
    ensures i in Next(s, step).records && RecordFits(Next(s, step), i)
  {
  }

  lemma LookTells(s: Seed, i: Id, j: Id)
    requires Inv(s) && Enabled(s, Look(i, j))
    ensures Next(s, Look(i, j)).told == s.told + if j != i && Registered(s, j) then [Notice(i, s.address(j))] else []
  {
    assert RecordFits(s, j);
  }

  lemma FairStep(s: Seed, step: SeedStep)
    requires Inv(s) && Enabled(s, step)
    ensures Fair(Next(s, step))
  {
    var t := Next(s, step);
    if step.Look? {
      LookTells(s, step.i, step.j);
    }
    forall i, j | i != j && i in t.members && j in t.members && Registered(t, i) && Registered(t, j)
      ensures WillLearn(t, i, j) || WillLearn(t, j, i)
    {
      if step == Mark(i) || step == Mark(j) {
        assert At(t, step.i, Marked);
      } else {
        assert RecordFits(s, i) && RecordFits(s, j);
        assert WillLearn(s, i, j) || WillLearn(s, j, i);
        if WillLearn(s, i, j) {
          LearnStep(s, step, i, j);
        } else {
          LearnStep(s, step, j, i);
        }
      }
    }
  }

  /** What a registrant is certain to learn it still is after any step. */
  lemma LearnStep(s: Seed, step: SeedStep, i: Id, j: Id)
    requires Inv(s) && Enabled(s, step) && WillLearn(s, i, j) && i != j
    requires Registered(s, j) && j in s.members
    ensures WillLearn(Next(s, step), i, j)
  {
    if step.Look? {
      LookTells(s, step.i, step.j);
    }
    if Told(s, i, j) {
      assert Notice(i, s.address(j)) in Next(s, step).told;
    }
  }

  lemma HonestStep(s: Seed, step: SeedStep)
    requires Inv(s) && Enabled(s, step)
    ensures Honest(Next(s, step))
  {
    var t := Next(s, step);
    forall j | Registered(s, j) ensures Registered(t, j) {
      assert j in s.phase && RecordFits(s, j);
    }
    if step.Look? {
      LookTells(s, step.i, step.j);
      assert !Told(s, step.i, step.j);
      if t.told != s.told {
        var n := Notice(step.i, s.address(step.j));
        assert t.told == s.told + [n] && n !in s.told;
      }
      forall i, j | Looking(t, i) && j in t.phase[i].todo ensures !Told(t, i, j) {
        assert Looking(s, i) && j in s.phase[i].todo && !Told(s, i, j);
      }
    } else {
      assert t.told == s.told;
      if step.Snapshot? {
        forall n | n in s.told ensures n.to != step.i {
          assert s.phase[n.to].Listing? || s.phase[n.to] == Done;
        }
      }
    }
  }

  lemma StepKeeps(s: Seed, step: SeedStep)
    requires Inv(s) && Enabled(s, step)
    ensures Inv(Next(s, step))
  {
    RecordsStep(s, step);
    FairStep(s, step);
    HonestStep(s, step);
  }

  ghost predicate Legal(s: Seed, steps: seq<SeedStep>)
    decreases |steps|
  {
    steps == [] || (Enabled(s, steps[0]) && Legal(Next(s, steps[0]), steps[1..]))
  }

  ghost function Run(s: Seed, steps: seq<SeedStep>): Seed
    requires Legal(s, steps)
    decreases |steps|
  {
    if steps == [] then s else Run(Next(s, steps[0]), steps[1..])
  }

  lemma {:induction false} RunKeeps(s: Seed, steps: seq<SeedStep>)
    requires Inv(s) && Legal(s, steps)
    ensures Inv(Run(s, steps)) && Run(s, steps).address == s.address
    decreases |steps|
  {
    if steps != [] {
      StepKeeps(s, steps[0]);
      RunKeeps(Next(s, steps[0]), steps[1..]);
    }
  }

  /**
   * No missed peer: of two registrants still in the session map whose handlers have finished, at least
   * one has been told of the other.
   */
  lemma NoMissedPeer(s: Seed, steps: seq<SeedStep>, i: Id, j: Id)
    requires Initial(s) && Legal(s, steps) && i != j
    requires i in Run(s, steps).members && j in Run(s, steps).members
    requires At(Run(s, steps), i, Done) && At(Run(s, steps), j, Done)
    ensures Told(Run(s, steps), i, j) || Told(Run(s, steps), j, i)
  {
    RunKeeps(s, steps);
    var t := Run(s, steps);
    assert RecordFits(t, i) && RecordFits(t, j);
  }

  /** Nobody is told of the same peer twice, nor of itself, and always of the address the peer listens on. */
  lemma NoticesAreFinal(s: Seed, steps: seq<SeedStep>, n: Notice)
    requires Initial(s) && Legal(s, steps) && n in Run(s, steps).told
    ensures NoDuplicates(Run(s, steps).told)
    ensures exists j :: j != n.to && Registered(Run(s, steps), j) && n.address == s.address(j)
  {
    RunKeeps(s, steps);
  }
}
