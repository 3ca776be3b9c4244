/** The life of every connection of a server: TcpSever.cpp with the parts of TcpConnection.cpp and
    EventLoop.cpp that hand a connection from loop to loop.

    Loop 0 is the base loop; loops 1 to `workers` are the pool's. Each loop polls, handles the active
    channels, swaps its pending functors out and runs that batch from the front; what is queued
    meanwhile waits behind it (EventLoop.dfy proves the two to be one queue). A functor holds the
    connection it is bound to, and the batch holds its functors, run or not, until the round ends.
    ServerRuns.dfy proves what this adds up to. */
module ServerLifecycle {
  import opened ConnectionNames
  import ThreadPool
  import opened Connection
  import opened Polling
  import opened Buffers

  datatype Phase = Establishing | Live | Removing | Destroying | Destroyed

  /** `phase` is the step of the handoff the connection has reached; nothing reads it. */
  datatype Record = Record(loop: nat, name: string, fd: nat, state: State, index: Index, phase: Phase)

  /** connectEstablished, removeConnectionInLoop, connectDestroyed and the user's write-complete and
      high-water callbacks, bound to a connection they hold; and sendInLoop or shutdownInLoop, bound
      to its address alone. `late`: queued when that connection's connectDestroyed had been queued
      already; nothing reads it. */
  datatype Job =
    | EstablishJob(c: nat) | RemoveJob(c: nat) | DestroyJob(c: nat)
    | CallbackJob(c: nat) | RawJob(c: nat, late: bool)

  /** The functors of the handoff, each owed once. */
  predicate Handoff(j: Job) { j.EstablishJob? || j.RemoveJob? || j.DestroyJob? }

  /** Where a loop stands. A batch is the first `left` functors of the loop's queue; `held` are those
      of it that have run. */
  datatype Round = AtPoll | Dispatching | Batch(left: nat, held: seq<Job>)

  datatype Server = Server(
    name: string,
    listen: Endpoint,
    workers: nat,
    next: nat,                    // the pool's next_
    nextConnId: nat,
    registry: map<string, nat>,   // connections_
    conns: seq<Record>,           // every connection made so far
    queues: seq<seq<Job>>,
    active: seq<seq<nat>>,
    rounds: seq<Round>,
    testing: map<nat, nat>)       // threads in send or shutdown past the test of state_, and on what

  datatype Action =
    | Accept(fd: nat)
    | Shutdown(c: nat)
    | Test(t: nat, c: nat, shuts: bool) | PushRaw(t: nat)     // send or shutdown on a thread of no loop
    | PollReturns(loop: nat, ready: seq<nat>)
    | Handle(loop: nat, closes: bool)
    | Swap(loop: nat) | RunJob(loop: nat) | RoundDone(loop: nat)
    | Notify(loop: nat, c: nat)                               // a user callback is queued

  function NewServer(name: string, listen: Endpoint, workers: nat): Server {
    Server(name, listen, workers, 0, 1, map[], [], seq(workers + 1, i => []), seq(workers + 1, i => []),
           seq(workers + 1, i => AtPoll), map[])
  }

  // ---------------------------------------------------------------- the member functions

  function Push(s: Server, loop: nat, job: Job): Server
    requires loop < |s.queues|
  { s.(queues := s.queues[loop := s.queues[loop] + [job]]) }

  function Mark(s: Server, c: nat, state: State, index: Index, phase: Phase): Server
    requires c < |s.conns|
  { s.(conns := s.conns[c := s.conns[c].(state := state, index := index, phase := phase)]) }

  /** The loop getNextLoop returns. */
  function Pick(s: Server): nat { if s.workers == 0 then 0 else s.next + 1 }

  predicate LoopsExist(s: Server) {
    && |s.queues| == |s.active| == |s.rounds| == s.workers + 1
    && (if s.workers == 0 then s.next == 0 else s.next < s.workers)
    && forall c :: 0 <= c < |s.conns| ==> s.conns[c].loop <= s.workers
  }

  /** newConnection up to the registry; the connection is not established yet. */
  function Register(s: Server, fd: nat): Server {
    var name := ConnName(s.name, s.listen, s.nextConnId);
    s.(next := if s.workers == 0 then s.next else ThreadPool.Advance(s.next, s.workers),
       nextConnId := s.nextConnId + 1,
       registry := s.registry[name := |s.conns|],
       conns := s.conns + [Record(Pick(s), name, fd, Connecting, New, Establishing)])
  }

  /** newConnection: a connection of the base loop is established at once, others by a functor. */
  function NewConnection(s: Server, fd: nat): Server
    requires LoopsExist(s)
  {
    var c, r := |s.conns|, Register(s, fd);
    if Pick(s) == 0 then Mark(r, c, Connected, Added, Live) else Push(r, Pick(s), EstablishJob(c))
  }

  /** removeConnectionInLoop: always a functor for connectDestroyed, even on its own loop. */
  function RemoveConnectionInLoop(s: Server, c: nat): Server
    requires LoopsExist(s) && c < |s.conns|
  {
    var erased := s.(registry := s.registry - {s.conns[c].name});
    Push(Mark(erased, c, s.conns[c].state, s.conns[c].index, Destroying), s.conns[c].loop, DestroyJob(c))
  }

  /** handleClose, which ends in removeConnection and so in runInLoop on the base loop. */
  function CloseConnection(s: Server, c: nat): Server
    requires LoopsExist(s) && c < |s.conns|
  {
    var closed := Mark(s, c, Disconnected, Deleted, Removing);
    if s.conns[c].loop == 0 then RemoveConnectionInLoop(closed, c) else Push(closed, 0, RemoveJob(c))
  }

  function RunFunctor(s: Server, job: Job): Server
    requires LoopsExist(s) && job.c < |s.conns|
  {
    match job
    case EstablishJob(c) => Mark(s, c, Connected, Added, Live)
    case RemoveJob(c) => RemoveConnectionInLoop(s, c)
    case DestroyJob(c) => Mark(s, c, Disconnected, New, Destroyed)
    case CallbackJob(_) => s
    case RawJob(_, _) => s
  }

  /** The functor at the front of the batch is taken; the batch still holds it. */
  function Pop(s: Server, loop: nat): Server
    requires loop < |s.queues| == |s.rounds| && s.queues[loop] != [] && s.rounds[loop].Batch? && s.rounds[loop].left > 0
  {
    var round := s.rounds[loop];
    s.(queues := s.queues[loop := s.queues[loop][1..]],
       rounds := s.rounds[loop := Batch(round.left - 1, round.held + [s.queues[loop][0]])])
  }

  /** queueInLoop of a functor bound to the bare address. */
  function PushRawJob(s: Server, c: nat): Server
    requires LoopsExist(s) && c < |s.conns|
  {
    var p := s.conns[c].phase;
    Push(s, s.conns[c].loop, RawJob(c, p.Destroying? || p.Destroyed?))
  }

  /** The states and indices that the functions above assign are those that connectEstablished,
      handleClose and connectDestroyed produce, on a connection at the phase they are called in. */
  lemma RecordsFollowConnections(c: Conn)
    requires Agree(c.slot) && Settled(c)
    ensures var d := ConnectEstablished(c);
      c.state.Connecting? ==> d.state == Connected && d.slot.index == Added
    ensures var d := Connection.HandleClose(c);
      Open(c) ==> d.state == Disconnected && d.slot.index == Deleted
    ensures var d := ConnectDestroyed(c);
      c.state.Disconnected? ==> d.state == Disconnected && d.slot.index == New
  {
  }

  /** And sendInLoop and shutdownInLoop leave both as they are, on an open connection and on a
      closed one. */
  lemma FunctorsKeepRecords(c: Conn, m: Message, w: WriteResult)
    requires Agree(c.slot) && Settled(c) && LegalWrite(w, |m.body|)
    requires Open(c) || c.state.Disconnected?
    ensures var d := Connection.SendInLoop(c, m, w); d.state == c.state && d.slot.index == c.slot.index
    ensures var d := Connection.ShutdownInLoop(c); d.state == c.state && d.slot.index == c.slot.index
  {
  }

  // ---------------------------------------------------------------- steps

  /** Registered channels of the loop, each once: what its poller can report. */
  predicate CanReport(s: Server, loop: nat, ready: seq<nat>) {
    && (forall i :: 0 <= i < |ready| ==>
          ready[i] < |s.conns| && s.conns[ready[i]].loop == loop && s.conns[ready[i]].index.Added?)
    && (forall i, j :: 0 <= i < j < |ready| ==> ready[i] != ready[j])
  }

  predicate HoldsIn(q: seq<Job>, c: nat) { exists i :: 0 <= i < |q| && q[i].c == c && !q[i].RawJob? }

  function Held(r: Round): seq<Job> { if r.Batch? then r.held else [] }

  /** Somebody has a shared pointer to the connection: the registry, a functor that waits, or one
      that has run and is still in its batch. */
  predicate Owned(s: Server, c: nat)
    requires c < |s.conns|
  {
    || (s.conns[c].name in s.registry && s.registry[s.conns[c].name] == c)
    || (exists l :: 0 <= l < |s.queues| && HoldsIn(s.queues[l], c))
    || (exists l :: 0 <= l < |s.rounds| && HoldsIn(Held(s.rounds[l]), c))
  }

  /** accept returns a descriptor that is not open; a connection's is closed with its Socket, when
      the last pointer to the connection goes. */
  predicate Unused(s: Server, fd: nat) {
    forall c :: 0 <= c < |s.conns| && s.conns[c].fd == fd ==> !Owned(s, c)
  }

  predicate Enabled(s: Server, a: Action) {
    && LoopsExist(s)
    && match a
       case Accept(fd) => s.rounds[0].Dispatching? && s.nextConnId < INT_MAX && Unused(s, fd)
       case Shutdown(c) => c < |s.conns| && s.conns[c].state.Connected?
       case Test(t, c, _) => t !in s.testing && c < |s.conns| && s.conns[c].state.Connected?
       case PushRaw(t) => t in s.testing && s.testing[t] < |s.conns|
       case PollReturns(loop, ready) => loop < |s.rounds| && s.rounds[loop].AtPoll? && CanReport(s, loop, ready)
       case Handle(loop, _) =>
         loop < |s.rounds| && s.rounds[loop].Dispatching? && s.active[loop] != [] && s.active[loop][0] < |s.conns|
       case Swap(loop) => loop < |s.rounds| && s.rounds[loop].Dispatching? && s.active[loop] == []
       case RunJob(loop) =>
         && loop < |s.rounds| && s.rounds[loop].Batch? && s.rounds[loop].left > 0
         && s.queues[loop] != [] && s.queues[loop][0].c < |s.conns|
       case RoundDone(loop) => loop < |s.rounds| && s.rounds[loop].Batch? && s.rounds[loop].left == 0
       case Notify(loop, c) =>
         && loop < |s.rounds| && !s.rounds[loop].AtPoll?
         && c < |s.conns| && s.conns[c].loop == loop && s.conns[c].phase.Live?
  }

  function Step(s: Server, a: Action): Server
    requires Enabled(s, a)
  {
    match a
    case Accept(fd) => NewConnection(s, fd)
    case Shutdown(c) => Mark(s, c, Disconnecting, s.conns[c].index, s.conns[c].phase)
    case Test(t, c, shuts) =>
      var r := if shuts then Mark(s, c, Disconnecting, s.conns[c].index, s.conns[c].phase) else s;
      r.(testing := s.testing[t := c])
    case PushRaw(t) => PushRawJob(s, s.testing[t]).(testing := s.testing - {t})
    case PollReturns(loop, ready) => s.(active := s.active[loop := ready], rounds := s.rounds[loop := Dispatching])
    case Handle(loop, closes) =>
      var rest := s.(active := s.active[loop := s.active[loop][1..]]);
      if closes then CloseConnection(rest, s.active[loop][0]) else rest
    case Swap(loop) => s.(rounds := s.rounds[loop := Batch(|s.queues[loop]|, [])])
    case RunJob(loop) => RunFunctor(Pop(s, loop), s.queues[loop][0])
    case RoundDone(loop) => s.(rounds := s.rounds[loop := AtPoll])
    case Notify(loop, c) => Push(s, loop, CallbackJob(c))
  }

  function Next(s: Server, a: Action): Server { if Enabled(s, a) then Step(s, a) else s }

  function Run(s: Server, acts: seq<Action>): Server {
    if acts == [] then s else Next(Run(s, acts[..|acts| - 1]), acts[|acts| - 1])
  }

  // ---------------------------------------------------------------- the invariant

  /** How many copies of a functor of the handoff wait in a queue, as the phases say. */
  function Owed(s: Server, loop: nat, job: Job): nat {
    if job.c >= |s.conns| then 0
    else
      var r := s.conns[job.c];
      match job
      case EstablishJob(_) => if r.phase.Establishing? && loop == r.loop then 1 else 0
      case RemoveJob(_) => if r.phase.Removing? && loop == 0 then 1 else 0
      case DestroyJob(_) => if r.phase.Destroying? && loop == r.loop then 1 else 0
      case CallbackJob(_) => 0
      case RawJob(_, _) => 0
  }

  predicate InRegistry(p: Phase) { p.Establishing? || p.Live? || p.Removing? }

  predicate Fits(r: Record) {
    match r.phase
    case Establishing => r.state.Connecting? && r.index.New?
    case Live => (r.state.Connected? || r.state.Disconnecting?) && r.index.Added?
    case Removing => r.state.Disconnected? && r.index.Deleted?
    case Destroying => r.state.Disconnected? && r.index.Deleted?
    case Destroyed => r.state.Disconnected? && r.index.New?
  }

  predicate Named(s: Server) {
    && s.listen.Valid() && s.nextConnId == |s.conns| + 1 <= INT_MAX
    && s.next == (if s.workers == 0 then 0 else ThreadPool.NextAfter(|s.conns|, s.workers))
    && forall c :: 0 <= c < |s.conns| ==> s.conns[c].name == ConnName(s.name, s.listen, c + 1)
  }

  /** The registry holds exactly the connections whose phase says so, each under its own name. */
  predicate Listed(s: Server) {
    && (forall n <- s.registry :: s.registry[n] < |s.conns| && s.conns[s.registry[n]].name == n)
    && (forall c :: 0 <= c < |s.conns| ==>
          (InRegistry(s.conns[c].phase) <==> s.conns[c].name in s.registry && s.registry[s.conns[c].name] == c))
  }

  ghost predicate Queued(s: Server) {
    && |s.queues| == s.workers + 1
    && forall l, j: Job :: 0 <= l < |s.queues| && Handoff(j) ==> multiset(s.queues[l])[j] == Owed(s, l, j)
  }

  predicate Late(j: Job) { j.RawJob? && j.late }

  /** A functor outside the handoff waits on its connection's loop, a callback's before the
      connection is destroyed; and `late` says whether connectDestroyed has run or will run first. */
  predicate LooseFits(s: Server, l: nat, i: nat)
    requires l < |s.queues| && i < |s.queues[l]|
  {
    var j := s.queues[l][i];
    && j.c < |s.conns| && s.conns[j.c].loop == l
    && (Late(j) <==> s.conns[j.c].phase.Destroyed? || DestroyJob(j.c) in s.queues[l][..i])
  }

  predicate Placed(s: Server) {
    forall l, i :: 0 <= l < |s.queues| && 0 <= i < |s.queues[l]| && !Handoff(s.queues[l][i]) ==> LooseFits(s, l, i)
  }

  /** A functor that has run was on its connection's loop, removeConnectionInLoop on the base loop.
      Of a connection destroyed since the round began, connectDestroyed is among those. */
  predicate HeldFits(s: Server, l: nat, held: seq<Job>) {
    forall i :: 0 <= i < |held| ==>
      var j := held[i];
      && j.c < |s.conns|
      && (if j.RemoveJob? then l == 0 else s.conns[j.c].loop == l)
      && (j.DestroyJob? ==> s.conns[j.c].phase.Destroyed?)
      && (!j.RawJob? && !j.RemoveJob? && s.conns[j.c].phase.Destroyed? ==> DestroyJob(j.c) in held)
  }

  predicate RoundFits(s: Server, l: nat)
    requires l < |s.queues| && l < |s.active| && l < |s.rounds|
  {
    && (s.active[l] != [] ==> s.rounds[l].Dispatching?)
    && (s.rounds[l].Batch? ==> s.rounds[l].left <= |s.queues[l]| && HeldFits(s, l, s.rounds[l].held))
  }

  predicate Rounds(s: Server) {
    && |s.queues| == |s.active| == |s.rounds|
    && (forall l :: 0 <= l < |s.rounds| ==> RoundFits(s, l))
    && NoBaseRemoval(s)
  }

  /** A connection of the base loop is erased as it closes. */
  predicate NoBaseRemoval(s: Server) {
    forall c :: 0 <= c < |s.conns| && s.conns[c].phase.Removing? ==> s.conns[c].loop != 0
  }

  /** Not destroyed yet, or destroyed in a round under way, or erased in one of the base loop's. */
  predicate Kept(s: Server, c: nat)
    requires c < |s.conns|
  {
    || !s.conns[c].phase.Destroyed?
    || (s.conns[c].loop < |s.rounds| && DestroyJob(c) in Held(s.rounds[s.conns[c].loop]))
    || (|s.rounds| > 0 && RemoveJob(c) in Held(s.rounds[0]))
  }

  /** Connections that are kept have distinct descriptors. */
  predicate OwnDescriptors(s: Server) {
    forall c, d :: 0 <= c < d < |s.conns| && Kept(s, c) && Kept(s, d) ==> s.conns[c].fd != s.conns[d].fd
  }

  /** Channels awaiting dispatch belong to live connections of the loop, and are listed once. */
  predicate Dispatchable(s: Server, l: nat)
    requires l < |s.active|
  {
    && (forall i :: 0 <= i < |s.active[l]| ==>
          s.active[l][i] < |s.conns| && s.conns[s.active[l][i]].loop == l && s.conns[s.active[l][i]].phase.Live?)
    && (forall i, j :: 0 <= i < j < |s.active[l]| ==> s.active[l][i] != s.active[l][j])
  }

  predicate Conforms(s: Server) {
    && LoopsExist(s)
    && (forall c :: 0 <= c < |s.conns| ==> Fits(s.conns[c]))
    && (forall l :: 0 <= l < |s.active| ==> Dispatchable(s, l))
  }

  ghost predicate Core(s: Server) { Conforms(s) && Named(s) && Listed(s) && Queued(s) }

  ghost predicate Inv(s: Server) { Core(s) && Placed(s) && Rounds(s) && OwnDescriptors(s) }

  lemma NamesDiffer(s: Server, c: nat, d: nat)
    requires Named(s) && c < |s.conns| && d < |s.conns| && c != d
    ensures s.conns[c].name != s.conns[d].name
  {
    if s.conns[c].name == s.conns[d].name {
      NamesAreDistinct(s.name, s.listen, c + 1, d + 1);
    }
  }

  lemma NewNameIsFree(s: Server)
    requires Named(s) && Listed(s) && s.nextConnId < INT_MAX
    ensures ConnName(s.name, s.listen, s.nextConnId) !in s.registry
  {
    var n := ConnName(s.name, s.listen, s.nextConnId);
    if n in s.registry {
      NamesAreDistinct(s.name, s.listen, s.registry[n] + 1, s.nextConnId);
    }
  }

  // ---------------------------------------------------------------- queues

  lemma Popped(q: seq<Job>)
    requires q != []
    ensures multiset(q[1..]) == multiset(q) - multiset{q[0]}
  {
    assert q == [q[0]] + q[1..];
  }

  /** A functor at the head of a queue that holds its connection is one its phase owes there. */
  lemma HeadIsOwed(s: Server, l: nat)
    requires Queued(s) && l < |s.queues| && s.queues[l] != [] && Handoff(s.queues[l][0])
    ensures Owed(s, l, s.queues[l][0]) == 1 && s.queues[l][0].c < |s.conns|
  {
    assert s.queues[l][0] in multiset(s.queues[l]);
    assert multiset(s.queues[l])[s.queues[l][0]] == Owed(s, l, s.queues[l][0]);
  }

  /** Moving one connection to a new phase and queueing the functor that phase owes, if any. */
  lemma PhaseAndPush(s: Server, r: Server, c: nat, l: nat, job: Job)
    requires Queued(s) && l < |s.queues| && job.c == c < |r.conns|
    requires r.workers == s.workers && r.queues == s.queues[l := s.queues[l] + [job]]
    requires |r.conns| == |s.conns| || (|r.conns| == |s.conns| + 1 && c == |s.conns|)
    requires forall d :: 0 <= d < |s.conns| && d != c ==> r.conns[d] == s.conns[d]
    requires forall k, j: Job :: j.c == c ==> Owed(s, k, j) == 0
    requires forall k, j: Job :: j.c == c ==> Owed(r, k, j) == if k == l && j == job then 1 else 0
    ensures Queued(r)
  {
    forall k, j: Job | 0 <= k < |r.queues| && Handoff(j)
      ensures multiset(r.queues[k])[j] == Owed(r, k, j)
    {
      assert multiset(s.queues[k])[j] == Owed(s, k, j);
      if j.c != c { assert Owed(r, k, j) == Owed(s, k, j); }
    }
  }

  /** Taking the functor a phase owes off its queue, with the phase moving to one that owes none. */
  lemma PhaseAndPop(s: Server, r: Server, l: nat)
    requires Queued(s) && l < |s.queues| && s.queues[l] != [] && Handoff(s.queues[l][0])
    requires r.workers == s.workers && r.queues == s.queues[l := s.queues[l][1..]] && |r.conns| == |s.conns|
    requires forall d :: 0 <= d < |s.conns| && d != s.queues[l][0].c ==> r.conns[d] == s.conns[d]
    requires forall k, j: Job :: j.c == s.queues[l][0].c ==> Owed(r, k, j) == 0
    ensures Queued(r)
  {
    var job := s.queues[l][0];
    Popped(s.queues[l]);
    HeadIsOwed(s, l);
    forall k, j: Job | 0 <= k < |r.queues| && Handoff(j)
      ensures multiset(r.queues[k])[j] == Owed(r, k, j)
    {
      assert multiset(s.queues[k])[j] == Owed(s, k, j);
      if j.c != job.c {
        assert Owed(r, k, j) == Owed(s, k, j);
      } else {
        assert Owed(s, k, j) == if k == l && j == job then 1 else 0;
      }
    }
  }

  lemma SamePhases(s: Server, r: Server)
    requires Queued(s) && r.workers == s.workers && r.queues == s.queues && |r.conns| == |s.conns|
    requires forall d :: 0 <= d < |s.conns| ==>
               r.conns[d].phase == s.conns[d].phase && r.conns[d].loop == s.conns[d].loop
    ensures Queued(r)
  {
    forall k, j: Job | 0 <= k < |r.queues| && Handoff(j)
      ensures multiset(r.queues[k])[j] == Owed(r, k, j)
    {
      assert multiset(s.queues[k])[j] == Owed(s, k, j);
    }
  }

  // ---------------------------------------------------------------- steps keep the invariant

  lemma AcceptKeepsQueued(s: Server, fd: nat)
    requires Core(s)
    ensures Queued(NewConnection(s, fd))
  {
    var r := NewConnection(s, fd);
    if Pick(s) == 0 {
      forall k, j: Job | 0 <= k < |r.queues| && Handoff(j)
        ensures multiset(r.queues[k])[j] == Owed(r, k, j)
      {
        assert multiset(s.queues[k])[j] == Owed(s, k, j);
      }
    } else {
      PhaseAndPush(s, r, |s.conns|, Pick(s), EstablishJob(|s.conns|));
    }
  }

  lemma AcceptKeepsNamed(s: Server, fd: nat)
    requires Core(s) && s.nextConnId < INT_MAX
    ensures Named(NewConnection(s, fd))
  {
  }

  lemma AcceptKeepsListed(s: Server, fd: nat)
    requires Core(s) && s.nextConnId < INT_MAX
    ensures Listed(NewConnection(s, fd))
  {
    var r := NewConnection(s, fd);
    AcceptKeepsNamed(s, fd);
    NewNameIsFree(s);
    forall c | 0 <= c < |r.conns|
      ensures InRegistry(r.conns[c].phase) <==> r.conns[c].name in r.registry && r.registry[r.conns[c].name] == c
    {
      if c < |s.conns| {
        NamesDiffer(r, c, |s.conns|);
        assert r.conns[c] == s.conns[c];
      }
    }
  }

  lemma AcceptKeepsConforms(s: Server, fd: nat)
    requires Core(s) && s.nextConnId < INT_MAX
    ensures Conforms(NewConnection(s, fd))
  {
    var r := NewConnection(s, fd);
    forall c | 0 <= c < |s.conns|
      ensures r.conns[c] == s.conns[c]
    {
    }
    forall l | 0 <= l < |r.active|
      ensures Dispatchable(r, l)
    {
      assert Dispatchable(s, l);
    }
  }

  /** Erasing a connection's name takes that connection out of the registry and no other. */
  lemma EraseKeepsListed(s: Server, r: Server, c: nat)
    requires Named(s) && Listed(s) && c < |s.conns| && InRegistry(s.conns[c].phase)
    requires r.registry == s.registry - {s.conns[c].name} && |r.conns| == |s.conns|
    requires forall d :: 0 <= d < |s.conns| && d != c ==> r.conns[d] == s.conns[d]
    requires r.conns[c].name == s.conns[c].name && !InRegistry(r.conns[c].phase)
    ensures Listed(r)
  {
    forall d | 0 <= d < |r.conns|
      ensures InRegistry(r.conns[d].phase) <==> r.conns[d].name in r.registry && r.registry[r.conns[d].name] == d
    {
      if d != c { NamesDiffer(s, c, d); }
    }
  }

  lemma RemoveKeepsRest(s: Server, c: nat)
    requires Conforms(s) && Named(s) && Listed(s) && c < |s.conns| && s.conns[c].phase.Removing?
    requires s.conns[c].state.Disconnected? && s.conns[c].index.Deleted?
    ensures var r := RemoveConnectionInLoop(s, c); Conforms(r) && Named(r) && Listed(r)
  {
    var r := RemoveConnectionInLoop(s, c);
    EraseKeepsListed(s, r, c);
    forall l | 0 <= l < |r.active|
      ensures Dispatchable(r, l)
    {
      assert Dispatchable(s, l);
    }
  }

  /** The connection at the front of a dispatch leaves it and closes. */
  function Closed(s: Server, loop: nat): Server
    requires Enabled(s, Handle(loop, true))
  { Mark(s.(active := s.active[loop := s.active[loop][1..]]), s.active[loop][0], Disconnected, Deleted, Removing) }

  lemma CloseKeepsConforms(s: Server, loop: nat)
    requires Conforms(s) && Enabled(s, Handle(loop, true))
    ensures Conforms(Closed(s, loop))
  {
    var r := Closed(s, loop);
    assert Dispatchable(s, loop);
    forall l | 0 <= l < |r.active|
      ensures Dispatchable(r, l)
    {
      assert Dispatchable(s, l);
      if l == loop { assert forall i :: 0 <= i < |r.active[l]| ==> r.active[l][i] == s.active[l][i + 1]; }
    }
  }

  lemma CloseKeepsListed(s: Server, loop: nat)
    requires Named(s) && Listed(s) && Enabled(s, Handle(loop, true)) && s.conns[s.active[loop][0]].phase.Live?
    ensures Named(Closed(s, loop)) && Listed(Closed(s, loop))
  {
    var r := Closed(s, loop);
    forall d | 0 <= d < |s.conns| && d != s.active[loop][0]
      ensures r.conns[d] == s.conns[d]
    {
    }
  }

  lemma CloseKeepsCore(s: Server, loop: nat)
    requires Core(s) && Enabled(s, Handle(loop, true))
    ensures Core(Step(s, Handle(loop, true)))
  {
    var c := s.active[loop][0];
    assert Dispatchable(s, loop);
    var closed, r := Closed(s, loop), Step(s, Handle(loop, true));
    CloseKeepsConforms(s, loop);
    CloseKeepsListed(s, loop);
    if loop == 0 {
      RemoveKeepsRest(closed, c);
      PhaseAndPush(s, r, c, 0, DestroyJob(c));
    } else {
      PhaseAndPush(s, r, c, 0, RemoveJob(c));
      PushKeepsConforms(closed, 0, RemoveJob(c));
    }
  }

  lemma PushKeepsConforms(s: Server, l: nat, job: Job)
    requires Conforms(s) && l < |s.queues|
    ensures Conforms(Push(s, l, job))
  {
    forall k | 0 <= k < |s.active|
      ensures Dispatchable(Push(s, l, job), k)
    {
      assert Dispatchable(s, k);
    }
  }

  lemma HandleKeepsCore(s: Server, loop: nat)
    requires Core(s) && Enabled(s, Handle(loop, false))
    ensures Core(Step(s, Handle(loop, false)))
  {
    var r := Step(s, Handle(loop, false));
    SamePhases(s, r);
    forall l | 0 <= l < |r.active|
      ensures Dispatchable(r, l)
    {
      assert Dispatchable(s, l);
      if l == loop { assert forall i :: 0 <= i < |r.active[l]| ==> r.active[l][i] == s.active[l][i + 1]; }
    }
  }

  lemma PollKeepsCore(s: Server, loop: nat, ready: seq<nat>)
    requires Core(s) && Enabled(s, PollReturns(loop, ready))
    ensures Core(Step(s, PollReturns(loop, ready)))
  {
    var r := Step(s, PollReturns(loop, ready));
    SamePhases(s, r);
    forall l | 0 <= l < |r.active|
      ensures Dispatchable(r, l)
    {
      assert Dispatchable(s, l);
      if l == loop { assert forall i :: 0 <= i < |ready| ==> Fits(s.conns[ready[i]]); }
    }
  }

  lemma ShutdownKeepsCore(s: Server, c: nat)
    requires Core(s) && Enabled(s, Shutdown(c))
    ensures Core(Step(s, Shutdown(c)))
  {
    var r := Step(s, Shutdown(c));
    SamePhases(s, r);
    assert Fits(s.conns[c]);
    forall l | 0 <= l < |r.active|
      ensures Dispatchable(r, l)
    {
      assert Dispatchable(s, l);
    }
  }

  /** The loop runs a functor only between dispatches. */
  lemma JobKeepsCore(s: Server, loop: nat)
    requires Core(s) && Enabled(s, RunJob(loop))
    ensures Core(Step(s, RunJob(loop)))
  {
    match s.queues[loop][0]
    case EstablishJob(c) => EstablishKeepsCore(s, loop, c);
    case RemoveJob(c) => RemoveKeepsCore(s, loop, c);
    case DestroyJob(c) => DestroyKeepsCore(s, loop, c);
    case CallbackJob(_) => LooseKeepsCore(s, loop);
    case RawJob(_, _) => LooseKeepsCore(s, loop);
  }

  lemma MarkKeepsDispatch(s: Server, r: Server, c: nat)
    requires LoopsExist(s) && (forall l :: 0 <= l < |s.active| ==> Dispatchable(s, l))
    requires c < |s.conns| && r.active == s.active && |r.conns| == |s.conns|
    requires forall d :: 0 <= d < |s.conns| && d != c ==> r.conns[d] == s.conns[d]
    requires r.conns[c].loop == s.conns[c].loop && (s.conns[c].phase.Live? ==> r.conns[c].phase.Live?)
    ensures forall l :: 0 <= l < |r.active| ==> Dispatchable(r, l)
  {
    forall l | 0 <= l < |r.active|
      ensures Dispatchable(r, l)
    {
      assert Dispatchable(s, l);
    }
  }

  lemma EstablishKeepsCore(s: Server, loop: nat, c: nat)
    requires Core(s) && Enabled(s, RunJob(loop)) && s.queues[loop][0] == EstablishJob(c)
    ensures Core(Step(s, RunJob(loop)))
  {
    HeadIsOwed(s, loop);
    var r := Step(s, RunJob(loop));
    PhaseAndPop(s, r, loop);
    MarkKeepsDispatch(s, r, c);
  }

  lemma DestroyKeepsCore(s: Server, loop: nat, c: nat)
    requires Core(s) && Enabled(s, RunJob(loop)) && s.queues[loop][0] == DestroyJob(c)
    ensures Core(Step(s, RunJob(loop)))
  {
    HeadIsOwed(s, loop);
    var r := Step(s, RunJob(loop));
    PhaseAndPop(s, r, loop);
    MarkKeepsDispatch(s, r, c);
  }

  lemma RemoveKeepsCore(s: Server, loop: nat, c: nat)
    requires Core(s) && Enabled(s, RunJob(loop)) && s.queues[loop][0] == RemoveJob(c)
    ensures Core(Step(s, RunJob(loop)))
  {
    HeadIsOwed(s, loop);
    assert Fits(s.conns[c]);
    var t := Pop(s, loop);
    var r := RemoveConnectionInLoop(t, c);
    MarkKeepsDispatch(s, t, c);
    RemoveKeepsRest(t, c);
    // between the pop and the push the connection owes nothing
    var m := Mark(t, c, s.conns[c].state, s.conns[c].index, Destroyed);
    PhaseAndPop(s, m, loop);
    PhaseAndPush(m, r, c, s.conns[c].loop, DestroyJob(c));
  }

  /** Functors outside the handoff come and go, and rounds pass, without touching it. */
  lemma OnlyLooseMoves(s: Server, r: Server)
    requires Core(s) && r == s.(queues := r.queues, rounds := r.rounds, testing := r.testing)
    requires |r.queues| == |s.queues| && |r.rounds| == |s.rounds|
    requires forall l, j: Job :: 0 <= l < |s.queues| && Handoff(j) ==>
               multiset(r.queues[l])[j] == multiset(s.queues[l])[j]
    ensures Core(r)
  {
    forall l, j: Job | 0 <= l < |r.queues| && Handoff(j)
      ensures multiset(r.queues[l])[j] == Owed(r, l, j)
    {
      assert Owed(r, l, j) == Owed(s, l, j) == multiset(s.queues[l])[j];
    }
    forall l | 0 <= l < |r.active|
      ensures Dispatchable(r, l)
    {
      assert Dispatchable(s, l);
    }
  }

  lemma LooseKeepsCore(s: Server, loop: nat)
    requires Core(s) && Enabled(s, RunJob(loop)) && !Handoff(s.queues[loop][0])
    ensures Core(Step(s, RunJob(loop)))
  {
    Popped(s.queues[loop]);
    OnlyLooseMoves(s, Step(s, RunJob(loop)));
  }

  lemma TestKeepsCore(s: Server, t: nat, c: nat, shuts: bool)
    requires Core(s) && Enabled(s, Test(t, c, shuts))
    ensures Core(Step(s, Test(t, c, shuts)))
  {
    var m := if shuts then Step(s, Shutdown(c)) else s;
    if shuts { ShutdownKeepsCore(s, c); }
    OnlyLooseMoves(m, Step(s, Test(t, c, shuts)));
  }

  lemma LooseStepKeepsCore(s: Server, a: Action)
    requires Core(s) && Enabled(s, a) && (a.PushRaw? || a.Notify? || a.Swap? || a.RoundDone?)
    ensures Core(Step(s, a))
  {
    OnlyLooseMoves(s, Step(s, a));
  }

  // ---------------------------------------------------------------- steps keep the other functors in place

  /** Loops and descriptors are for life, and exactly `dead` is newly destroyed. */
  predicate SameLives(s: Server, r: Server, dead: set<nat>) {
    && |s.conns| <= |r.conns|
    && forall c :: 0 <= c < |s.conns| ==>
        && r.conns[c].loop == s.conns[c].loop && r.conns[c].fd == s.conns[c].fd
        && (r.conns[c].phase.Destroyed? <==> s.conns[c].phase.Destroyed? || c in dead)
  }

  lemma SameQueuesKeepPlaced(s: Server, r: Server)
    requires Placed(s) && SameLives(s, r, {}) && r.queues == s.queues
    ensures Placed(r)
  {
    forall l, i | 0 <= l < |r.queues| && 0 <= i < |r.queues[l]| && !Handoff(r.queues[l][i])
      ensures LooseFits(r, l, i)
    {
      assert LooseFits(s, l, i);
    }
  }

  lemma PushKeepsPlaced(s: Server, r: Server, l: nat, job: Job)
    requires Placed(s) && SameLives(s, r, {}) && l < |s.queues|
    requires r.queues == s.queues[l := s.queues[l] + [job]] && (!Handoff(job) ==> LooseFits(r, l, |s.queues[l]|))
    ensures Placed(r)
  {
    forall k, i | 0 <= k < |r.queues| && 0 <= i < |r.queues[k]| && !Handoff(r.queues[k][i])
      ensures LooseFits(r, k, i)
    {
      if i < |s.queues[k]| {
        assert LooseFits(s, k, i);
        assert r.queues[k][..i] == s.queues[k][..i];
      }
    }
  }

  /** The functor at the front goes, and if it destroys its connection the functors behind it that
      are bound to that one are those that were late. */
  lemma PopKeepsPlaced(s: Server, r: Server, l: nat)
    requires Placed(s) && l < |s.queues| && s.queues[l] != [] && r.queues == s.queues[l := s.queues[l][1..]]
    requires SameLives(s, r, if s.queues[l][0].DestroyJob? then {s.queues[l][0].c} else {})
    requires s.queues[l][0].DestroyJob? ==> s.queues[l][0].c < |s.conns| && s.conns[s.queues[l][0].c].loop == l
    ensures Placed(r)
  {
    var q := s.queues[l];
    forall k, i | 0 <= k < |r.queues| && 0 <= i < |r.queues[k]| && !Handoff(r.queues[k][i])
      ensures LooseFits(r, k, i)
    {
      if k == l {
        assert LooseFits(s, l, i + 1);
        assert q[..i + 1] == [q[0]] + q[1..][..i];
      } else {
        assert LooseFits(s, k, i);
      }
    }
  }

  lemma RemoveKeepsPlaced(s: Server, c: nat)
    requires LoopsExist(s) && Placed(s) && c < |s.conns| && !s.conns[c].phase.Destroyed?
    ensures Placed(RemoveConnectionInLoop(s, c))
  {
    PushKeepsPlaced(s, RemoveConnectionInLoop(s, c), s.conns[c].loop, DestroyJob(c));
  }

  lemma JobKeepsPlaced(s: Server, loop: nat)
    requires Core(s) && Placed(s) && Enabled(s, RunJob(loop))
    ensures Placed(Step(s, RunJob(loop)))
  {
    var job, r := s.queues[loop][0], Step(s, RunJob(loop));
    if Handoff(job) { HeadIsOwed(s, loop); }
    if job.RemoveJob? {
      var t := Pop(s, loop);
      PopKeepsPlaced(s, t, loop);
      RemoveKeepsPlaced(t, job.c);
    } else {
      PopKeepsPlaced(s, r, loop);
    }
  }

  lemma CloseKeepsPlaced(s: Server, loop: nat)
    requires Core(s) && Placed(s) && Enabled(s, Handle(loop, true))
    ensures Placed(Step(s, Handle(loop, true)))
  {
    var c := s.active[loop][0];
    assert Dispatchable(s, loop);
    SameQueuesKeepPlaced(s, Closed(s, loop));
    if loop == 0 {
      RemoveKeepsPlaced(Closed(s, loop), c);
    } else {
      PushKeepsPlaced(Closed(s, loop), Step(s, Handle(loop, true)), 0, RemoveJob(c));
    }
  }

  lemma AcceptKeepsPlaced(s: Server, fd: nat)
    requires Core(s) && Placed(s)
    ensures Placed(NewConnection(s, fd))
  {
    var r := NewConnection(s, fd);
    if Pick(s) == 0 { SameQueuesKeepPlaced(s, r); } else { PushKeepsPlaced(s, r, Pick(s), EstablishJob(|s.conns|)); }
  }

  /** A functor bound to an address is late as it is queued exactly if connectDestroyed is ahead. */
  lemma PushRawKeepsPlaced(s: Server, t: nat)
    requires Core(s) && Placed(s) && Enabled(s, PushRaw(t))
    ensures Placed(Step(s, PushRaw(t)))
  {
    var c, r := s.testing[t], Step(s, PushRaw(t));
    var l := s.conns[c].loop;
    var q := s.queues[l];
    assert multiset(q)[DestroyJob(c)] == Owed(s, l, DestroyJob(c));
    assert r.queues[l][..|q|] == q;
    PushKeepsPlaced(s, r, l, r.queues[l][|q|]);
  }

  lemma NotifyKeepsPlaced(s: Server, loop: nat, c: nat)
    requires Core(s) && Placed(s) && Enabled(s, Notify(loop, c))
    ensures Placed(Step(s, Notify(loop, c)))
  {
    var q := s.queues[loop];
    assert multiset(q)[DestroyJob(c)] == Owed(s, loop, DestroyJob(c));
    assert (q + [CallbackJob(c)])[..|q|] == q;
    PushKeepsPlaced(s, Step(s, Notify(loop, c)), loop, CallbackJob(c));
  }

  lemma StepKeepsPlaced(s: Server, a: Action)
    requires Core(s) && Placed(s) && Enabled(s, a)
    ensures Placed(Step(s, a))
  {
    match a
    case Accept(fd) => AcceptKeepsPlaced(s, fd);
    case Shutdown(_) => SameQueuesKeepPlaced(s, Step(s, a));
    case Test(_, _, _) => SameQueuesKeepPlaced(s, Step(s, a));
    case PushRaw(t) => PushRawKeepsPlaced(s, t);
    case PollReturns(_, _) => SameQueuesKeepPlaced(s, Step(s, a));
    case Handle(loop, closes) =>
      if closes { CloseKeepsPlaced(s, loop); } else { SameQueuesKeepPlaced(s, Step(s, a)); }
    case Swap(_) => SameQueuesKeepPlaced(s, Step(s, a));
    case RunJob(loop) => JobKeepsPlaced(s, loop);
    case RoundDone(_) => SameQueuesKeepPlaced(s, Step(s, a));
    case Notify(loop, c) => NotifyKeepsPlaced(s, loop, c);
  }

  // ---------------------------------------------------------------- what a step does to the connections

  /** What a step does to descriptors and to destruction. */
  lemma StepLives(s: Server, a: Action)
    requires Core(s) && Enabled(s, a)
    ensures SameLives(s, Step(s, a),
              if a.RunJob? && s.queues[a.loop][0].DestroyJob? then {s.queues[a.loop][0].c} else {})
    ensures |Step(s, a).conns| == |s.conns| + if a.Accept? then 1 else 0
    ensures a.Accept? ==> Step(s, a).conns[|s.conns|].fd == a.fd
  {
    if a.RunJob? {
      JobLives(s, a.loop);
    } else if a.Handle? {
      HandleLives(s, a.loop, a.closes);
    } else {
    }
  }

  lemma JobLives(s: Server, loop: nat)
    requires Core(s) && Enabled(s, RunJob(loop))
    ensures var job, r := s.queues[loop][0], Step(s, RunJob(loop));
      SameLives(s, r, if job.DestroyJob? then {job.c} else {}) && |r.conns| == |s.conns|
  {
    if Handoff(s.queues[loop][0]) { HeadIsOwed(s, loop); }
  }

  lemma HandleLives(s: Server, loop: nat, closes: bool)
    requires Core(s) && Enabled(s, Handle(loop, closes))
    ensures var r := Step(s, Handle(loop, closes)); SameLives(s, r, {}) && |r.conns| == |s.conns|
  {
    assert Dispatchable(s, loop);
  }

  // ---------------------------------------------------------------- who keeps a connection

  /** The holders of a connection, by name. */
  lemma OwnedIsKept(s: Server, c: nat)
    requires Core(s) && Placed(s) && Rounds(s) && c < |s.conns|
    ensures Owned(s, c) <==> Kept(s, c)
  {
    if s.conns[c].phase.Destroyed? {
      forall l | 0 <= l < |s.queues|
        ensures !HoldsIn(s.queues[l], c)
      {
        DestroyedIsNotQueued(s, l, c);
      }
      forall l | 0 <= l < |s.rounds|
        ensures HoldsIn(Held(s.rounds[l]), c) ==> Kept(s, c)
      {
        assert RoundFits(s, l);
      }
      assert forall q: seq<Job>, j :: j in q && j.c == c && !j.RawJob? ==> HoldsIn(q, c);
    } else if s.conns[c].phase.Destroying? {
      var l := s.conns[c].loop;
      assert multiset(s.queues[l])[DestroyJob(c)] == Owed(s, l, DestroyJob(c));
      assert DestroyJob(c) in s.queues[l];
      assert HoldsIn(s.queues[l], c);
    }
  }

  lemma DestroyedIsNotQueued(s: Server, l: nat, c: nat)
    requires Core(s) && Placed(s) && c < |s.conns| && s.conns[c].phase.Destroyed? && l < |s.queues|
    ensures !HoldsIn(s.queues[l], c)
  {
    forall i | 0 <= i < |s.queues[l]| && s.queues[l][i].c == c
      ensures s.queues[l][i].RawJob?
    {
      var j := s.queues[l][i];
      assert j in multiset(s.queues[l]);
      if !Handoff(j) { assert LooseFits(s, l, i); }
    }
  }

  // ---------------------------------------------------------------- steps keep rounds in step

  lemma HeldStaysFit(s: Server, r: Server, l: nat, held: seq<Job>)
    requires HeldFits(s, l, held) && SameLives(s, r, {})
    ensures HeldFits(r, l, held)
  {
  }

  /** Queues only grow and dispatch lists only shrink. */
  lemma GrowthKeepsRounds(s: Server, r: Server)
    requires Rounds(s) && SameLives(s, r, {}) && NoBaseRemoval(r)
    requires r.rounds == s.rounds && |r.queues| == |s.queues| && |r.active| == |s.active|
    requires forall l :: 0 <= l < |s.queues| ==> |r.queues[l]| >= |s.queues[l]|
    requires forall l :: 0 <= l < |s.active| ==> r.active[l] != [] ==> s.active[l] != []
    ensures Rounds(r)
  {
    forall l | 0 <= l < |r.rounds|
      ensures RoundFits(r, l)
    {
      assert RoundFits(s, l);
      if r.rounds[l].Batch? { HeldStaysFit(s, r, l, r.rounds[l].held); }
    }
  }

  lemma RoundStepKeepsRounds(s: Server, a: Action)
    requires Rounds(s) && Enabled(s, a) && (a.PollReturns? || a.Swap? || a.RoundDone?)
    ensures Rounds(Step(s, a))
  {
    var r := Step(s, a);
    forall l | 0 <= l < |r.rounds|
      ensures RoundFits(r, l)
    {
      assert RoundFits(s, l);
      if l != a.loop && r.rounds[l].Batch? { HeldStaysFit(s, r, l, r.rounds[l].held); }
    }
  }

  lemma QueuesOnlyGrow(s: Server, a: Action)
    requires Enabled(s, a) && !a.RunJob?
    ensures var r := Step(s, a);
      && |r.queues| == |s.queues| && |r.active| == |s.active|
      && (forall l :: 0 <= l < |s.queues| ==> |r.queues[l]| >= |s.queues[l]|)
      && (!a.PollReturns? && !a.Swap? && !a.RoundDone? ==>
            r.rounds == s.rounds
            && forall l :: 0 <= l < |s.active| ==> r.active[l] != [] ==> s.active[l] != [])
  {
  }

  lemma StepKeepsNoBaseRemoval(s: Server, a: Action)
    requires Core(s) && NoBaseRemoval(s) && Enabled(s, a)
    ensures NoBaseRemoval(Step(s, a))
  {
    if a.RunJob? {
      if Handoff(s.queues[a.loop][0]) { HeadIsOwed(s, a.loop); }
    } else if a.Handle? {
      assert Dispatchable(s, a.loop);
    }
  }

  lemma JobKeepsHeld(s: Server, loop: nat)
    requires Core(s) && Placed(s) && Enabled(s, RunJob(loop)) && HeldFits(s, loop, s.rounds[loop].held)
    ensures HeldFits(Step(s, RunJob(loop)), loop, s.rounds[loop].held + [s.queues[loop][0]])
  {
    var job := s.queues[loop][0];
    JobLives(s, loop);
    if Handoff(job) { HeadIsOwed(s, loop); } else { assert LooseFits(s, loop, 0); }
  }

  lemma JobKeepsOthersHeld(s: Server, loop: nat, l: nat, held: seq<Job>)
    requires Core(s) && Enabled(s, RunJob(loop)) && l != loop && HeldFits(s, l, held)
    ensures HeldFits(Step(s, RunJob(loop)), l, held)
  {
    JobLives(s, loop);
    if Handoff(s.queues[loop][0]) { HeadIsOwed(s, loop); }
  }

  lemma JobQueues(s: Server, loop: nat)
    requires Enabled(s, RunJob(loop))
    ensures var r := Step(s, RunJob(loop));
      && |r.queues| == |s.queues| && r.active == s.active
      && r.rounds == s.rounds[loop := Batch(s.rounds[loop].left - 1, s.rounds[loop].held + [s.queues[loop][0]])]
      && s.queues[loop][1..] <= r.queues[loop]
      && forall l :: 0 <= l < |s.queues| && l != loop ==>
           s.queues[l] <= r.queues[l] && |r.queues[l]| <= |s.queues[l]| + 1
  {
  }

  lemma JobKeepsRounds(s: Server, loop: nat)
    requires Core(s) && Placed(s) && Rounds(s) && Enabled(s, RunJob(loop))
    ensures Rounds(Step(s, RunJob(loop)))
  {
    var r := Step(s, RunJob(loop));
    JobQueues(s, loop);
    StepKeepsNoBaseRemoval(s, RunJob(loop));
    forall l | 0 <= l < |r.rounds|
      ensures RoundFits(r, l)
    {
      assert RoundFits(s, l);
      if l == loop {
        JobKeepsHeld(s, loop);
      } else if s.rounds[l].Batch? {
        JobKeepsOthersHeld(s, loop, l, s.rounds[l].held);
      }
    }
  }

  lemma StepKeepsRounds(s: Server, a: Action)
    requires Core(s) && Placed(s) && Rounds(s) && Enabled(s, a)
    ensures Rounds(Step(s, a))
  {
    if a.RunJob? {
      JobKeepsRounds(s, a.loop);
    } else if a.PollReturns? || a.Swap? || a.RoundDone? {
      RoundStepKeepsRounds(s, a);
    } else {
      QueuesOnlyGrow(s, a);
      StepLives(s, a);
      StepKeepsNoBaseRemoval(s, a);
      GrowthKeepsRounds(s, Step(s, a));
    }
  }

  // ---------------------------------------------------------------- steps keep descriptors apart

  /** A connection let go is never taken up again. */
  lemma KeptGoesBack(s: Server, a: Action, c: nat)
    requires Core(s) && Rounds(s) && Enabled(s, a) && c < |s.conns| <= |Step(s, a).conns| && Kept(Step(s, a), c)
    ensures Kept(s, c)
  {
    StepLives(s, a);
    if a.RunJob? {
      JobQueues(s, a.loop);
      if Handoff(s.queues[a.loop][0]) { HeadIsOwed(s, a.loop); }
    } else {
      HeldNeverGrows(s, a);
    }
  }

  lemma HeldNeverGrows(s: Server, a: Action)
    requires Enabled(s, a) && !a.RunJob?
    ensures var r := Step(s, a);
      |r.rounds| == |s.rounds| && forall l :: 0 <= l < |s.rounds| ==> Held(r.rounds[l]) <= Held(s.rounds[l])
  {
  }

  lemma StepKeepsDescriptors(s: Server, a: Action)
    requires Core(s) && Placed(s) && Rounds(s) && OwnDescriptors(s) && Enabled(s, a)
    ensures OwnDescriptors(Step(s, a))
  {
    StepLives(s, a);
    forall c | 0 <= c < |s.conns| && Kept(Step(s, a), c)
      ensures Kept(s, c) && (a.Accept? ==> s.conns[c].fd != a.fd)
    {
      KeptGoesBack(s, a, c);
      OwnedIsKept(s, c);
    }
  }

  lemma StepKeepsCore(s: Server, a: Action)
    requires Core(s) && Enabled(s, a)
    ensures Core(Step(s, a))
  {
    match a
    case Accept(fd) =>
      AcceptKeepsQueued(s, fd);
      AcceptKeepsNamed(s, fd);
      AcceptKeepsListed(s, fd);
      AcceptKeepsConforms(s, fd);
    case Shutdown(c) => ShutdownKeepsCore(s, c);
    case Test(t, c, shuts) => TestKeepsCore(s, t, c, shuts);
    case PushRaw(_) => LooseStepKeepsCore(s, a);
    case PollReturns(loop, ready) => PollKeepsCore(s, loop, ready);
    case Handle(loop, closes) => if closes { CloseKeepsCore(s, loop); } else { HandleKeepsCore(s, loop); }
    case Swap(_) => LooseStepKeepsCore(s, a);
    case RunJob(loop) => JobKeepsCore(s, loop);
    case RoundDone(_) => LooseStepKeepsCore(s, a);
    case Notify(_, _) => LooseStepKeepsCore(s, a);
  }

  lemma StepKeepsLoops(s: Server, a: Action)
    ensures var r := Next(s, a);
      && r.workers == s.workers && |s.conns| <= |r.conns| <= |s.conns| + 1
      && (forall c :: 0 <= c < |s.conns| ==> r.conns[c].loop == s.conns[c].loop)
      && (|r.conns| > |s.conns| ==> r.conns[|s.conns|].loop == Pick(s))
  {
    if Enabled(s, a) {
      if a.RunJob? {
        JobKeepsLoops(s, a.loop);
      } else if a.Handle? && a.closes {
        CloseKeepsLoops(s, a.loop);
      }
    }
  }

  lemma JobKeepsLoops(s: Server, loop: nat)
    requires Enabled(s, RunJob(loop))
    ensures var r := Step(s, RunJob(loop));
      && r.workers == s.workers && |r.conns| == |s.conns|
      && forall c :: 0 <= c < |s.conns| ==> r.conns[c].loop == s.conns[c].loop
  {
  }

  lemma CloseKeepsLoops(s: Server, loop: nat)
    requires Enabled(s, Handle(loop, true))
    ensures var r := Step(s, Handle(loop, true));
      && r.workers == s.workers && |r.conns| == |s.conns|
      && forall c :: 0 <= c < |s.conns| ==> r.conns[c].loop == s.conns[c].loop
  {
  }

  lemma StepKeepsInv(s: Server, a: Action)
    requires Inv(s)
    ensures Inv(Next(s, a)) && Next(s, a).workers == s.workers
  {
    StepKeepsLoops(s, a);
    if Enabled(s, a) {
      StepKeepsCore(s, a);
      StepKeepsPlaced(s, a);
      StepKeepsRounds(s, a);
      StepKeepsDescriptors(s, a);
    }
  }

  lemma NewServerInv(name: string, listen: Endpoint, workers: nat)
    requires listen.Valid()
    ensures Inv(NewServer(name, listen, workers))
  {
    var s := NewServer(name, listen, workers);
    forall k, j: Job | 0 <= k < |s.queues| && Handoff(j)
      ensures multiset(s.queues[k])[j] == Owed(s, k, j)
    {
      assert s.queues[k] == [];
    }
  }

  lemma {:induction false} RunKeepsInv(s: Server, acts: seq<Action>)
    requires Inv(s)
    ensures Inv(Run(s, acts)) && Run(s, acts).workers == s.workers
    decreases |acts|
  {
    if acts == [] {
    } else {
      RunKeepsInv(s, acts[..|acts| - 1]);
      StepKeepsInv(Run(s, acts[..|acts| - 1]), acts[|acts| - 1]);
    }
  }

  /** A server that any run of steps has brought here. */
  ghost predicate Reachable(s: Server) {
    exists name, listen: Endpoint, workers, acts :: listen.Valid() && s == Run(NewServer(name, listen, workers), acts)
  }

  lemma ReachableInv(s: Server)
    requires Reachable(s)
    ensures Inv(s)
  {
    var name, listen: Endpoint, workers, acts :| listen.Valid() && s == Run(NewServer(name, listen, workers), acts);
    NewServerInv(name, listen, workers);
    RunKeepsInv(NewServer(name, listen, workers), acts);
  }
}
