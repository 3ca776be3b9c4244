/** What every run of a server keeps: who holds a connection, which loop may touch what, that names
    and descriptors never clash, when a functor reaches a connection too late, and that a close
    always comes to its end. */
module ServerRuns {
  import opened ConnectionNames
  import ThreadPool
  import opened Connection
  import opened Polling
  import opened ServerLifecycle

  // ---------------------------------------------------------------- the handoff

  /** Until connectDestroyed has run the registry or the functor that will run it holds the
      connection; no functor that holds it waits afterwards, but it is held on by the batch in which
      connectDestroyed ran and by the base loop's batch in which it was erased, until those rounds
      end. Every functor of the handoff that waits is the one its phase owes, once, on its loop. */
  lemma OwnedUntilDestroyed(s: Server, c: nat)
    requires Reachable(s) && c < |s.conns|
    ensures var r := s.conns[c];
      && r.loop < |s.queues| == |s.rounds|
      && (!r.phase.Destroyed? <==>
            (r.name in s.registry && s.registry[r.name] == c) || DestroyJob(c) in s.queues[r.loop])
      && (r.phase.Destroyed? ==> forall l :: 0 <= l < |s.queues| ==> !HoldsIn(s.queues[l], c))
      && (Owned(s, c) <==>
            || !r.phase.Destroyed?
            || DestroyJob(c) in Held(s.rounds[r.loop])
            || RemoveJob(c) in Held(s.rounds[0]))
      && forall l, j: Job :: 0 <= l < |s.queues| && j.c == c && Handoff(j) ==>
           multiset(s.queues[l])[j] == Owed(s, l, j)
  {
    ReachableInv(s);
    var r := s.conns[c];
    assert multiset(s.queues[r.loop])[DestroyJob(c)] == Owed(s, r.loop, DestroyJob(c));
    assert DestroyJob(c) in s.queues[r.loop] <==> DestroyJob(c) in multiset(s.queues[r.loop]);
    OwnedIsKept(s, c);
    if r.phase.Destroyed? {
      forall l | 0 <= l < |s.queues|
        ensures !HoldsIn(s.queues[l], c)
      {
        DestroyedIsNotQueued(s, l, c);
      }
    }
  }

  /** The step of the handoff fixes the connection's state and its channel's registration. */
  lemma PhaseFixesState(s: Server, c: nat)
    requires Reachable(s) && c < |s.conns|
    ensures Fits(s.conns[c])
  {
    ReachableInv(s);
  }

  /** Channels the dispatch loop has yet to reach are registered and their connections live: none
      was removed from the poller or destroyed since poll returned. */
  lemma DispatchIsSafe(s: Server, loop: nat, i: nat)
    requires Reachable(s) && loop < |s.active| && i < |s.active[loop]|
    ensures var c := s.active[loop][i];
      c < |s.conns| && s.conns[c].index.Added? && s.conns[c].phase.Live? && s.conns[c].loop == loop
  {
    ReachableInv(s);
    assert Dispatchable(s, loop);
    assert Fits(s.conns[s.active[loop][i]]);
  }

  /** While a loop dispatches, none of its connections is destroyed: that waits for its functors. */
  lemma NothingDestroyedDuringDispatch(s: Server, a: Action, c: nat)
    requires Reachable(s) && c < |s.conns|
    requires s.conns[c].loop < |s.active| && s.active[s.conns[c].loop] != []
    ensures var r := Next(s, a); c < |r.conns| && (r.conns[c].phase.Destroyed? ==> s.conns[c].phase.Destroyed?)
  {
    ReachableInv(s);
    assert RoundFits(s, s.conns[c].loop);
    if Enabled(s, a) {
      StepLives(s, a);
      if a.RunJob? && s.queues[a.loop][0] == DestroyJob(c) { HeadIsOwed(s, a.loop); }
    }
  }

  function Rank(p: Phase): nat {
    match p case Establishing => 0 case Live => 1 case Removing => 2 case Destroying => 3 case Destroyed => 4
  }

  /** The handoff of one connection between two states: forward, same loop, same name. */
  predicate MovesOn(s: Server, r: Server, c: nat)
    requires c < |s.conns|
  {
    && c < |r.conns| && r.conns[c].loop == s.conns[c].loop && r.conns[c].name == s.conns[c].name
    && Rank(s.conns[c].phase) <= Rank(r.conns[c].phase)
  }

  lemma JobMovesOn(s: Server, loop: nat, c: nat)
    requires Inv(s) && c < |s.conns| && Enabled(s, RunJob(loop))
    ensures var r := Step(s, RunJob(loop));
      && MovesOn(s, r, c)
      && (r.conns[c].phase.Destroyed? && !s.conns[c].phase.Destroyed? ==>
            s.queues[loop][0] == DestroyJob(c) && s.conns[c].phase.Destroying?)
  {
    if Handoff(s.queues[loop][0]) { HeadIsOwed(s, loop); }
  }

  /** The handoff only moves on, a connection keeps its loop and its name throughout, and
      connectDestroyed runs once: no step but its own functor's ends in `Destroyed`. */
  lemma HandoffMovesOn(s: Server, a: Action, c: nat)
    requires Reachable(s) && c < |s.conns|
    ensures MovesOn(s, Next(s, a), c)
    ensures Next(s, a).conns[c].phase.Destroyed? && !s.conns[c].phase.Destroyed? ==>
      a.RunJob? && Enabled(s, a) && s.queues[a.loop][0] == DestroyJob(c) && s.conns[c].phase.Destroying?
  {
    ReachableInv(s);
    if Enabled(s, a) {
      if a.RunJob? {
        JobMovesOn(s, a.loop, c);
      } else if a.Handle? {
        HandleMovesOn(s, a.loop, a.closes, c);
      } else {
      }
    }
  }

  lemma HandleMovesOn(s: Server, loop: nat, closes: bool, c: nat)
    requires Inv(s) && c < |s.conns| && Enabled(s, Handle(loop, closes))
    ensures var r := Step(s, Handle(loop, closes));
      MovesOn(s, r, c) && (r.conns[c].phase.Destroyed? ==> s.conns[c].phase.Destroyed?)
  {
    assert Dispatchable(s, loop);
  }

  // ---------------------------------------------------------------- what each step does

  /** The step runs this functor. */
  predicate Runs(s: Server, a: Action, job: Job) { a.RunJob? && Enabled(s, a) && s.queues[a.loop][0] == job }

  /** The step handles an event that closes the connection. */
  predicate Closes(s: Server, a: Action, c: nat) {
    a.Handle? && Enabled(s, a) && a.closes && s.active[a.loop][0] == c
  }

  /** shutdown() on the connection, by whatever thread. */
  predicate Shuts(s: Server, a: Action, c: nat) {
    Enabled(s, a) && (a == Shutdown(c) || (a.Test? && a.c == c && a.shuts))
  }

  /** A connection's record after a step: established to kConnected by its own functor, to
      kDisconnecting by shutdown() alone, to kDisconnected by its close, on to erasure and
      destruction by their functors, and touched by nothing else. */
  function RecordAfter(s: Server, a: Action, c: nat): Record
    requires c < |s.conns|
  {
    var r := s.conns[c];
    if Runs(s, a, EstablishJob(c)) then r.(state := Connected, index := Added, phase := Live)
    else if Shuts(s, a, c) then r.(state := Disconnecting)
    else if Closes(s, a, c) then
      r.(state := Disconnected, index := Deleted, phase := if r.loop == 0 then Destroying else Removing)
    else if Runs(s, a, RemoveJob(c)) then r.(phase := Destroying)
    else if Runs(s, a, DestroyJob(c)) then r.(index := New, phase := Destroyed)
    else r
  }

  lemma RecordChanges(s: Server, a: Action, c: nat)
    requires Reachable(s) && c < |s.conns|
    ensures c < |Next(s, a).conns| && Next(s, a).conns[c] == RecordAfter(s, a, c)
  {
    ReachableInv(s);
    if Enabled(s, a) {
      if a.RunJob? {
        JobChanges(s, a.loop, c);
      } else if a.Handle? {
        HandleChanges(s, a.loop, a.closes, c);
      } else if a.Accept? {
        AcceptChanges(s, a.fd, c);
      } else {
      }
    }
  }

  lemma JobChanges(s: Server, loop: nat, c: nat)
    requires Inv(s) && c < |s.conns| && Enabled(s, RunJob(loop))
    ensures var r := Step(s, RunJob(loop)); c < |r.conns| && r.conns[c] == RecordAfter(s, RunJob(loop), c)
  {
    if Handoff(s.queues[loop][0]) { HeadIsOwed(s, loop); }
    assert Fits(s.conns[c]);
  }

  lemma HandleChanges(s: Server, loop: nat, closes: bool, c: nat)
    requires Inv(s) && c < |s.conns| && Enabled(s, Handle(loop, closes))
    ensures var r := Step(s, Handle(loop, closes));
      c < |r.conns| && r.conns[c] == RecordAfter(s, Handle(loop, closes), c)
  {
    assert Dispatchable(s, loop);
  }

  lemma AcceptChanges(s: Server, fd: nat, c: nat)
    requires c < |s.conns| && Enabled(s, Accept(fd))
    ensures var r := Step(s, Accept(fd)); c < |r.conns| && r.conns[c] == s.conns[c]
  {
  }

  /** An accepted connection: the next in line, on the next loop of the pool, under the next name; on
      the base loop it is established at once, on another by a functor queued there last. */
  lemma AcceptedConnection(s: Server, fd: nat)
    requires Reachable(s) && Enabled(s, Accept(fd))
    ensures var r := Next(s, Accept(fd)); var c := |s.conns|;
      var loop := if s.workers == 0 then 0 else c % s.workers + 1;
      var name := s.name + Suffix(s.listen, c + 1);
      && |r.conns| == c + 1 && r.conns[..c] == s.conns
      && r.registry == s.registry[name := c]
      && r.conns[c] == (if loop == 0 then Record(0, name, fd, Connected, Added, Live)
                        else Record(loop, name, fd, Connecting, New, Establishing))
      && r.queues == if loop == 0 then s.queues else s.queues[loop := s.queues[loop] + [EstablishJob(c)]]
  {
    ReachableInv(s);
    NameFits(s.name, s.listen, s.nextConnId);
    if s.workers > 0 { ThreadPool.NextIsRemainder(|s.conns|, s.workers); }
  }

  /** The functor a step queues, and where: removeConnectionInLoop for a close on a worker,
      connectDestroyed for one on the base loop or once erased, a bare send or shutdown late or not,
      a callback; nothing else. */
  function Queues(s: Server, a: Action, l: nat): seq<Job> {
    if !Enabled(s, a) then []
    else match a
      case Accept(_) => if s.workers > 0 && l == |s.conns| % s.workers + 1 then [EstablishJob(|s.conns|)] else []
      case Handle(loop, closes) =>
        if closes && l == 0 then [if loop == 0 then DestroyJob(s.active[0][0]) else RemoveJob(s.active[loop][0])]
        else []
      case RunJob(loop) =>
        var job := s.queues[loop][0];
        if job.RemoveJob? && l == s.conns[job.c].loop then [DestroyJob(job.c)] else []
      case PushRaw(t) =>
        var c := s.testing[t];
        if l == s.conns[c].loop then [RawJob(c, DestroyJob(c) in s.queues[l] || s.conns[c].phase.Destroyed?)] else []
      case Notify(loop, c) => if l == loop then [CallbackJob(c)] else []
      case _ => []
  }

  lemma QueueChanges(s: Server, a: Action, l: nat)
    requires Reachable(s) && l < |s.queues|
    ensures l < |Next(s, a).queues|
    ensures var kept := if a == RunJob(l) && Enabled(s, a) then s.queues[l][1..] else s.queues[l];
      Next(s, a).queues[l] == kept + Queues(s, a, l)
  {
    ReachableInv(s);
    if Enabled(s, a) {
      if a.RunJob? {
        JobQueueChanges(s, a.loop, l);
      } else if a.Handle? {
        HandleQueueChanges(s, a.loop, a.closes, l);
      } else if a.Accept? {
        AcceptedConnection(s, a.fd);
      } else if a.PushRaw? {
        LateWhenQueued(s, a.t);
      } else {
      }
    }
  }

  lemma JobQueueChanges(s: Server, loop: nat, l: nat)
    requires Inv(s) && l < |s.queues| && Enabled(s, RunJob(loop))
    ensures var r := Step(s, RunJob(loop));
      && l < |r.queues|
      && r.queues[l] == (if loop == l then s.queues[l][1..] else s.queues[l]) + Queues(s, RunJob(loop), l)
  {
  }

  lemma HandleQueueChanges(s: Server, loop: nat, closes: bool, l: nat)
    requires Inv(s) && l < |s.queues| && Enabled(s, Handle(loop, closes))
    ensures var r := Step(s, Handle(loop, closes));
      l < |r.queues| && r.queues[l] == s.queues[l] + Queues(s, Handle(loop, closes), l)
  {
    assert Dispatchable(s, loop);
  }

  /** Which threads are between the test of a connection's state and the queueing, and on what. */
  lemma TestingChanges(s: Server, a: Action)
    requires Reachable(s)
    ensures Next(s, a).testing == if a.Test? && Enabled(s, a) then s.testing[a.t := a.c]
                                  else if a.PushRaw? && Enabled(s, a) then s.testing - {a.t}
                                  else s.testing
  {
    ReachableInv(s);
    if a.RunJob? && Enabled(s, a) {
      JobStaysTesting(s, a.loop);
    }
  }

  lemma JobStaysTesting(s: Server, loop: nat)
    requires Enabled(s, RunJob(loop))
    ensures Step(s, RunJob(loop)).testing == s.testing
  {
  }

  /** shutdown() has been called on the connection, while it was kConnected, at some step of the run. */
  predicate ShutIn(s: Server, acts: seq<Action>, c: nat) {
    acts != [] && var n := |acts| - 1; ShutIn(s, acts[..n], c) || Shuts(Run(s, acts[..n]), acts[n], c)
  }

  /** A live connection is kConnected, on whichever loop, exactly when nobody has called shutdown()
      on it, and kDisconnecting otherwise. */
  lemma {:induction false} ConnectedUntilShut(name: string, listen: Endpoint, workers: nat, acts: seq<Action>, c: nat)
    requires listen.Valid()
    ensures var r := Run(NewServer(name, listen, workers), acts);
      c < |r.conns| && r.conns[c].phase.Live? ==>
        r.conns[c].state == if ShutIn(NewServer(name, listen, workers), acts, c) then Disconnecting else Connected
    ensures var r := Run(NewServer(name, listen, workers), acts);
      c >= |r.conns| || r.conns[c].phase.Establishing? ==> !ShutIn(NewServer(name, listen, workers), acts, c)
    decreases |acts|
  {
    var s := NewServer(name, listen, workers);
    if acts == [] {
    } else {
      var r, a := Run(s, acts[..|acts| - 1]), acts[|acts| - 1];
      ConnectedUntilShut(name, listen, workers, acts[..|acts| - 1], c);
      assert Reachable(r);
      if c < |r.conns| {
        RecordChanges(r, a, c);
        StepIntoLive(r, a, c);
      } else {
        NewIsUnshut(r, a, c);
      }
    }
  }

  lemma StepIntoLive(s: Server, a: Action, c: nat)
    requires Reachable(s) && c < |s.conns|
    ensures var d := RecordAfter(s, a, c); var p := s.conns[c].phase;
      && (d.phase.Live? ==> if Shuts(s, a, c) then d.state.Disconnecting?
                            else if p.Live? then d.state == s.conns[c].state else d.state.Connected?)
      && (d.phase.Live? ==> p.Live? || (p.Establishing? && !Shuts(s, a, c)))
      && (d.phase.Establishing? ==> p.Establishing? && !Shuts(s, a, c))
  {
    ReachableInv(s);
    assert Fits(s.conns[c]);
    if a.RunJob? && Enabled(s, a) && Handoff(s.queues[a.loop][0]) { HeadIsOwed(s, a.loop); }
  }

  lemma NewIsUnshut(s: Server, a: Action, c: nat)
    requires Reachable(s) && c >= |s.conns|
    ensures !Shuts(s, a, c)
    ensures var r := Next(s, a);
      c < |r.conns| ==> (r.conns[c].phase.Live? && r.conns[c].state.Connected?) || r.conns[c].phase.Establishing?
  {
    StepKeepsLoops(s, a);
    if a.Accept? && Enabled(s, a) { AcceptedConnection(s, a.fd); }
  }

  /** The connections a loop has handled in a run, in order. */
  function HandledBy(s: Server, acts: seq<Action>, loop: nat): seq<nat> {
    if acts == [] then []
    else
      var n := |acts| - 1; var r, a := Run(s, acts[..n]), acts[n];
      HandledBy(s, acts[..n], loop) + Handled(r, a, loop)
  }

  /** Every channel that poll reported is handled, once, in the order reported, before the loop goes
      on to its functors, whatever the other loops and threads do meanwhile. */
  lemma {:induction false} DispatchIsComplete(s: Server, loop: nat, ready: seq<nat>, acts: seq<Action>)
    requires Reachable(s) && Enabled(s, PollReturns(loop, ready)) && Swap(loop) !in acts
    ensures var r := Run(Next(s, PollReturns(loop, ready)), acts);
      var handled := HandledBy(Next(s, PollReturns(loop, ready)), acts, loop);
      && loop < |r.rounds| == |r.active| && r.rounds[loop].Dispatching?
      && handled + r.active[loop] == ready && (Enabled(r, Swap(loop)) <==> handled == ready)
  {
    var t := Next(s, PollReturns(loop, ready));
    ReachableInv(s);
    StepKeepsInv(s, PollReturns(loop, ready));
    RunKeepsInv(t, acts);
    DispatchSplits(t, loop, acts);
  }

  /** A dispatch list is what has been handled of it and what is left. */
  lemma {:induction false} DispatchSplits(t: Server, loop: nat, acts: seq<Action>)
    requires Inv(t) && loop < |t.rounds| && t.rounds[loop].Dispatching? && Swap(loop) !in acts
    ensures var r := Run(t, acts);
      && loop < |r.rounds| == |r.active| && r.rounds[loop].Dispatching?
      && HandledBy(t, acts, loop) + r.active[loop] == t.active[loop]
    decreases |acts|
  {
    if acts == [] {
    } else {
      var n := |acts| - 1;
      DispatchSplits(t, loop, acts[..n]);
      RunKeepsInv(t, acts[..n]);
      assert acts[n] in acts;
      DispatchGoesOn(Run(t, acts[..n]), acts[n], loop);
      MovesAcross(HandledBy(t, acts[..n], loop), Handled(Run(t, acts[..n]), acts[n], loop), Run(t, acts).active[loop]);
    }
  }

  lemma MovesAcross(a: seq<nat>, b: seq<nat>, c: seq<nat>)
    ensures a + (b + c) == (a + b) + c
  {
  }

  function Handled(s: Server, a: Action, loop: nat): seq<nat> {
    if a.Handle? && a.loop == loop && Enabled(s, a) then [s.active[loop][0]] else []
  }

  lemma DispatchGoesOn(s: Server, a: Action, loop: nat)
    requires LoopsExist(s) && loop < |s.rounds| && s.rounds[loop].Dispatching? && a != Swap(loop)
    ensures var r := Next(s, a);
      && loop < |r.rounds| == |r.active| && r.rounds[loop].Dispatching?
      && s.active[loop] == Handled(s, a, loop) + r.active[loop]
  {
    if Enabled(s, a) {
      if a.RunJob? {
        JobQueues(s, a.loop);
      } else if a.Handle? {
        HandleGoesOn(s, a.loop, a.closes);
      } else {
      }
    }
  }

  lemma HandleGoesOn(s: Server, loop: nat, closes: bool)
    requires Enabled(s, Handle(loop, closes))
    ensures var r := Step(s, Handle(loop, closes));
      && r.rounds == s.rounds && r.active == s.active[loop := s.active[loop][1..]]
      && s.active[loop] == [s.active[loop][0]] + s.active[loop][1..]
  {
  }

  lemma NamesArePairwiseDistinct(s: Server)
    requires Reachable(s)
    ensures forall c, d :: 0 <= c < d < |s.conns| ==> s.conns[c].name != s.conns[d].name
  {
    ReachableInv(s);
    forall c, d | 0 <= c < d < |s.conns|
      ensures s.conns[c].name != s.conns[d].name
    {
      NamesDiffer(s, c, d);
    }
  }

  /** Names being distinct, no step overwrites a registry entry, and the only entry a step can take
      out is that of the connection whose removal it carries out. */
  lemma RegistryIsExact(s: Server, a: Action, n: string)
    requires Reachable(s) && n in s.registry
    ensures var c, r := s.registry[n], Next(s, a);
      && c < |s.conns| && c < |r.conns| && s.conns[c].name == n && InRegistry(s.conns[c].phase)
      && if n in r.registry then r.registry[n] == c else r.conns[c].phase == Destroying
  {
    ReachableInv(s);
    if Enabled(s, a) {
      if a.Accept? {
        NewNameIsFree(s);
      } else if a.RunJob? {
        JobErasesOwn(s, a.loop, n);
      } else if a.Handle? {
        CloseErasesOwn(s, a.loop, a.closes, n);
      }
    }
  }

  /** The entry for `n` survives, unless its connection is the one being removed. */
  predicate ErasesOwn(s: Server, r: Server, n: string)
    requires n in s.registry
  {
    var c := s.registry[n];
    c < |r.conns| && if n in r.registry then r.registry[n] == c else r.conns[c].phase == Destroying
  }

  lemma JobErasesOwn(s: Server, loop: nat, n: string)
    requires Inv(s) && Enabled(s, RunJob(loop)) && n in s.registry
    ensures ErasesOwn(s, Step(s, RunJob(loop)), n)
  {
    if Handoff(s.queues[loop][0]) { HeadIsOwed(s, loop); }
  }

  lemma CloseErasesOwn(s: Server, loop: nat, closes: bool, n: string)
    requires Inv(s) && Enabled(s, Handle(loop, closes)) && n in s.registry
    ensures ErasesOwn(s, Step(s, Handle(loop, closes)), n)
  {
    assert Dispatchable(s, loop);
  }

  /** Connection k goes to the base loop when there are no workers, else to worker k mod n: the
      fairness of the pool is the fairness of the server. */
  predicate Spread(s: Server) {
    forall c :: 0 <= c < |s.conns| ==>
      s.conns[c].loop == if s.workers == 0 then 0 else c % s.workers + 1
  }

  lemma {:induction false} ConnectionsAreSpread(s: Server, acts: seq<Action>)
    requires Inv(s) && s.conns == []
    ensures Spread(Run(s, acts))
    decreases |acts|
  {
    if acts == [] {
    } else {
      var r, a := Run(s, acts[..|acts| - 1]), acts[|acts| - 1];
      ConnectionsAreSpread(s, acts[..|acts| - 1]);
      RunKeepsInv(s, acts[..|acts| - 1]);
      StepKeepsSpread(r, a);
    }
  }

  lemma StepKeepsSpread(s: Server, a: Action)
    requires Named(s) && Spread(s)
    ensures Spread(Next(s, a))
  {
    if s.workers > 0 { ThreadPool.NextIsRemainder(|s.conns|, s.workers); }
    StepKeepsLoops(s, a);
  }

  /** The loop whose thread takes a step, if it must be a loop's. */
  function RunsOn(a: Action): Option<nat> {
    match a
    case Accept(_) => Some(0)
    case PollReturns(loop, _) => Some(loop)
    case Handle(loop, _) => Some(loop)
    case Swap(loop) => Some(loop)
    case RunJob(loop) => Some(loop)
    case RoundDone(loop) => Some(loop)
    case Notify(loop, _) => Some(loop)
    case Shutdown(_) => None
    case Test(_, _, _) => None
    case PushRaw(_) => None
  }

  /** One loop, one thread: the registry is touched on the base loop only, and a connection's state
      and registration on its own loop only. */
  lemma LoopAffinity(s: Server, a: Action)
    requires Reachable(s) && Enabled(s, a) && RunsOn(a).Some?
    ensures var r := Step(s, a); var loop := RunsOn(a).value;
      && |s.conns| <= |r.conns|
      && (r.registry != s.registry || |r.conns| > |s.conns| ==> loop == 0)
      && (forall c :: 0 <= c < |s.conns| && r.conns[c].(phase := s.conns[c].phase) != s.conns[c] ==>
            s.conns[c].loop == loop)
      && (forall c :: |s.conns| <= c < |r.conns| && !r.conns[c].state.Connecting? ==> r.conns[c].loop == loop)
  {
    ReachableInv(s);
    if a.RunJob? {
      JobAffinity(s, a.loop);
    } else if a.Handle? {
      HandleAffinity(s, a.loop, a.closes);
    }
  }

  lemma HandleAffinity(s: Server, loop: nat, closes: bool)
    requires Inv(s) && Enabled(s, Handle(loop, closes))
    ensures var r := Step(s, Handle(loop, closes));
      && |r.conns| == |s.conns| && (r.registry != s.registry ==> loop == 0)
      && forall c :: 0 <= c < |s.conns| && r.conns[c] != s.conns[c] ==> s.conns[c].loop == loop
  {
    assert Dispatchable(s, loop);
  }

  lemma JobAffinity(s: Server, loop: nat)
    requires Inv(s) && Enabled(s, RunJob(loop))
    ensures var r := Step(s, RunJob(loop));
      && |r.conns| == |s.conns| && (r.registry != s.registry ==> loop == 0)
      && forall c :: 0 <= c < |s.conns| && r.conns[c].(phase := s.conns[c].phase) != s.conns[c] ==>
           s.conns[c].loop == loop
  {
    if Handoff(s.queues[loop][0]) { HeadIsOwed(s, loop); }
  }

  /** send and shutdown, which any thread may call, change nothing but an atomic state, and that of
      one connected connection only. */
  lemma ThreadsTouchStateOnly(s: Server, a: Action)
    requires Enabled(s, a) && RunsOn(a).None?
    ensures var r := Step(s, a);
      && r.registry == s.registry && r.active == s.active && |r.conns| == |s.conns|
      && forall c :: 0 <= c < |s.conns| ==>
           || r.conns[c] == s.conns[c]
           || (s.conns[c].state.Connected? && r.conns[c] == s.conns[c].(state := Disconnecting))
  {
  }

  /** All that one loop, or any other thread, does to a loop is to append functors to its queue. */
  lemma OthersGetFunctorsOnly(s: Server, a: Action)
    requires Enabled(s, a)
    ensures var r := Step(s, a);
      && |r.queues| == |s.queues| && |r.active| == |s.active| && |r.rounds| == |s.rounds|
      && forall l: nat :: l < |s.queues| && RunsOn(a) != Some(l) ==> OnlyGrows(s, r, l)
  {
    if a.RunJob? {
      JobQueues(s, a.loop);
    } else if a.Handle? && a.closes {
      CloseQueues(s, a.loop);
    }
  }

  predicate OnlyGrows(s: Server, r: Server, l: nat)
    requires l < |s.queues| == |s.active| == |s.rounds| && l < |r.queues| && l < |r.active| && l < |r.rounds|
  { r.active[l] == s.active[l] && r.rounds[l] == s.rounds[l] && s.queues[l] <= r.queues[l] }

  lemma CloseQueues(s: Server, loop: nat)
    requires Enabled(s, Handle(loop, true))
    ensures var r := Step(s, Handle(loop, true));
      && |r.queues| == |s.queues| && |r.active| == |s.active| && |r.rounds| == |s.rounds|
      && forall l: nat :: l < |s.queues| && l != loop ==> OnlyGrows(s, r, l)
  {
  }

  /** When every queue has run dry no connection is stuck half closed. */
  lemma NothingStuck(s: Server, c: nat)
    requires Reachable(s) && c < |s.conns| && (forall l :: 0 <= l < |s.queues| ==> s.queues[l] == [])
    ensures s.conns[c].phase.Live? || s.conns[c].phase.Destroyed?
  {
    ReachableInv(s);
    var l := s.conns[c].loop;
    assert multiset(s.queues[l])[EstablishJob(c)] == Owed(s, l, EstablishJob(c));
    assert multiset(s.queues[0])[RemoveJob(c)] == Owed(s, 0, RemoveJob(c));
    assert multiset(s.queues[l])[DestroyJob(c)] == Owed(s, l, DestroyJob(c));
  }

  // ---------------------------------------------------------------- descriptors

  /** No two registered channels of any loop, indeed no two connections that anything still holds,
      have the same descriptor, however often descriptors are used again. */
  lemma DescriptorsApart(s: Server, c: nat, d: nat)
    requires Reachable(s) && c < |s.conns| && d < |s.conns| && c != d
    ensures Owned(s, c) && Owned(s, d) ==> s.conns[c].fd != s.conns[d].fd
    ensures !s.conns[c].index.New? && !s.conns[d].index.New? ==> s.conns[c].fd != s.conns[d].fd
  {
    ReachableInv(s);
    assert Fits(s.conns[c]) && Fits(s.conns[d]);
    OwnedIsKept(s, c);
    OwnedIsKept(s, d);
  }

  /** The last pointer to a connection goes, and its descriptor is closed, at exactly one kind of
      step: a round ends, connectDestroyed has run, and no other loop's batch holds the connection.
      In particular never as connectDestroyed runs. */
  lemma DescriptorFreedExactly(s: Server, a: Action, c: nat)
    requires Reachable(s) && c < |s.conns| && Owned(s, c)
    ensures var r := Next(s, a); c < |r.conns| && (!Owned(r, c) <==>
      && a.RoundDone? && Enabled(s, a) && s.conns[c].phase.Destroyed?
      && forall l: nat :: l < |s.rounds| && l != a.loop ==> !HoldsIn(Held(s.rounds[l]), c))
    ensures !Owned(Next(s, a), c) ==> Unused(Next(s, a), s.conns[c].fd)
  {
    ReachableInv(s);
    StepKeepsInv(s, a);
    OwnedIsKept(s, c);
    if Enabled(s, a) {
      StepLives(s, a);
      OwnedIsKept(Step(s, a), c);
      if a.RoundDone? {
        RoundDoneFrees(s, a.loop, c);
        NobodyElseHas(s, a, c);
      } else {
        StaysKept(s, a, c);
      }
    }
  }

  lemma NobodyElseHas(s: Server, a: Action, c: nat)
    requires Inv(s) && Enabled(s, a) && a.RoundDone? && c < |s.conns| && Kept(s, c)
    ensures !Owned(Step(s, a), c) ==> Unused(Step(s, a), s.conns[c].fd)
  {
    StepKeepsInv(s, a);
    forall d | 0 <= d < |s.conns| && Owned(Step(s, a), d)
      ensures Kept(s, d)
    {
      OwnedIsKept(Step(s, a), d);
      KeptGoesBack(s, a, d);
    }
  }

  lemma StaysKept(s: Server, a: Action, c: nat)
    requires Inv(s) && Enabled(s, a) && !a.RoundDone? && c < |s.conns| && Kept(s, c)
    ensures c < |Step(s, a).conns| && Kept(Step(s, a), c)
  {
    StepLives(s, a);
    if a.RunJob? {
      JobQueues(s, a.loop);
      if Handoff(s.queues[a.loop][0]) { HeadIsOwed(s, a.loop); }
    } else {
      BatchesStay(s, a);
    }
  }

  lemma BatchesStay(s: Server, a: Action)
    requires Enabled(s, a) && !a.RoundDone? && !a.RunJob?
    ensures |Step(s, a).rounds| == |s.rounds|
    ensures forall l :: 0 <= l < |s.rounds| ==> Held(Step(s, a).rounds[l]) == Held(s.rounds[l])
  {
  }

  lemma RoundDoneFrees(s: Server, loop: nat, c: nat)
    requires Inv(s) && Enabled(s, RoundDone(loop)) && c < |s.conns|
    ensures Kept(Step(s, RoundDone(loop)), c) <==>
      || !s.conns[c].phase.Destroyed?
      || exists l: nat :: l < |s.rounds| && l != loop && HoldsIn(Held(s.rounds[l]), c)
  {
    var r := Step(s, RoundDone(loop));
    assert forall q: seq<Job>, j :: j in q && j.c == c && !j.RawJob? ==> HoldsIn(q, c);
    forall l: nat | l < |s.rounds| && l != loop && s.conns[c].phase.Destroyed?
      ensures HoldsIn(Held(s.rounds[l]), c) ==> Kept(r, c)
    {
      assert RoundFits(s, l) && r.rounds[l] == s.rounds[l];
    }
  }

  /** And once let go a connection is never held again. */
  lemma {:induction false} FreedForGood(s: Server, acts: seq<Action>, c: nat)
    requires Inv(s) && c < |s.conns| && !Owned(s, c)
    ensures Inv(Run(s, acts)) && c < |Run(s, acts).conns| && !Owned(Run(s, acts), c)
    decreases |acts|
  {
    if acts == [] {
    } else {
      var r, a := Run(s, acts[..|acts| - 1]), acts[|acts| - 1];
      FreedForGood(s, acts[..|acts| - 1], c);
      StepKeepsInv(r, a);
      if Enabled(r, a) {
        StepLives(r, a);
        OwnedIsKept(r, c);
        OwnedIsKept(Step(r, a), c);
        if Kept(Step(r, a), c) { KeptGoesBack(r, a, c); }
      }
    }
  }

  // ---------------------------------------------------------------- functors bound to a bare address

  /** sendInLoop or shutdownInLoop queued by another thread runs on a destroyed connection exactly
      when connectDestroyed had been queued before it. */
  lemma LateExactly(s: Server, loop: nat)
    requires Reachable(s) && loop < |s.queues| && s.queues[loop] != [] && s.queues[loop][0].RawJob?
    ensures var job := s.queues[loop][0];
      && job.c < |s.conns| && s.conns[job.c].loop == loop
      && (s.conns[job.c].phase.Destroyed? <==> job.late)
  {
    ReachableInv(s);
    assert LooseFits(s, loop, 0);
  }

  /** It finds no object there at all exactly when, besides, the round that ran connectDestroyed is
      over and so is the base loop's that erased the connection: behind connectDestroyed in the same
      batch the object still exists. */
  lemma DanglesExactly(s: Server, loop: nat)
    requires Reachable(s) && Enabled(s, RunJob(loop)) && s.queues[loop][0].RawJob?
    ensures var job := s.queues[loop][0];
      !Owned(s, job.c) <==>
        job.late && DestroyJob(job.c) !in s.rounds[loop].held && RemoveJob(job.c) !in Held(s.rounds[0])
  {
    LateExactly(s, loop);
    ReachableInv(s);
    OwnedIsKept(s, s.queues[loop][0].c);
  }

  /** What `late` records: whether connectDestroyed waits in the queue or has run already. */
  lemma LateWhenQueued(s: Server, t: nat)
    requires Reachable(s) && Enabled(s, PushRaw(t))
    ensures var c := s.testing[t]; var l := s.conns[c].loop; var q := s.queues[l];
      Next(s, PushRaw(t)).queues[l] == q + [RawJob(c, DestroyJob(c) in q || s.conns[c].phase.Destroyed?)]
  {
    ReachableInv(s);
    var c := s.testing[t];
    var q := s.queues[s.conns[c].loop];
    assert multiset(q)[DestroyJob(c)] == Owed(s, s.conns[c].loop, DestroyJob(c));
    assert DestroyJob(c) in q <==> DestroyJob(c) in multiset(q);
  }

  predicate NoneBound(s: Server, c: nat) {
    forall l, i :: 0 <= l < |s.queues| && 0 <= i < |s.queues[l]| && s.queues[l][i].RawJob? ==> s.queues[l][i].c != c
  }

  /** Destroyed, and nothing in the queues or on the way there still has its address. */
  predicate OutOfReach(s: Server, c: nat) {
    && c < |s.conns| && s.conns[c].phase.Destroyed? && s.conns[c].state.Disconnected?
    && (forall t <- s.testing :: s.testing[t] != c) && NoneBound(s, c)
  }

  lemma StaysOutOfReach(s: Server, a: Action, c: nat)
    requires Inv(s) && OutOfReach(s, c)
    ensures OutOfReach(Next(s, a), c)
  {
    if Enabled(s, a) {
      StepLives(s, a);
      StepKeepsCore(s, a);
      assert Fits(Step(s, a).conns[c]);
      QueuesStayUnbound(s, a, c);
    }
  }

  lemma QueuesStayUnbound(s: Server, a: Action, c: nat)
    requires OutOfReach(s, c) && Enabled(s, a)
    ensures NoneBound(Step(s, a), c) && forall t <- Step(s, a).testing :: Step(s, a).testing[t] != c
  {
    if a.RunJob? {
      JobStaysUnbound(s, a.loop, c);
    } else if a.Handle? {
      HandleStaysUnbound(s, a.loop, a.closes, c);
    }
  }

  lemma HandleStaysUnbound(s: Server, loop: nat, closes: bool, c: nat)
    requires NoneBound(s, c) && Enabled(s, Handle(loop, closes))
    ensures NoneBound(Step(s, Handle(loop, closes)), c) && Step(s, Handle(loop, closes)).testing == s.testing
  {
  }

  lemma JobStaysUnbound(s: Server, loop: nat, c: nat)
    requires NoneBound(s, c) && Enabled(s, RunJob(loop))
    ensures NoneBound(Step(s, RunJob(loop)), c) && Step(s, RunJob(loop)).testing == s.testing
  {
  }

  lemma {:induction false} RunStaysOutOfReach(s: Server, acts: seq<Action>, c: nat)
    requires Inv(s) && OutOfReach(s, c)
    ensures OutOfReach(Run(s, acts), c)
    decreases |acts|
  {
    if acts == [] {
    } else {
      RunStaysOutOfReach(s, acts[..|acts| - 1], c);
      RunKeepsInv(s, acts[..|acts| - 1]);
      StaysOutOfReach(Run(s, acts[..|acts| - 1]), acts[|acts| - 1], c);
    }
  }

  /** Once a connection is destroyed and no functor waits for it, none ever will exactly when no
      thread is caught between the test of its state and the queueing. */
  lemma NoLateFunctorExactly(s: Server, c: nat)
    requires Reachable(s) && c < |s.conns| && s.conns[c].phase.Destroyed? && NoneBound(s, c)
    ensures (forall acts :: NoneBound(Run(s, acts), c)) <==> forall t <- s.testing :: s.testing[t] != c
  {
    ReachableInv(s);
    assert Fits(s.conns[c]);
    if t :| t in s.testing && s.testing[t] == c {
      var r, l := Next(s, PushRaw(t)), s.conns[c].loop;
      assert ([] + [PushRaw(t)])[..0] == [];
      assert Run(s, []) == s && Run(s, [] + [PushRaw(t)]) == r;
      assert r.queues[l][|s.queues[l]|].RawJob? && r.queues[l][|s.queues[l]|].c == c;
      assert !NoneBound(Run(s, [] + [PushRaw(t)]), c);
    } else {
      forall acts
        ensures NoneBound(Run(s, acts), c)
      {
        RunStaysOutOfReach(s, acts, c);
      }
    }
  }

  lemma StepIsReachable(s: Server, a: Action)
    requires Reachable(s)
    ensures Reachable(Next(s, a))
  {
    var name, listen: Endpoint, workers, acts :| listen.Valid() && s == Run(NewServer(name, listen, workers), acts);
    assert (acts + [a])[..|acts|] == acts;
    assert Next(s, a) == Run(NewServer(name, listen, workers), acts + [a]);
  }

  /** A server of one loop and one connection, with thread 0 between the test and the queueing. */
  predicate Caught(s: Server, phase: Phase, queue: seq<Job>, active: seq<nat>, round: Round) {
    && LoopsExist(s) && s.workers == 0 && |s.conns| == 1 && s.conns[0].phase == phase && Fits(s.conns[0])
    && s.queues == [queue] && s.active == [active] && s.rounds == [round] && s.testing == map[0 := 0]
  }

  lemma Accepted(s: Server, name: string, listen: Endpoint, fd: nat) returns (r: Server)
    requires Reachable(s) && s == NewServer(name, listen, 0)
    ensures Reachable(r) && Caught(r, Live, [], [], Dispatching)
  {
    var t := Next(s, PollReturns(0, []));
    StepIsReachable(s, PollReturns(0, []));
    assert t.queues == [[]] && t.active == [[]] && t.rounds == [Dispatching];
    StepIsReachable(t, Accept(fd));
    r := Next(Next(t, Accept(fd)), Test(0, 0, false));
    StepIsReachable(Next(t, Accept(fd)), Test(0, 0, false));
  }

  lemma CaughtPolling(s: Server, phase: Phase, queue: seq<Job>, ready: seq<nat>)
    requires Caught(s, phase, queue, [], AtPoll) && CanReport(s, 0, ready)
    ensures Caught(Next(s, PollReturns(0, ready)), phase, queue, ready, Dispatching)
  {
    assert Next(s, PollReturns(0, ready)).rounds == [Dispatching];
  }

  lemma CaughtSwapping(s: Server, phase: Phase, queue: seq<Job>)
    requires Caught(s, phase, queue, [], Dispatching)
    ensures Caught(Next(s, Swap(0)), phase, queue, [], Batch(|queue|, []))
  {
    assert Next(s, Swap(0)).rounds == [Batch(|queue|, [])];
  }

  lemma CaughtDone(s: Server, phase: Phase, held: seq<Job>)
    requires Caught(s, phase, [], [], Batch(0, held))
    ensures Caught(Next(s, RoundDone(0)), phase, [], [], AtPoll)
  {
    assert Next(s, RoundDone(0)).rounds == [AtPoll];
  }

  lemma CaughtClosing(s: Server)
    requires Caught(s, Live, [], [0], Dispatching)
    ensures Caught(Next(s, Handle(0, true)), Destroying, [DestroyJob(0)], [], Dispatching)
  {
    var r := Next(s, Handle(0, true));
    assert [0][1..] == [] && s.conns[0].loop == 0 && [] + [DestroyJob(0)] == [DestroyJob(0)];
    assert r.queues == [[DestroyJob(0)]] && r.active == [[]];
  }

  lemma CaughtDestroyed(s: Server)
    requires Caught(s, Destroying, [DestroyJob(0)], [], Batch(1, []))
    ensures Caught(Next(s, RunJob(0)), Destroyed, [], [], Batch(0, [DestroyJob(0)]))
  {
    var r := Next(s, RunJob(0));
    assert [] + [DestroyJob(0)] == [DestroyJob(0)] && [DestroyJob(0)][1..] == [];
    assert r.queues == [[]] && r.rounds == [Batch(0, [DestroyJob(0)])];
  }

  lemma QueuedTooLate(s: Server)
    requires Caught(s, Destroyed, [], [], AtPoll)
    ensures var r := Next(s, PushRaw(0)).(testing := s.testing); Caught(r, Destroyed, [RawJob(0, true)], [], AtPoll)
  {
    assert s.conns[0].loop == 0 && [] + [RawJob(0, true)] == [RawJob(0, true)];
    assert Next(s, PushRaw(0)).queues == [[RawJob(0, true)]];
  }

  /** The loop goes round with nothing to do, and its connection closes in the next dispatch. */
  lemma ClosedNextRound(s: Server) returns (r: Server)
    requires Reachable(s) && Caught(s, Live, [], [], Dispatching)
    ensures Reachable(r) && Caught(r, Destroying, [DestroyJob(0)], [], Dispatching)
  {
    CaughtSwapping(s, Live, []);
    StepIsReachable(s, Swap(0));
    r := Next(s, Swap(0));
    CaughtDone(r, Live, []);
    StepIsReachable(r, RoundDone(0));
    r := Next(r, RoundDone(0));
    assert r.conns[0].loop == 0;
    CaughtPolling(r, Live, [], [0]);
    StepIsReachable(r, PollReturns(0, [0]));
    r := Next(r, PollReturns(0, [0]));
    CaughtClosing(r);
    StepIsReachable(r, Handle(0, true));
    r := Next(r, Handle(0, true));
  }

  lemma DestroyedAndLetGo(s: Server) returns (r: Server)
    requires Reachable(s) && Caught(s, Destroying, [DestroyJob(0)], [], Dispatching)
    ensures Reachable(r) && Caught(r, Destroyed, [], [], AtPoll)
  {
    CaughtSwapping(s, Destroying, [DestroyJob(0)]);
    StepIsReachable(s, Swap(0));
    r := Next(s, Swap(0));
    CaughtDestroyed(r);
    StepIsReachable(r, RunJob(0));
    r := Next(r, RunJob(0));
    CaughtDone(r, Destroyed, [DestroyJob(0)]);
    StepIsReachable(r, RoundDone(0));
    r := Next(r, RoundDone(0));
  }

  lemma LateNextRound(s: Server) returns (r: Server)
    requires Reachable(s) && Caught(s, Destroyed, [], [], AtPoll)
    ensures Reachable(r) && |r.conns| == 1 && Enabled(r, RunJob(0)) && r.queues[0][0] == RawJob(0, true)
    ensures r.rounds == [Batch(1, [])]
  {
    QueuedTooLate(s);
    StepIsReachable(s, PushRaw(0));
    r := Next(s, PushRaw(0));
    StepIsReachable(r, PollReturns(0, []));
    var t := Next(r, PollReturns(0, []));
    assert t.rounds == [Dispatching] && t.active == [[]] && t.queues == r.queues;
    StepIsReachable(t, Swap(0));
    r := Next(t, Swap(0));
    assert r.rounds == [Batch(1, [])];
  }

  /** And it does happen, with one loop and whatever descriptor: accepted, tested, closed, destroyed,
      let go, and only then queued. */
  lemma LateFunctorOccurs(name: string, listen: Endpoint, fd: nat)
    requires listen.Valid()
    ensures exists s :: Reachable(s) && Enabled(s, RunJob(0)) && s.queues[0][0] == RawJob(0, true)
              && |s.conns| == 1 && !Owned(s, 0)
  {
    var s := NewServer(name, listen, 0);
    assert s == Run(s, []);
    assert Reachable(s);
    var r := Accepted(s, name, listen, fd);
    r := ClosedNextRound(r);
    r := DestroyedAndLetGo(r);
    r := LateNextRound(r);
    DanglesExactly(r, 0);
  }

  // ---------------------------------------------------------------- a close comes to its end

  /** What a loop does next when nothing new happens: no event is reported, none of those reported
      closes a connection. */
  function Drive(s: Server, l: nat): Action
    requires l < |s.rounds| == |s.active|
  {
    match s.rounds[l]
    case AtPoll => PollReturns(l, [])
    case Dispatching => if s.active[l] != [] then Handle(l, false) else Swap(l)
    case Batch(left, _) => if left > 0 then RunJob(l) else RoundDone(l)
  }

  predicate OnItsOwn(a: Action, l: nat) {
    a == PollReturns(l, []) || a == Handle(l, false) || a == Swap(l) || a == RunJob(l) || a == RoundDone(l)
  }

  /** Steps of a loop until the functor at place `p` of its queue is the next to run. */
  function Ahead(round: Round, toHandle: nat, p: nat): nat {
    match round
    case AtPoll => p + 2
    case Dispatching => toHandle + 1 + p
    case Batch(left, _) => if p < left then p else p + 3
  }

  function StepsAhead(s: Server, l: nat, p: nat): nat
    requires l < |s.rounds| == |s.active|
  { Ahead(s.rounds[l], |s.active[l]|, p) }

  /** The other loops see at most `k` more functors each. */
  predicate Elsewhere(s: Server, r: Server, l: nat, k: nat) {
    && |r.queues| == |s.queues| == |s.active| == |r.active| == |s.rounds| == |r.rounds|
    && forall w: nat :: w < |s.queues| && w != l ==>
         OnlyGrows(s, r, w) && |r.queues[w]| <= |s.queues[w]| + k
  }

  /** Every connection is at least as far on, on the same loop. */
  predicate AllMoveOn(s: Server, r: Server) { forall c :: 0 <= c < |s.conns| ==> MovesOn(s, r, c) }

  lemma DriveIsEnabled(s: Server, l: nat)
    requires Inv(s) && l < |s.rounds|
    ensures Enabled(s, Drive(s, l)) && OnItsOwn(Drive(s, l), l)
  {
    assert RoundFits(s, l) && Dispatchable(s, l);
    if s.rounds[l].Batch? && s.rounds[l].left > 0 {
      if Handoff(s.queues[l][0]) { HeadIsOwed(s, l); } else { assert LooseFits(s, l, 0); }
    }
  }

  lemma DriveElsewhere(s: Server, l: nat)
    requires Inv(s) && l < |s.rounds|
    ensures Enabled(s, Drive(s, l))
    ensures var r := Step(s, Drive(s, l));
      Elsewhere(s, r, l, if Drive(s, l).RunJob? then 1 else 0) && AllMoveOn(s, r) && Inv(r)
  {
    DriveIsEnabled(s, l);
    var a := Drive(s, l);
    StepKeepsInv(s, a);
    if a.RunJob? { JobQueues(s, l); }
    forall c | 0 <= c < |s.conns|
      ensures MovesOn(s, Step(s, a), c)
    {
      if a.RunJob? { JobMovesOn(s, l, c); }
    }
  }

  /** One step of the loop brings the functor one step nearer. */
  lemma DriveStep(s: Server, l: nat, p: nat)
    requires Inv(s) && l < |s.rounds| && p < |s.queues[l]| && StepsAhead(s, l, p) > 0
    ensures var a := Drive(s, l);
      && Enabled(s, a)
      && var r := Step(s, a); var q := if a.RunJob? then p - 1 else p;
        && 0 <= q && l < |r.queues| == |r.rounds| == |r.active| && q < |r.queues[l]| && r.queues[l][q] == s.queues[l][p]
        && StepsAhead(r, l, q) + 1 == StepsAhead(s, l, p)
  {
    DriveIsEnabled(s, l);
    assert RoundFits(s, l);
    if Drive(s, l).RunJob? {
      JobQueues(s, l);
      assert s.queues[l][1..][p - 1] == s.queues[l][p];
    }
  }

  lemma {:induction false} RunFromFirst(s: Server, a: Action, acts: seq<Action>)
    ensures Run(s, [a] + acts) == Run(Next(s, a), acts)
    decreases |acts|
  {
    if acts == [] {
      assert [a][..0] == [] && [a] + [] == [a];
      assert Run(s, [a]) == Next(Run(s, []), a);
    } else {
      var front, last := acts[..|acts| - 1], acts[|acts| - 1];
      RunFromFirst(s, a, front);
      assert ([a] + acts)[..|acts|] == [a] + front && ([a] + acts)[|acts|] == last;
    }
  }

  lemma ElsewhereJoins(s: Server, t: Server, r: Server, l: nat, j: nat, k: nat)
    requires Elsewhere(s, t, l, j) && Elsewhere(t, r, l, k) && AllMoveOn(s, t) && AllMoveOn(t, r)
    ensures Elsewhere(s, r, l, j + k) && AllMoveOn(s, r)
  {
    forall w: nat | w < |s.queues| && w != l
      ensures OnlyGrows(s, r, w)
    {
      assert OnlyGrows(s, t, w) && OnlyGrows(t, r, w);
    }
    forall c | 0 <= c < |s.conns|
      ensures MovesOn(s, r, c)
    {
      assert MovesOn(s, t, c) && MovesOn(t, r, c);
    }
  }

  /** Every functor that waits comes up. */
  lemma {:induction false} JobComesUp(s: Server, l: nat, p: nat) returns (acts: seq<Action>)
    requires Inv(s) && l < |s.rounds| && p < |s.queues[l]|
    ensures |acts| == StepsAhead(s, l, p) && forall a <- acts :: OnItsOwn(a, l)
    ensures var r := Run(s, acts);
      && Inv(r) && Enabled(r, RunJob(l)) && r.queues[l][0] == s.queues[l][p]
      && Elsewhere(s, r, l, p) && AllMoveOn(s, r)
    decreases StepsAhead(s, l, p)
  {
    DriveIsEnabled(s, l);
    if StepsAhead(s, l, p) == 0 {
      acts := [];
    } else {
      var a := Drive(s, l);
      DriveStep(s, l, p);
      DriveElsewhere(s, l);
      var q := if a.RunJob? then p - 1 else p;
      var more := JobComesUp(Step(s, a), l, q);
      RunFromFirst(s, a, more);
      ElsewhereJoins(s, Step(s, a), Run(Step(s, a), more), l, p - q, q);
      acts := [a] + more;
    }
  }

  lemma RunJoins(s: Server, acts: seq<Action>, a: Action)
    ensures Run(s, acts + [a]) == Next(Run(s, acts), a)
  {
    assert (acts + [a])[..|acts|] == acts;
  }

  lemma SameActions(a: seq<Action>, b: seq<Action>, c: seq<Action>)
    ensures a + (b + c) == (a + b) + c
  {
  }

  lemma RunAppendsOne(s: Server, acts: seq<Action>, more: seq<Action>, a: Action)
    requires Run(s, acts + more) == Run(Run(s, acts), more)
    ensures Run(s, acts + (more + [a])) == Run(Run(s, acts), more + [a])
  {
    SameActions(acts, more, [a]);
    RunJoins(s, acts + more, a);
    RunJoins(Run(s, acts), more, a);
  }

  lemma {:induction false} RunAppends(s: Server, acts: seq<Action>, more: seq<Action>)
    ensures Run(s, acts + more) == Run(Run(s, acts), more)
    decreases |more|
  {
    if more == [] {
      assert acts + more == acts;
    } else {
      assert more == more[..|more| - 1] + [more[|more| - 1]];
      RunAppends(s, acts, more[..|more| - 1]);
      RunAppendsOne(s, acts, more[..|more| - 1], more[|more| - 1]);
    }
  }

  /** The place of a functor in a queue. */
  function Place(q: seq<Job>, job: Job): (p: nat)
    requires job in q
    ensures p < |q| && q[p] == job
  { if q[0] == job then 0 else 1 + Place(q[1..], job) }

  /** What stands between a close and its end: the functors ahead of connectDestroyed on the
      connection's loop; before that those ahead of removeConnectionInLoop on the base loop, each of
      which may put one more ahead of connectDestroyed. */
  function StepsToDestroy(s: Server, c: nat): nat
    requires LoopsExist(s) && c < |s.conns|
  {
    var l := s.conns[c].loop;
    if s.conns[c].phase.Removing? && RemoveJob(c) in s.queues[0] then
      var p := Place(s.queues[0], RemoveJob(c));
      StepsAhead(s, 0, p) + 1 + StepsAhead(s, l, |s.queues[l]| + p) + 1
    else if s.conns[c].phase.Destroying? && DestroyJob(c) in s.queues[l] then
      StepsAhead(s, l, Place(s.queues[l], DestroyJob(c))) + 1
    else 0
  }

  predicate OfLoops(acts: seq<Action>, l: nat) { forall a <- acts :: OnItsOwn(a, 0) || OnItsOwn(a, l) }

  lemma DestroyComesUp(s: Server, c: nat, p: nat) returns (acts: seq<Action>)
    requires Inv(s) && c < |s.conns| && p < |s.queues[s.conns[c].loop]|
    requires s.queues[s.conns[c].loop][p] == DestroyJob(c)
    ensures |acts| == StepsAhead(s, s.conns[c].loop, p) + 1 && OfLoops(acts, s.conns[c].loop)
    ensures var r := Run(s, acts); Inv(r) && c < |r.conns| && r.conns[c].phase.Destroyed?
  {
    var l := s.conns[c].loop;
    acts := JobComesUp(s, l, p);
    var r := Run(s, acts);
    assert MovesOn(s, r, c);
    StepKeepsInv(r, RunJob(l));
    JobLives(r, l);
    RunJoins(s, acts, RunJob(l));
    acts := acts + [RunJob(l)];
  }

  lemma RemoveRuns(s: Server, c: nat)
    requires Inv(s) && c < |s.conns| && Enabled(s, RunJob(0)) && s.queues[0][0] == RemoveJob(c) && s.conns[c].loop != 0
    ensures var r := Step(s, RunJob(0)); var l := s.conns[c].loop;
      && Inv(r) && c < |r.conns| && r.conns[c].loop == l && l < |s.rounds| == |r.rounds|
      && r.rounds[l] == s.rounds[l] && r.active[l] == s.active[l] && r.queues[l] == s.queues[l] + [DestroyJob(c)]
  {
    StepKeepsInv(s, RunJob(0));
    JobQueues(s, 0);
  }

  /** removeConnectionInLoop comes up on the base loop and queues connectDestroyed. */
  lemma RemoveComesUp(s: Server, c: nat, p: nat) returns (acts: seq<Action>)
    requires Inv(s) && c < |s.conns| && s.conns[c].loop != 0 && p < |s.queues[0]| && s.queues[0][p] == RemoveJob(c)
    ensures |acts| == StepsAhead(s, 0, p) + 1 && OfLoops(acts, 0)
    ensures var r := Run(s, acts); var l := s.conns[c].loop;
      && Inv(r) && c < |r.conns| && r.conns[c].loop == l && l < |s.rounds| == |r.rounds|
      && r.rounds[l] == s.rounds[l] && r.active[l] == s.active[l]
      && 0 < |r.queues[l]| <= |s.queues[l]| + p + 1 && r.queues[l][|r.queues[l]| - 1] == DestroyJob(c)
  {
    var l := s.conns[c].loop;
    acts := JobComesUp(s, 0, p);
    var r := Run(s, acts);
    assert MovesOn(s, r, c) && OnlyGrows(s, r, l);
    RemoveRuns(r, c);
    RunJoins(s, acts, RunJob(0));
    acts := acts + [RunJob(0)];
  }

  lemma AheadGrows(round: Round, toHandle: nat, p: nat, q: nat)
    requires p <= q
    ensures Ahead(round, toHandle, p) <= Ahead(round, toHandle, q)
  {
  }

  lemma CloseIsQueued(s: Server, c: nat)
    requires Inv(s) && c < |s.conns| && s.conns[c].state.Disconnected?
    ensures var r := s.conns[c];
      && (r.phase.Removing? || r.phase.Destroying? || r.phase.Destroyed?)
      && (r.phase.Removing? ==> RemoveJob(c) in s.queues[0])
      && (r.phase.Destroying? ==> DestroyJob(c) in s.queues[r.loop])
  {
    assert Fits(s.conns[c]);
    var l := s.conns[c].loop;
    assert multiset(s.queues[0])[RemoveJob(c)] == Owed(s, 0, RemoveJob(c));
    assert multiset(s.queues[l])[DestroyJob(c)] == Owed(s, l, DestroyJob(c));
  }

  lemma RemovalCanFinish(s: Server, c: nat, p: nat) returns (acts: seq<Action>)
    requires Inv(s) && c < |s.conns| && s.conns[c].loop != 0 && p < |s.queues[0]| && s.queues[0][p] == RemoveJob(c)
    ensures var l := s.conns[c].loop;
      |acts| <= StepsAhead(s, 0, p) + 1 + StepsAhead(s, l, |s.queues[l]| + p) + 1 && OfLoops(acts, l)
    ensures var r := Run(s, acts); Inv(r) && c < |r.conns| && r.conns[c].phase.Destroyed?
  {
    var l := s.conns[c].loop;
    var first := RemoveComesUp(s, c, p);
    var r := Run(s, first);
    var more := DestroyComesUp(r, c, |r.queues[l]| - 1);
    AheadGrows(s.rounds[l], |s.active[l]|, |r.queues[l]| - 1, |s.queues[l]| + p);
    RunAppends(s, first, more);
    acts := first + more;
  }

  /** From any close the loops alone, with no new event, bring connectDestroyed about, within the
      steps that the queues ahead of it take. */
  lemma CloseCanFinish(s: Server, c: nat) returns (acts: seq<Action>)
    requires Reachable(s) && c < |s.conns| && s.conns[c].state.Disconnected?
    ensures LoopsExist(s) && |acts| <= StepsToDestroy(s, c) && OfLoops(acts, s.conns[c].loop)
    ensures var r := Run(s, acts); Inv(r) && c < |r.conns| && r.conns[c].phase.Destroyed?
  {
    ReachableInv(s);
    CloseIsQueued(s, c);
    var l := s.conns[c].loop;
    if s.conns[c].phase.Removing? {
      acts := RemovalCanFinish(s, c, Place(s.queues[0], RemoveJob(c)));
    } else if s.conns[c].phase.Destroying? {
      acts := DestroyComesUp(s, c, Place(s.queues[l], DestroyJob(c)));
    } else {
      acts := [];
    }
  }

  /** Steps until the round under way is over. */
  function StepsToRoundEnd(round: Round): nat { if round.Batch? then round.left + 1 else 0 }

  lemma {:induction false} RoundEnds(s: Server, l: nat) returns (acts: seq<Action>)
    requires Inv(s) && l < |s.rounds|
    ensures |acts| == StepsToRoundEnd(s.rounds[l]) && forall a <- acts :: OnItsOwn(a, l)
    ensures var r := Run(s, acts);
      && Inv(r) && AllMoveOn(s, r) && |r.rounds| == |s.rounds| && !r.rounds[l].Batch?
      && forall w :: 0 <= w < |s.rounds| && w != l ==> r.rounds[w] == s.rounds[w]
    decreases StepsToRoundEnd(s.rounds[l])
  {
    acts := [];
    if s.rounds[l].Batch? {
      var a := Drive(s, l);
      DriveIsEnabled(s, l);
      DriveElsewhere(s, l);
      var t := Step(s, a);
      if a.RunJob? { JobQueues(s, l); }
      var more := RoundEnds(t, l);
      RunFromFirst(s, a, more);
      forall c | 0 <= c < |s.conns|
        ensures MovesOn(s, Run(t, more), c)
      {
        assert MovesOn(s, t, c) && MovesOn(t, Run(t, more), c);
      }
      acts := [a] + more;
    }
  }

  /** After connectDestroyed the descriptor closes as soon as the rounds under way are over. */
  lemma DescriptorCanClose(s: Server, c: nat) returns (acts: seq<Action>)
    requires Inv(s) && c < |s.conns| && s.conns[c].phase.Destroyed?
    ensures LoopsExist(s) && OfLoops(acts, s.conns[c].loop)
    ensures |acts| <= StepsToRoundEnd(s.rounds[s.conns[c].loop]) + StepsToRoundEnd(s.rounds[0])
    ensures c < |Run(s, acts).conns| && !Owned(Run(s, acts), c)
  {
    var l := s.conns[c].loop;
    var first := RoundEnds(s, l);
    var t := Run(s, first);
    assert MovesOn(s, t, c);
    var more := RoundEnds(t, 0);
    var r := Run(t, more);
    assert MovesOn(t, r, c);
    OwnedIsKept(r, c);
    RunAppends(s, first, more);
    acts := first + more;
  }

  /** So from any close the loops alone let the connection go, and with it its descriptor. */
  lemma CloseCanLetGo(s: Server, c: nat) returns (acts: seq<Action>)
    requires Reachable(s) && c < |s.conns| && s.conns[c].state.Disconnected?
    ensures OfLoops(acts, s.conns[c].loop)
    ensures c < |Run(s, acts).conns| && !Owned(Run(s, acts), c)
  {
    var first := CloseCanFinish(s, c);
    ReachableInv(s);
    RunKeepsLoop(s, first, c);
    var more := DescriptorCanClose(Run(s, first), c);
    RunAppends(s, first, more);
    acts := first + more;
  }

  lemma {:induction false} RunKeepsLoop(s: Server, acts: seq<Action>, c: nat)
    requires c < |s.conns|
    ensures var r := Run(s, acts); c < |r.conns| && r.conns[c].loop == s.conns[c].loop
    decreases |acts|
  {
    if acts == [] {
    } else {
      RunKeepsLoop(s, acts[..|acts| - 1], c);
      StepKeepsLoops(Run(s, acts[..|acts| - 1]), acts[|acts| - 1]);
    }
  }
}
