/** The functor queue and wakeup protocol of EventLoop.cpp, as a machine over its atomic steps.

    One thread owns the loop; any number of others call queueInLoop and quit on it. Every step
    is one access to shared state: the critical section around pendingFunctors_, one read or
    write of a flag, one read or write of the eventfd. A run is any list of steps at all; a step
    that the current state does not allow leaves the state as it is. */
module EventLoops {

  /** Two places where the code departs from its evident intent. The body of the loop over the
      swapped batch names its variable like the batch and builds an empty functor instead of
      calling the element (EventLoop.cpp:171-174), and the thread id is never cached, so every
      thread reads 0 and takes itself for the loop thread (CurrentThread.cpp:9). */
  datatype Config = Config(callsFunctors: bool, distinctThreadIds: bool)

  const EVENTFD_MAX: nat := 0xffff_ffff_ffff_fffe

  /** Where the loop thread stands in loop() and doPendingFunctors(). */
  datatype Pc<T> =
    | Outside                  // loop() not running
    | Test                     // about to read quit_
    | AtPoll                   // in poller_->poll
    | Dispatch(saw: bool)      // calling handlers; saw: the wakeup channel is among them, unread
    | Marked                   // callingPendingFunctors_ set, batch not yet swapped
    | Running(rest: seq<T>)    // the part of the batch still to run

  /** Another thread: idle, or between its change and the test that may write the eventfd. */
  datatype ThreadPc = Idle | Pushed | QuitSet

  datatype Loop<T> = Loop(
    cfg: Config,
    pc: Pc<T>,
    quit: bool,
    calling: bool,             // callingPendingFunctors_
    counter: nat,              // the eventfd
    pending: seq<T>,           // pendingFunctors_
    ownPushed: bool,           // the loop thread itself is between push and test in queueInLoop
    threads: seq<ThreadPc>,
    // what has happened so far
    submitted: seq<T>,         // every functor queued, in lock order
    taken: seq<T>,             // those the loop over the batch has passed
    executed: seq<T>,          // those that were called
    swapMark: nat,             // |submitted| at the last swap
    stray: bool,               // pending holds a functor the loop thread queued outside loop()
    polls: nat)                // polls that returned since quit_ was set

  datatype Action<T> =
    | Start | TestQuit | PollReturns(saw: bool) | ReadEventfd | DispatchDone
    | Swap | RunOne | RoundDone
    | OwnPush(x: T) | OwnWake | OwnQuit
    | Push(t: nat, x: T) | Quit(t: nat) | Wake(t: nat)

  function Init<T>(cfg: Config, threads: nat): Loop<T> {
    Loop(cfg, Outside, false, false, 0, [], false, seq(threads, i => Idle), [], [], [], 0, false, 0)
  }

  function Signal(counter: nat): nat { if counter < EVENTFD_MAX then counter + 1 else counter }

  /** User code on the loop thread runs in handlers, in functors, and outside loop(). */
  predicate InUserCode<T>(s: Loop<T>) { !s.ownPushed && (s.pc.Outside? || s.pc.Dispatch? || s.pc.Running?) }

  predicate Enabled<T>(s: Loop<T>, a: Action<T>) {
    match a
    case Start => s.pc.Outside? && !s.ownPushed
    case TestQuit => s.pc.Test?
    case PollReturns(saw) => s.pc.AtPoll? && (saw ==> s.counter > 0)
    case ReadEventfd => s.pc.Dispatch? && s.pc.saw && !s.ownPushed
    case DispatchDone => s.pc.Dispatch? && !s.pc.saw && !s.ownPushed
    case Swap => s.pc.Marked?
    case RunOne => s.pc.Running? && s.pc.rest != [] && !s.ownPushed
    case RoundDone => s.pc.Running? && s.pc.rest == [] && !s.ownPushed
    case OwnPush(_) => InUserCode(s)
    case OwnWake => s.ownPushed
    case OwnQuit => InUserCode(s)
    case Push(t, _) => t < |s.threads| && s.threads[t].Idle?
    case Quit(t) => t < |s.threads| && s.threads[t].Idle?
    case Wake(t) => t < |s.threads| && !s.threads[t].Idle?
  }

  function Step<T>(s: Loop<T>, a: Action<T>): Loop<T>
    requires Enabled(s, a)
  {
    match a
    case Start => s.(pc := Test, quit := false, polls := 0)
    case TestQuit => s.(pc := if s.quit then Outside else AtPoll)
    case PollReturns(saw) => s.(pc := Dispatch(saw), polls := if s.quit then s.polls + 1 else s.polls)
    case ReadEventfd => s.(pc := Dispatch(false), counter := 0)
    case DispatchDone => s.(pc := Marked, calling := true)
    case Swap => s.(pc := Running(s.pending), pending := [], swapMark := |s.submitted|, stray := false)
    case RunOne =>
      var x := s.pc.rest[0];
      s.(pc := Running(s.pc.rest[1..]), taken := s.taken + [x],
         executed := if s.cfg.callsFunctors then s.executed + [x] else s.executed)
    case RoundDone => s.(pc := Test, calling := false)
    case OwnPush(x) =>
      s.(pending := s.pending + [x], submitted := s.submitted + [x], ownPushed := true,
         stray := s.stray || s.pc.Outside?)
    case OwnWake => s.(ownPushed := false, counter := if s.calling then Signal(s.counter) else s.counter)
    case OwnQuit => s.(quit := true)
    case Push(t, x) =>
      s.(pending := s.pending + [x], submitted := s.submitted + [x], threads := s.threads[t := Pushed])
    case Quit(t) => s.(quit := true, threads := s.threads[t := QuitSet])
    case Wake(t) =>
      var writes := s.cfg.distinctThreadIds || (s.threads[t].Pushed? && s.calling);
      s.(threads := s.threads[t := Idle], counter := if writes then Signal(s.counter) else s.counter)
  }

  function Next<T>(s: Loop<T>, a: Action<T>): Loop<T> { if Enabled(s, a) then Step(s, a) else s }

  function Run<T>(s: Loop<T>, acts: seq<Action<T>>): Loop<T> {
    if acts == [] then s else Next(Run(s, acts[..|acts| - 1]), acts[|acts| - 1])
  }

  lemma Unroll<T>(s: Loop<T>, acts: seq<Action<T>>, a: Action<T>)
    ensures Run(s, acts + [a]) == Next(Run(s, acts), a)
  {
    assert (acts + [a])[..|acts|] == acts;
  }

  // ---------------------------------------------------------------- the invariant

  function Rest<T>(s: Loop<T>): seq<T> { if s.pc.Running? then s.pc.rest else [] }

  /** The functors waiting, in the order they will be passed: batch first, then pending. */
  function Waiting<T>(s: Loop<T>): seq<T> { Rest(s) + s.pending }

  /** Some other thread has made a change and has yet to write the eventfd for it. */
  ghost predicate InFlight<T>(s: Loop<T>, pc: ThreadPc) { pc in s.threads }

  ghost predicate Ledger<T>(s: Loop<T>) {
    && |s.taken| <= s.swapMark <= |s.submitted|
    && s.taken == s.submitted[..|s.taken|]
    && Rest(s) == s.submitted[|s.taken|..s.swapMark]
    && s.pending == s.submitted[s.swapMark..]
  }

  ghost predicate Called<T>(s: Loop<T>) { s.executed == if s.cfg.callsFunctors then s.taken else [] }

  /** The modes the loop thread can be in, and the two flags that follow them. */
  ghost predicate Modes<T>(s: Loop<T>) {
    && (s.calling <==> s.pc.Marked? || s.pc.Running?)
    && (s.ownPushed ==> s.pc.Outside? || s.pc.Dispatch? || s.pc.Running?)
    && (s.stray ==> s.pending != [])
    && (s.quit ==> s.polls <= 1 && (s.pc.AtPoll? ==> s.polls == 0))
    && (!s.quit ==> s.polls == 0)
  }

  /** Whoever is about to sleep over pending functors will be woken. */
  ghost predicate Covered<T>(s: Loop<T>) {
    s.pending != [] && !s.pc.Dispatch? && !s.pc.Marked? ==>
      s.counter > 0 || InFlight(s, Pushed) || (s.ownPushed && s.pc.Running?) || s.stray
  }

  ghost predicate QuitHeard<T>(s: Loop<T>) { s.quit && s.pc.AtPoll? ==> s.counter > 0 || InFlight(s, QuitSet) }

  /** Every thread that is not the loop's own knows it is not. */
  predicate WakesOthers(cfg: Config, threads: nat) { cfg.distinctThreadIds || threads == 0 }

  ghost predicate Inv<T>(s: Loop<T>) {
    && Modes(s)
    && Ledger(s)
    && Called(s)
    && (WakesOthers(s.cfg, |s.threads|) ==> Covered(s) && QuitHeard(s))
  }

  lemma OthersStay<T>(s: Loop<T>, t: nat, now: ThreadPc, pc: ThreadPc)
    requires t < |s.threads| && InFlight(s, pc) && s.threads[t] != pc
    ensures pc in s.threads[t := now]
  {
    var i :| 0 <= i < |s.threads| && s.threads[i] == pc;
    assert s.threads[t := now][i] == pc;
  }

  lemma StepKeepsLedger<T>(s: Loop<T>, a: Action<T>)
    requires Enabled(s, a) && Ledger(s)
    ensures Ledger(Step(s, a))
  {
    if a.OwnPush? || a.Push? {
      PushKeepsLedger(s, a);
    } else if a.RunOne? || a.Swap? {
      TakingKeepsLedger(s, a);
    }
  }

  lemma PushKeepsLedger<T>(s: Loop<T>, a: Action<T>)
    requires Enabled(s, a) && Ledger(s) && (a.OwnPush? || a.Push?)
    ensures Ledger(Step(s, a))
  {
  }

  lemma TakingKeepsLedger<T>(s: Loop<T>, a: Action<T>)
    requires Enabled(s, a) && Ledger(s) && (a.RunOne? || a.Swap?)
    ensures Ledger(Step(s, a))
  {
  }

  lemma StepKeepsCalled<T>(s: Loop<T>, a: Action<T>)
    requires Enabled(s, a) && Called(s)
    ensures Called(Step(s, a))
  {
  }

  lemma StepKeepsModes<T>(s: Loop<T>, a: Action<T>)
    requires Enabled(s, a) && Modes(s)
    ensures Modes(Step(s, a))
  {
  }

  lemma StepKeepsConfig<T>(s: Loop<T>, a: Action<T>)
    requires Enabled(s, a)
    ensures Step(s, a).cfg == s.cfg && |Step(s, a).threads| == |s.threads|
  {
  }

  lemma StepKeepsCover<T>(s: Loop<T>, a: Action<T>)
    requires Enabled(s, a) && Modes(s) && WakesOthers(s.cfg, |s.threads|) && Covered(s)
    ensures Covered(Step(s, a))
  {
    if a.Push? {
      assert Step(s, a).threads[a.t] == Pushed;
    } else if a.Quit? && InFlight(s, Pushed) {
      OthersStay(s, a.t, QuitSet, Pushed);
    }
  }

  lemma StepKeepsQuitHeard<T>(s: Loop<T>, a: Action<T>)
    requires Enabled(s, a) && Modes(s) && WakesOthers(s.cfg, |s.threads|) && QuitHeard(s)
    ensures QuitHeard(Step(s, a))
  {
    if a.Quit? {
      assert Step(s, a).threads[a.t] == QuitSet;
    } else if a.Push? && InFlight(s, QuitSet) {
      OthersStay(s, a.t, Pushed, QuitSet);
    }
  }

  lemma StepKeepsInv<T>(s: Loop<T>, a: Action<T>)
    requires Inv(s)
    ensures Inv(Next(s, a)) && Next(s, a).cfg == s.cfg && |Next(s, a).threads| == |s.threads|
  {
    if Enabled(s, a) {
      StepKeepsConfig(s, a);
      StepKeepsModes(s, a);
      StepKeepsLedger(s, a);
      StepKeepsCalled(s, a);
      if WakesOthers(s.cfg, |s.threads|) { StepKeepsCover(s, a); StepKeepsQuitHeard(s, a); }
    }
  }

  lemma {:induction false} RunKeepsInv<T>(s: Loop<T>, acts: seq<Action<T>>)
    requires Inv(s)
    ensures Inv(Run(s, acts)) && Run(s, acts).cfg == s.cfg && |Run(s, acts).threads| == |s.threads|
    decreases |acts|
  {
    if acts == [] {
    } else {
      RunKeepsInv(s, acts[..|acts| - 1]);
      StepKeepsInv(Run(s, acts[..|acts| - 1]), acts[|acts| - 1]);
    }
  }

  // ---------------------------------------------------------------- what holds in every run

  /** Functors are passed in the order they were queued, each at most once; what a round runs was
      queued before its swap, and what is queued since waits for a later round. */
  lemma {:induction false} FunctorLedger<T>(cfg: Config, threads: nat, acts: seq<Action<T>>)
    ensures var s := Run(Init<T>(cfg, threads), acts);
      && s.taken <= s.submitted && |s.taken| <= s.swapMark <= |s.submitted|
      && s.taken + Rest(s) == s.submitted[..s.swapMark]
      && s.pending == s.submitted[s.swapMark..]
  {
    RunKeepsInv(Init<T>(cfg, threads), acts);
    LedgerJoins(Run(Init<T>(cfg, threads), acts));
  }

  lemma LedgerJoins<T>(s: Loop<T>)
    requires Ledger(s)
    ensures s.taken <= s.submitted && s.taken + Rest(s) == s.submitted[..s.swapMark]
  {
  }

  /** A functor that was passed was called exactly when the loop body calls its element. */
  lemma {:induction false} EveryTakenFunctorRan<T>(cfg: Config, threads: nat, acts: seq<Action<T>>)
    ensures var s := Run(Init<T>(cfg, threads), acts);
      s.executed == s.taken <==> cfg.callsFunctors || s.taken == []
  {
    RunKeepsInv(Init<T>(cfg, threads), acts);
  }

  /** When threads can tell themselves apart the loop never sleeps over a queued functor: at poll,
      with the eventfd at zero and no thread between push and wakeup, something is pending exactly
      when the loop thread queued it while loop() was not running. */
  lemma {:induction false} NoLostWakeup<T>(cfg: Config, threads: nat, acts: seq<Action<T>>)
    requires cfg.distinctThreadIds || threads == 0
    ensures var s := Run(Init<T>(cfg, threads), acts);
      s.pc.AtPoll? && s.counter == 0 && !InFlight(s, Pushed) ==> (s.pending != [] <==> s.stray)
  {
    RunKeepsInv(Init<T>(cfg, threads), acts);
  }

  lemma {:induction false} NoStrayWithoutEarlyPush<T>(s: Loop<T>, acts: seq<Action<T>>)
    requires !s.stray
    requires forall i :: 0 <= i < |acts| && acts[i].OwnPush? ==> !Run(s, acts[..i]).pc.Outside?
    ensures !Run(s, acts).stray
    decreases |acts|
  {
    if acts == [] {
    } else {
      var n := |acts| - 1;
      forall i | 0 <= i < n && acts[..n][i].OwnPush?
        ensures !Run(s, acts[..n][..i]).pc.Outside?
      {
        assert acts[..n][..i] == acts[..i];
      }
      NoStrayWithoutEarlyPush(s, acts[..n]);
      assert acts[n].OwnPush? ==> !Run(s, acts[..n]).pc.Outside?;
    }
  }

  /** So a program whose loop thread queues nothing outside loop() loses no wakeup. */
  lemma {:induction false} NoLostWakeupInside<T>(cfg: Config, threads: nat, acts: seq<Action<T>>)
    requires cfg.distinctThreadIds || threads == 0
    requires forall i :: 0 <= i < |acts| && acts[i].OwnPush? ==> !Run(Init<T>(cfg, threads), acts[..i]).pc.Outside?
    ensures var s := Run(Init<T>(cfg, threads), acts);
      s.pc.AtPoll? && s.pending != [] ==> s.counter > 0 || InFlight(s, Pushed)
  {
    RunKeepsInv(Init<T>(cfg, threads), acts);
    NoStrayWithoutEarlyPush(Init<T>(cfg, threads), acts);
  }

  /** loop() is entered anew somewhere in the run. */
  predicate Restarts<T>(s: Loop<T>, acts: seq<Action<T>>) {
    exists i :: 0 <= i < |acts| && acts[i].Start? && Enabled(Run(s, acts[..i]), acts[i])
  }

  lemma RestartsUnroll<T>(s: Loop<T>, acts: seq<Action<T>>)
    requires acts != []
    ensures var n := |acts| - 1;
      Restarts(s, acts) <==> Restarts(s, acts[..n]) || (acts[n].Start? && Enabled(Run(s, acts[..n]), acts[n]))
  {
    var n := |acts| - 1;
    assert forall i :: 0 <= i < n ==> acts[..n][i] == acts[i] && acts[..n][..i] == acts[..i];
    if Restarts(s, acts) {
      var i :| 0 <= i < |acts| && acts[i].Start? && Enabled(Run(s, acts[..i]), acts[i]);
      if i < n { assert acts[..n][i].Start? && Enabled(Run(s, acts[..n][..i]), acts[..n][i]); }
    }
  }

  /** The flag quit_ is taken back by entering loop() and by nothing else: once set it is still set
      at the end of a run, unless asked for again, exactly when loop() was not entered in it. */
  lemma {:induction false} QuitKeptExactly<T>(s: Loop<T>, acts: seq<Action<T>>)
    requires s.quit
    ensures !Restarts(s, acts) ==> Run(s, acts).quit
    ensures (forall a <- acts :: !a.Quit? && !a.OwnQuit?) ==> (Run(s, acts).quit <==> !Restarts(s, acts))
    decreases |acts|
  {
    if acts == [] {
    } else {
      QuitKeptExactly(s, acts[..|acts| - 1]);
      RestartsUnroll(s, acts);
      assert forall a <- acts[..|acts| - 1] :: a in acts;
      assert acts[|acts| - 1] in acts;
    }
  }

  /** After a quit, until loop() is entered anew, the flag stays, the loop is not left asleep, and
      it returns from at most one more poll. */
  lemma {:induction false} PromptQuit<T>(
      cfg: Config, threads: nat, acts: seq<Action<T>>, q: Action<T>, more: seq<Action<T>>)
    requires cfg.distinctThreadIds || threads == 0
    requires (q.Quit? || q.OwnQuit?) && Enabled(Run(Init<T>(cfg, threads), acts), q)
    requires !Restarts(Next(Run(Init<T>(cfg, threads), acts), q), more)
    ensures var s := Run(Next(Run(Init<T>(cfg, threads), acts), q), more);
      s.quit && s.polls <= 1 && (s.pc.AtPoll? ==> s.polls == 0 && (s.counter > 0 || InFlight(s, QuitSet)))
  {
    var s := Run(Init<T>(cfg, threads), acts);
    RunKeepsInv(Init<T>(cfg, threads), acts);
    StepKeepsInv(s, q);
    RunKeepsInv(Next(s, q), more);
    QuitKeptExactly(Next(s, q), more);
  }

  /** A call to loop() returns somewhere in the run. */
  predicate Returns<T>(s: Loop<T>, acts: seq<Action<T>>) {
    exists i :: 0 <= i < |acts| && !Run(s, acts[..i]).pc.Outside? && Next(Run(s, acts[..i]), acts[i]).pc.Outside?
  }

  lemma ReturnsUnroll<T>(s: Loop<T>, acts: seq<Action<T>>)
    requires acts != []
    ensures var n := |acts| - 1; var r := Run(s, acts[..n]);
      Returns(s, acts[..n]) || (!r.pc.Outside? && Next(r, acts[n]).pc.Outside?) ==> Returns(s, acts)
  {
    var n := |acts| - 1;
    if Returns(s, acts[..n]) {
      var i :| && 0 <= i < n && !Run(s, acts[..n][..i]).pc.Outside?
               && Next(Run(s, acts[..n][..i]), acts[..n][i]).pc.Outside?;
      assert acts[..n][..i] == acts[..i];
    }
  }

  lemma {:induction false} QuitInsideIsHonoured<T>(s: Loop<T>, acts: seq<Action<T>>)
    requires s.quit && !s.pc.Outside?
    ensures (Run(s, acts).quit && !Run(s, acts).pc.Outside?) || Returns(s, acts)
    decreases |acts|
  {
    if acts == [] {
    } else {
      QuitInsideIsHonoured(s, acts[..|acts| - 1]);
      ReturnsUnroll(s, acts);
    }
  }

  /** Whether a quit is honoured: in every continuation it stands until a call to loop() returns,
      exactly when it was made while loop() was running. */
  lemma QuitHonouredExactly<T(!new)>(s: Loop<T>, q: Action<T>)
    requires Enabled(s, q) && (q.Quit? || q.OwnQuit?)
    ensures (forall more :: Run(Next(s, q), more).quit || Returns(Next(s, q), more)) <==> !s.pc.Outside?
  {
    var t := Next(s, q);
    if s.pc.Outside? {
      var enter: seq<Action<T>> := [OwnWake] + [Start];
      Unroll(t, [], OwnWake);
      Unroll(t, [OwnWake], Start);
      assert enter[..0] == [] && enter[..1] == [] + [OwnWake] && enter == [OwnWake] + [Start];
      assert !Run(t, enter).quit && !Returns(t, enter);
    } else {
      forall more
        ensures Run(t, more).quit || Returns(t, more)
      {
        QuitInsideIsHonoured(t, more);
      }
    }
  }

  /** How far the loop thread is from leaving loop() once quit_ is set. */
  function Distance<T>(pc: Pc<T>): nat {
    match pc
    case Outside => 0
    case Test => 1
    case Running(_) => 2
    case Marked => 3
    case Dispatch(saw) => if saw then 5 else 4
    case AtPoll => 6
  }

  /** The loop thread's own steps, outside user code. */
  predicate IsControl<T>(a: Action<T>) {
    a.TestQuit? || a.PollReturns? || a.ReadEventfd? || a.DispatchDone? || a.Swap? || a.RunOne? || a.RoundDone?
  }

  /** Functors queued now will be in the batch that the round under way swaps out. */
  predicate BeforeSwap<T>(pc: Pc<T>) { pc.AtPoll? || pc.Dispatch? || pc.Marked? }

  /** The steps left once quit_ is set: the way through the round, and one for each functor it runs. */
  function StepsLeft<T>(s: Loop<T>): nat {
    Distance(s.pc) + |Rest(s)| + if BeforeSwap(s.pc) then |s.pending| else 0
  }

  /** Every step the loop thread takes after a quit, user code aside, brings it closer to leaving,
      and a step of anybody else costs it one more step exactly when it queues a functor before
      the swap: what is queued after the swap is not waited for. */
  lemma QuitMakesProgress<T>(s: Loop<T>, a: Action<T>)
    requires s.quit && Enabled(s, a)
    ensures var r := Step(s, a);
      a.Start? || (
      && r.quit
      && (IsControl(a) ==> || Distance(r.pc) < Distance(s.pc)
                           || (Distance(r.pc) == Distance(s.pc) && |Rest(r)| < |Rest(s)|))
      && (!IsControl(a) ==> r.pc == s.pc)
      && (if IsControl(a) then StepsLeft(r) < StepsLeft(s)
          else StepsLeft(r) == StepsLeft(s) + if (a.OwnPush? || a.Push?) && BeforeSwap(s.pc) then 1 else 0))
  {
  }

  /** How many steps of a run were the loop thread's own. */
  function ControlSteps<T>(s: Loop<T>, acts: seq<Action<T>>): nat {
    if acts == [] then 0
    else
      var n := |acts| - 1;
      ControlSteps(s, acts[..n]) + if IsControl(acts[n]) && Enabled(Run(s, acts[..n]), acts[n]) then 1 else 0
  }

  /** How many functors were queued in it before the swap of the round under way. */
  function EarlyPushes<T>(s: Loop<T>, acts: seq<Action<T>>): nat {
    if acts == [] then 0
    else
      var n := |acts| - 1; var r := Run(s, acts[..n]);
      EarlyPushes(s, acts[..n])
      + if (acts[n].OwnPush? || acts[n].Push?) && Enabled(r, acts[n]) && BeforeSwap(r.pc) then 1 else 0
  }

  /** From a quit until loop() is left the loop thread takes at most so many steps of its own,
      whatever user code and other threads do between them; at the bound it has left. */
  lemma {:induction false} QuitBound<T>(s: Loop<T>, acts: seq<Action<T>>)
    requires s.quit && !Restarts(s, acts)
    ensures ControlSteps(s, acts) + StepsLeft(Run(s, acts)) <= StepsLeft(s) + EarlyPushes(s, acts)
    ensures ControlSteps(s, acts) >= StepsLeft(s) + EarlyPushes(s, acts) ==> Run(s, acts).pc.Outside?
    decreases |acts|
  {
    if acts == [] {
    } else {
      var r, a := Run(s, acts[..|acts| - 1]), acts[|acts| - 1];
      RestartsUnroll(s, acts);
      QuitBound(s, acts[..|acts| - 1]);
      QuitKeptExactly(s, acts[..|acts| - 1]);
      if Enabled(r, a) { QuitMakesProgress(r, a); }
    }
  }

  /** The step the loop thread can take next, the poll returning empty-handed if it polls. */
  function Onward<T>(s: Loop<T>): Action<T> {
    if s.ownPushed then OwnWake
    else
      match s.pc
      case Outside => Start
      case Test => TestQuit
      case AtPoll => PollReturns(false)
      case Dispatch(saw) => if saw then ReadEventfd else DispatchDone
      case Marked => Swap
      case Running(rest) => if rest != [] then RunOne else RoundDone
  }

  lemma {:induction false} RunFromFirst<T>(s: Loop<T>, a: Action<T>, acts: seq<Action<T>>)
    ensures Run(s, [a] + acts) == Run(Next(s, a), acts)
    decreases |acts|
  {
    if acts == [] {
      Unroll(s, [], a);
      assert [a] + [] == [] + [a];
    } else {
      var front, last := acts[..|acts| - 1], acts[|acts| - 1];
      RunFromFirst(s, a, front);
      Unroll(s, [a] + front, last);
      Unroll(Next(s, a), front, last);
      assert [a] + acts == [a] + front + [last] && acts == front + [last];
    }
  }

  /** And the bound is met: nobody's help is needed, the loop thread alone can always go on, so from
      any quit it leaves loop() after that many steps at most. */
  lemma {:induction false} QuitCanFinish<T>(s: Loop<T>) returns (acts: seq<Action<T>>)
    requires s.quit && Modes(s)
    ensures Run(s, acts).pc.Outside? && |acts| <= StepsLeft(s) + (if s.ownPushed then 1 else 0)
    ensures forall a <- acts :: IsControl(a) || a.OwnWake?
    decreases StepsLeft(s), s.ownPushed
  {
    if s.pc.Outside? {
      acts := [];
    } else {
      var a := Onward(s);
      assert Enabled(s, a);
      QuitMakesProgress(s, a);
      StepKeepsModes(s, a);
      var more := QuitCanFinish(Step(s, a));
      RunFromFirst(s, a, more);
      acts := [a] + more;
    }
  }

  // ---------------------------------------------------------------- without a quit

  predicate IsQuit<T>(a: Action<T>) { a.Quit? || a.OwnQuit? }

  /** Somebody calls quit in the run. */
  predicate AskedToQuit<T>(s: Loop<T>, acts: seq<Action<T>>) {
    exists i :: 0 <= i < |acts| && IsQuit(acts[i]) && Enabled(Run(s, acts[..i]), acts[i])
  }

  lemma AskedInPrefix<T>(s: Loop<T>, acts: seq<Action<T>>, n: nat)
    requires n <= |acts|
    ensures AskedToQuit(s, acts[..n]) ==> AskedToQuit(s, acts)
  {
    if AskedToQuit(s, acts[..n]) {
      var i :| 0 <= i < n && IsQuit(acts[..n][i]) && Enabled(Run(s, acts[..n][..i]), acts[..n][i]);
      assert acts[..n][..i] == acts[..i];
    }
  }

  /** loop() is left by the test of quit_ that finds it set, and in no other way; it is entered by a
      call and in no other way; and it polls only after a test that finds quit_ clear. */
  lemma LeavesOnQuitOnly<T>(s: Loop<T>, a: Action<T>)
    ensures var r := Next(s, a);
      && (!s.pc.Outside? && r.pc.Outside? <==> a.TestQuit? && s.pc.Test? && s.quit)
      && (s.pc.Outside? && !r.pc.Outside? <==> a.Start? && s.pc.Outside? && !s.ownPushed)
      && (!s.pc.AtPoll? && r.pc.AtPoll? <==> a.TestQuit? && s.pc.Test? && !s.quit)
      && (!s.quit && r.quit <==> IsQuit(a) && Enabled(s, a) && !s.quit)
  {
  }

  lemma {:induction false} LoopStays<T>(s: Loop<T>, acts: seq<Action<T>>)
    requires !s.quit && !s.pc.Outside? && !AskedToQuit(s, acts)
    ensures !Run(s, acts).quit && !Run(s, acts).pc.Outside?
    decreases |acts|
  {
    if acts == [] {
    } else {
      var n := |acts| - 1;
      AskedInPrefix(s, acts, n);
      LoopStays(s, acts[..n]);
      LeavesOnQuitOnly(Run(s, acts[..n]), acts[n]);
    }
  }

  /** A call to loop() that returns was asked to: somebody called quit since it was entered. */
  lemma {:induction false} ReturnNeedsQuit<T>(s: Loop<T>, acts: seq<Action<T>>)
    requires Enabled(s, Start) && Returns(Step(s, Start), acts)
    ensures AskedToQuit(Step(s, Start), acts)
  {
    var t := Step(s, Start);
    var i :| 0 <= i < |acts| && !Run(t, acts[..i]).pc.Outside? && Next(Run(t, acts[..i]), acts[i]).pc.Outside?;
    LeftAt(t, acts, i);
    AskedInPrefix(t, acts, i);
  }

  lemma LeftAt<T>(t: Loop<T>, acts: seq<Action<T>>, i: nat)
    requires !t.quit && !t.pc.Outside? && i < |acts|
    requires !Run(t, acts[..i]).pc.Outside? && Next(Run(t, acts[..i]), acts[i]).pc.Outside?
    ensures AskedToQuit(t, acts[..i])
  {
    LeavesOnQuitOnly(Run(t, acts[..i]), acts[i]);
    if !AskedToQuit(t, acts[..i]) { LoopStays(t, acts[..i]); }
  }

  /** The functors handed to queueInLoop in a run, by the loop thread or by others. */
  function Asked<T>(s: Loop<T>, acts: seq<Action<T>>): seq<T> {
    if acts == [] then []
    else
      var n := |acts| - 1; var a := acts[n];
      Asked(s, acts[..n]) + if (a.OwnPush? || a.Push?) && Enabled(Run(s, acts[..n]), a) then [a.x] else []
  }

  /** Every functor handed over is queued, once, in the order of the locks, and none besides. */
  lemma {:induction false} EveryFunctorIsQueued<T>(s: Loop<T>, acts: seq<Action<T>>)
    ensures Run(s, acts).submitted == s.submitted + Asked(s, acts)
    decreases |acts|
  {
    if acts == [] {
    } else {
      EveryFunctorIsQueued(s, acts[..|acts| - 1]);
      StepQueues(Run(s, acts[..|acts| - 1]), acts[|acts| - 1]);
    }
  }

  lemma StepQueues<T>(s: Loop<T>, a: Action<T>)
    ensures Next(s, a).submitted
         == s.submitted + if (a.OwnPush? || a.Push?) && Enabled(s, a) then [a.x] else []
  {
  }

  /** The loop thread's own steps until it has passed the k-th functor ever queued. */
  function TurnsTo<T>(s: Loop<T>, k: nat): nat {
    if k < |s.taken| then 0
    else
      var p := k - |s.taken|;
      match s.pc
      case Outside => p + 7
      case Test => p + 6
      case AtPoll => p + 5
      case Dispatch(saw) => if saw then p + 4 else p + 3
      case Marked => p + 2
      case Running(rest) => if p < |rest| then p + 1 else p + 7
  }

  /** Each of its steps brings it nearer, and nobody else's takes it further away. */
  lemma TurnsShrink<T>(s: Loop<T>, a: Action<T>, k: nat)
    requires Ledger(s) && k < |s.submitted| && !s.quit && !s.pc.Outside? && Enabled(s, a)
    ensures var r := Step(s, a);
      && (IsControl(a) && TurnsTo(s, k) > 0 ==> TurnsTo(r, k) < TurnsTo(s, k))
      && TurnsTo(r, k) <= TurnsTo(s, k)
      && |s.taken| <= |r.taken| && k < |r.submitted| && r.submitted[k] == s.submitted[k]
  {
  }

  /** While nobody quits, every functor that was queued is passed, in its place, within so many of
      the loop thread's own steps, whatever user code and other threads do between them. */
  lemma {:induction false} FunctorBound<T>(s: Loop<T>, acts: seq<Action<T>>, k: nat)
    requires Inv(s) && !s.quit && !s.pc.Outside? && k < |s.submitted| && !AskedToQuit(s, acts)
    ensures var r := Run(s, acts);
      && (ControlSteps(s, acts) < TurnsTo(s, k) ==> ControlSteps(s, acts) + TurnsTo(r, k) <= TurnsTo(s, k))
      && (ControlSteps(s, acts) >= TurnsTo(s, k) ==> k < |r.taken| && r.taken[k] == s.submitted[k])
  {
    PassesInTime(s, acts, k);
    var r := Run(s, acts);
    RunKeepsInv(s, acts);
    if k < |r.taken| { assert r.taken[k] == r.submitted[..|r.taken|][k] == r.submitted[k]; }
  }

  lemma {:induction false} PassesInTime<T>(s: Loop<T>, acts: seq<Action<T>>, k: nat)
    requires Inv(s) && !s.quit && !s.pc.Outside? && k < |s.submitted| && !AskedToQuit(s, acts)
    ensures var r := Run(s, acts);
      && (k < |r.taken| || ControlSteps(s, acts) + TurnsTo(r, k) <= TurnsTo(s, k))
      && k < |r.submitted| && r.submitted[k] == s.submitted[k]
    decreases |acts|
  {
    if acts == [] {
    } else {
      var r, a := Run(s, acts[..|acts| - 1]), acts[|acts| - 1];
      AskedInPrefix(s, acts, |acts| - 1);
      PassesInTime(s, acts[..|acts| - 1], k);
      LoopStays(s, acts[..|acts| - 1]);
      RunKeepsInv(s, acts[..|acts| - 1]);
      if Enabled(r, a) { TurnsShrink(r, a, k); }
    }
  }

  /** And the loop thread alone can always get there. */
  lemma {:induction false} FunctorCanRun<T>(s: Loop<T>, k: nat) returns (acts: seq<Action<T>>)
    requires Inv(s) && !s.quit && !s.pc.Outside? && k < |s.submitted|
    ensures k < |Run(s, acts).taken| && |acts| <= TurnsTo(s, k) + (if s.ownPushed then 1 else 0)
    ensures forall a <- acts :: IsControl(a) || a.OwnWake?
    decreases TurnsTo(s, k), s.ownPushed
  {
    if TurnsTo(s, k) == 0 {
      acts := [];
    } else {
      var a := Onward(s);
      assert Enabled(s, a);
      TurnsShrink(s, a, k);
      StepKeepsInv(s, a);
      LeavesOnQuitOnly(s, a);
      var more := FunctorCanRun(Step(s, a), k);
      RunFromFirst(s, a, more);
      acts := [a] + more;
    }
  }

  /** The eventfd: the loop's read empties it, and it is written exactly by a thread that knows it is
      not the loop's, or by anyone who has queued a functor while a round runs its functors. */
  lemma EventfdExactly<T>(s: Loop<T>, a: Action<T>)
    requires Inv(s)
    ensures var inRound := s.pc.Marked? || s.pc.Running?;
      var writes := Enabled(s, a) && (
        || (a.OwnWake? && inRound)
        || (a.Wake? && (s.cfg.distinctThreadIds || (s.threads[a.t].Pushed? && inRound))));
      Next(s, a).counter == if a.ReadEventfd? && Enabled(s, a) then 0
                            else if writes && s.counter < EVENTFD_MAX then s.counter + 1
                            else s.counter
    ensures s.pc.AtPoll? ==> Enabled(s, PollReturns(false)) && (Enabled(s, PollReturns(true)) <==> s.counter > 0)
  {
  }

  /** The machine is a queue: each step of it appends one submission, takes the head, or neither. */
  lemma StepIsQueueStep<T>(s: Loop<T>, a: Action<T>)
    requires Inv(s)
    ensures var r := Next(s, a);
      || (Waiting(r) == Waiting(s) && r.taken == s.taken && r.submitted == s.submitted)
      || (exists x :: Waiting(r) == Waiting(s) + [x] && r.taken == s.taken && r.submitted == s.submitted + [x])
      || (Waiting(s) != [] && Waiting(r) == Waiting(s)[1..] && r.taken == s.taken + [Waiting(s)[0]]
          && r.submitted == s.submitted)
  {
    var r := Next(s, a);
    if !Enabled(s, a) {
    } else if a.OwnPush? || a.Push? {
      assert Waiting(r) == Waiting(s) + [a.x];
    } else if a.RunOne? {
      assert Waiting(r) == Waiting(s)[1..] && Waiting(s)[0] == s.pc.rest[0];
    } else {
      assert Waiting(r) == Waiting(s);
    }
  }

  /** One read uses a wakeup up: until somebody writes the eventfd again, poll does not report the
      wakeup channel, so a served wakeup does not keep the loop spinning. */
  lemma {:induction false} WakeupIsUsedUp<T>(s: Loop<T>, acts: seq<Action<T>>)
    requires Enabled(s, ReadEventfd)
    requires forall i :: 0 <= i < |acts| ==> !acts[i].Wake? && !acts[i].OwnWake?
    ensures var r := Run(Step(s, ReadEventfd), acts);
      r.counter == 0 && !Enabled(r, PollReturns(true)) && !Enabled(r, ReadEventfd)
    decreases |acts|
  {
    if acts == [] {
    } else {
      WakeupIsUsedUp(s, acts[..|acts| - 1]);
    }
  }

  // ---------------------------------------------------------------- where the claims fail

  lemma RunFour<T>(s: Loop<T>, a: Action<T>, b: Action<T>, c: Action<T>, d: Action<T>)
    ensures Run(s, [a, b, c, d]) == Next(Next(Next(Next(s, a), b), c), d)
  {
    assert Run(s, [a]) == Next(s, a) by { Unroll(s, [], a); assert [] + [a] == [a]; }
    assert Run(s, [a, b]) == Next(Run(s, [a]), b) by { Unroll(s, [a], b); assert [a] + [b] == [a, b]; }
    assert Run(s, [a, b, c]) == Next(Run(s, [a, b]), c) by { Unroll(s, [a, b], c); assert [a, b] + [c] == [a, b, c]; }
    assert Run(s, [a, b, c, d]) == Next(Run(s, [a, b, c]), d) by {
      Unroll(s, [a, b, c], d);
      assert [a, b, c] + [d] == [a, b, c, d];
    }
  }

  /** Asleep with a functor waiting that was not queued by the loop thread before loop(). */
  ghost predicate SleepsOverWork<T>(s: Loop<T>) {
    s.pc.AtPoll? && s.counter == 0 && !InFlight(s, Pushed) && s.pending != [] && !s.stray
  }

  ghost predicate SleepsOverQuit<T>(s: Loop<T>) {
    s.pc.AtPoll? && s.counter == 0 && !InFlight(s, QuitSet) && s.quit
  }

  /** As the ids are written, a functor queued by another thread while the loop polls wakes nobody. */
  lemma WakeupLostAsWritten<T>(calls: bool, threads: nat, x: T)
    requires threads > 0
    ensures var s := Run(Init<T>(Config(calls, false), threads), [Start, TestQuit, Push(0, x), Wake(0)]);
      SleepsOverWork(s) && s.pending == [x] && s.threads == seq(threads, i => Idle)
  {
    RunFour(Init<T>(Config(calls, false), threads), Start, TestQuit, Push(0, x), Wake(0));
    assert seq(threads, i => Idle)[0 := Pushed][0 := Idle] == seq(threads, i => Idle);
  }

  /** Nor does a quit. */
  lemma QuitLostAsWritten<T>(calls: bool, threads: nat)
    requires threads > 0
    ensures var s := Run(Init<T>(Config(calls, false), threads), [Start, TestQuit, Quit(0), Wake(0)]);
      SleepsOverQuit(s) && s.threads == seq(threads, i => Idle)
  {
    RunFour(Init<T>(Config(calls, false), threads), Start, TestQuit, Quit(0), Wake(0));
    assert seq(threads, i => Idle)[0 := QuitSet][0 := Idle] == seq(threads, i => Idle);
  }

  /** No run at all sleeps over work exactly when threads can tell themselves apart or there are no
      others: whether the loop body calls its functors has no bearing on it. */
  lemma WakeupsHeardExactly<T(!new)>(cfg: Config, threads: nat, x: T)
    ensures (forall acts :: !SleepsOverWork(Run(Init<T>(cfg, threads), acts)))
      <==> cfg.distinctThreadIds || threads == 0
  {
    if WakesOthers(cfg, threads) {
      forall acts
        ensures !SleepsOverWork(Run(Init<T>(cfg, threads), acts))
      {
        NoLostWakeup(cfg, threads, acts);
      }
    } else {
      WakeupLostAsWritten(cfg.callsFunctors, threads, x);
    }
  }

  lemma QuitsHeardExactly<T(!new)>(cfg: Config, threads: nat)
    ensures (forall acts :: !SleepsOverQuit(Run(Init<T>(cfg, threads), acts)))
      <==> cfg.distinctThreadIds || threads == 0
  {
    if WakesOthers(cfg, threads) {
      forall acts
        ensures !SleepsOverQuit(Run(Init<T>(cfg, threads), acts))
      {
        RunKeepsInv(Init<T>(cfg, threads), acts);
      }
    } else {
      QuitLostAsWritten<T>(cfg.callsFunctors, threads);
    }
  }

  /** Whatever the ids, what the loop thread queues before loop() sleeps through the first poll. */
  lemma EarlyPushSleeps<T>(cfg: Config, threads: nat, x: T)
    ensures var s := Run(Init<T>(cfg, threads), [OwnPush(x), OwnWake, Start, TestQuit]);
      s.pc.AtPoll? && s.pending == [x] && s.counter == 0 && s.stray
  {
    RunFour(Init<T>(cfg, threads), OwnPush(x), OwnWake, Start, TestQuit);
  }

  /** A quit made before loop() is forgotten: loop() clears the flag. */
  lemma QuitBeforeLoopIsForgotten<T>(cfg: Config, threads: nat)
    requires threads > 0
    ensures var s := Run(Init<T>(cfg, threads), [Quit(0), Wake(0), Start, TestQuit]);
      s.pc.AtPoll? && !s.quit
  {
    RunFour(Init<T>(cfg, threads), Quit(0), Wake(0), Start, TestQuit);
  }
}
