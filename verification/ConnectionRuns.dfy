/** Every run of one connection: its loop thread, any number of other threads, any kernel. */
module ConnectionRuns {
  import opened Buffers
  import opened Polling
  import opened Connection

  // ---------------------------------------------------------------- runs, with any number of threads

  /** Another thread inside send or shutdown: past the test of state_, or past the change of it. */
  datatype ThreadPc = Away | Sending(m: Message) | ClosingChecked | ClosingSet

  /** What the other side of each system call has seen, and the user. Nothing of it is told by the
      connection: `Watch` takes it from the call and the state before. */
  datatype Seen = Seen(
    wire: string,              // what write(2) returned for, in order
    arrived: string,           // what readv(2) returned, in order
    retrieved: string,         // what the message callback took from the input buffer
    dropped: seq<Message>,     // messages that found the connection disconnected or a faulting write
    ran: seq<Task>)            // functors the loop has taken from the queue

  /** Thread 0 owns the loop. `sent[t]` is what thread t passed to send while connected, in order. */
  datatype World = World(conn: Conn, threads: seq<ThreadPc>, sent: seq<seq<string>>, epipe: bool, seen: Seen)

  /** One atomic step. The loop thread runs a handler or a functor to its end before the next step;
      callbacks it makes into user code are steps of their own. Most handlers make them last;
      handleClose and connectDestroyed do so once state_ has left kConnected, when send and shutdown
      do nothing. `epipe` worlds have a kernel that refuses writes after SHUT_WR. */
  datatype Action =
    | Establish | Destroy
    | LoopSend(body: string, w: WriteResult) | LoopShutdown
    | ForeignSend(t: nat, body: string) | ForeignShutdown(t: nat) | ForeignSetState(t: nat) | ForeignPush(t: nat)
    | RunTask(w: WriteResult)
    | Event(cb: Callback, r: ReadResult, w: WriteResult)
    | Retrieved(n: nat)

  function Birth(threads: nat, c: Conn, epipe: bool): World {
    World(c, seq(threads + 1, i => Away), seq(threads + 1, i => []), epipe, Seen([], [], [], [], []))
  }

  /** The write that a step would make is one the kernel can answer so. */
  predicate KernelAnswers(s: World, w: WriteResult, len: nat) {
    LegalWrite(w, len) && (s.epipe && s.conn.log.shutdowns > 0 ==> w.Fault?)
  }

  predicate Foreign(s: World, t: nat) { 0 < t < |s.threads| }

  predicate Enabled(s: World, a: Action) {
    var c := s.conn;
    match a
    case Establish => c.state.Connecting?
    case Destroy => !c.state.Connecting?
    case LoopSend(body, w) => c.state.Connected? && |s.sent| > 0 && KernelAnswers(s, w, |body|)
    case LoopShutdown => c.state.Connected?
    case ForeignSend(t, _) => Foreign(s, t) && t < |s.sent| && s.threads[t].Away? && c.state.Connected?
    case ForeignShutdown(t) => Foreign(s, t) && s.threads[t].Away? && c.state.Connected?
    case ForeignSetState(t) => Foreign(s, t) && s.threads[t].ClosingChecked?
    case ForeignPush(t) => Foreign(s, t) && (s.threads[t].Sending? || s.threads[t].ClosingSet?)
    case RunTask(w) => c.queue != [] && (c.queue[0].SendTask? ==> KernelAnswers(s, w, |c.queue[0].m.body|))
    case Event(_, _, w) => !c.state.Connecting? && KernelAnswers(s, w, |c.backlog|)
    case Retrieved(_) => !c.state.Connecting?
  }

  /** A functor the loop takes from its queue. The two user callbacks are steps of user code. */
  function Perform(c: Conn, task: Task, w: WriteResult): Conn
    requires task.SendTask? ==> LegalWrite(w, |task.m.body|)
  {
    match task
    case SendTask(m) => SendInLoop(c, m, w)
    case ShutdownTask => ShutdownInLoop(c)
    case WriteCompleteTask => c
    case HighWaterTask(_) => c
  }

  function Step(s: World, a: Action): World
    requires Enabled(s, a)
  { Act(s, a).(seen := Watch(s, a)) }

  /** What the program does. */
  function Act(s: World, a: Action): World
    requires Enabled(s, a)
  {
    var c := s.conn;
    match a
    case Establish => s.(conn := ConnectEstablished(c))
    case Destroy => s.(conn := ConnectDestroyed(c))
    case LoopSend(body, w) =>
      var m := Message(0, |s.sent[0]|, body);
      s.(conn := SendInLoop(c, m, w), sent := s.sent[0 := s.sent[0] + [body]])
    case LoopShutdown => s.(conn := ShutdownInLoop(c.(state := Disconnecting)))
    case ForeignSend(t, body) =>
      var m := Message(t, |s.sent[t]|, body);
      s.(threads := s.threads[t := Sending(m)], sent := s.sent[t := s.sent[t] + [body]])
    case ForeignShutdown(t) => s.(threads := s.threads[t := ClosingChecked])
    case ForeignSetState(t) => s.(conn := c.(state := Disconnecting), threads := s.threads[t := ClosingSet])
    case ForeignPush(t) =>
      var task := if s.threads[t].Sending? then SendTask(s.threads[t].m) else ShutdownTask;
      s.(conn := Post(c, task), threads := s.threads[t := Away])
    case RunTask(w) => s.(conn := Perform(c.(queue := c.queue[1..]), c.queue[0], w))
    case Event(cb, r, w) => s.(conn := Handle(c, cb, r, w))
    case Retrieved(n) => s.(conn := Consume(c, n))
  }

  /** What is seen of it from outside. */
  function Watch(s: World, a: Action): Seen
    requires Enabled(s, a)
  {
    var c, seen := s.conn, s.seen;
    match a
    case LoopSend(body, w) => WatchSend(seen, c, Message(0, |s.sent[0]|, body), w)
    case RunTask(w) =>
      var ran := seen.(ran := seen.ran + [c.queue[0]]);
      if c.queue[0].SendTask? then WatchSend(ran, c, c.queue[0].m, w) else ran
    case Event(cb, r, w) =>
      if cb.ReadCallback? && r.Data? then seen.(arrived := seen.arrived + r.bytes)
      else if cb.WriteCallback? && c.slot.events.output then seen.(wire := seen.wire + c.backlog[..BytesWritten(w)])
      else seen
    case Retrieved(n) => seen.(retrieved := seen.retrieved + c.inbox[..if n < |c.inbox| then n else |c.inbox|])
    case _ => seen
  }

  function WatchSend(seen: Seen, c: Conn, m: Message, w: WriteResult): Seen
    requires LegalWrite(w, |m.body|)
  {
    if c.state.Disconnected? || (Clear(c) && w.Fault?) then seen.(dropped := seen.dropped + [m])
    else if Clear(c) then seen.(wire := seen.wire + m.body[..BytesWritten(w)])
    else seen
  }

  function Next(s: World, a: Action): World { if Enabled(s, a) then Step(s, a) else s }

  function Run(s: World, acts: seq<Action>): World {
    if acts == [] then s else Next(Run(s, acts[..|acts| - 1]), acts[|acts| - 1])
  }

  // ---------------------------------------------------------------- each sender's order

  function Sends(queue: seq<Task>): seq<Message> {
    if queue == [] then []
    else (if queue[0].SendTask? then [queue[0].m] else []) + Sends(queue[1..])
  }

  lemma {:induction false} SendsAppend(queue: seq<Task>, more: seq<Task>)
    ensures Sends(queue + more) == Sends(queue) + Sends(more)
  {
    if queue == [] {
      assert queue + more == more;
    } else {
      var head := if queue[0].SendTask? then [queue[0].m] else [];
      assert (queue + more)[0] == queue[0] && (queue + more)[1..] == queue[1..] + more;
      SendsAppend(queue[1..], more);
      assert head + (Sends(queue[1..]) + Sends(more)) == (head + Sends(queue[1..])) + Sends(more);
    }
  }

  /** Messages of one sender come in the order of its calls, each with the bytes of its call. */
  ghost predicate InOrder(ms: seq<Message>, sent: seq<seq<string>>) {
    && (forall i :: 0 <= i < |ms| ==> Faithful(ms[i], sent))
    && (forall i, j :: 0 <= i < j < |ms| && ms[i].sender == ms[j].sender ==> ms[i].serial < ms[j].serial)
  }

  ghost predicate Faithful(m: Message, sent: seq<seq<string>>) {
    m.sender < |sent| && m.serial < |sent[m.sender]| && m.body == sent[m.sender][m.serial]
  }

  /** The messages already accepted, then those still waiting for the loop. */
  function Stream(c: Conn): seq<Message> { c.log.accepted + Sends(c.queue) }

  ghost predicate Orderly(s: World) {
    && |s.sent| == |s.threads| > 0 && s.threads[0].Away?
    && InOrder(Stream(s.conn), s.sent)
    && (forall m <- Sends(s.conn.queue) :: m.sender != 0)
    && (forall t :: 0 <= t < |s.threads| && s.threads[t].Sending? ==> SendsNext(s, t))
  }

  /** The message a thread is about to queue comes after all of its earlier ones. */
  ghost predicate SendsNext(s: World, t: nat)
    requires t < |s.threads| && s.threads[t].Sending?
  {
    var m := s.threads[t].m;
    && t > 0 && m.sender == t && Faithful(m, s.sent)
    && forall i :: 0 <= i < |Stream(s.conn)| && Stream(s.conn)[i].sender == t ==> Stream(s.conn)[i].serial < m.serial
  }

  lemma Grown(sent: seq<seq<string>>, t: nat, body: string, ms: seq<Message>)
    requires t < |sent| && InOrder(ms, sent)
    ensures InOrder(ms, sent[t := sent[t] + [body]])
    ensures forall m: Message :: Faithful(m, sent) ==> Faithful(m, sent[t := sent[t] + [body]])
  {
    forall m: Message | Faithful(m, sent)
      ensures Faithful(m, sent[t := sent[t] + [body]])
    {
    }
  }

  /** Leaving one message out keeps the rest in order. */
  lemma DropOne(a: seq<Message>, m: Message, b: seq<Message>, sent: seq<seq<string>>)
    requires InOrder(a + [m] + b, sent)
    ensures InOrder(a + b, sent)
  {
    var all := a + [m] + b;
    assert forall i :: 0 <= i < |a + b| ==> (a + b)[i] == all[if i < |a| then i else i + 1];
  }

  /** A newest message of its sender may join anywhere after that sender's others. */
  lemma InsertOne(a: seq<Message>, m: Message, b: seq<Message>, sent: seq<seq<string>>)
    requires InOrder(a + b, sent) && Faithful(m, sent)
    requires forall x <- a :: x.sender == m.sender ==> x.serial < m.serial
    requires forall x <- b :: x.sender != m.sender
    ensures InOrder(a + [m] + b, sent)
  {
    var all := a + [m] + b;
    assert forall i :: 0 <= i < |all| && i != |a| ==> all[i] == (a + b)[if i < |a| then i else i - 1];
    assert forall k :: 0 <= k < |a| ==> all[k] in a;
    assert forall k :: |a| < k < |all| ==> all[k] in b;
  }

  // ---------------------------------------------------------------- steps keep the order

  /** A handler adds only callback functors to the queue, so the waiting messages stay the same;
      sendInLoop either takes charge of its message at once or drops it. */
  lemma SendQueues(c: Conn, m: Message, w: WriteResult)
    requires LegalWrite(w, |m.body|)
    ensures var r := SendInLoop(c, m, w);
      && Sends(r.queue) == Sends(c.queue) && c.queue <= r.queue
      && (r.log.accepted == c.log.accepted || r.log.accepted == c.log.accepted + [m])
  {
    CallbacksOnly(c.queue, WriteCompleteTask);
    CallbacksOnly(c.queue, HighWaterTask(|c.backlog| + |m.body| - if WritesDirectly(c) then BytesWritten(w) else 0));
  }

  lemma CallbacksOnly(queue: seq<Task>, task: Task)
    requires !task.SendTask?
    ensures Sends(queue + [task]) == Sends(queue)
  {
    SendsAppend(queue, [task]);
    assert Sends([task]) == [];
  }

  lemma WriteQueues(c: Conn, w: WriteResult)
    requires LegalWrite(w, |c.backlog|)
    ensures var r := HandleWrite(c, w);
      Sends(r.queue) == Sends(c.queue) && c.queue <= r.queue && r.log.accepted == c.log.accepted
  {
    CallbacksOnly(c.queue, WriteCompleteTask);
  }

  /** A step that leaves threads and calls alone keeps the order if it keeps or thins the stream. */
  lemma SameThreadsStayOrderly(s: World, r: World)
    requires Orderly(s) && r.threads == s.threads && r.sent == s.sent
    requires InOrder(Stream(r.conn), s.sent)
    requires forall m <- Stream(r.conn) :: m in Stream(s.conn)
    requires forall m <- Sends(r.conn.queue) :: m in Sends(s.conn.queue)
    ensures Orderly(r)
  {
    forall t | 0 <= t < |r.threads| && r.threads[t].Sending?
      ensures SendsNext(r, t)
    {
      assert SendsNext(s, t);
      forall i | 0 <= i < |Stream(r.conn)| && Stream(r.conn)[i].sender == t
        ensures Stream(r.conn)[i].serial < r.threads[t].m.serial
      {
        assert Stream(r.conn)[i] in Stream(s.conn);
      }
    }
  }

  lemma LoopSendStaysOrderly(s: World, body: string, w: WriteResult)
    requires Orderly(s) && Enabled(s, LoopSend(body, w))
    ensures Orderly(Step(s, LoopSend(body, w)))
  {
    var r := Step(s, LoopSend(body, w));
    var m := Message(0, |s.sent[0]|, body);
    var a, b := s.conn.log.accepted, Sends(s.conn.queue);
    SendQueues(s.conn, m, w);
    Grown(s.sent, 0, body, Stream(s.conn));
    if r.conn.log.accepted == a {
      assert Stream(r.conn) == Stream(s.conn);
    } else {
      forall x <- a | x.sender == 0
        ensures x.serial < m.serial
      {
        var i :| 0 <= i < |a| && a[i] == x;
        assert Stream(s.conn)[i] == x && Faithful(x, s.sent);
      }
      InsertOne(a, m, b, r.sent);
      assert Stream(r.conn) == a + [m] + b;
    }
    forall t | 0 <= t < |r.threads| && r.threads[t].Sending?
      ensures SendsNext(r, t)
    {
      assert SendsNext(s, t);
      forall i | 0 <= i < |Stream(r.conn)| && Stream(r.conn)[i].sender == t
        ensures Stream(r.conn)[i].serial < r.threads[t].m.serial
      {
        assert Stream(r.conn)[i] in Stream(s.conn);
      }
    }
  }

  lemma ForeignSendStaysOrderly(s: World, t: nat, body: string)
    requires Orderly(s) && Enabled(s, ForeignSend(t, body))
    ensures Orderly(Step(s, ForeignSend(t, body)))
  {
    var r := Step(s, ForeignSend(t, body));
    Grown(s.sent, t, body, Stream(s.conn));
    forall u | 0 <= u < |r.threads| && r.threads[u].Sending?
      ensures SendsNext(r, u)
    {
      if u == t {
        assert forall i :: 0 <= i < |Stream(s.conn)| ==> Faithful(Stream(s.conn)[i], s.sent);
      } else {
        assert SendsNext(s, u);
      }
    }
  }

  lemma PushOfShutdownStaysOrderly(s: World, t: nat)
    requires Orderly(s) && Enabled(s, ForeignPush(t)) && s.threads[t].ClosingSet?
    ensures Orderly(Step(s, ForeignPush(t)))
  {
    var r := Step(s, ForeignPush(t));
    CallbacksOnly(s.conn.queue, ShutdownTask);
    forall u | 0 <= u < |r.threads| && r.threads[u].Sending?
      ensures SendsNext(r, u)
    {
      assert SendsNext(s, u);
    }
  }

  lemma PushOfSendStaysOrderly(s: World, t: nat)
    requires Orderly(s) && Enabled(s, ForeignPush(t)) && s.threads[t].Sending?
    ensures Orderly(Step(s, ForeignPush(t)))
  {
    var r, m, before := Step(s, ForeignPush(t)), s.threads[t].m, Stream(s.conn);
    assert SendsNext(s, t);
    SendsAppend(s.conn.queue, [SendTask(m)]);
    assert Sends([SendTask(m)]) == [m] + Sends([]);
    assert Stream(r.conn) == before + [m];
    assert before + [] == before && before + [m] + [] == before + [m];
    InsertOne(before, m, [], s.sent);
    forall u | 0 <= u < |r.threads| && r.threads[u].Sending?
      ensures SendsNext(r, u)
    {
      assert SendsNext(s, u) && u != t;
    }
  }

  lemma RunTaskStaysOrderly(s: World, w: WriteResult)
    requires Orderly(s) && Enabled(s, RunTask(w))
    ensures Orderly(Step(s, RunTask(w)))
  {
    var r := Step(s, RunTask(w));
    var c := s.conn.(queue := s.conn.queue[1..]);
    var a, b := s.conn.log.accepted, Sends(c.queue);
    if s.conn.queue[0].SendTask? {
      var m := s.conn.queue[0].m;
      SendQueues(c, m, w);
      assert Stream(s.conn) == a + ([m] + b) == a + [m] + b;
      if r.conn.log.accepted == a {
        DropOne(a, m, b, s.sent);
        assert Stream(r.conn) == a + b;
      } else {
        assert Stream(r.conn) == a + [m] + b;
      }
    } else {
      assert Sends(s.conn.queue) == b;
      assert Sends(r.conn.queue) == b && r.conn.log.accepted == a;
    }
    SameThreadsStayOrderly(s, r);
  }

  lemma EventStaysOrderly(s: World, a: Action)
    requires Orderly(s) && Enabled(s, a)
    requires a.Event? || a.Establish? || a.Destroy? || a.Retrieved? || a.LoopShutdown?
    ensures Orderly(Step(s, a))
  {
    EventKeepsStream(s, a);
    SameThreadsStayOrderly(s, Step(s, a));
  }

  lemma EventKeepsStream(s: World, a: Action)
    requires Enabled(s, a)
    requires a.Event? || a.Establish? || a.Destroy? || a.Retrieved? || a.LoopShutdown?
    ensures var r := Step(s, a);
      && Stream(r.conn) == Stream(s.conn) && Sends(r.conn.queue) == Sends(s.conn.queue)
      && r.threads == s.threads && r.sent == s.sent
  {
    if a.Event? && a.cb.WriteCallback? { WriteQueues(s.conn, a.w); }
  }

  lemma ClosingStaysOrderly(s: World, a: Action)
    requires Orderly(s) && Enabled(s, a) && (a.ForeignShutdown? || a.ForeignSetState?)
    ensures Orderly(Step(s, a))
  {
    var r := Step(s, a);
    assert Stream(r.conn) == Stream(s.conn);
    forall t | 0 <= t < |r.threads| && r.threads[t].Sending?
      ensures SendsNext(r, t)
    {
      assert SendsNext(s, t);
    }
  }

  lemma StepStaysOrderly(s: World, a: Action)
    requires Orderly(s) && Enabled(s, a)
    ensures Orderly(Step(s, a))
  {
    match a
    case LoopSend(body, w) => LoopSendStaysOrderly(s, body, w);
    case ForeignSend(t, body) => ForeignSendStaysOrderly(s, t, body);
    case ForeignPush(t) =>
      if s.threads[t].Sending? { PushOfSendStaysOrderly(s, t); } else { PushOfShutdownStaysOrderly(s, t); }
    case RunTask(w) => RunTaskStaysOrderly(s, w);
    case ForeignShutdown(t) => ClosingStaysOrderly(s, a);
    case ForeignSetState(t) => ClosingStaysOrderly(s, a);
    case _ => EventStaysOrderly(s, a);
  }

  // ---------------------------------------------------------------- steps keep the rest

  /** In kDisconnecting somebody is still going to shut the write side, or it is shut. */
  ghost predicate Graceful(s: World) {
    s.conn.state.Disconnecting? ==>
      || ClosingSet in s.threads || ShutdownTask in s.conn.queue
      || (s.conn.backlog != [] && Writing(s.conn)) || s.conn.log.shutdowns > 0
  }

  /** Where writes fail after SHUT_WR nothing is left over once it was issued. */
  predicate NothingLeft(s: World) {
    s.epipe && Open(s.conn) && s.conn.log.shutdowns > 0 ==> s.conn.backlog == []
  }

  predicate QuietAtBirth(s: World) {
    s.conn.state.Connecting? ==> forall t :: 0 <= t < |s.threads| ==> s.threads[t].Away?
  }

  /** Nobody shuts the write side, or is about to, unless shutdown() has changed the state. */
  ghost predicate ShutOnRequest(s: World) {
    Open(s.conn) && (s.conn.log.shutdowns > 0 || ShutdownTask in s.conn.queue || ClosingSet in s.threads) ==>
      s.conn.state.Disconnecting?
  }

  lemma StepStaysSound(s: World, a: Action)
    requires Sound(s.conn) && Enabled(s, a)
    ensures Sound(Step(s, a).conn)
  {
    var c := s.conn;
    match a
    case LoopSend(body, w) => SendKeepsSound(c, Message(0, |s.sent[0]|, body), w);
    case RunTask(w) =>
      AccountsStaySound(c, c.(queue := c.queue[1..]));
      TaskKeepsSound(c.(queue := c.queue[1..]), c.queue[0], w);
    case Event(cb, r, w) => EventKeepsSound(c, cb, r, w);
    case Retrieved(n) => ConsumeKeepsSound(c, n);
    case _ => LifecycleStaysSound(s, a);
  }

  lemma LifecycleStaysSound(s: World, a: Action)
    requires Sound(s.conn) && Enabled(s, a)
    requires !a.LoopSend? && !a.RunTask? && !a.Event? && !a.Retrieved?
    ensures Sound(Step(s, a).conn)
  {
    var r := Step(s, a);
    if a.Establish? {
      EstablishKeepsSound(s.conn);
    } else if a.Destroy? {
      DestroyKeepsSound(s.conn);
    } else {
      AccountsStaySound(s.conn, r.conn);
    }
  }

  lemma TaskKeepsSound(c: Conn, task: Task, w: WriteResult)
    requires Sound(c) && (task.SendTask? ==> LegalWrite(w, |task.m.body|))
    ensures Sound(Perform(c, task, w))
  {
    if task.SendTask? { SendKeepsSound(c, task.m, w); }
    AccountsStaySound(c, ShutdownInLoop(c));
  }

  lemma StepStaysSettled(s: World, a: Action)
    requires Settled(s.conn) && Agree(s.conn.slot) && QuietAtBirth(s) && Enabled(s, a)
    ensures Settled(Step(s, a).conn)
  {
    var c := s.conn;
    if a.Establish? {
      EstablishSettles(c);
    } else if a.LoopSend? {
      SendKeepsSettled(c, Message(0, |s.sent[0]|, a.body), a.w);
    } else if a.RunTask? {
      TaskKeepsSettled(c.(queue := c.queue[1..]), c.queue[0], a.w);
    } else if a.Event? {
      EventKeepsSettled(c, a.cb, a.r, a.w);
    } else {
      OtherStepStaysSettled(s, a);
    }
  }

  lemma OtherStepStaysSettled(s: World, a: Action)
    requires Settled(s.conn) && Agree(s.conn.slot) && QuietAtBirth(s) && Enabled(s, a)
    requires !a.Establish? && !a.LoopSend? && !a.RunTask? && !a.Event?
    ensures Settled(Step(s, a).conn)
  {
    if a.ForeignPush? || a.ForeignSetState? { assert s.threads[a.t] in s.threads; }
  }

  lemma TaskKeepsSettled(c: Conn, task: Task, w: WriteResult)
    requires Settled(c) && !c.state.Connecting? && Agree(c.slot)
    requires task.SendTask? ==> LegalWrite(w, |task.m.body|)
    ensures Settled(Perform(c, task, w))
  {
    if task.SendTask? { SendKeepsSettled(c, task.m, w); }
  }

  lemma StepStaysQuiet(s: World, a: Action)
    requires Settled(s.conn) && QuietAtBirth(s) && Enabled(s, a)
    ensures QuietAtBirth(Step(s, a))
  {
    StepGoesForward(s, a);
    if s.conn.state.Connecting? { BirthIsQuiet(s, a); }
  }

  lemma BirthIsQuiet(s: World, a: Action)
    requires Settled(s.conn) && QuietAtBirth(s) && Enabled(s, a) && s.conn.state.Connecting?
    ensures a.Establish?
  {
  }

  lemma StepStaysOnRequest(s: World, a: Action)
    requires Settled(s.conn) && Agree(s.conn.slot) && ShutOnRequest(s) && QuietAtBirth(s) && Enabled(s, a)
    ensures ShutOnRequest(Step(s, a))
  {
    match a
    case LoopSend(body, w) => SendPostsCallbacks(s.conn, Message(0, |s.sent[0]|, body), w);
    case RunTask(w) => TaskStaysOnRequest(s, w);
    case Event(cb, r, w) => EventStaysOnRequest(s, cb, r, w);
    case ForeignPush(t) => assert s.threads[t] in s.threads;
    case _ =>
  }

  lemma TaskStaysOnRequest(s: World, w: WriteResult)
    requires ShutOnRequest(s) && Enabled(s, RunTask(w))
    ensures ShutOnRequest(Step(s, RunTask(w)))
  {
    var d := s.conn.(queue := s.conn.queue[1..]);
    if s.conn.queue[0].SendTask? { SendPostsCallbacks(d, s.conn.queue[0].m, w); }
    assert ShutdownTask in d.queue ==> ShutdownTask in s.conn.queue;
    assert s.conn.queue[0] in s.conn.queue;
  }

  lemma EventStaysOnRequest(s: World, cb: Callback, r: ReadResult, w: WriteResult)
    requires ShutOnRequest(s) && Enabled(s, Event(cb, r, w))
    ensures ShutOnRequest(Step(s, Event(cb, r, w)))
  {
  }

  lemma SendPostsCallbacks(c: Conn, m: Message, w: WriteResult)
    requires LegalWrite(w, |m.body|)
    ensures var r := SendInLoop(c, m, w);
      && r.state == c.state && r.log.shutdowns == c.log.shutdowns
      && r.log.closes == c.log.closes && r.log.destroyed == c.log.destroyed
      && (ShutdownTask in r.queue ==> ShutdownTask in c.queue)
  {
  }

  lemma SendLeavesLess(c: Conn, m: Message, w: WriteResult)
    requires LegalWrite(w, |m.body|)
    ensures var r := SendInLoop(c, m, w);
      && r.state == c.state && (c.backlog != [] ==> r.backlog != []) && (Writing(c) ==> Writing(r))
      && r.log.shutdowns == c.log.shutdowns && r.log.closes == c.log.closes && r.log.destroyed == c.log.destroyed
  {
    SendPostsCallbacks(c, m, w);
    if Writing(c) { SendStaysWriting(c, m, w); }
  }

  lemma SendStaysWriting(c: Conn, m: Message, w: WriteResult)
    requires LegalWrite(w, |m.body|) && Writing(c)
    ensures Writing(SendInLoop(c, m, w))
  {
  }

  lemma WriteShutsWhenDone(c: Conn, w: WriteResult)
    requires LegalWrite(w, |c.backlog|) && (Writing(c) ==> c.backlog != [])
    ensures var r := HandleWrite(c, w);
      && r.state == c.state && r.log.closes == c.log.closes && r.log.destroyed == c.log.destroyed
      && r.log.shutdowns >= c.log.shutdowns
      && (c.state.Disconnecting? && Writing(c) ==> r.log.shutdowns > c.log.shutdowns || (Writing(r) && r.backlog != []))
  {
  }

  lemma TaskStaysGraceful(s: World, w: WriteResult)
    requires Settled(s.conn) && Graceful(s) && Enabled(s, RunTask(w))
    ensures Graceful(Step(s, RunTask(w)))
  {
    var c := s.conn;
    var d := c.(queue := c.queue[1..]);
    if ShutdownTask in c.queue && !c.queue[0].ShutdownTask? {
      var i :| 0 <= i < |c.queue| && c.queue[i] == ShutdownTask;
      assert d.queue[i - 1] == ShutdownTask;
    }
    if c.queue[0].SendTask? {
      SendLeavesLess(d, c.queue[0].m, w);
      SendQueues(d, c.queue[0].m, w);
    }
  }

  lemma EventStaysGraceful(s: World, cb: Callback, r: ReadResult, w: WriteResult)
    requires Settled(s.conn) && Agree(s.conn.slot) && Graceful(s) && Enabled(s, Event(cb, r, w))
    ensures Graceful(Step(s, Event(cb, r, w)))
  {
    if cb.WriteCallback? {
      WriteShutsWhenDone(s.conn, w);
      WriteQueues(s.conn, w);
      WriteKeepsSettled(s.conn, w);
    }
  }

  lemma ThreadStepStaysGraceful(s: World, a: Action)
    requires Graceful(s) && Enabled(s, a)
    requires a.ForeignSend? || a.ForeignShutdown? || a.ForeignSetState? || a.ForeignPush?
    ensures Graceful(Step(s, a))
  {
    var r := Step(s, a);
    if ClosingSet in s.threads {
      var i :| 0 <= i < |s.threads| && s.threads[i] == ClosingSet;
      assert r.threads[i] == if i == a.t then Away else ClosingSet;
    }
    if a.ForeignSetState? { assert r.threads[a.t] == ClosingSet; }
    if a.ForeignPush? {
      assert r.conn.queue[..|s.conn.queue|] == s.conn.queue;
      assert s.threads[a.t].ClosingSet? ==> r.conn.queue[|s.conn.queue|] == ShutdownTask;
    }
  }

  lemma StepStaysGraceful(s: World, a: Action)
    requires Settled(s.conn) && Agree(s.conn.slot) && Graceful(s) && Enabled(s, a)
    ensures Graceful(Step(s, a))
  {
    match a
    case RunTask(w) => TaskStaysGraceful(s, w);
    case Event(cb, r, w) => EventStaysGraceful(s, cb, r, w);
    case LoopSend(body, w) => SendLeavesLess(s.conn, Message(0, |s.sent[0]|, body), w);
    case ForeignSend(_, _) => ThreadStepStaysGraceful(s, a);
    case ForeignShutdown(_) => ThreadStepStaysGraceful(s, a);
    case ForeignSetState(_) => ThreadStepStaysGraceful(s, a);
    case ForeignPush(_) => ThreadStepStaysGraceful(s, a);
    case _ =>
  }

  /** The step takes a shutdownInLoop off the queue that finds write interest off and bytes unsent:
      a close has turned interest off under the backlog. */
  predicate CarriesOutLate(s: World, a: Action) {
    a.RunTask? && Enabled(s, a) && s.conn.queue[0].ShutdownTask? && !Writing(s.conn) && s.conn.backlog != []
  }

  predicate ShutsOverUnsent(s: World, a: Action) {
    Next(s, a).conn.log.shutdowns != s.conn.log.shutdowns && Next(s, a).conn.backlog != []
  }

  lemma StepShutsOverUnsent(s: World, a: Action)
    requires Settled(s.conn)
    ensures ShutsOverUnsent(s, a) <==> CarriesOutLate(s, a)
  {
    if Enabled(s, a) {
      match a
      case LoopSend(body, w) => SendLeavesLess(s.conn, Message(0, |s.sent[0]|, body), w);
      case RunTask(w) => TaskShuts(s.conn.(queue := s.conn.queue[1..]), s.conn.queue[0], w);
      case Event(cb, r, w) => EventShuts(s.conn, cb, r, w);
      case _ =>
    }
  }

  lemma TaskShuts(c: Conn, task: Task, w: WriteResult)
    requires task.SendTask? ==> LegalWrite(w, |task.m.body|)
    ensures var r := Perform(c, task, w);
      r.log.shutdowns != c.log.shutdowns <==> task.ShutdownTask? && !Writing(c)
    ensures task.ShutdownTask? ==> Perform(c, task, w).backlog == c.backlog
  {
    if task.SendTask? { SendLeavesLess(c, task.m, w); }
  }

  /** While the connection is open SHUT_WR is issued only when every accepted byte is out. */
  lemma ShutsOnlyWhenEmpty(s: World, a: Action)
    requires Settled(s.conn) && Enabled(s, a) && Open(s.conn)
    requires Step(s, a).conn.log.shutdowns != s.conn.log.shutdowns
    ensures Step(s, a).conn.backlog == []
  {
    StepShutsOverUnsent(s, a);
  }

  lemma EventShuts(c: Conn, cb: Callback, r: ReadResult, w: WriteResult)
    requires LegalWrite(w, |c.backlog|)
    ensures Handle(c, cb, r, w).log.shutdowns != c.log.shutdowns ==> Handle(c, cb, r, w).backlog == []
  {
  }

  lemma StepLeavesNothing(s: World, a: Action)
    requires Settled(s.conn) && Agree(s.conn.slot) && QuietAtBirth(s) && NothingLeft(s) && Enabled(s, a)
    ensures NothingLeft(Step(s, a))
  {
    if s.epipe && Open(s.conn) {
      if Step(s, a).conn.log.shutdowns != s.conn.log.shutdowns {
        ShutsOnlyWhenEmpty(s, a);
      } else if s.conn.log.shutdowns > 0 {
        SealedStays(s, a);
      }
    } else {
      StepGoesForward(s, a);
      if s.conn.state.Connecting? { UnbornShutsNothing(s, a); }
    }
  }

  /** Shut, empty, and not asking to write, where the kernel refuses writes. */
  predicate Sealed(s: World) {
    s.epipe && s.conn.log.shutdowns > 0 && Connection.Idle(s.conn) && !s.conn.state.Connecting?
  }

  lemma SealedStays(s: World, a: Action)
    requires Sealed(s)
    ensures Sealed(Next(s, a)) && SameStream(s.conn, Next(s, a).conn)
  {
    if Enabled(s, a) {
      StepGoesForward(s, a);
      match a
      case LoopSend(body, w) => RefusedOnIdle(s.conn, Message(0, |s.sent[0]|, body));
      case RunTask(w) =>
        if s.conn.queue[0].SendTask? {
          RefusedOnIdle(s.conn.(queue := s.conn.queue[1..]), s.conn.queue[0].m);
        }
      case Event(cb, r, w) => EventOnIdle(s.conn, cb, r, w);
      case Destroy => DestroyOnIdle(s.conn);
      case _ =>
    }
  }

  lemma StepGoesForward(s: World, a: Action)
    requires Enabled(s, a)
    ensures Forward(s.conn, Step(s, a).conn) && Step(s, a).epipe == s.epipe
  {
    if a.LoopSend? {
      SendGoesForward(s.conn, Message(0, |s.sent[0]|, a.body), a.w);
    } else if a.RunTask? {
      TaskGoesForward(s.conn.(queue := s.conn.queue[1..]), s.conn.queue[0], a.w);
    } else if a.Event? {
      EventGoesForward(s.conn, a.cb, a.r, a.w);
    } else {
      OtherStepGoesForward(s, a);
    }
  }

  lemma OtherStepGoesForward(s: World, a: Action)
    requires Enabled(s, a) && !a.LoopSend? && !a.RunTask? && !a.Event?
    ensures Forward(s.conn, Step(s, a).conn) && Step(s, a).epipe == s.epipe
  {
    if a.ForeignSend? || a.ForeignShutdown? || a.ForeignSetState? || a.ForeignPush? { ThreadStepGoesForward(s, a); }
  }

  lemma ThreadStepGoesForward(s: World, a: Action)
    requires Enabled(s, a) && (a.ForeignSend? || a.ForeignShutdown? || a.ForeignSetState? || a.ForeignPush?)
    ensures Forward(s.conn, Step(s, a).conn) && Step(s, a).epipe == s.epipe
  {
  }

  lemma TaskGoesForward(c: Conn, task: Task, w: WriteResult)
    requires task.SendTask? ==> LegalWrite(w, |task.m.body|)
    ensures Forward(c, Perform(c, task, w))
  {
    if task.SendTask? { SendGoesForward(c, task.m, w); }
  }

  lemma UnbornShutsNothing(s: World, a: Action)
    requires Enabled(s, a) && Settled(s.conn) && s.conn.state.Connecting?
    ensures Step(s, a).conn.log.shutdowns == 0
  {
  }

  // ---------------------------------------------------------------- what is seen from outside

  /** The connection's own log is what the kernel and the user have seen. */
  predicate Honest(s: World) {
    && s.conn.log.taken == s.seen.wire
    && s.conn.log.received == s.seen.arrived
    && s.conn.log.consumed == s.seen.retrieved
  }

  lemma StepStaysHonest(s: World, a: Action)
    requires Honest(s) && Enabled(s, a)
    ensures Honest(Step(s, a))
  {
    if a.LoopSend? {
      LoopSendStaysHonest(s, a.body, a.w);
    } else if a.RunTask? {
      TaskStaysHonest(s, a.w);
    } else if a.Event? {
      EventStaysHonest(s, a.cb, a.r, a.w);
    } else if a.Retrieved? {
      ConsumeTakes(s.conn, a.n);
      assert Consume(s.conn, a.n).log.taken == s.conn.log.taken;
    } else {
      UnseenStep(s, a);
    }
  }

  /** The other steps move no bytes and no messages accepted. */
  lemma UnseenStep(s: World, a: Action)
    requires Enabled(s, a) && !a.LoopSend? && !a.RunTask? && !a.Event? && !a.Retrieved?
    ensures var c, d := s.conn.log, Step(s, a).conn.log;
      && d.taken == c.taken && d.received == c.received && d.consumed == c.consumed && d.accepted == c.accepted
      && Step(s, a).seen == s.seen
  {
  }

  lemma LoopSendStaysHonest(s: World, body: string, w: WriteResult)
    requires Honest(s) && Enabled(s, LoopSend(body, w))
    ensures Honest(Step(s, LoopSend(body, w)))
  {
    var m := Message(0, |s.sent[0]|, body);
    SendTakes(s.conn, m, w);
    SendKeepsInbound(s.conn, m, w);
  }

  lemma TaskStaysHonest(s: World, w: WriteResult)
    requires Honest(s) && Enabled(s, RunTask(w))
    ensures Honest(Step(s, RunTask(w)))
  {
    if s.conn.queue[0].SendTask? {
      SendTakes(s.conn.(queue := s.conn.queue[1..]), s.conn.queue[0].m, w);
      SendKeepsInbound(s.conn.(queue := s.conn.queue[1..]), s.conn.queue[0].m, w);
    }
  }

  lemma SendKeepsInbound(c: Conn, m: Message, w: WriteResult)
    requires LegalWrite(w, |m.body|)
    ensures var r := SendInLoop(c, m, w); r.log.received == c.log.received && r.log.consumed == c.log.consumed
  {
  }

  lemma EventStaysHonest(s: World, cb: Callback, r: ReadResult, w: WriteResult)
    requires Honest(s) && Enabled(s, Event(cb, r, w))
    ensures Honest(Step(s, Event(cb, r, w)))
  {
    if cb.WriteCallback? { WriteTakes(s.conn, w); } else if cb.ReadCallback? { ReadTakes(s.conn, r); }
  }

  /** How often a message has been accepted or dropped, or waits in the queue. */
  ghost function Tally(accepted: seq<Message>, dropped: seq<Message>, queued: seq<Message>, m: Message): nat {
    multiset(accepted)[m] + multiset(dropped)[m] + multiset(queued)[m]
  }

  /** In how many places a message is: those, or with the thread that sends it. */
  ghost function Places(s: World, m: Message): nat {
    Tally(s.conn.log.accepted, s.seen.dropped, Sends(s.conn.queue), m)
    + if m.sender < |s.threads| && s.threads[m.sender] == Sending(m) then 1 else 0
  }

  ghost predicate AccountsFor(s: World, m: Message) { Places(s, m) == if Faithful(m, s.sent) then 1 else 0 }

  /** Every message passed to send is in one place, and no other is anywhere. */
  ghost predicate Accounted(s: World) { forall m: Message :: AccountsFor(s, m) }

  /** One more message is accepted, or else dropped. */
  predicate Settles(c: Conn, before: Seen, d: Conn, after: Seen, m: Message) {
    && Sends(d.queue) == Sends(c.queue)
    && if d.log.accepted == c.log.accepted + [m] then after.dropped == before.dropped
       else d.log.accepted == c.log.accepted && after.dropped == before.dropped + [m]
  }

  lemma SendSettles(c: Conn, seen: Seen, m: Message, w: WriteResult)
    requires LegalWrite(w, |m.body|)
    ensures Settles(c, seen, SendInLoop(c, m, w), WatchSend(seen, c, m, w), m)
  {
    SendTakes(c, m, w);
    SendQueues(c, m, w);
    assert |c.log.accepted| != |c.log.accepted + [m]|;
  }

  lemma SettledTally(c: Conn, before: Seen, d: Conn, after: Seen, m: Message, x: Message)
    requires Settles(c, before, d, after, m)
    ensures Tally(d.log.accepted, after.dropped, Sends(d.queue), x)
         == Tally(c.log.accepted, before.dropped, Sends(c.queue), x) + if x == m then 1 else 0
  {
  }

  lemma LoopSendAccounts(s: World, body: string, w: WriteResult, x: Message)
    requires Enabled(s, LoopSend(body, w)) && AccountsFor(s, x)
    ensures AccountsFor(Step(s, LoopSend(body, w)), x)
  {
    var r, m := Step(s, LoopSend(body, w)), Message(0, |s.sent[0]|, body);
    SendSettles(s.conn, s.seen, m, w);
    SettledTally(s.conn, s.seen, r.conn, r.seen, m, x);
    OneMoreIsFaithful(s.sent, 0, body, x);
    assert r.threads == s.threads && r.sent == s.sent[0 := s.sent[0] + [body]];
  }

  lemma OneMoreIsFaithful(sent: seq<seq<string>>, t: nat, body: string, x: Message)
    requires t < |sent|
    ensures var m := Message(t, |sent[t]|, body);
      && (Faithful(x, sent[t := sent[t] + [body]]) <==> Faithful(x, sent) || x == m)
      && !Faithful(m, sent)
  {
  }

  lemma ForeignSendAccounts(s: World, t: nat, body: string, x: Message)
    requires Enabled(s, ForeignSend(t, body)) && AccountsFor(s, x)
    ensures AccountsFor(Step(s, ForeignSend(t, body)), x)
  {
  }

  /** A functor other than a send, or an event, leaves messages where they are. */
  predicate LeavesMessages(s: World, r: World) {
    && r.conn.log.accepted == s.conn.log.accepted && r.seen.dropped == s.seen.dropped
    && Sends(r.conn.queue) == Sends(s.conn.queue) && r.sent == s.sent
    && |r.threads| == |s.threads|
    && forall t :: 0 <= t < |s.threads| ==>
         r.threads[t] == s.threads[t] || !(s.threads[t].Sending? || r.threads[t].Sending?)
  }

  lemma LeavingAccounts(s: World, r: World, x: Message)
    requires LeavesMessages(s, r) && AccountsFor(s, x)
    ensures AccountsFor(r, x)
  {
  }

  /** A push moves a message from the thread's hands to the queue. */
  lemma PushOfSendAccounts(s: World, t: nat, x: Message)
    requires Orderly(s) && Enabled(s, ForeignPush(t)) && s.threads[t].Sending? && AccountsFor(s, x)
    ensures AccountsFor(Step(s, ForeignPush(t)), x)
  {
    var r, m := Step(s, ForeignPush(t)), s.threads[t].m;
    assert SendsNext(s, t);
    QueuedTally(s.conn.log.accepted, s.seen.dropped, s.conn.queue, m, x);
    assert r == s.(conn := Post(s.conn, SendTask(m)), threads := s.threads[t := Away]);
  }

  lemma QueuedTally(accepted: seq<Message>, dropped: seq<Message>, queue: seq<Task>, m: Message, x: Message)
    ensures Tally(accepted, dropped, Sends(queue + [SendTask(m)]), x)
         == Tally(accepted, dropped, Sends(queue), x) + if x == m then 1 else 0
  {
    SendsAppend(queue, [SendTask(m)]);
    assert Sends([SendTask(m)]) == [m] + Sends([]);
  }

  lemma PushOfShutdownLeaves(s: World, t: nat)
    requires Enabled(s, ForeignPush(t)) && s.threads[t].ClosingSet?
    ensures LeavesMessages(s, Step(s, ForeignPush(t)))
  {
    CallbacksOnly(s.conn.queue, ShutdownTask);
  }

  lemma SendTaskAccounts(s: World, w: WriteResult, x: Message)
    requires Enabled(s, RunTask(w)) && s.conn.queue[0].SendTask? && AccountsFor(s, x)
    ensures AccountsFor(Step(s, RunTask(w)), x)
  {
    var c, m, r := s.conn.(queue := s.conn.queue[1..]), s.conn.queue[0].m, Step(s, RunTask(w));
    SendTaskSettles(s, w);
    SettledTally(c, s.seen, r.conn, r.seen, m, x);
    HeadTally(s.conn.log.accepted, s.seen.dropped, s.conn.queue, x);
    assert r.threads == s.threads && r.sent == s.sent;
  }

  lemma SendTaskSettles(s: World, w: WriteResult)
    requires Enabled(s, RunTask(w)) && s.conn.queue[0].SendTask?
    ensures var r := Step(s, RunTask(w));
      Settles(s.conn.(queue := s.conn.queue[1..]), s.seen, r.conn, r.seen, s.conn.queue[0].m)
  {
    SendSettles(s.conn.(queue := s.conn.queue[1..]), s.seen, s.conn.queue[0].m, w);
  }

  lemma HeadTally(accepted: seq<Message>, dropped: seq<Message>, queue: seq<Task>, x: Message)
    requires queue != [] && queue[0].SendTask?
    ensures Tally(accepted, dropped, Sends(queue), x)
         == Tally(accepted, dropped, Sends(queue[1..]), x) + if x == queue[0].m then 1 else 0
  {
    assert Sends(queue) == [queue[0].m] + Sends(queue[1..]);
  }

  lemma OtherTaskLeaves(s: World, w: WriteResult)
    requires Enabled(s, RunTask(w)) && !s.conn.queue[0].SendTask?
    ensures LeavesMessages(s, Step(s, RunTask(w)))
  {
    assert Sends(s.conn.queue) == [] + Sends(s.conn.queue[1..]);
  }

  lemma EventLeaves(s: World, a: Action)
    requires Enabled(s, a) && a.Event?
    ensures LeavesMessages(s, Step(s, a))
  {
    if a.cb.WriteCallback? { WriteQueues(s.conn, a.w); }
  }

  lemma OtherStepLeaves(s: World, a: Action)
    requires Enabled(s, a)
    requires a.Establish? || a.Destroy? || a.Retrieved? || a.LoopShutdown? || a.ForeignShutdown? || a.ForeignSetState?
    ensures LeavesMessages(s, Step(s, a))
  {
  }

  lemma QuietStepLeaves(s: World, a: Action)
    requires Enabled(s, a) && !a.LoopSend? && !a.ForeignSend?
    requires !(a.ForeignPush? && s.threads[a.t].Sending?) && !(a.RunTask? && s.conn.queue[0].SendTask?)
    ensures LeavesMessages(s, Step(s, a))
  {
    if a.RunTask? {
      OtherTaskLeaves(s, a.w);
    } else if a.Event? {
      EventLeaves(s, a);
    } else if a.ForeignPush? {
      PushOfShutdownLeaves(s, a.t);
    } else {
      OtherStepLeaves(s, a);
    }
  }

  lemma StepAccounts(s: World, a: Action)
    requires Orderly(s) && Accounted(s) && Enabled(s, a)
    ensures Accounted(Step(s, a))
  {
    forall x: Message
      ensures AccountsFor(Step(s, a), x)
    {
      assert AccountsFor(s, x);
      if a.LoopSend? {
        LoopSendAccounts(s, a.body, a.w, x);
      } else if a.ForeignSend? {
        ForeignSendAccounts(s, a.t, a.body, x);
      } else if a.ForeignPush? && s.threads[a.t].Sending? {
        PushOfSendAccounts(s, a.t, x);
      } else if a.RunTask? && s.conn.queue[0].SendTask? {
        SendTaskAccounts(s, a.w, x);
      } else {
        QuietStepLeaves(s, a);
        LeavingAccounts(s, Step(s, a), x);
      }
    }
  }

  ghost predicate Inv(s: World) {
    && Sound(s.conn) && Settled(s.conn) && QuietAtBirth(s)
    && Orderly(s) && ShutOnRequest(s) && Graceful(s) && NothingLeft(s)
    && Honest(s) && Accounted(s)
  }

  lemma StepKeepsInv(s: World, a: Action)
    requires Inv(s)
    ensures Inv(Next(s, a))
  {
    if Enabled(s, a) {
      StepStaysSound(s, a);
      StepStaysSettled(s, a);
      StepStaysQuiet(s, a);
      StepStaysOnRequest(s, a);
      StepStaysOrderly(s, a);
      StepStaysGraceful(s, a);
      StepLeavesNothing(s, a);
      StepStaysHonest(s, a);
      StepAccounts(s, a);
    }
  }

  /** A world before anything has happened: any configuration, any number of other threads. */
  ghost predicate Start(s: World) {
    exists n: nat, mark: nat, hw: bool, wc: bool, epipe: bool ::
      s == Birth(n, NewConn(mark, hw, wc), epipe)
  }

  lemma StartInv(s: World)
    requires Start(s)
    ensures Inv(s)
  {
  }

  lemma {:induction false} RunKeepsInv(s: World, acts: seq<Action>)
    requires Inv(s)
    ensures Inv(Run(s, acts))
    decreases |acts|
  {
    if acts == [] {
    } else {
      RunKeepsInv(s, acts[..|acts| - 1]);
      StepKeepsInv(Run(s, acts[..|acts| - 1]), acts[|acts| - 1]);
    }
  }

  // ---------------------------------------------------------------- what holds in every run

  /** Whatever short writes, refusals and faults the kernel answers with, the messages accepted are
      exactly the bytes that write(2) returned for followed by the backlog; and the bytes that readv(2)
      returned are those the message callback took followed by the input buffer. */
  lemma {:induction false} StreamConservation(s: World, acts: seq<Action>)
    requires Start(s)
    ensures var c, seen := Run(s, acts).conn, Run(s, acts).seen;
      && Bodies(c.log.accepted) == seen.wire + c.backlog && seen.arrived == seen.retrieved + c.inbox
      && c.log.taken == seen.wire && c.log.received == seen.arrived && c.log.consumed == seen.retrieved
  {
    StartInv(s);
    RunKeepsInv(s, acts);
  }

  /** Every message that a connected sender passed to send is in exactly one place: accepted, dropped,
      in the queue, or still with its sender's thread; and nothing else is in any of them. */
  lemma {:induction false} EverySendAccountedFor(s: World, acts: seq<Action>, m: Message)
    requires Start(s)
    ensures var r := Run(s, acts);
      multiset(r.conn.log.accepted)[m] + multiset(r.seen.dropped)[m] + multiset(Sends(r.conn.queue))[m]
      + (if m.sender < |r.threads| && r.threads[m.sender] == Sending(m) then 1 else 0)
      == if Faithful(m, r.sent) then 1 else 0
  {
    StartInv(s);
    RunKeepsInv(s, acts);
    assert AccountsFor(Run(s, acts), m);
  }

  /** A write made for a message fails with EPIPE or ECONNRESET. */
  predicate Faults(a: Action) { (a.LoopSend? || a.RunTask?) && a.w.Fault? }

  /** And while the connection is open and no write has failed so, none is dropped: every message is
      accepted or on its way. */
  lemma {:induction false} NothingDropped(s: World, acts: seq<Action>)
    requires Start(s) && Open(Run(s, acts).conn) && forall a <- acts :: !Faults(a)
    ensures var r := Run(s, acts);
      && r.seen.dropped == []
      && forall m :: Faithful(m, r.sent) ==>
           || m in r.conn.log.accepted || m in Sends(r.conn.queue)
           || (m.sender < |r.threads| && r.threads[m.sender] == Sending(m))
  {
    StartInv(s);
    RunKeepsInv(s, acts);
    RunDropsNothing(s, acts);
    var r := Run(s, acts);
    forall m | Faithful(m, r.sent)
      ensures m in r.conn.log.accepted || m in Sends(r.conn.queue)
           || (m.sender < |r.threads| && r.threads[m.sender] == Sending(m))
    {
      assert AccountsFor(r, m);
    }
  }

  lemma {:induction false} RunDropsNothing(s: World, acts: seq<Action>)
    requires Inv(s) && s.seen.dropped == [] && forall a <- acts :: !Faults(a)
    requires Run(s, acts).conn.log.closes == 0 && !Run(s, acts).conn.log.destroyed
    ensures Run(s, acts).seen.dropped == []
    decreases |acts|
  {
    if acts == [] {
    } else {
      var r, a := Run(s, acts[..|acts| - 1]), acts[|acts| - 1];
      RunKeepsInv(s, acts[..|acts| - 1]);
      if Enabled(r, a) {
        StepGoesForward(r, a);
        StepDropsNothing(r, a);
      }
      assert forall b <- acts[..|acts| - 1] :: b in acts;
      RunDropsNothing(s, acts[..|acts| - 1]);
    }
  }

  lemma StepDropsNothing(s: World, a: Action)
    requires Settled(s.conn) && Enabled(s, a) && !Faults(a) && s.conn.log.closes == 0 && !s.conn.log.destroyed
    ensures Step(s, a).seen.dropped == s.seen.dropped
  {
  }

  /** The state after a step, whichever functions it went through: established by connectEstablished,
      shut by shutdown(), closed by a hang-up, an end of file or connectDestroyed; kept by the rest. */
  function StateAfter(s: World, a: Action): State {
    if !Enabled(s, a) then s.conn.state
    else if a.Establish? then Connected
    else if a.LoopShutdown? || a.ForeignSetState? then Disconnecting
    else if a.Event? && (a.cb.CloseCallback? || (a.cb.ReadCallback? && a.r == Data([]))) then Disconnected
    else if a.Destroy? && s.conn.state.Connected? then Disconnected
    else s.conn.state
  }

  lemma StateChanges(s: World, a: Action)
    ensures Next(s, a).conn.state == StateAfter(s, a)
  {
    if Enabled(s, a) {
      if a.LoopSend? || a.RunTask? {
        SendsKeepState(s, a);
      } else if a.Event? {
        EventStateChanges(s, a);
      } else {
        OtherStateChanges(s, a);
      }
    }
  }

  lemma SendsKeepState(s: World, a: Action)
    requires Enabled(s, a) && (a.LoopSend? || a.RunTask?)
    ensures Step(s, a).conn.state == s.conn.state
  {
    if a.LoopSend? {
      SendKeepsState(s.conn, Message(0, |s.sent[0]|, a.body), a.w);
    } else {
      TaskKeepsState(s.conn.(queue := s.conn.queue[1..]), s.conn.queue[0], a.w);
    }
  }

  lemma SendKeepsState(c: Conn, m: Message, w: WriteResult)
    requires LegalWrite(w, |m.body|)
    ensures SendInLoop(c, m, w).state == c.state
  {
  }

  lemma EventStateChanges(s: World, a: Action)
    requires Enabled(s, a) && a.Event?
    ensures Step(s, a).conn.state == StateAfter(s, a)
  {
    EventKeepsState(s.conn, a.cb, a.r, a.w);
  }

  lemma EventKeepsState(c: Conn, cb: Callback, r: ReadResult, w: WriteResult)
    requires LegalWrite(w, |c.backlog|)
    ensures Handle(c, cb, r, w).state
         == if cb.CloseCallback? || (cb.ReadCallback? && r == Data([])) then Disconnected else c.state
  {
  }

  lemma OtherStateChanges(s: World, a: Action)
    requires Enabled(s, a) && !a.LoopSend? && !a.RunTask? && !a.Event?
    ensures Step(s, a).conn.state == StateAfter(s, a)
  {
  }

  /** The functors a step adds to the queue. */
  function Posted(s: World, a: Action): seq<Task> {
    if !Enabled(s, a) then []
    else match a
      case LoopSend(body, w) => PostedBySend(s.conn, Message(0, |s.sent[0]|, body), w)
      case RunTask(w) => if s.conn.queue[0].SendTask? then PostedBySend(s.conn, s.conn.queue[0].m, w) else []
      case Event(cb, r, w) => if cb.WriteCallback? then PostedByWrite(s.conn, w) else []
      case ForeignPush(t) => [if s.threads[t].Sending? then SendTask(s.threads[t].m) else ShutdownTask]
      case _ => []
  }

  /** The queue of a connection's functors after a step: less the one it runs, and at the back those
      it adds. */
  lemma QueueChanges(s: World, a: Action)
    ensures Next(s, a).conn.queue
         == (if a.RunTask? && Enabled(s, a) then s.conn.queue[1..] else s.conn.queue) + Posted(s, a)
  {
    assert s.conn.queue + [] == s.conn.queue;
    if Enabled(s, a) {
      if a.LoopSend? {
        SendPosts(s.conn, Message(0, |s.sent[0]|, a.body), a.w);
      } else if a.RunTask? {
        TaskPosts(s, a.w);
      } else if a.Event? {
        if a.cb.WriteCallback? { WritePosts(s.conn, a.w); }
      } else {
        OtherStepPosts(s, a);
      }
    }
  }

  lemma TaskPosts(s: World, w: WriteResult)
    requires Enabled(s, RunTask(w))
    ensures Step(s, RunTask(w)).conn.queue == s.conn.queue[1..] + Posted(s, RunTask(w))
  {
    var c := s.conn.(queue := s.conn.queue[1..]);
    assert c.queue + [] == c.queue;
    if s.conn.queue[0].SendTask? {
      SendPosts(c, s.conn.queue[0].m, w);
      PostedWhateverWaits(s.conn, s.conn.queue[1..], s.conn.queue[0].m, w);
    }
  }

  lemma PostedWhateverWaits(c: Conn, queue: seq<Task>, m: Message, w: WriteResult)
    requires LegalWrite(w, |m.body|)
    ensures PostedBySend(c.(queue := queue), m, w) == PostedBySend(c, m, w)
  {
  }

  lemma OtherStepPosts(s: World, a: Action)
    requires Enabled(s, a) && !a.LoopSend? && !a.RunTask? && !a.Event?
    ensures Step(s, a).conn.queue == s.conn.queue + Posted(s, a)
  {
    assert s.conn.queue + [] == s.conn.queue;
  }

  /** The last byte of the backlog goes in this step. */
  predicate LastByteGoes(s: World, a: Action) {
    && a.Event? && a.cb.WriteCallback? && Enabled(s, a)
    && s.conn.slot.events.output && 0 < BytesWritten(a.w) == |s.conn.backlog|
  }

  /** Bytes of a message are left over for the first time in this step. */
  predicate LeavesOver(c: Conn, m: Message, w: WriteResult) {
    && !c.state.Disconnected? && !c.slot.events.output && !(c.backlog == [] && w.Fault?)
    && (if c.backlog == [] then BytesWritten(w) else 0) < |m.body|
  }

  /** A connection's registration after a step. */
  function SlotAfter(s: World, a: Action): Slot {
    var c := s.conn;
    if !Enabled(s, a) then c.slot
    else if a.Establish? then SlotStep(c.slot, EnableReading)
    else if a.Destroy? then SlotStep(if c.state.Connected? then SlotStep(c.slot, DisableAll) else c.slot, Remove)
    else if a.Event? && (a.cb.CloseCallback? || (a.cb.ReadCallback? && a.r == Data([]))) then
      SlotStep(c.slot, DisableAll)
    else if LastByteGoes(s, a) then SlotStep(c.slot, DisableWriting)
    else if a.LoopSend? && LeavesOver(c, Message(0, |s.sent[0]|, a.body), a.w) then SlotStep(c.slot, EnableWriting)
    else if a.RunTask? && c.queue[0].SendTask? && LeavesOver(c, c.queue[0].m, a.w) then SlotStep(c.slot, EnableWriting)
    else c.slot
  }

  /** Which calls on its channel a step makes, and whether it issues SHUT_WR: shutdown() by the loop
      thread and a queued shutdownInLoop do when write interest is off, and the write that empties the
      backlog does in kDisconnecting. */
  lemma SlotChanges(s: World, a: Action)
    ensures Next(s, a).conn.slot == SlotAfter(s, a)
    ensures Next(s, a).conn.log.shutdowns == s.conn.log.shutdowns
      + if || (a.LoopShutdown? && Enabled(s, a) && !s.conn.slot.events.output)
           || (a.RunTask? && Enabled(s, a) && s.conn.queue[0].ShutdownTask? && !s.conn.slot.events.output)
           || (LastByteGoes(s, a) && s.conn.state.Disconnecting?)
        then 1 else 0
  {
    if Enabled(s, a) {
      if a.LoopSend? {
        SendMovesSlot(s.conn, Message(0, |s.sent[0]|, a.body), a.w);
      } else if a.RunTask? {
        TaskMovesSlot(s, a.w);
      } else if a.Event? {
        EventMovesSlot(s, a);
      } else {
        OtherStepMovesSlot(s, a);
      }
    }
  }

  lemma TaskMovesSlot(s: World, w: WriteResult)
    requires Enabled(s, RunTask(w))
    ensures Step(s, RunTask(w)).conn.slot == SlotAfter(s, RunTask(w))
    ensures Step(s, RunTask(w)).conn.log.shutdowns == s.conn.log.shutdowns
      + if s.conn.queue[0].ShutdownTask? && !s.conn.slot.events.output then 1 else 0
  {
    if s.conn.queue[0].SendTask? {
      SendMovesSlot(s.conn.(queue := s.conn.queue[1..]), s.conn.queue[0].m, w);
    }
  }

  lemma EventMovesSlot(s: World, a: Action)
    requires a.Event? && Enabled(s, a)
    ensures Step(s, a).conn.slot == SlotAfter(s, a)
    ensures Step(s, a).conn.log.shutdowns
         == s.conn.log.shutdowns + if LastByteGoes(s, a) && s.conn.state.Disconnecting? then 1 else 0
  {
    if a.cb.WriteCallback? { WriteMovesSlot(s.conn, a.w); } else if a.cb.ReadCallback? { ReadTakes(s.conn, a.r); }
  }

  lemma OtherStepMovesSlot(s: World, a: Action)
    requires Enabled(s, a) && !a.LoopSend? && !a.RunTask? && !a.Event?
    ensures Step(s, a).conn.slot == SlotAfter(s, a)
    ensures Step(s, a).conn.log.shutdowns
         == s.conn.log.shutdowns + if a.LoopShutdown? && !s.conn.slot.events.output then 1 else 0
  {
  }

  /** Wherever a run has got to, connectDestroyed leaves the channel in neither map nor kernel. */
  lemma {:induction false} DestroyUnregistersAlways(s: World, acts: seq<Action>)
    requires Start(s) && Enabled(Run(s, acts), Destroy)
    ensures var slot := Next(Run(s, acts), Destroy).conn.slot;
      slot.index == New && !slot.inMap && slot.kernel == None
  {
    StartInv(s);
    RunKeepsInv(s, acts);
    DestroyUnregisters(Run(s, acts).conn);
  }

  lemma {:induction false} CountsSplit(a: seq<Task>, b: seq<Task>)
    ensures CompletesIn(a + b) == CompletesIn(a) + CompletesIn(b)
    ensures HighWatersIn(a + b) == HighWatersIn(a) + HighWatersIn(b)
  {
    if a == [] {
      assert a + b == b;
    } else {
      assert (a + b)[1..] == a[1..] + b;
      CountsSplit(a[1..], b);
    }
  }

  /** What the ledgers count: the functors for the two callbacks that have run or wait. */
  lemma {:induction false} LedgersCountFunctors(s: World, acts: seq<Action>)
    requires Start(s)
    ensures var r := Run(s, acts);
      && r.conn.log.completes == CompletesIn(r.seen.ran) + CompletesIn(r.conn.queue)
      && r.conn.log.highWaters == HighWatersIn(r.seen.ran) + HighWatersIn(r.conn.queue)
    decreases |acts|
  {
    if acts == [] {
    } else {
      var r, a := Run(s, acts[..|acts| - 1]), acts[|acts| - 1];
      LedgersCountFunctors(s, acts[..|acts| - 1]);
      if Enabled(r, a) { StepCounts(r, a); }
    }
  }

  lemma StepCounts(s: World, a: Action)
    requires Enabled(s, a)
    ensures var r := Step(s, a); var c, d := s.conn, r.conn;
      && d.log.completes + CompletesIn(s.seen.ran) + CompletesIn(c.queue)
         == c.log.completes + CompletesIn(r.seen.ran) + CompletesIn(d.queue)
      && d.log.highWaters + HighWatersIn(s.seen.ran) + HighWatersIn(c.queue)
         == c.log.highWaters + HighWatersIn(r.seen.ran) + HighWatersIn(d.queue)
  {
    QueueChanges(s, a);
    PostsAreCounted(s, a);
    if a.RunTask? {
      var q := s.conn.queue;
      assert q == [q[0]] + q[1..];
      CountsSplit(s.seen.ran, [q[0]]);
      CountsSplit([q[0]], q[1..]);
      CountsSplit(q[1..], Posted(s, a));
      assert Step(s, a).seen.ran == s.seen.ran + [q[0]];
    } else {
      CountsSplit(s.conn.queue, Posted(s, a));
      assert Step(s, a).seen.ran == s.seen.ran;
    }
  }

  lemma PostsAreCounted(s: World, a: Action)
    requires Enabled(s, a)
    ensures Step(s, a).conn.log.completes == s.conn.log.completes + CompletesIn(Posted(s, a))
    ensures Step(s, a).conn.log.highWaters == s.conn.log.highWaters + HighWatersIn(Posted(s, a))
  {
    if a.LoopSend? {
      SendPosts(s.conn, Message(0, |s.sent[0]|, a.body), a.w);
    } else if a.RunTask? {
      TaskPostsAreCounted(s, a.w);
    } else if a.Event? {
      if a.cb.WriteCallback? { WritePosts(s.conn, a.w); }
    }
  }

  lemma TaskPostsAreCounted(s: World, w: WriteResult)
    requires Enabled(s, RunTask(w))
    ensures Step(s, RunTask(w)).conn.log.completes == s.conn.log.completes + CompletesIn(Posted(s, RunTask(w)))
    ensures Step(s, RunTask(w)).conn.log.highWaters == s.conn.log.highWaters + HighWatersIn(Posted(s, RunTask(w)))
  {
    var c, task := s.conn.(queue := s.conn.queue[1..]), s.conn.queue[0];
    assert Step(s, RunTask(w)).conn == Perform(c, task, w);
    if task.SendTask? {
      SendPosts(c, task.m, w);
      PostedWhateverWaits(s.conn, s.conn.queue[1..], task.m, w);
      assert Posted(s, RunTask(w)) == PostedBySend(c, task.m, w);
    } else {
      assert Posted(s, RunTask(w)) == [];
    }
  }

  /** What a call to send or shutdown leaves behind on the way: the call is recorded, the functor
      goes to the back of the queue, and the thread is where it should be. */
  lemma CallsTakeEffect(s: World, a: Action)
    requires Enabled(s, a)
    ensures var r := Next(s, a);
      && (a.LoopSend? ==> r.sent == s.sent[0 := s.sent[0] + [a.body]])
      && (a.ForeignSend? ==> r.sent == s.sent[a.t := s.sent[a.t] + [a.body]] && r.conn == s.conn
                             && r.threads == s.threads[a.t := Sending(Message(a.t, |s.sent[a.t]|, a.body))])
      && (a.ForeignShutdown? ==> r.conn == s.conn && r.threads == s.threads[a.t := ClosingChecked])
      && (a.ForeignSetState? ==> r.threads == s.threads[a.t := ClosingSet])
      && (a.ForeignPush? ==>
            && r.threads == s.threads[a.t := Away]
            && |r.conn.queue| == |s.conn.queue| + 1 && r.conn.queue[..|s.conn.queue|] == s.conn.queue
            && r.conn.queue[|s.conn.queue|]
               == if s.threads[a.t].Sending? then SendTask(s.threads[a.t].m) else ShutdownTask)
  {
  }

  /** While the connection is open, write interest is on exactly while bytes wait, and the kernel
      watches for exactly what the channel asked for: no backlog is stranded. */
  lemma {:induction false} InterestFollowsBacklog(s: World, acts: seq<Action>)
    requires Start(s)
    ensures var c := Run(s, acts).conn;
      Open(c) ==> (c.slot.events.output <==> c.backlog != []) && c.slot.kernel == Some(c.slot.events)
                  && c.slot.events.input && c.slot.events.urgent
  {
    StartInv(s);
    RunKeepsInv(s, acts);
  }

  /** And in every state at all, the index, the map and the kernel agree about the descriptor. */
  lemma {:induction false} RegistrationHolds(s: World, acts: seq<Action>)
    requires Start(s)
    ensures Agree(Run(s, acts).conn.slot)
  {
    StartInv(s);
    RunKeepsInv(s, acts);
  }

  /** In kDisconnecting, even after a close, either someone is still to shut the write side or bytes
      wait with write interest on or it is shut; and an open connection is never shut unasked. */
  lemma {:induction false} GracefulShutdown(s: World, acts: seq<Action>)
    requires Start(s)
    ensures var r := Run(s, acts); var c := r.conn;
      && (c.state.Disconnecting? ==> ClosingSet in r.threads || ShutdownTask in c.queue
                                     || (c.backlog != [] && Writing(c)) || c.log.shutdowns > 0)
      && (Open(c) && c.log.shutdowns > 0 ==> c.state.Disconnecting?)
  {
    StartInv(s);
    RunKeepsInv(s, acts);
  }

  lemma {:induction false} RunFromFirst(s: World, a: Action, acts: seq<Action>)
    ensures Run(s, [a] + acts) == Run(Next(s, a), acts)
    decreases |acts|
  {
    if acts == [] {
      Unroll(s, [], a);
      assert [] + [a] == [a] == [a] + [];
    } else {
      var front, last := acts[..|acts| - 1], acts[|acts| - 1];
      RunFromFirst(s, a, front);
      assert ([a] + acts)[..|acts|] == [a] + front && ([a] + acts)[|acts|] == last;
    }
  }

  /** The loop goes on: it runs the next functor, or writes what the socket has room for. */
  predicate LoopGoesOn(a: Action) { a.RunTask? || (a.Event? && a.cb.WriteCallback?) }

  /** Open, in kDisconnecting, all sent, and not shut yet. */
  predicate AwaitsShut(s: World) {
    s.conn.state.Disconnecting? && Open(s.conn) && s.conn.backlog == [] && s.conn.log.shutdowns == 0
  }

  /** Shut, with all sent. */
  predicate ShutCleanly(s: World) { s.conn.log.shutdowns > 0 && Open(s.conn) && s.conn.backlog == [] }

  /** The next functor, with a kernel that takes whatever it sends. */
  function NextTask(s: World): Action
    requires s.conn.queue != []
  { RunTask(if s.conn.queue[0].SendTask? then Wrote(|s.conn.queue[0].m.body|) else WouldBlock) }

  lemma NextTaskRuns(s: World)
    requires Inv(s) && AwaitsShut(s) && s.conn.queue != []
    ensures var r := Next(s, NextTask(s));
      && Inv(r) && s.conn.queue[1..] <= r.conn.queue
      && if s.conn.queue[0].ShutdownTask? then ShutCleanly(r) else AwaitsShut(r)
  {
    StepKeepsInv(s, NextTask(s));
    if s.conn.queue[0].SendTask? {
      WholeMessageGoes(s.conn.(queue := s.conn.queue[1..]), s.conn.queue[0].m);
    }
  }

  lemma WholeMessageGoes(c: Conn, m: Message)
    requires WritesDirectly(c)
    ensures var r := SendInLoop(c, m, Wrote(|m.body|));
      && r.backlog == [] && r.state == c.state && c.queue <= r.queue
      && r.log.shutdowns == c.log.shutdowns && r.log.closes == c.log.closes && r.log.destroyed == c.log.destroyed
  {
  }

  lemma {:induction false} QueuedShutdownRuns(s: World, p: nat) returns (acts: seq<Action>)
    requires Inv(s) && AwaitsShut(s) && p < |s.conn.queue| && s.conn.queue[p].ShutdownTask?
    ensures |acts| <= p + 1 && forall a <- acts :: LoopGoesOn(a)
    ensures Inv(Run(s, acts)) && ShutCleanly(Run(s, acts))
    decreases p
  {
    var a := NextTask(s);
    var r := Next(s, a);
    NextTaskRuns(s);
    if s.conn.queue[0].ShutdownTask? {
      acts := [a];
      RunOfOne(s, a);
    } else {
      assert r.conn.queue[p - 1] == s.conn.queue[1..][p - 1];
      var more := QueuedShutdownRuns(r, p - 1);
      RunFromFirst(s, a, more);
      acts := [a] + more;
    }
  }

  lemma RunOfOne(s: World, a: Action)
    ensures Run(s, [a]) == Next(s, a)
  {
    Unroll(s, [], a);
    assert [] + [a] == [a];
  }

  /** One write that the kernel takes whole, with the connection in kDisconnecting, also shuts. */
  lemma LastWriteShuts(s: World)
    requires Inv(s) && Open(s.conn) && s.conn.state.Disconnecting? && s.conn.backlog != []
    ensures var a := Event(WriteCallback, Data([]), Wrote(|s.conn.backlog|));
      Inv(Next(s, a)) && ShutCleanly(Next(s, a))
  {
    StepKeepsInv(s, Event(WriteCallback, Data([]), Wrote(|s.conn.backlog|)));
    WholeBacklogGoes(s.conn);
  }

  lemma WholeBacklogGoes(c: Conn)
    requires Attentive(c) && c.state.Disconnecting? && c.backlog != []
    ensures var r := HandleWrite(c, Wrote(|c.backlog|));
      && r.backlog == [] && r.state == c.state && r.log.shutdowns == c.log.shutdowns + 1
      && r.log.closes == c.log.closes && r.log.destroyed == c.log.destroyed
  {
  }

  lemma PushIsNext(s: World, t: nat)
    requires Inv(s) && AwaitsShut(s) && t < |s.threads| && s.threads[t].ClosingSet?
    ensures var r := Next(s, ForeignPush(t));
      Inv(r) && AwaitsShut(r) && r.conn.queue == s.conn.queue + [ShutdownTask]
  {
    StepKeepsInv(s, ForeignPush(t));
    assert t > 0;
  }

  /** And SHUT_WR is always within reach: wherever a run has left an open connection in
      kDisconnecting, some run of the loop thread's steps ends with it issued and every accepted byte
      with the kernel, within one write or one pass over the queue. Only a shutdown() that has yet to
      queue its functor must do that first. */
  lemma {:induction false} ShutdownCanFinish(s: World, acts: seq<Action>) returns (more: seq<Action>)
    requires Start(s) && Open(Run(s, acts).conn) && Run(s, acts).conn.state.Disconnecting?
    ensures var r := Run(s, acts);
      && |more| <= |r.conn.queue| + 2
      && (forall a <- more :: LoopGoesOn(a) || a.ForeignPush?)
      && (r.conn.backlog != [] || r.conn.log.shutdowns > 0 || ShutdownTask in r.conn.queue ==>
            forall a <- more :: LoopGoesOn(a))
    ensures var c := Run(Run(s, acts), more).conn;
      Open(c) && c.log.shutdowns > 0 && c.backlog == [] && c.log.taken == Bodies(c.log.accepted)
  {
    StartInv(s);
    RunKeepsInv(s, acts);
    more := CanShut(Run(s, acts));
    EmptyMeansSent(Run(Run(s, acts), more).conn);
  }

  lemma {:induction false} CanShut(r: World) returns (more: seq<Action>)
    requires Inv(r) && Open(r.conn) && r.conn.state.Disconnecting?
    ensures |more| <= |r.conn.queue| + 2 && forall a <- more :: LoopGoesOn(a) || a.ForeignPush?
    ensures r.conn.backlog != [] || r.conn.log.shutdowns > 0 || ShutdownTask in r.conn.queue ==>
      forall a <- more :: LoopGoesOn(a)
    ensures Inv(Run(r, more)) && ShutCleanly(Run(r, more))
  {
    if r.conn.backlog != [] {
      more := [Event(WriteCallback, Data([]), Wrote(|r.conn.backlog|))];
      LastWriteShuts(r);
      Unroll(r, [], more[0]);
      assert [] + [more[0]] == more;
    } else if r.conn.log.shutdowns > 0 {
      more := [];
    } else if ShutdownTask in r.conn.queue {
      var p :| 0 <= p < |r.conn.queue| && r.conn.queue[p] == ShutdownTask;
      more := QueuedShutdownRuns(r, p);
    } else {
      var t :| 0 <= t < |r.threads| && r.threads[t] == ClosingSet;
      PushIsNext(r, t);
      var rest := QueuedShutdownRuns(Next(r, ForeignPush(t)), |r.conn.queue|);
      RunFromFirst(r, ForeignPush(t), rest);
      more := [ForeignPush(t)] + rest;
    }
  }

  /** SHUT_WR goes out over unsent bytes in exactly one kind of step, whoever asked for it and
      whatever has been closed. */
  lemma {:induction false} ShutsOverUnsentExactly(s: World, acts: seq<Action>, a: Action)
    requires Start(s)
    ensures var r := Run(s, acts); var n := Next(r, a);
      (n.conn.log.shutdowns != r.conn.log.shutdowns && n.conn.backlog != [])
      <==> (a.RunTask? && Enabled(r, a) && r.conn.queue[0].ShutdownTask? && !Writing(r.conn) && r.conn.backlog != [])
  {
    StartInv(s);
    RunKeepsInv(s, acts);
    StepShutsOverUnsent(Run(s, acts), a);
  }

  /** While the connection is open that step cannot occur, so SHUT_WR leaves every accepted byte
      with the kernel. */
  lemma {:induction false} ShutsAfterLastByte(s: World, acts: seq<Action>, a: Action)
    requires Start(s) && Open(Run(s, acts).conn)
    requires Next(Run(s, acts), a).conn.log.shutdowns != Run(s, acts).conn.log.shutdowns
    ensures var c := Next(Run(s, acts), a).conn;
      c.backlog == [] && c.log.taken == Bodies(c.log.accepted)
  {
    StartInv(s);
    RunKeepsInv(s, acts);
    ShutsOverUnsentExactly(s, acts, a);
    StepStaysSound(Run(s, acts), a);
    EmptyMeansSent(Next(Run(s, acts), a).conn);
  }

  /** When the kernel refuses writes after SHUT_WR, the stream of a connection that was open at its
      first SHUT_WR is complete there, and nothing is ever added to it, closed or not. */
  lemma {:induction false} StreamEndsAtShutdown(s: World, acts: seq<Action>, more: seq<Action>)
    requires Start(s) && s.epipe
    requires Open(Run(s, acts).conn) && Run(s, acts).conn.log.shutdowns > 0
    ensures var c := Run(Run(s, acts), more).conn;
      && c.log.accepted == Run(s, acts).conn.log.accepted
      && c.log.taken == Bodies(c.log.accepted) && c.backlog == []
    ensures Sealed(Run(Run(s, acts), more))
    decreases |more|
  {
    StartInv(s);
    RunKeepsInv(s, acts);
    KeepsEpipe(s, acts);
    var r := Run(s, acts);
    if more == [] {
      EmptyMeansSent(r.conn);
    } else {
      StreamEndsAtShutdown(s, acts, more[..|more| - 1]);
      SealedStays(Run(r, more[..|more| - 1]), more[|more| - 1]);
    }
  }

  lemma {:induction false} KeepsEpipe(s: World, acts: seq<Action>)
    ensures Run(s, acts).epipe == s.epipe
    decreases |acts|
  {
    if acts == [] {
    } else {
      KeepsEpipe(s, acts[..|acts| - 1]);
      if Enabled(Run(s, acts[..|acts| - 1]), acts[|acts| - 1]) {
        StepGoesForward(Run(s, acts[..|acts| - 1]), acts[|acts| - 1]);
      }
    }
  }

  /** Each sender's messages reach the stream in the order of its calls, unaltered, whichever of
      them ran inline or through the queue; some may be missing (dropped), none is out of place. */
  lemma {:induction false} PerSenderOrder(s: World, acts: seq<Action>)
    requires Start(s)
    ensures var r := Run(s, acts); var ms := r.conn.log.accepted;
      && (forall i :: 0 <= i < |ms| ==> Faithful(ms[i], r.sent))
      && (forall i, j :: 0 <= i < j < |ms| && ms[i].sender == ms[j].sender ==> ms[i].serial < ms[j].serial)
  {
    StartInv(s);
    RunKeepsInv(s, acts);
    var r := Run(s, acts);
    assert forall i :: 0 <= i < |r.conn.log.accepted| ==> Stream(r.conn)[i] == r.conn.log.accepted[i];
  }

  lemma {:induction false} KeepsSettings(s: World, acts: seq<Action>)
    ensures var c := Run(s, acts).conn;
      c.mark == s.conn.mark && c.onHighWater == s.conn.onHighWater && c.onWriteComplete == s.conn.onWriteComplete
    decreases |acts|
  {
    if acts == [] {
    } else {
      KeepsSettings(s, acts[..|acts| - 1]);
      if Enabled(Run(s, acts[..|acts| - 1]), acts[|acts| - 1]) {
        StepGoesForward(Run(s, acts[..|acts| - 1]), acts[|acts| - 1]);
      }
    }
  }

  /** With the callback set, the high-water functors queued exceed the falls below the mark by one
      when the backlog is at or above it and by none otherwise, exactly when the mark is positive. */
  lemma {:induction false} HighWaterBalance(s: World, acts: seq<Action>)
    requires Start(s) && s.conn.onHighWater
    ensures var c := Run(s, acts).conn;
      c.log.highWaters == c.log.falls + (if |c.backlog| >= c.mark then 1 else 0) <==> s.conn.mark > 0
  {
    StartInv(s);
    RunKeepsInv(s, acts);
    KeepsSettings(s, acts);
  }

  /** With the callback set, a write-complete is owed exactly while bytes wait, so after each
      accepted nonempty message either some wait or one has been queued since. */
  lemma {:induction false} WriteCompleteOwed(s: World, acts: seq<Action>)
    requires Start(s) && s.conn.onWriteComplete
    ensures Run(s, acts).conn.log.due <==> Run(s, acts).conn.backlog != []
  {
    StartInv(s);
    RunKeepsInv(s, acts);
    KeepsSettings(s, acts);
  }

  lemma StepCompletes(s: World, a: Action)
    requires Enabled(s, a) && Step(s, a).conn.log.completes != s.conn.log.completes
    ensures Step(s, a).conn.backlog == []
  {
    match a
    case LoopSend(body, w) => SendCompletes(s.conn, Message(0, |s.sent[0]|, body), w);
    case RunTask(w) =>
      if s.conn.queue[0].SendTask? {
        SendCompletes(s.conn.(queue := s.conn.queue[1..]), s.conn.queue[0].m, w);
      }
    case Event(cb, r, w) => EventCompletes(s.conn, cb, r, w);
    case _ =>
  }

  lemma EmptyMeansSent(c: Conn)
    requires Conserved(c) && c.backlog == []
    ensures c.log.taken == Bodies(c.log.accepted)
  {
    assert c.log.taken + c.backlog == c.log.taken;
  }

  /** And one is queued only by a step after which the kernel holds every accepted byte. */
  lemma {:induction false} WriteCompleteMeansSent(s: World, acts: seq<Action>, a: Action)
    requires Start(s)
    requires Next(Run(s, acts), a).conn.log.completes != Run(s, acts).conn.log.completes
    ensures var c := Next(Run(s, acts), a).conn; c.log.taken == Bodies(c.log.accepted)
  {
    StartInv(s);
    RunKeepsInv(s, acts);
    StepStaysSound(Run(s, acts), a);
    StepCompletes(Run(s, acts), a);
    EmptyMeansSent(Next(Run(s, acts), a).conn);
  }

  // ---------------------------------------------------------------- one dispatch as a run

  lemma Unroll(s: World, acts: seq<Action>, a: Action)
    ensures Run(s, acts + [a]) == Next(Run(s, acts), a)
  {
    assert (acts + [a])[..|acts|] == acts;
  }

  function Events(callbacks: seq<Callback>, r: ReadResult, w: WriteResult): seq<Action> {
    seq(|callbacks|, i requires 0 <= i < |callbacks| => Event(callbacks[i], r, w))
  }

  /** The world after `callbacks`, and one more of them if it is due. */
  lemma EventsAppend(s: World, callbacks: seq<Callback>, due: bool, cb: Callback, r: ReadResult, w: WriteResult)
    ensures var t := Run(s, Events(callbacks, r, w));
      Run(s, Events(callbacks + If(due, cb), r, w)) == if due then Next(t, Event(cb, r, w)) else t
  {
    if due {
      assert Events(callbacks + [cb], r, w) == Events(callbacks, r, w) + [Event(cb, r, w)];
      Unroll(s, Events(callbacks, r, w), Event(cb, r, w));
    } else {
      assert callbacks + [] == callbacks;
    }
  }

  /** A connection past its establishment that the kernel may still answer with `w`. */
  predicate Ready(s: World, w: WriteResult) {
    !s.conn.state.Connecting? && KernelAnswers(s, w, |s.conn.backlog|)
  }

  lemma EventHandles(s: World, cb: Callback, r: ReadResult, w: WriteResult)
    requires Ready(s, w)
    ensures var t := Next(s, Event(cb, r, w));
      t == s.(conn := Handle(s.conn, cb, r, w), seen := Watch(s, Event(cb, r, w)))
    ensures !cb.WriteCallback? ==> Ready(Next(s, Event(cb, r, w)), w)
  {
  }

  /** The next callback before the write, if it is due, leaves the world ready for the one after. */
  lemma EventIfDue(s: World, callbacks: seq<Callback>, due: bool, cb: Callback, r: ReadResult, w: WriteResult)
    requires Ready(Run(s, Events(callbacks, r, w)), w) && !cb.WriteCallback?
    ensures var t := Run(s, Events(callbacks, r, w));
      var u := Run(s, Events(callbacks + If(due, cb), r, w));
      && u == (if due then t.(conn := Handle(t.conn, cb, r, w), seen := Watch(t, Event(cb, r, w))) else t)
      && Ready(u, w)
  {
    EventsAppend(s, callbacks, due, cb, r, w);
    EventHandles(Run(s, Events(callbacks, r, w)), cb, r, w);
  }

  /** What readv returned, if it is called and succeeds. */
  function Arriving(revents: Mask, r: ReadResult): string {
    if (revents.input || revents.urgent) && r.Data? then r.bytes else []
  }

  /** The callbacks before the read. */
  function Early(revents: Mask): seq<Callback> {
    If(revents.hangUp && !revents.input, CloseCallback) + If(revents.error, ErrorCallback)
  }

  lemma HangUpEvents(s: World, due: bool, r: ReadResult, w: WriteResult)
    requires Ready(s, w)
    ensures var t := Run(s, Events(If(due, CloseCallback), r, w));
      t == s.(conn := if due then HandleClose(s.conn) else s.conn) && Ready(t, w)
  {
    assert Events([], r, w) == [] && [] + If(due, CloseCallback) == If(due, CloseCallback);
    EventIfDue(s, [], due, CloseCallback, r, w);
  }

  lemma EarlyEvents(s: World, revents: Mask, r: ReadResult, w: WriteResult)
    requires Ready(s, w)
    ensures var t := Run(s, Events(Early(revents), r, w));
      && t == s.(conn := if revents.hangUp && !revents.input then HandleClose(s.conn) else s.conn)
      && Ready(t, w)
  {
    HangUpEvents(s, revents.hangUp && !revents.input, r, w);
    EventIfDue(s, If(revents.hangUp && !revents.input, CloseCallback), revents.error, ErrorCallback, r, w);
  }

  lemma ReadEvent(s: World, due: bool, r: ReadResult, w: WriteResult)
    requires Ready(s, w)
    ensures var data := if due && r.Data? then r.bytes else [];
      (if due then s.(conn := HandleRead(s.conn, r), seen := Watch(s, Event(ReadCallback, r, w))) else s)
      == s.(conn := if due then HandleRead(s.conn, r) else s.conn, seen := s.seen.(arrived := s.seen.arrived + data))
  {
    assert s.seen.arrived + [] == s.seen.arrived;
  }

  lemma InboundEvents(s: World, revents: Mask, r: ReadResult, w: WriteResult)
    requires Ready(s, w)
    ensures var t := Run(s, Events(Inbound(revents), r, w));
      && t == s.(conn := HandleInbound(s.conn, revents, r),
                 seen := s.seen.(arrived := s.seen.arrived + Arriving(revents, r)))
      && Ready(t, w)
  {
    EarlyEvents(s, revents, r, w);
    EventIfDue(s, Early(revents), Has(revents, READ_EVENT), ReadCallback, r, w);
    ReadEvent(Run(s, Events(Early(revents), r, w)), Has(revents, READ_EVENT), r, w);
  }

  /** handleEvent on a live connection is the run of its callbacks' steps, in order: the method of
      the class is made of steps that every theorem here covers. */
  lemma DispatchIsEvents(s: World, revents: Mask, r: ReadResult, w: WriteResult)
    requires !s.conn.state.Connecting? && KernelAnswers(s, w, |s.conn.backlog|)
    ensures var t := Run(s, Events(Callbacks(revents), r, w));
      t == s.(conn := HandleEvent(s.conn, revents, r, w), seen := t.seen)
  {
    InboundEvents(s, revents, r, w);
    EventsAppend(s, Inbound(revents), revents.output, WriteCallback, r, w);
    EventHandles(Run(s, Events(Inbound(revents), r, w)), WriteCallback, r, w);
  }

  /** What a dispatch moves, by the bits of the mask: what was read is in the input buffer, and a
      mask with the output bit sends from the backlog unless the connection does not ask to write
      or has just been closed. */
  lemma DispatchMoves(s: World, revents: Mask, r: ReadResult, w: WriteResult)
    requires !s.conn.state.Connecting? && KernelAnswers(s, w, |s.conn.backlog|)
    ensures var t := Run(s, Events(Callbacks(revents), r, w)); var c := s.conn;
      var closed := (revents.hangUp && !revents.input) || ((revents.input || revents.urgent) && r == Data([]));
      var n := if revents.output && c.slot.events.output && !closed then BytesWritten(w) else 0;
      && t.seen.arrived == s.seen.arrived + Arriving(revents, r)
      && t.conn.inbox == c.inbox + Arriving(revents, r)
      && t.seen.wire == s.seen.wire + c.backlog[..n]
      && t.conn.backlog == c.backlog[n..]
      && t.seen.retrieved == s.seen.retrieved && t.seen.dropped == s.seen.dropped
  {
    var t := Run(s, Events(Inbound(revents), r, w));
    InboundEvents(s, revents, r, w);
    InboundMoves(s.conn, revents, r);
    EventsAppend(s, Inbound(revents), revents.output, WriteCallback, r, w);
    EventHandles(t, WriteCallback, r, w);
    WriteTakes(t.conn, w);
  }

  lemma InboundMoves(c: Conn, revents: Mask, r: ReadResult)
    ensures var d := HandleInbound(c, revents, r);
      var closed := (revents.hangUp && !revents.input) || ((revents.input || revents.urgent) && r == Data([]));
      && d.inbox == c.inbox + Arriving(revents, r) && d.backlog == c.backlog
      && d.slot.events.output == (c.slot.events.output && !closed)
  {
    var afterClose := if revents.hangUp && !revents.input then HandleClose(c) else c;
    ReadTakes(afterClose, r);
    assert c.inbox + [] == c.inbox;
  }

  // ---------------------------------------------------------------- where the claims end

  lemma RunThree(s: World, acts: seq<Action>, a: Action, b: Action, c: Action)
    ensures Run(s, acts + [a, b, c]) == Next(Next(Next(Run(s, acts), a), b), c)
  {
    Unroll(s, acts, a);
    Unroll(s, acts + [a], b);
    Unroll(s, acts + [a] + [b], c);
    assert acts + [a] + [b] + [c] == acts + [a, b, c];
  }

  /** A connection never closed or shut, with one other thread, at `pc`, and nothing to write yet. */
  predicate Fresh(s: World, state: State, pc: ThreadPc, queue: seq<Task>) {
    && s.threads == [Away, pc] && |s.sent| == 2 && !s.epipe
    && s.conn.state == state && s.conn.queue == queue && s.conn.mark > |s.conn.backlog|
    && s.conn.log.closes == 0 && s.conn.log.shutdowns == 0
  }

  function OneThread(mark: nat): World { Birth(1, NewConn(mark, false, false), false) }

  lemma OneThreadStarts(mark: nat)
    ensures Start(OneThread(mark))
  {
  }

  lemma Established(mark: nat)
    requires mark > 0
    ensures var r := Run(OneThread(mark), [Establish]);
      Fresh(r, Connected, Away, []) && WritesDirectly(r.conn) && r.conn.mark == mark
  {
    assert OneThread(mark).threads == [Away, Away];
    Unroll(OneThread(mark), [], Establish);
    assert [] + [Establish] == [Establish];
  }

  lemma Parked(s: World, body: string)
    requires Fresh(s, Connected, Away, []) && WritesDirectly(s.conn) && 0 < |body| < s.conn.mark
    ensures var r := Next(s, LoopSend(body, WouldBlock));
      Fresh(r, Connected, Away, []) && r.conn.backlog == body && Writing(r.conn)
  {
  }

  lemma ShutdownQueued(s: World)
    requires Fresh(s, Connected, Away, [])
    ensures var r := Next(Next(Next(s, ForeignShutdown(1)), ForeignSetState(1)), ForeignPush(1));
      Fresh(r, Disconnecting, Away, [ShutdownTask]) && r.conn.backlog == s.conn.backlog
  {
  }

  lemma ClosedThenShut(s: World)
    requires Fresh(s, Disconnecting, Away, [ShutdownTask])
    ensures var r := Next(Next(s, Event(CloseCallback, Data([]), WouldBlock)), RunTask(WouldBlock));
      r.conn.log.shutdowns == 1 && r.conn.log.closes == 1 && r.conn.backlog == s.conn.backlog
  {
  }

  function ShutdownBehind(body: string): seq<Action> {
    [Establish] + [LoopSend(body, WouldBlock)] + [ForeignShutdown(1), ForeignSetState(1), ForeignPush(1)]
  }

  lemma ReachesQueuedShutdown(body: string)
    requires body != []
    ensures var r := Run(OneThread(|body| + 1), ShutdownBehind(body));
      Fresh(r, Disconnecting, Away, [ShutdownTask]) && r.conn.backlog == body
  {
    var s := OneThread(|body| + 1);
    Established(|body| + 1);
    Unroll(s, [Establish], LoopSend(body, WouldBlock));
    Parked(Run(s, [Establish]), body);
    var acts := [Establish] + [LoopSend(body, WouldBlock)];
    RunThree(s, acts, ForeignShutdown(1), ForeignSetState(1), ForeignPush(1));
    ShutdownQueued(Run(s, acts));
  }

  /** The step of `ShutsOverUnsentExactly` does occur: a shutdown that is still queued when the
      connection closes is carried out all the same, on bytes that will now never be sent. Any
      message can be the one lost. */
  lemma ClosedWithBacklogStillShuts(body: string)
    requires body != []
    ensures exists s, acts :: Start(s) && (var c := Run(s, acts).conn;
      c.log.shutdowns == 1 && c.log.closes == 1 && c.backlog == body)
  {
    var s, acts := OneThread(|body| + 1), ShutdownBehind(body);
    var close, run := Event(CloseCallback, Data([]), WouldBlock), RunTask(WouldBlock);
    ReachesQueuedShutdown(body);
    ClosedThenShut(Run(s, acts));
    Unroll(s, acts, close);
    Unroll(s, acts + [close], run);
    assert Start(s);
    var c := Run(s, acts + [close] + [run]).conn;
    assert c.log.shutdowns == 1 && c.log.closes == 1 && c.backlog == body;
  }

  lemma ClosedThenSet(s: World)
    requires Fresh(s, Connected, Away, [])
    ensures var close := Event(CloseCallback, Data([]), WouldBlock);
      var r := Next(Next(Next(s, ForeignShutdown(1)), close), ForeignSetState(1));
      r.conn.log.closes == 1 && r.conn.state == Disconnecting
  {
  }

  function CloseBetween(): seq<Action> {
    [Establish] + [ForeignShutdown(1), Event(CloseCallback, Data([]), WouldBlock), ForeignSetState(1)]
  }

  lemma ClosedBetween()
    ensures var c := Run(OneThread(1), CloseBetween()).conn; c.log.closes == 1 && c.state == Disconnecting
  {
    var s := OneThread(1);
    Established(1);
    RunThree(s, [Establish], ForeignShutdown(1), Event(CloseCallback, Data([]), WouldBlock), ForeignSetState(1));
    ClosedThenSet(Run(s, [Establish]));
  }

  /** The test of state_ in shutdown() and the change that follows are two accesses: a close between
      them is undone, and the closed connection is left in kDisconnecting. */
  lemma ShutdownOverwritesClose()
    ensures exists s, acts :: Start(s) && (var c := Run(s, acts).conn; c.log.closes == 1 && c.state == Disconnecting)
  {
    OneThreadStarts(1);
    ClosedBetween();
    var c := Run(OneThread(1), CloseBetween()).conn;
    assert c.log.closes == 1 && c.state == Disconnecting;
  }

  lemma StaysDisconnected(s: World, a: Action)
    requires s.conn.state.Disconnected? && ClosingChecked !in s.threads
    ensures Next(s, a).conn.state.Disconnected? && ClosingChecked !in Next(s, a).threads
  {
    if Enabled(s, a) && a.RunTask? {
      TaskKeepsState(s.conn.(queue := s.conn.queue[1..]), s.conn.queue[0], a.w);
    }
  }

  lemma TaskKeepsState(c: Conn, task: Task, w: WriteResult)
    requires task.SendTask? ==> LegalWrite(w, |task.m.body|)
    ensures Perform(c, task, w).state == c.state
  {
    if task.SendTask? { SendKeepsState(c, task.m, w); }
  }

  lemma {:induction false} RunStaysDisconnected(s: World, acts: seq<Action>)
    requires s.conn.state.Disconnected? && ClosingChecked !in s.threads
    ensures Run(s, acts).conn.state.Disconnected? && ClosingChecked !in Run(s, acts).threads
    decreases |acts|
  {
    if acts == [] {
    } else {
      RunStaysDisconnected(s, acts[..|acts| - 1]);
      StaysDisconnected(Run(s, acts[..|acts| - 1]), acts[|acts| - 1]);
    }
  }

  /** kDisconnected is final, whatever happens next, exactly when no thread stands between the test
      and the change in shutdown(). */
  lemma DisconnectedIsFinal(s: World)
    requires s.conn.state.Disconnected? && s.threads != [] && s.threads[0].Away?
    ensures (forall acts :: Run(s, acts).conn.state.Disconnected?) <==> ClosingChecked !in s.threads
  {
    if ClosingChecked in s.threads {
      var t :| 0 <= t < |s.threads| && s.threads[t] == ClosingChecked;
      Unroll(s, [], ForeignSetState(t));
      assert !Run(s, [] + [ForeignSetState(t)]).conn.state.Disconnected?;
    } else {
      forall acts
        ensures Run(s, acts).conn.state.Disconnected?
      {
        RunStaysDisconnected(s, acts);
      }
    }
  }

  /** So wherever a run has left the connection closed, it stays closed in every continuation
      exactly when no shutdown() is caught half way. */
  lemma {:induction false} CloseIsFinalExactly(s: World, acts: seq<Action>)
    requires Start(s) && Run(s, acts).conn.state.Disconnected?
    ensures var r := Run(s, acts);
      (forall more :: Run(r, more).conn.state.Disconnected?) <==> ClosingChecked !in r.threads
  {
    StartInv(s);
    RunKeepsInv(s, acts);
    DisconnectedIsFinal(Run(s, acts));
  }
}
