/** What TcpConnection.cpp does to one connection, as functions on values, and what each of them keeps.

    `Conn` is the connection's own state, its slot in the poller, the functors it has waiting in
    its loop, and a log of what has happened. The class in TcpConnection.dfy refines these
    functions; ConnectionRuns.dfy proves what they add up to over every run. */
module Connection {
  import opened Buffers
  import opened Polling

  datatype State = Disconnected | Connecting | Connected | Disconnecting

  /** A message as its sender's call to send carried it: who, which call of theirs, what. */
  datatype Message = Message(sender: nat, serial: nat, body: string)

  datatype Task = SendTask(m: Message) | ShutdownTask | WriteCompleteTask | HighWaterTask(backlog: nat)

  datatype Log = Log(
    accepted: seq<Message>,    // messages sendInLoop took charge of, in order
    taken: string,             // bytes the kernel took, in order
    shutdowns: nat,            // times SHUT_WR was issued
    closes: nat,               // times handleClose ran
    destroyed: bool,           // connectDestroyed has run
    highWaters: nat,           // high-water functors queued
    falls: nat,                // handleWrite calls that brought the backlog below the mark
    completes: nat,            // write-complete functors queued
    due: bool,                 // a nonempty message was accepted since the last of those
    received: string,          // bytes read from the peer
    consumed: string)          // bytes of these the message callback has retrieved

  datatype Conn = Conn(
    state: State,
    slot: Slot,
    backlog: string,           // outputBuffer_
    inbox: string,             // inputBuffer_
    mark: nat,                 // highWaterMark_
    onHighWater: bool,         // highWaterMarkCallbak_ is set
    onWriteComplete: bool,     // writeCompleteCallback_ is set
    queue: seq<Task>,          // this connection's functors in its loop
    log: Log)

  function NewConn(mark: nat, onHighWater: bool, onWriteComplete: bool): Conn {
    Conn(Connecting, FRESH_SLOT, [], [], mark, onHighWater, onWriteComplete, [],
         Log([], [], 0, 0, false, 0, 0, 0, false, [], []))
  }

  predicate Writing(c: Conn) { Has(c.slot.events, WRITE_EVENT) }

  // ---------------------------------------------------------------- the member functions

  function TakeCharge(c: Conn, m: Message, n: nat): Conn
    requires n <= |m.body|
  {
    c.(log := c.log.(accepted := c.log.accepted + [m], taken := c.log.taken + m.body[..n],
                     due := c.log.due || m.body != []))
  }

  function PostWriteComplete(c: Conn): Conn {
    if c.onWriteComplete then
      c.(queue := c.queue + [WriteCompleteTask], log := c.log.(completes := c.log.completes + 1, due := false))
    else c
  }

  /** The backlog crosses the mark from below. */
  predicate Crosses(c: Conn, more: nat) { |c.backlog| + more >= c.mark && |c.backlog| < c.mark && c.onHighWater }

  function PostHighWater(c: Conn, more: nat): Conn {
    if Crosses(c, more) then
      c.(queue := c.queue + [HighWaterTask(|c.backlog| + more)],
         log := c.log.(highWaters := c.log.highWaters + 1))
    else c
  }

  /** The second half of sendInLoop: what the kernel did not take goes to the output buffer. */
  function Park(c: Conn, rest: string): Conn {
    PostHighWater(c, |rest|).(backlog := c.backlog + rest,
           slot := if Writing(c) then c.slot else SlotStep(c.slot, EnableWriting))
  }

  predicate WritesDirectly(c: Conn) { !Writing(c) && c.backlog == [] }

  /** sendInLoop, with `w` what write(2) returns if it is called. EPIPE and ECONNRESET drop the
      message; any other failure leaves it all to be sent later. */
  function SendInLoop(c: Conn, m: Message, w: WriteResult): Conn
    requires LegalWrite(w, |m.body|)
  {
    if c.state.Disconnected? || (WritesDirectly(c) && w.Fault?) then c
    else
      var n := if WritesDirectly(c) then BytesWritten(w) else 0;
      var held := TakeCharge(c, m, n);
      if n < |m.body| then Park(held, m.body[n..])
      else if WritesDirectly(c) && w.Wrote? then PostWriteComplete(held)
      else held
  }

  function ShutdownInLoop(c: Conn): Conn {
    if Writing(c) then c else c.(log := c.log.(shutdowns := c.log.shutdowns + 1))
  }

  /** The backlog after the kernel took `n` bytes of it. */
  function Drain(c: Conn, n: nat): Conn
    requires n <= |c.backlog|
  {
    var left := Drop(c.backlog, n);
    c.(backlog := left,
       log := c.log.(taken := c.log.taken + c.backlog[..n],
                     falls := c.log.falls + if |c.backlog| >= c.mark && |left| < c.mark then 1 else 0))
  }

  function HandleWrite(c: Conn, w: WriteResult): Conn
    requires LegalWrite(w, |c.backlog|)
  {
    if !Writing(c) || BytesWritten(w) == 0 then c
    else
      var d := Drain(c, BytesWritten(w));
      if d.backlog == [] then Drained(d) else d
  }

  /** The end of handleWrite, when the last byte has gone. */
  function Drained(c: Conn): Conn {
    var quiet := PostWriteComplete(c.(slot := SlotStep(c.slot, DisableWriting)));
    if quiet.state.Disconnecting? then ShutdownInLoop(quiet) else quiet
  }

  function HandleClose(c: Conn): Conn {
    c.(state := Disconnected, slot := SlotStep(c.slot, DisableAll), log := c.log.(closes := c.log.closes + 1))
  }

  function HandleRead(c: Conn, r: ReadResult): Conn {
    if r.ReadFailed? then c
    else if r.bytes == [] then HandleClose(c)
    else c.(inbox := c.inbox + r.bytes, log := c.log.(received := c.log.received + r.bytes))
  }

  /** The message callback retrieves from the front of the input buffer. */
  function Consume(c: Conn, n: nat): Conn {
    c.(inbox := Drop(c.inbox, n), log := c.log.(consumed := c.log.consumed + Dropped(c.inbox, n)))
  }

  function ConnectEstablished(c: Conn): Conn {
    c.(state := Connected, slot := SlotStep(c.slot, EnableReading))
  }

  function ConnectDestroyed(c: Conn): Conn {
    var quiet := if c.state.Connected? then c.(state := Disconnected, slot := SlotStep(c.slot, DisableAll)) else c;
    quiet.(slot := SlotStep(quiet.slot, Remove), log := quiet.log.(destroyed := true))
  }

  function Post(c: Conn, task: Task): Conn { c.(queue := c.queue + [task]) }

  /** A callback that handleEventWithGuard makes. */
  function Handle(c: Conn, cb: Callback, r: ReadResult, w: WriteResult): Conn
    requires LegalWrite(w, |c.backlog|)
  {
    match cb
    case CloseCallback => HandleClose(c)
    case ErrorCallback => c
    case ReadCallback => HandleRead(c, r)
    case WriteCallback => HandleWrite(c, w)
  }

  function HandleInbound(c: Conn, revents: Mask, r: ReadResult): Conn {
    var afterClose := if revents.hangUp && !revents.input then HandleClose(c) else c;
    if Has(revents, READ_EVENT) then HandleRead(afterClose, r) else afterClose
  }

  /** Channel::handleEvent on a live connection: the callbacks of `revents`, in order. */
  function HandleEvent(c: Conn, revents: Mask, r: ReadResult, w: WriteResult): Conn
    requires LegalWrite(w, |c.backlog|)
  {
    var d := HandleInbound(c, revents, r);
    if revents.output then HandleWrite(d, w) else d
  }

  /** It closes as often as `CloseCount` counts in `Callbacks`, so `ClosedTwice` says exactly when
      one dispatch runs handleClose twice. */
  lemma EventCloses(c: Conn, revents: Mask, r: ReadResult, w: WriteResult)
    requires LegalWrite(w, |c.backlog|)
    ensures HandleEvent(c, revents, r, w).log.closes
         == c.log.closes + CloseCount(Callbacks(revents), r == Data([]))
  {
    CloseCountOf(revents, r == Data([]));
    InboundCloses(c, revents, r);
    WriteCloses(HandleInbound(c, revents, r), w);
  }

  lemma InboundCloses(c: Conn, revents: Mask, r: ReadResult)
    ensures var d := HandleInbound(c, revents, r);
      && d.backlog == c.backlog
      && d.log.closes == c.log.closes + (if revents.hangUp && !revents.input then 1 else 0)
                                      + (if Has(revents, READ_EVENT) && r == Data([]) then 1 else 0)
  {
  }

  lemma WriteCloses(c: Conn, w: WriteResult)
    requires LegalWrite(w, |c.backlog|)
    ensures HandleWrite(c, w).log.closes == c.log.closes
  {
  }

  // ---------------------------------------------------------------- what always holds

  function Bodies(ms: seq<Message>): string {
    if ms == [] then [] else Bodies(ms[..|ms| - 1]) + ms[|ms| - 1].body
  }

  lemma BodiesAppend(ms: seq<Message>, m: Message)
    ensures Bodies(ms + [m]) == Bodies(ms) + m.body
  {
    assert (ms + [m])[..|ms|] == ms;
  }

  /** No hole, no repeat, no reordering: what was accepted is what the kernel took, then the backlog. */
  ghost predicate Conserved(c: Conn) { Bodies(c.log.accepted) == c.log.taken + c.backlog }

  ghost predicate InboundConserved(c: Conn) { c.log.received == c.log.consumed + c.inbox }

  /** The crossings of the mark upwards, less those downwards, say on which side the backlog is. */
  predicate HighWaterLedger(c: Conn) {
    c.log.highWaters == c.log.falls + if |c.backlog| >= c.mark then 1 else 0
  }

  /** A write-complete is owed exactly while bytes wait. */
  predicate WriteCompleteLedger(c: Conn) { c.log.due <==> c.backlog != [] }

  predicate MarkLedger(c: Conn) {
    && (c.mark > 0 && c.onHighWater ==> HighWaterLedger(c))
    && (c.mark == 0 ==> c.log.highWaters == c.log.falls == 0)
  }

  predicate Ledgers(c: Conn) { MarkLedger(c) && (c.onWriteComplete ==> WriteCompleteLedger(c)) }

  ghost predicate Sound(c: Conn) { Conserved(c) && InboundConserved(c) && Ledgers(c) && Agree(c.slot) }

  /** Nothing waits and the write bit is off, so that sendInLoop makes the write(2) itself. */
  predicate Clear(c: Conn) { c.backlog == [] && !c.slot.events.output }

  /** What becomes of a message: it is dropped whole when the connection is disconnected or a write
      made for it faults; otherwise it is accepted, the kernel has what it took and the rest waits. */
  lemma SendTakes(c: Conn, m: Message, w: WriteResult)
    requires LegalWrite(w, |m.body|)
    ensures var r := SendInLoop(c, m, w); var n := if Clear(c) then BytesWritten(w) else 0;
      if c.state.Disconnected? || (Clear(c) && w.Fault?) then r == c
      else
        && r.log.accepted == c.log.accepted + [m]
        && r.log.taken == c.log.taken + m.body[..n]
        && r.backlog == c.backlog + m.body[n..]
        && (n < |m.body| ==> r.slot.events.output)
        && r.state == c.state && r.inbox == c.inbox
  {
    assert c.backlog + [] == c.backlog;
  }

  lemma {:induction false} SendConserves(c: Conn, m: Message, w: WriteResult)
    requires Conserved(c) && LegalWrite(w, |m.body|)
    ensures Conserved(SendInLoop(c, m, w))
  {
    SendTakes(c, m, w);
    if !(c.state.Disconnected? || (Clear(c) && w.Fault?)) {
      var n := if Clear(c) then BytesWritten(w) else 0;
      BodiesAppend(c.log.accepted, m);
      Rejoin(c.log.taken, c.backlog, m.body, n);
    }
  }

  /** A message split at `n` joins the stream whole, because it is split only when nothing waits. */
  lemma Rejoin(taken: string, backlog: string, body: string, n: nat)
    requires n <= |body| && (n == 0 || backlog == [])
    ensures (taken + body[..n]) + (backlog + body[n..]) == (taken + backlog) + body
  {
  }

  lemma SendKeepsMarkLedger(c: Conn, m: Message, w: WriteResult)
    requires MarkLedger(c) && LegalWrite(w, |m.body|)
    ensures MarkLedger(SendInLoop(c, m, w))
  {
  }

  lemma SendKeepsDue(c: Conn, m: Message, w: WriteResult)
    requires WriteCompleteLedger(c) && c.onWriteComplete && LegalWrite(w, |m.body|)
    ensures WriteCompleteLedger(SendInLoop(c, m, w))
  {
  }

  lemma SendKeepsLedgers(c: Conn, m: Message, w: WriteResult)
    requires Ledgers(c) && LegalWrite(w, |m.body|)
    ensures Ledgers(SendInLoop(c, m, w))
  {
    SendKeepsMarkLedger(c, m, w);
    if c.onWriteComplete { SendKeepsDue(c, m, w); } else { SendKeepsSettings(c, m, w); }
  }

  lemma SendKeepsSettings(c: Conn, m: Message, w: WriteResult)
    requires LegalWrite(w, |m.body|)
    ensures var r := SendInLoop(c, m, w);
      r.mark == c.mark && r.onHighWater == c.onHighWater && r.onWriteComplete == c.onWriteComplete
  {
  }

  lemma SendKeepsRest(c: Conn, m: Message, w: WriteResult)
    requires InboundConserved(c) && Agree(c.slot) && LegalWrite(w, |m.body|)
    ensures InboundConserved(SendInLoop(c, m, w)) && Agree(SendInLoop(c, m, w).slot)
  {
  }

  lemma SendKeepsSound(c: Conn, m: Message, w: WriteResult)
    requires Sound(c) && LegalWrite(w, |m.body|)
    ensures Sound(SendInLoop(c, m, w))
  {
    SendConserves(c, m, w);
    SendKeepsLedgers(c, m, w);
    SendKeepsRest(c, m, w);
  }

  /** The kernel has what write(2) returned for, and exactly that is gone from the backlog; without
      the write bit nothing happens. */
  lemma WriteTakes(c: Conn, w: WriteResult)
    requires LegalWrite(w, |c.backlog|)
    ensures var r := HandleWrite(c, w); var n := if c.slot.events.output then BytesWritten(w) else 0;
      && r.log.taken == c.log.taken + c.backlog[..n] && r.backlog == c.backlog[n..]
      && r.log.accepted == c.log.accepted && r.state == c.state && r.inbox == c.inbox
      && (n == 0 ==> r == c)
      && (c.backlog != [] ==> (r.slot.events.output <==> c.slot.events.output && r.backlog != []))
  {
    if c.slot.events.output && BytesWritten(w) > 0 {
      DrainedKeeps(Drain(c, BytesWritten(w)));
    } else {
      assert c.log.taken + [] == c.log.taken;
    }
  }

  lemma DrainedKeeps(c: Conn)
    ensures var r := Drained(c);
      && r.log.taken == c.log.taken && r.backlog == c.backlog && r.log.accepted == c.log.accepted
      && r.state == c.state && r.inbox == c.inbox && !r.slot.events.output
  {
  }

  /** What readv returned joins the input buffer; end of file, and nothing else, closes. */
  lemma ReadTakes(c: Conn, r: ReadResult)
    ensures var d := HandleRead(c, r); var data := if r.Data? then r.bytes else [];
      && d.inbox == c.inbox + data && d.log.received == c.log.received + data
      && d.log.consumed == c.log.consumed && d.backlog == c.backlog && d.log.taken == c.log.taken
      && (if r == Data([]) then d == HandleClose(c) else d.slot == c.slot && d.state == c.state)
  {
    assert c.inbox + [] == c.inbox && c.log.received + [] == c.log.received;
  }

  /** The front of the input buffer goes to the message callback, all of it when it asks for as much
      or more. */
  lemma ConsumeTakes(c: Conn, n: nat)
    ensures var d := Consume(c, n); var k := if n < |c.inbox| then n else |c.inbox|;
      && d.inbox == c.inbox[k..] && d.log.consumed == c.log.consumed + c.inbox[..k]
      && d.log.received == c.log.received
  {
  }

  lemma WriteConserves(c: Conn, w: WriteResult)
    requires Conserved(c) && LegalWrite(w, |c.backlog|)
    ensures Conserved(HandleWrite(c, w)) && HandleWrite(c, w).log.accepted == c.log.accepted
  {
    var n := BytesWritten(w);
    assert c.log.taken + c.backlog == (c.log.taken + c.backlog[..n]) + Drop(c.backlog, n);
  }

  lemma WriteKeepsLedgers(c: Conn, w: WriteResult)
    requires Ledgers(c) && LegalWrite(w, |c.backlog|)
    ensures Ledgers(HandleWrite(c, w))
  {
  }

  lemma WriteKeepsSound(c: Conn, w: WriteResult)
    requires Sound(c) && LegalWrite(w, |c.backlog|)
    ensures Sound(HandleWrite(c, w))
  {
    WriteConserves(c, w);
    WriteKeepsLedgers(c, w);
  }

  /** Two states that differ in lifecycle only keep each other's accounts. */
  predicate SameAccounts(c: Conn, d: Conn) {
    && c.backlog == d.backlog && c.inbox == d.inbox && c.mark == d.mark
    && c.onHighWater == d.onHighWater && c.onWriteComplete == d.onWriteComplete
    && d.log == c.log.(shutdowns := d.log.shutdowns, closes := d.log.closes, destroyed := d.log.destroyed)
  }

  lemma AccountsStaySound(c: Conn, d: Conn)
    requires Sound(c) && SameAccounts(c, d) && Agree(d.slot)
    ensures Sound(d)
  {
  }

  lemma CloseKeepsSound(c: Conn)
    requires Sound(c)
    ensures Sound(HandleClose(c))
  {
    AccountsStaySound(c, HandleClose(c));
  }

  lemma EstablishKeepsSound(c: Conn)
    requires Sound(c)
    ensures Sound(ConnectEstablished(c))
  {
    AccountsStaySound(c, ConnectEstablished(c));
  }

  lemma DestroyKeepsSound(c: Conn)
    requires Sound(c)
    ensures Sound(ConnectDestroyed(c))
  {
    AccountsStaySound(c, ConnectDestroyed(c));
  }

  lemma ReadKeepsSound(c: Conn, r: ReadResult)
    requires Sound(c)
    ensures Sound(HandleRead(c, r))
  {
    CloseKeepsSound(c);
    if r.Data? {
      assert (c.log.consumed + c.inbox) + r.bytes == c.log.consumed + (c.inbox + r.bytes);
    }
  }

  lemma ConsumeKeepsSound(c: Conn, n: nat)
    requires Sound(c)
    ensures Sound(Consume(c, n))
  {
    assert c.log.consumed + c.inbox == (c.log.consumed + Dropped(c.inbox, n)) + Drop(c.inbox, n);
  }

  // ---------------------------------------------------------------- what holds while the connection is open

  /** Established and neither closed nor destroyed. */
  predicate Open(c: Conn) { !c.state.Connecting? && c.log.closes == 0 && !c.log.destroyed }

  /** Write interest follows the backlog, in the channel and in the kernel, and reading stays on. */
  predicate Attentive(c: Conn) {
    && (c.state.Connected? || c.state.Disconnecting?)
    && c.slot.index.Added? && c.slot.events.input && c.slot.events.urgent
    && (Writing(c) <==> c.backlog != [])
  }

  /** Nothing has happened yet. */
  predicate Unborn(c: Conn) {
    && c.slot == FRESH_SLOT && c.backlog == [] && c.queue == []
    && c.log.shutdowns == 0 && c.log.closes == 0 && !c.log.destroyed
  }

  /** Before, during and after that: write interest is never on with nothing to write, and
      kConnected is never the state of a connection that was closed or destroyed. */
  predicate Settled(c: Conn) {
    && (c.state.Connecting? ==> Unborn(c))
    && (Open(c) ==> Attentive(c))
    && (Writing(c) ==> c.backlog != [])
    && (c.state.Connected? ==> Open(c))
  }

  lemma SendKeepsSettled(c: Conn, m: Message, w: WriteResult)
    requires Settled(c) && !c.state.Connecting? && Agree(c.slot) && LegalWrite(w, |m.body|)
    ensures Settled(SendInLoop(c, m, w))
  {
  }

  lemma WriteKeepsSettled(c: Conn, w: WriteResult)
    requires Settled(c) && !c.state.Connecting? && Agree(c.slot) && LegalWrite(w, |c.backlog|)
    ensures Settled(HandleWrite(c, w))
  {
  }

  lemma EstablishSettles(c: Conn)
    requires Settled(c) && c.state.Connecting?
    ensures Settled(ConnectEstablished(c))
  {
  }

  lemma CloseKeepsSettled(c: Conn)
    requires Settled(c) && !c.state.Connecting?
    ensures Settled(HandleClose(c))
  {
  }

  lemma EventKeepsSettled(c: Conn, cb: Callback, r: ReadResult, w: WriteResult)
    requires Settled(c) && !c.state.Connecting? && Agree(c.slot) && LegalWrite(w, |c.backlog|)
    ensures Settled(Handle(c, cb, r, w))
  {
    match cb
    case CloseCallback => CloseKeepsSettled(c);
    case ErrorCallback =>
    case ReadCallback => if r == Data([]) { CloseKeepsSettled(c); }
    case WriteCallback => WriteKeepsSettled(c, w);
  }

  lemma EventKeepsSound(c: Conn, cb: Callback, r: ReadResult, w: WriteResult)
    requires Sound(c) && LegalWrite(w, |c.backlog|)
    ensures Sound(Handle(c, cb, r, w))
  {
    match cb
    case CloseCallback => CloseKeepsSound(c);
    case ErrorCallback =>
    case ReadCallback => ReadKeepsSound(c, r);
    case WriteCallback => WriteKeepsSound(c, w);
  }

  /** History only accumulates, settings stay, and nothing returns to kConnecting. */
  predicate Forward(c: Conn, d: Conn) {
    && c.mark == d.mark && c.onHighWater == d.onHighWater && c.onWriteComplete == d.onWriteComplete
    && c.log.closes <= d.log.closes && (c.log.destroyed ==> d.log.destroyed)
    && c.log.shutdowns <= d.log.shutdowns
    && (d.state.Connecting? ==> c.state.Connecting?)
  }

  lemma SendGoesForward(c: Conn, m: Message, w: WriteResult)
    requires LegalWrite(w, |m.body|)
    ensures Forward(c, SendInLoop(c, m, w))
  {
  }

  lemma EventGoesForward(c: Conn, cb: Callback, r: ReadResult, w: WriteResult)
    requires LegalWrite(w, |c.backlog|)
    ensures Forward(c, Handle(c, cb, r, w))
  {
    if cb.WriteCallback? { WriteGoesForward(c, w); }
  }

  lemma WriteGoesForward(c: Conn, w: WriteResult)
    requires LegalWrite(w, |c.backlog|)
    ensures Forward(c, HandleWrite(c, w))
  {
  }

  /** A write-complete functor is queued only with nothing left to write. */
  lemma SendCompletes(c: Conn, m: Message, w: WriteResult)
    requires LegalWrite(w, |m.body|) && SendInLoop(c, m, w).log.completes != c.log.completes
    ensures SendInLoop(c, m, w).backlog == []
  {
  }

  lemma EventCompletes(c: Conn, cb: Callback, r: ReadResult, w: WriteResult)
    requires LegalWrite(w, |c.backlog|) && Handle(c, cb, r, w).log.completes != c.log.completes
    ensures Handle(c, cb, r, w).backlog == []
  {
  }

  /** Nothing waits and writing is off. */
  predicate Idle(c: Conn) { c.backlog == [] && !Writing(c) }

  predicate SameStream(c: Conn, d: Conn) { d.log.accepted == c.log.accepted && d.log.taken == c.log.taken }

  lemma EventOnIdle(c: Conn, cb: Callback, r: ReadResult, w: WriteResult)
    requires Idle(c) && LegalWrite(w, 0)
    ensures Idle(Handle(c, cb, r, w)) && SameStream(c, Handle(c, cb, r, w))
  {
  }

  lemma DestroyOnIdle(c: Conn)
    requires Idle(c)
    ensures Idle(ConnectDestroyed(c)) && SameStream(c, ConnectDestroyed(c))
  {
  }

  /** Refused with nothing waiting, a message is dropped whole. */
  lemma RefusedOnIdle(c: Conn, m: Message)
    requires Idle(c)
    ensures SendInLoop(c, m, Fault) == c
  {
  }

  /** Closing takes the descriptor out of the kernel's list exactly when it was in it: the first
      close silences the channel, a second one in a row would register it again. */
  lemma CloseSilences(c: Conn)
    requires Agree(c.slot)
    ensures HandleClose(c).slot.kernel == None <==> c.slot.index.Added?
    ensures HandleClose(HandleClose(c)).slot.kernel == None <==> !c.slot.index.Added?
  {
  }

  /** Destruction leaves no trace of the channel, in the map or in the kernel, whatever came before. */
  lemma DestroyUnregisters(c: Conn)
    requires Agree(c.slot)
    ensures var d := ConnectDestroyed(c);
      && d.slot.index == New && !d.slot.inMap && d.slot.kernel == None
      && (if c.state.Connected? then d.state == Disconnected && d.slot.events == NONE_EVENT else d.state == c.state)
      && d.backlog == c.backlog
  {
  }

  /** The functors that sendInLoop queues for a message: one for the high-water callback, told the
      new backlog, when that reaches the mark from below; one for the write-complete callback when
      its own write took the whole message. */
  function PostedBySend(c: Conn, m: Message, w: WriteResult): seq<Task>
    requires LegalWrite(w, |m.body|)
  {
    var n := if Clear(c) then BytesWritten(w) else 0;
    var after := |c.backlog| + |m.body| - n;
    if c.state.Disconnected? || (Clear(c) && w.Fault?) then []
    else if n < |m.body| then
      if c.onHighWater && |c.backlog| < c.mark <= after then [HighWaterTask(after)] else []
    else if Clear(c) && w.Wrote? && c.onWriteComplete then [WriteCompleteTask]
    else []
  }

  /** And handleWrite: one when the last byte of the backlog goes. */
  function PostedByWrite(c: Conn, w: WriteResult): seq<Task> {
    if c.onWriteComplete && c.slot.events.output && 0 < BytesWritten(w) == |c.backlog| then [WriteCompleteTask] else []
  }

  function CompletesIn(q: seq<Task>): nat {
    if q == [] then 0 else CompletesIn(q[1..]) + if q[0].WriteCompleteTask? then 1 else 0
  }

  function HighWatersIn(q: seq<Task>): nat {
    if q == [] then 0 else HighWatersIn(q[1..]) + if q[0].HighWaterTask? then 1 else 0
  }

  /** The ledgers count functors that are really queued. */
  lemma SendPosts(c: Conn, m: Message, w: WriteResult)
    requires LegalWrite(w, |m.body|)
    ensures var r := SendInLoop(c, m, w);
      && r.queue == c.queue + PostedBySend(c, m, w)
      && r.log.highWaters == c.log.highWaters + HighWatersIn(PostedBySend(c, m, w))
      && r.log.completes == c.log.completes + CompletesIn(PostedBySend(c, m, w))
  {
    assert c.queue + [] == c.queue && (WritesDirectly(c) <==> Clear(c));
    if !(c.state.Disconnected? || (Clear(c) && w.Fault?)) {
      var n := if Clear(c) then BytesWritten(w) else 0;
      if n < |m.body| { ParkPosts(TakeCharge(c, m, n), m.body[n..]); } else { CompletePosts(TakeCharge(c, m, n)); }
    }
  }

  lemma ParkPosts(c: Conn, rest: string)
    ensures var r := Park(c, rest); var after := |c.backlog| + |rest|;
      var posted := if c.onHighWater && |c.backlog| < c.mark <= after then [HighWaterTask(after)] else [];
      && r.queue == c.queue + posted && r.log.completes == c.log.completes
      && r.log.highWaters == c.log.highWaters + HighWatersIn(posted) && CompletesIn(posted) == 0
  {
    assert c.queue + [] == c.queue;
  }

  lemma CompletePosts(c: Conn)
    ensures var r := PostWriteComplete(c); var posted := if c.onWriteComplete then [WriteCompleteTask] else [];
      && r.queue == c.queue + posted && r.log.highWaters == c.log.highWaters
      && r.log.completes == c.log.completes + CompletesIn(posted) && HighWatersIn(posted) == 0
  {
    assert c.queue + [] == c.queue;
  }

  lemma WritePosts(c: Conn, w: WriteResult)
    requires LegalWrite(w, |c.backlog|)
    ensures var r := HandleWrite(c, w);
      && r.queue == c.queue + PostedByWrite(c, w)
      && r.log.highWaters == c.log.highWaters
      && r.log.completes == c.log.completes + CompletesIn(PostedByWrite(c, w))
  {
    assert c.queue + [] == c.queue;
  }

  /** Write interest goes on when bytes are left over and off when the last is gone; a send or a
      write has no other effect on the registration. */
  lemma SendMovesSlot(c: Conn, m: Message, w: WriteResult)
    requires LegalWrite(w, |m.body|)
    ensures var r := SendInLoop(c, m, w); var n := if Clear(c) then BytesWritten(w) else 0;
      r.slot == if c.state.Disconnected? || (Clear(c) && w.Fault?) || n == |m.body| || c.slot.events.output then c.slot
                else SlotStep(c.slot, EnableWriting)
    ensures SendInLoop(c, m, w).log.shutdowns == c.log.shutdowns && SendInLoop(c, m, w).log.closes == c.log.closes
  {
    var n := if Clear(c) then BytesWritten(w) else 0;
    if !(c.state.Disconnected? || (Clear(c) && w.Fault?)) {
      assert WritesDirectly(c) <==> Clear(c);
      if n < |m.body| { ParkMovesSlot(TakeCharge(c, m, n), m.body[n..]); }
    }
  }

  lemma ParkMovesSlot(c: Conn, rest: string)
    ensures var r := Park(c, rest);
      && r.slot == (if c.slot.events.output then c.slot else SlotStep(c.slot, EnableWriting))
      && r.log.shutdowns == c.log.shutdowns && r.log.closes == c.log.closes
  {
  }

  lemma WriteMovesSlot(c: Conn, w: WriteResult)
    requires LegalWrite(w, |c.backlog|)
    ensures var r := HandleWrite(c, w); var last := c.slot.events.output && 0 < BytesWritten(w) == |c.backlog|;
      && r.slot == (if last then SlotStep(c.slot, DisableWriting) else c.slot)
      && r.log.shutdowns == c.log.shutdowns + (if last && c.state.Disconnecting? then 1 else 0)
      && r.log.closes == c.log.closes
  {
    assert !SlotStep(c.slot, DisableWriting).events.output;
  }
}
