/** TcpConnection.cpp on its objects: a channel in a poller, two buffers, a queue of functors.

    Each method does what the source's member function does, in its order, and is proved to take
    `View()` where the function of the same name in `Connection` takes it. */
module TcpConnections {
  import opened Buffers
  import opened Polling
  import opened Connection

  class TcpConnection {
    const channel: Channel
    const outputBuffer: Buffer
    const inputBuffer: Buffer
    var state: State
    var highWaterMark: nat
    var highWaterSet: bool
    var writeCompleteSet: bool
    var queue: seq<Task>          // what this connection has in its loop's pendingFunctors_
    ghost var log: Log

    ghost predicate Valid()
      reads this, channel.poller, channel.poller.live`index, channel.poller.live`events, outputBuffer, inputBuffer
    {
      && channel in channel.poller.live && channel.poller.Valid()
      && outputBuffer.Valid() && inputBuffer.Valid()
      && outputBuffer != inputBuffer && outputBuffer.buffer != inputBuffer.buffer
    }

    ghost function View(): Conn
      reads this, channel.poller, channel.poller.live`index, channel.poller.live`events
      reads outputBuffer, inputBuffer, outputBuffer.buffer, inputBuffer.buffer
      requires Valid()
    {
      Conn(state, channel.poller.SlotOf(channel), outputBuffer.Contents(), inputBuffer.Contents(),
           highWaterMark, highWaterSet, writeCompleteSet, queue, log)
    }

    /** The other channels of the loop are not touched, and no epoll_ctl fails. */
    twostate predicate OnlyMine()
      reads channel.poller, channel.poller.live`index, channel.poller.live`events
    {
      && channel.poller.live == old(channel.poller.live)
      && channel.poller.failures == old(channel.poller.failures)
      && forall d <- channel.poller.live | d != channel :: channel.poller.SlotOf(d) == old(channel.poller.SlotOf(d))
    }

    twostate predicate NewBuffers()
      reads outputBuffer, inputBuffer
    {
      && (outputBuffer.buffer == old(outputBuffer.buffer) || fresh(outputBuffer.buffer))
      && (inputBuffer.buffer == old(inputBuffer.buffer) || fresh(inputBuffer.buffer))
    }

    constructor (poller: EPollPoller, sockfd: int, mark: nat, onHighWater: bool, onWriteComplete: bool)
      requires poller.Valid() && forall c <- poller.live :: c.fd != sockfd
      modifies poller`live
      ensures Valid() && View() == NewConn(mark, onHighWater, onWriteComplete)
      ensures channel.poller == poller && poller.live == old(poller.live) + {channel} && channel.fd == sockfd
      ensures forall d <- old(poller.live) :: poller.SlotOf(d) == old(poller.SlotOf(d))
      ensures fresh(channel) && fresh(outputBuffer) && fresh(inputBuffer)
    {
      var c := new Channel(poller, sockfd);
      var o := new Buffer();
      var i := new Buffer();
      channel, outputBuffer, inputBuffer := c, o, i;
      state := Connecting;
      highWaterMark, highWaterSet, writeCompleteSet := mark, onHighWater, onWriteComplete;
      queue := [];
      log := Log([], [], 0, 0, false, 0, 0, 0, false, [], []);
    }

    method EnableWriting()
      requires Valid()
      modifies channel`events, channel`index, channel.poller`channels, channel.poller`kernel, channel.poller`failures
      ensures Valid() && OnlyMine()
      ensures View() == old(View()).(slot := SlotStep(old(View()).slot, ChannelOp.EnableWriting))
    { channel.EnableWriting(); }

    method DisableWriting()
      requires Valid()
      modifies channel`events, channel`index, channel.poller`channels, channel.poller`kernel, channel.poller`failures
      ensures Valid() && OnlyMine()
      ensures View() == old(View()).(slot := SlotStep(old(View()).slot, ChannelOp.DisableWriting))
    { channel.DisableWriting(); }

    method DisableAll()
      requires Valid()
      modifies channel`events, channel`index, channel.poller`channels, channel.poller`kernel, channel.poller`failures
      ensures Valid() && OnlyMine()
      ensures View() == old(View()).(slot := SlotStep(old(View()).slot, ChannelOp.DisableAll))
    { channel.DisableAll(); }

    method RemoveChannel()
      requires Valid()
      modifies channel`index, channel.poller`channels, channel.poller`kernel, channel.poller`failures
      ensures Valid() && OnlyMine()
      ensures View() == old(View()).(slot := SlotStep(old(View()).slot, ChannelOp.Remove))
    { channel.Remove(); }

    method AppendOutput(data: string)
      requires Valid()
      modifies outputBuffer, outputBuffer.buffer
      ensures Valid() && NewBuffers() && View() == old(View()).(backlog := old(View()).backlog + data)
    { outputBuffer.Append(data); }

    ghost method Note(m: Message, n: nat)
      requires Valid() && n <= |m.body|
      modifies this`log
      ensures Valid() && View() == TakeCharge(old(View()), m, n)
    {
      log := log.(accepted := log.accepted + [m], taken := log.taken + m.body[..n], due := log.due || m.body != []);
    }

    method QueueWriteComplete()
      requires Valid()
      modifies this`queue, this`log
      ensures Valid() && View() == PostWriteComplete(old(View()))
    {
      if writeCompleteSet {
        queue := queue + [WriteCompleteTask];
        log := log.(completes := log.completes + 1, due := false);
      }
    }

    method QueueHighWater(more: nat)
      requires Valid()
      modifies this`queue, this`log
      ensures Valid() && View() == PostHighWater(old(View()), more)
    {
      var oldLen := outputBuffer.ReadableBytes();
      if oldLen + more >= highWaterMark && oldLen < highWaterMark && highWaterSet {
        queue := queue + [HighWaterTask(oldLen + more)];
        log := log.(highWaters := log.highWaters + 1);
      }
    }

    /** The second half of sendInLoop. */
    method KeepRest(rest: string)
      requires Valid()
      modifies this`queue, this`log, outputBuffer, outputBuffer.buffer
      modifies channel`events, channel`index, channel.poller`channels, channel.poller`kernel, channel.poller`failures
      ensures Valid() && OnlyMine() && NewBuffers() && View() == Park(old(View()), rest)
    {
      QueueHighWater(|rest|);
      AppendOutput(rest);
      WatchForRoom();
    }

    method WatchForRoom()
      requires Valid()
      modifies channel`events, channel`index, channel.poller`channels, channel.poller`kernel, channel.poller`failures
      ensures Valid() && OnlyMine()
      ensures var c := old(View());
        View() == c.(slot := if Writing(c) then c.slot else SlotStep(c.slot, ChannelOp.EnableWriting))
    {
      if !channel.IsWriting() {
        EnableWriting();
      }
    }

    /** The write(2) that sendInLoop makes itself when nothing waits. */
    method WriteNow(m: Message, w: WriteResult) returns (nwrote: nat, faultError: bool)
      requires Valid() && LegalWrite(w, |m.body|)
      modifies this`queue, this`log
      ensures Valid() && nwrote == BytesWritten(w) && faultError == w.Fault?
      ensures var held := TakeCharge(old(View()), m, nwrote);
        View() == if w.Fault? then old(View())
                  else if w.Wrote? && nwrote == |m.body| then PostWriteComplete(held)
                  else held
    {
      nwrote, faultError := BytesWritten(w), w.Fault?;
      if !faultError {
        Note(m, nwrote);
        if w.Wrote? && nwrote == |m.body| {
          QueueWriteComplete();
        }
      }
    }

    /** The first half of sendInLoop: write if nothing waits, and say what is left to keep. */
    method WriteIfIdle(m: Message, w: WriteResult) returns (nwrote: nat, faultError: bool)
      requires Valid() && LegalWrite(w, |m.body|)
      modifies this`queue, this`log
      ensures Valid() && faultError == (WritesDirectly(old(View())) && w.Fault?)
      ensures nwrote == if WritesDirectly(old(View())) then BytesWritten(w) else 0
      ensures var held := TakeCharge(old(View()), m, nwrote);
        View() == if faultError then old(View())
                  else if WritesDirectly(old(View())) && w.Wrote? && nwrote == |m.body| then PostWriteComplete(held)
                  else held
    {
      nwrote, faultError := 0, false;
      var readable := outputBuffer.ReadableBytes();
      if !channel.IsWriting() && readable == 0 {
        nwrote, faultError := WriteNow(m, w);
      } else {
        Note(m, 0);
      }
    }

    method SendInLoop(m: Message, w: WriteResult)
      requires Valid() && LegalWrite(w, |m.body|)
      modifies this`queue, this`log, outputBuffer, outputBuffer.buffer
      modifies channel`events, channel`index, channel.poller`channels, channel.poller`kernel, channel.poller`failures
      ensures Valid() && OnlyMine() && NewBuffers() && View() == Connection.SendInLoop(old(View()), m, w)
    {
      if !state.Disconnected? {
        var nwrote, faultError := WriteIfIdle(m, w);
        var remaining := |m.body| - nwrote;
        if !faultError && remaining > 0 {
          KeepRest(m.body[nwrote..]);
        }
      }
    }

    /** send(): on the loop's own thread at once, otherwise through the queue. */
    method Send(m: Message, onLoopThread: bool, w: WriteResult)
      requires Valid() && LegalWrite(w, |m.body|)
      modifies this`queue, this`log, outputBuffer, outputBuffer.buffer
      modifies channel`events, channel`index, channel.poller`channels, channel.poller`kernel, channel.poller`failures
      ensures Valid() && OnlyMine() && NewBuffers()
      ensures View() == if !old(state).Connected? then old(View())
                        else if onLoopThread then Connection.SendInLoop(old(View()), m, w)
                        else Connection.Post(old(View()), SendTask(m))
    {
      if state.Connected? {
        if onLoopThread {
          SendInLoop(m, w);
        } else {
          queue := queue + [SendTask(m)];
        }
      }
    }

    method ShutdownInLoop()
      requires Valid()
      modifies this`log
      ensures Valid() && View() == Connection.ShutdownInLoop(old(View()))
    {
      if !channel.IsWriting() {
        log := log.(shutdowns := log.shutdowns + 1);
      }
    }

    method Shutdown(onLoopThread: bool)
      requires Valid()
      modifies this`state, this`queue, this`log
      ensures Valid()
      ensures View() == if !old(state).Connected? then old(View())
                        else var d := old(View()).(state := Disconnecting);
                          if onLoopThread then Connection.ShutdownInLoop(d) else Connection.Post(d, ShutdownTask)
    {
      if state.Connected? {
        state := Disconnecting;
        if onLoopThread {
          ShutdownInLoop();
        } else {
          queue := queue + [ShutdownTask];
        }
      }
    }

    method ConnectEstablished()
      requires Valid()
      modifies this`state
      modifies channel`tied, channel`events, channel`index
      modifies channel.poller`channels, channel.poller`kernel, channel.poller`failures
      ensures Valid() && OnlyMine() && channel.tied
      ensures View() == Connection.ConnectEstablished(old(View()))
    {
      state := Connected;
      channel.Tie();
      channel.EnableReading();
    }

    method ConnectDestroyed()
      requires Valid()
      modifies this`state, this`log, channel`events, channel`index
      modifies channel.poller`channels, channel.poller`kernel, channel.poller`failures
      ensures Valid() && OnlyMine() && View() == Connection.ConnectDestroyed(old(View()))
    {
      if state.Connected? {
        state := Disconnected;
        DisableAll();
      }
      RemoveChannel();
      log := log.(destroyed := true);
    }

    /** The destructor, which ends the channel with it; connectDestroyed has removed that. */
    ghost method Release()
      requires Valid() && channel.index.New?
      modifies channel.poller`live
      ensures channel.poller.Valid() && channel.poller.live == old(channel.poller.live) - {channel}
      ensures forall d <- channel.poller.live :: d.fd != channel.fd
      ensures forall d <- channel.poller.live :: channel.poller.SlotOf(d) == old(channel.poller.SlotOf(d))
    { channel.poller.Forget(channel); }

    /** The end of this connection and the start of the next on the same descriptor: the newcomer
        finds no trace of the old one and the other channels of the loop notice neither. */
    method Succeed(mark: nat, onHighWater: bool, onWriteComplete: bool) returns (next: TcpConnection)
      requires Valid()
      modifies this`state, this`log, channel`events, channel`index
      modifies channel.poller`channels, channel.poller`kernel, channel.poller`failures, channel.poller`live
      ensures fresh(next) && fresh(next.channel) && next.Valid()
      ensures next.View() == NewConn(mark, onHighWater, onWriteComplete)
      ensures next.channel.poller == channel.poller && next.channel.fd == channel.fd
      ensures channel.poller.live == old(channel.poller.live) - {channel} + {next.channel}
      ensures channel.poller.failures == old(channel.poller.failures)
      ensures forall d <- old(channel.poller.live) | d != channel ::
                channel.poller.SlotOf(d) == old(channel.poller.SlotOf(d))
    {
      ConnectDestroyed();
      DestroyUnregisters(old(View()));
      assert View().slot.index.New?;
      Release();
      next := new TcpConnection(channel.poller, channel.fd, mark, onHighWater, onWriteComplete);
    }

    method HandleClose()
      requires Valid()
      modifies this`state, this`log, channel`events, channel`index
      modifies channel.poller`channels, channel.poller`kernel, channel.poller`failures
      ensures Valid() && OnlyMine() && View() == Connection.HandleClose(old(View()))
    {
      state := Disconnected;
      DisableAll();
      log := log.(closes := log.closes + 1);
    }

    method HandleRead(kernel: ReadResult)
      requires Valid()
      requires kernel.Data? ==> |kernel.bytes| <= inputBuffer.Shape().Offered()
      modifies this`state, this`log, channel`events, channel`index, inputBuffer, inputBuffer.buffer
      modifies channel.poller`channels, channel.poller`kernel, channel.poller`failures
      ensures Valid() && OnlyMine() && NewBuffers() && View() == Connection.HandleRead(old(View()), kernel)
    {
      var n, savedErrno := inputBuffer.ReadFd(kernel);
      if n > 0 {
        LogReceived(kernel.bytes);
      } else if n == 0 {
        HandleClose();
      }
    }

    ghost method LogReceived(bytes: string)
      requires Valid()
      modifies this`log
      ensures Valid() && View() == old(View()).(log := old(View()).log.(received := old(View()).log.received + bytes))
    { log := log.(received := log.received + bytes); }

    /** What the message callback may do with the buffer it is given. */
    method Retrieve(n: nat)
      requires Valid()
      modifies this`log, inputBuffer`readerIndex, inputBuffer`writerIndex
      ensures Valid() && View() == Consume(old(View()), n)
    {
      log := log.(consumed := log.consumed + Dropped(inputBuffer.Contents(), n));
      inputBuffer.Retrieve(n);
    }

    /** The kernel took these bytes, from the front of the backlog. */
    method TookBytes(taken: string)
      requires Valid() && taken != [] && taken + Drop(outputBuffer.Contents(), |taken|) == outputBuffer.Contents()
      modifies this`log, outputBuffer`readerIndex, outputBuffer`writerIndex
      ensures Valid() && |taken| <= |old(View()).backlog| && View() == Drain(old(View()), |taken|)
    {
      ghost var was := View();
      IsFront(was.backlog, taken);
      var oldLen := outputBuffer.ReadableBytes();
      outputBuffer.Retrieve(|taken|);
      LogTaken(was, taken, oldLen);
    }

    /** What `Drain` records, once the buffer has let the bytes go. */
    ghost method LogTaken(was: Conn, taken: string, oldLen: nat)
      requires Valid() && |taken| <= |was.backlog| && taken == was.backlog[..|taken|] && oldLen == |was.backlog|
      requires View() == was.(backlog := Drop(was.backlog, |taken|))
      modifies this`log
      ensures Valid() && View() == Drain(was, |taken|)
    {
      var falls := if oldLen >= highWaterMark && |outputBuffer.Contents()| < highWaterMark then 1 else 0;
      log := log.(taken := log.taken + taken, falls := log.falls + falls);
    }

    lemma IsFront(backlog: string, taken: string)
      requires taken + Drop(backlog, |taken|) == backlog
      ensures |taken| <= |backlog| && taken == backlog[..|taken|]
    {
    }

    method FinishWriting()
      requires Valid()
      modifies this`queue, this`log
      modifies channel`events, channel`index, channel.poller`channels, channel.poller`kernel, channel.poller`failures
      ensures Valid() && OnlyMine() && View() == Drained(old(View()))
    {
      DisableWriting();
      AnswerIdle();
    }

    method AnswerIdle()
      requires Valid()
      modifies this`queue, this`log
      ensures Valid()
      ensures var quiet := PostWriteComplete(old(View()));
        View() == if quiet.state.Disconnecting? then Connection.ShutdownInLoop(quiet) else quiet
    {
      QueueWriteComplete();
      if state.Disconnecting? {
        ShutdownInLoop();
      }
    }

    method WriteBacklog(kernel: WriteResult) returns (n: int)
      requires Valid() && LegalWrite(kernel, |outputBuffer.Contents()|)
      modifies this`log, outputBuffer`readerIndex, outputBuffer`writerIndex
      ensures Valid() && (n > 0 <==> BytesWritten(kernel) > 0)
      ensures View() == if n > 0 then Drain(old(View()), BytesWritten(kernel)) else old(View())
    {
      var taken;
      n, taken := outputBuffer.WriteFd(kernel);
      if n > 0 {
        TookBytes(taken);
      }
    }

    method FinishIfEmpty()
      requires Valid()
      modifies this`queue, this`log
      modifies channel`events, channel`index, channel.poller`channels, channel.poller`kernel, channel.poller`failures
      ensures Valid() && OnlyMine()
      ensures View() == if old(View()).backlog == [] then Drained(old(View())) else old(View())
    {
      var readable := outputBuffer.ReadableBytes();
      if readable == 0 {
        FinishWriting();
      }
    }

    method HandleWrite(kernel: WriteResult)
      requires Valid() && LegalWrite(kernel, |outputBuffer.Contents()|)
      modifies this`queue, this`log, outputBuffer`readerIndex, outputBuffer`writerIndex
      modifies channel`events, channel`index, channel.poller`channels, channel.poller`kernel, channel.poller`failures
      ensures Valid() && OnlyMine() && View() == Connection.HandleWrite(old(View()), kernel)
    {
      if channel.IsWriting() {
        var n := WriteBacklog(kernel);
        if n > 0 {
          FinishIfEmpty();
        }
      }
    }

    /** The callbacks for hang-up and for reading. */
    method HandleInbound(revents: Mask, r: ReadResult)
      requires Valid()
      requires r.Data? ==> |r.bytes| <= inputBuffer.Shape().Offered()
      modifies this`state, this`log, channel`events, channel`index, inputBuffer, inputBuffer.buffer
      modifies channel.poller`channels, channel.poller`kernel, channel.poller`failures
      ensures Valid() && OnlyMine() && NewBuffers() && View() == Connection.HandleInbound(old(View()), revents, r)
    {
      if revents.hangUp && !revents.input {
        HandleClose();
      }
      if Has(revents, READ_EVENT) {
        HandleRead(r);
      }
    }

    /** Channel::handleEvent with this connection's callbacks. `alive`: the tie can be locked. */
    method HandleEvent(alive: bool, r: ReadResult, w: WriteResult)
      requires Valid() && LegalWrite(w, |outputBuffer.Contents()|)
      requires r.Data? ==> |r.bytes| <= inputBuffer.Shape().Offered()
      modifies this`state, this`queue, this`log, inputBuffer, inputBuffer.buffer
      modifies outputBuffer`readerIndex, outputBuffer`writerIndex
      modifies channel`events, channel`index, channel.poller`channels, channel.poller`kernel, channel.poller`failures
      ensures Valid() && OnlyMine() && NewBuffers()
      ensures View() == if channel.tied && !alive then old(View())
                        else Connection.HandleEvent(old(View()), channel.revents, r, w)
    {
      if !channel.tied || alive {
        HandleInbound(channel.revents, r);
        InboundCloses(old(View()), channel.revents, r);
        if channel.revents.output {
          HandleWrite(w);
        }
      }
    }
  }
}
