/** Channels and their registration: Channel.h, Channel.cpp, Poller.cpp and EPollPoller.cpp.

    `Slot` is what one file descriptor looks like from three sides: the channel's own index and
    interest mask, the poller's map, and the kernel's interest list. The classes change those
    three in place; each method promises the slot function that describes it and that no other
    channel's slot moves. */
module Polling {

  datatype Option<+T> = None | Some(value: T)

  // ---------------------------------------------------------------- event masks

  /** The five flags of an event mask that the library sets or tests:
      EPOLLIN 0x001, EPOLLPRI 0x002, EPOLLOUT 0x004, EPOLLERR 0x008, EPOLLHUP 0x010. */
  datatype Mask = Mask(input: bool, urgent: bool, output: bool, error: bool, hangUp: bool)

  const NONE_EVENT := Mask(false, false, false, false, false)
  const READ_EVENT := Mask(true, true, false, false, false)     // EPOLLIN | EPOLLPRI
  const WRITE_EVENT := Mask(false, false, true, false, false)   // EPOLLOUT

  function Or(m: Mask, n: Mask): Mask {
    Mask(m.input || n.input, m.urgent || n.urgent, m.output || n.output, m.error || n.error, m.hangUp || n.hangUp)
  }

  function And(m: Mask, n: Mask): Mask {
    Mask(m.input && n.input, m.urgent && n.urgent, m.output && n.output, m.error && n.error, m.hangUp && n.hangUp)
  }

  function Not(m: Mask): Mask { Mask(!m.input, !m.urgent, !m.output, !m.error, !m.hangUp) }

  predicate Has(m: Mask, bits: Mask) { And(m, bits) != NONE_EVENT }

  // ---------------------------------------------------------------- one file descriptor

  /** Channel::index_: kNew (-1), kAdded (1), kDeleted (2). */
  datatype Index = New | Added | Deleted

  datatype CtlOp = CtlAdd | CtlMod | CtlDel

  datatype Slot = Slot(index: Index, events: Mask, inMap: bool, kernel: Option<Mask>)

  /** epoll_ctl on one descriptor: ADD wants it absent, MOD and DEL want it present. */
  predicate CtlFails(kernel: Option<Mask>, op: CtlOp) { if op.CtlAdd? then kernel.Some? else kernel.None? }

  function Ctl(kernel: Option<Mask>, op: CtlOp, events: Mask): Option<Mask> {
    if CtlFails(kernel, op) then kernel else if op.CtlDel? then None else Some(events)
  }

  /** The operation updateChannel asks of the kernel. */
  function UpdateOp(s: Slot): CtlOp {
    if !s.index.Added? then CtlAdd else if s.events == NONE_EVENT then CtlDel else CtlMod
  }

  /** EPollPoller::updateChannel. */
  function UpdateSlot(s: Slot): Slot {
    Slot(if UpdateOp(s).CtlDel? then Deleted else Added, s.events, s.inMap || s.index.New?,
         Ctl(s.kernel, UpdateOp(s), s.events))
  }

  /** EPollPoller::removeChannel. */
  function RemoveSlot(s: Slot): Slot {
    Slot(New, s.events, false, if s.index.Added? then Ctl(s.kernel, CtlDel, s.events) else s.kernel)
  }

  /** The three sides tell one story, the interest mask aside. */
  predicate AgreeUpToMask(s: Slot) { (s.index.Added? <==> s.kernel.Some?) && (!s.index.New? <==> s.inMap) }

  /** They tell one story. */
  predicate Agree(s: Slot) {
    && (s.index.Added? <==> s.kernel == Some(s.events))
    && (s.index.Added? <==> s.kernel.Some?)
    && (!s.index.New? <==> s.inMap)
  }

  /** A channel's calls on its poller: a new mask followed by an update, or a removal. */
  datatype ChannelOp = EnableReading | DisableReading | EnableWriting | DisableWriting | DisableAll | Remove

  function NewMask(m: Mask, op: ChannelOp): Mask {
    match op
    case EnableReading => Or(m, READ_EVENT)
    case DisableReading => And(m, Not(READ_EVENT))
    case EnableWriting => Or(m, WRITE_EVENT)
    case DisableWriting => And(m, Not(WRITE_EVENT))
    case DisableAll => NONE_EVENT
    case Remove => m
  }

  function SlotStep(s: Slot, op: ChannelOp): Slot {
    if op.Remove? then RemoveSlot(s) else UpdateSlot(s.(events := NewMask(s.events, op)))
  }

  /** Whether the step reaches the error branch after epoll_ctl. */
  predicate StepFails(s: Slot, op: ChannelOp) {
    if op.Remove? then s.index.Added? && CtlFails(s.kernel, CtlDel)
    else CtlFails(s.kernel, UpdateOp(s.(events := NewMask(s.events, op))))
  }

  const FRESH_SLOT: Slot := Slot(New, NONE_EVENT, false, None)

  function RunSlot(s: Slot, ops: seq<ChannelOp>): Slot {
    if ops == [] then s else SlotStep(RunSlot(s, ops[..|ops| - 1]), ops[|ops| - 1])
  }

  /** After any sequence of calls the map, the index and the kernel agree, and the next call, which
      ever it is, issues an epoll_ctl that cannot fail. */
  lemma {:induction false} RegistrationAgrees(ops: seq<ChannelOp>)
    ensures Agree(RunSlot(FRESH_SLOT, ops))
    ensures forall op :: !StepFails(RunSlot(FRESH_SLOT, ops), op)
  {
    if ops == [] {
    } else {
      RegistrationAgrees(ops[..|ops| - 1]);
    }
  }

  /** A registered channel can have an empty mask: the update that follows a deletion (or comes
      first) adds whatever the mask is. This is exactly when. */
  lemma EmptyMaskRegistered(ops: seq<ChannelOp>, op: ChannelOp)
    ensures var s := RunSlot(FRESH_SLOT, ops); var r := RunSlot(FRESH_SLOT, ops + [op]);
      (r.index.Added? && r.events == NONE_EVENT)
      <==> (!op.Remove? && !s.index.Added? && NewMask(s.events, op) == NONE_EVENT)
  {
    assert (ops + [op])[..|ops|] == ops;
  }

  /** So calling disableAll twice puts the descriptor back into the kernel's list. */
  lemma DisableAllTwiceRegisters()
    ensures var s := RunSlot(FRESH_SLOT, [EnableReading, DisableAll, DisableAll]);
      s == Slot(Added, NONE_EVENT, true, Some(NONE_EVENT))
  {
    var a := [EnableReading, DisableAll, DisableAll];
    assert a[..2] == [EnableReading, DisableAll] && a[..2][..1] == [EnableReading] && a[..2][..1][..0] == [];
    var reading := READ_EVENT;
    assert RunSlot(FRESH_SLOT, a[..2][..1]) == Slot(Added, reading, true, Some(reading));
    assert RunSlot(FRESH_SLOT, a[..2]) == Slot(Deleted, NONE_EVENT, true, None);
  }

  /** What a call leaves in the interest mask, flag by flag: EPOLLIN and EPOLLPRI go together,
      EPOLLOUT on its own, and no call but disableAll touches a flag it is not named for. */
  lemma InterestBits(s: Slot, op: ChannelOp)
    ensures var m, r := s.events, SlotStep(s, op).events;
      && (r.input <==> op.EnableReading? || (m.input && !op.DisableReading? && !op.DisableAll?))
      && (r.urgent <==> op.EnableReading? || (m.urgent && !op.DisableReading? && !op.DisableAll?))
      && (r.output <==> op.EnableWriting? || (m.output && !op.DisableWriting? && !op.DisableAll?))
      && (r.error <==> m.error && !op.DisableAll?)
      && (r.hangUp <==> m.hangUp && !op.DisableAll?)
  {
  }

  /** Where a call leaves a registration that was in order, and the one epoll_ctl it makes: a removal
      takes the descriptor out of the map and out of the kernel's list if it was there; an emptied
      mask takes a watched descriptor out of the list and leaves it in the map; any other call leaves
      it watched, in the map, with the new mask. */
  lemma RegistrationAfter(s: Slot, op: ChannelOp)
    requires Agree(s)
    ensures var r := SlotStep(s, op);
      var empty := !r.events.input && !r.events.urgent && !r.events.output && !r.events.error && !r.events.hangUp;
      if op.Remove? then r == Slot(New, s.events, false, None)
      else if s.kernel.Some? && empty then r.index == Deleted && r.inMap && r.kernel == None
      else r.index == Added && r.inMap && r.kernel == Some(r.events)
  {
    var r := SlotStep(s, op);
    var empty := !r.events.input && !r.events.urgent && !r.events.output && !r.events.error && !r.events.hangUp;
    assert empty <==> r.events == NONE_EVENT;
  }

  lemma UpdatedAgrees(s: Slot)
    requires AgreeUpToMask(s)
    ensures Agree(UpdateSlot(s)) && !CtlFails(s.kernel, UpdateOp(s))
  {
  }

  // ---------------------------------------------------------------- dispatch

  datatype Callback = CloseCallback | ErrorCallback | ReadCallback | WriteCallback

  /** Channel::handleEventWithGuard: the callbacks an event mask leads to, in order. */
  function Callbacks(revents: Mask): seq<Callback> {
    Inbound(revents) + If(revents.output, WriteCallback)
  }

  /** Those that come before the write. */
  function Inbound(revents: Mask): seq<Callback> {
    If(revents.hangUp && !revents.input, CloseCallback)
    + If(revents.error, ErrorCallback)
    + If(Has(revents, READ_EVENT), ReadCallback)
  }

  function If(due: bool, callback: Callback): seq<Callback> { if due then [callback] else [] }

  /** The flags that call for a callback. */
  predicate CalledFor(revents: Mask, cb: Callback) {
    match cb
    case CloseCallback => revents.hangUp && !revents.input
    case ErrorCallback => revents.error
    case ReadCallback => revents.input || revents.urgent
    case WriteCallback => revents.output
  }

  function Turn(cb: Callback): nat {
    match cb case CloseCallback => 0 case ErrorCallback => 1 case ReadCallback => 2 case WriteCallback => 3
  }

  /** In their turn, and all of them before `end`. */
  predicate InTurn(cbs: seq<Callback>, end: nat) {
    && (forall i :: 0 <= i < |cbs| ==> Turn(cbs[i]) < end)
    && (forall i, j :: 0 <= i < j < |cbs| ==> Turn(cbs[i]) < Turn(cbs[j]))
  }

  lemma Joins(cbs: seq<Callback>, due: bool, cb: Callback)
    requires InTurn(cbs, Turn(cb))
    ensures InTurn(cbs + If(due, cb), Turn(cb) + 1)
  {
  }

  lemma Counts(a: seq<Callback>, due: bool, cb: Callback, x: Callback)
    ensures multiset(a + If(due, cb))[x] == multiset(a)[x] + if due && x == cb then 1 else 0
  {
  }

  /** A dispatch makes exactly the callbacks its mask calls for, each once. */
  lemma CallbacksExactly(revents: Mask, cb: Callback)
    ensures multiset(Callbacks(revents))[cb] == if CalledFor(revents, cb) then 1 else 0
  {
    var c := If(revents.hangUp && !revents.input, CloseCallback);
    var e := c + If(revents.error, ErrorCallback);
    assert [] + c == c;
    Counts([], revents.hangUp && !revents.input, CloseCallback, cb);
    Counts(c, revents.error, ErrorCallback, cb);
    Counts(e, Has(revents, READ_EVENT), ReadCallback, cb);
    Counts(Inbound(revents), revents.output, WriteCallback, cb);
  }

  /** And the close comes before the error, the error before the read and the read before the write. */
  lemma CallbacksInTurn(revents: Mask, i: nat, j: nat)
    requires i < j < |Callbacks(revents)|
    ensures Turn(Callbacks(revents)[i]) < Turn(Callbacks(revents)[j])
  {
    InboundInTurn(revents);
    Joins(Inbound(revents), revents.output, WriteCallback);
    assert InTurn(Callbacks(revents), 4);
  }

  lemma InboundInTurn(revents: Mask)
    ensures InTurn(Inbound(revents), 3)
  {
    var c := If(revents.hangUp && !revents.input, CloseCallback);
    Joins(c, revents.error, ErrorCallback);
    Joins(c + If(revents.error, ErrorCallback), Has(revents, READ_EVENT), ReadCallback);
  }

  /** How many times one dispatch closes the connection, a read of zero bytes being a close too. */
  function CloseCount(callbacks: seq<Callback>, readIsEof: bool): nat {
    if callbacks == [] then 0
    else (if callbacks[0].CloseCallback? || (callbacks[0].ReadCallback? && readIsEof) then 1 else 0)
         + CloseCount(callbacks[1..], readIsEof)
  }

  lemma {:induction false} CloseCountSplits(a: seq<Callback>, b: seq<Callback>, readIsEof: bool)
    ensures CloseCount(a + b, readIsEof) == CloseCount(a, readIsEof) + CloseCount(b, readIsEof)
  {
    if a == [] {
      assert a + b == b;
    } else {
      assert (a + b)[1..] == a[1..] + b;
      CloseCountSplits(a[1..], b, readIsEof);
    }
  }

  lemma CloseCountOf(revents: Mask, readIsEof: bool)
    ensures CloseCount(Callbacks(revents), readIsEof)
         == (if revents.hangUp && !revents.input then 1 else 0)
            + (if Has(revents, READ_EVENT) && readIsEof then 1 else 0)
  {
    var c, e := If(revents.hangUp && !revents.input, CloseCallback), If(revents.error, ErrorCallback);
    var r, w := If(Has(revents, READ_EVENT), ReadCallback), If(revents.output, WriteCallback);
    CloseCountSplits(c + e + r, w, readIsEof);
    CloseCountSplits(c + e, r, readIsEof);
    CloseCountSplits(c, e, readIsEof);
  }

  /** One dispatch closes at most twice, and twice exactly when the kernel reports a hang-up with
      urgent data but no ordinary data and the read then finds the end of the stream. */
  lemma ClosedTwice(revents: Mask, readIsEof: bool)
    ensures CloseCount(Callbacks(revents), readIsEof) <= 2
    ensures CloseCount(Callbacks(revents), readIsEof) == 2
      <==> revents.hangUp && revents.urgent && !revents.input && readIsEof
  {
    CloseCountOf(revents, readIsEof);
  }

  // ---------------------------------------------------------------- the classes

  /** An epoll_event: the mask and the channel pointer stored with it. */
  datatype EpollEvent = EpollEvent(events: Mask, ptr: Channel?)

  datatype PollResult = Ready(events: seq<EpollEvent>) | PollFailed(errno: int)

  const INIT_EVENT_LIST_SIZE: nat := 16

  class Channel {
    const poller: EPollPoller      // reached through the owner loop
    const fd: int
    var events: Mask
    var revents: Mask
    var index: Index
    var tied: bool

    constructor (poller: EPollPoller, fd: int)
      requires poller.Valid() && forall c <- poller.live :: c.fd != fd
      modifies poller`live
      ensures poller.Valid() && poller.live == old(poller.live) + {this} && this !in old(poller.live)
      ensures this.poller == poller && this.fd == fd && poller.SlotOf(this) == FRESH_SLOT && !tied
      ensures forall c <- old(poller.live) :: poller.SlotOf(c) == old(poller.SlotOf(c))
    {
      this.poller, this.fd := poller, fd;
      events, revents, index, tied := NONE_EVENT, NONE_EVENT, New, false;
      new;
      poller.live := poller.live + {this};
    }

    predicate IsWriting()
      reads this
    { Has(events, WRITE_EVENT) }

    predicate IsNoneEvent()
      reads this
    { events == NONE_EVENT }

    method Tie()
      modifies this`tied
      ensures tied
    { tied := true; }

    method SetMask(mask: Mask, ghost op: ChannelOp)
      requires poller.Valid() && this in poller.live
      requires !op.Remove? && mask == NewMask(events, op)
      modifies this`events, this`index, poller`channels, poller`kernel, poller`failures
      ensures poller.Valid() && poller.failures == old(poller.failures)
      ensures poller.SlotOf(this) == SlotStep(old(poller.SlotOf(this)), op)
      ensures forall c <- poller.live | c != this :: poller.SlotOf(c) == old(poller.SlotOf(c))
    {
      events := mask;
      poller.UpdateChannel(this);
    }

    method EnableReading()
      requires poller.Valid() && this in poller.live
      modifies this`events, this`index, poller`channels, poller`kernel, poller`failures
      ensures poller.Valid() && poller.failures == old(poller.failures)
      ensures poller.SlotOf(this) == SlotStep(old(poller.SlotOf(this)), ChannelOp.EnableReading)
      ensures forall c <- poller.live | c != this :: poller.SlotOf(c) == old(poller.SlotOf(c))
    { SetMask(Or(events, READ_EVENT), ChannelOp.EnableReading); }

    method DisableReading()
      requires poller.Valid() && this in poller.live
      modifies this`events, this`index, poller`channels, poller`kernel, poller`failures
      ensures poller.Valid() && poller.failures == old(poller.failures)
      ensures poller.SlotOf(this) == SlotStep(old(poller.SlotOf(this)), ChannelOp.DisableReading)
      ensures forall c <- poller.live | c != this :: poller.SlotOf(c) == old(poller.SlotOf(c))
    { SetMask(And(events, Not(READ_EVENT)), ChannelOp.DisableReading); }

    method EnableWriting()
      requires poller.Valid() && this in poller.live
      modifies this`events, this`index, poller`channels, poller`kernel, poller`failures
      ensures poller.Valid() && poller.failures == old(poller.failures)
      ensures poller.SlotOf(this) == SlotStep(old(poller.SlotOf(this)), ChannelOp.EnableWriting)
      ensures forall c <- poller.live | c != this :: poller.SlotOf(c) == old(poller.SlotOf(c))
    { SetMask(Or(events, WRITE_EVENT), ChannelOp.EnableWriting); }

    method DisableWriting()
      requires poller.Valid() && this in poller.live
      modifies this`events, this`index, poller`channels, poller`kernel, poller`failures
      ensures poller.Valid() && poller.failures == old(poller.failures)
      ensures poller.SlotOf(this) == SlotStep(old(poller.SlotOf(this)), ChannelOp.DisableWriting)
      ensures forall c <- poller.live | c != this :: poller.SlotOf(c) == old(poller.SlotOf(c))
    { SetMask(And(events, Not(WRITE_EVENT)), ChannelOp.DisableWriting); }

    method DisableAll()
      requires poller.Valid() && this in poller.live
      modifies this`events, this`index, poller`channels, poller`kernel, poller`failures
      ensures poller.Valid() && poller.failures == old(poller.failures)
      ensures poller.SlotOf(this) == SlotStep(old(poller.SlotOf(this)), ChannelOp.DisableAll)
      ensures forall c <- poller.live | c != this :: poller.SlotOf(c) == old(poller.SlotOf(c))
    { SetMask(NONE_EVENT, ChannelOp.DisableAll); }

    method Remove()
      requires poller.Valid() && this in poller.live
      modifies this`index, poller`channels, poller`kernel, poller`failures
      ensures poller.Valid() && poller.failures == old(poller.failures)
      ensures poller.SlotOf(this) == SlotStep(old(poller.SlotOf(this)), ChannelOp.Remove)
      ensures forall c <- poller.live | c != this :: poller.SlotOf(c) == old(poller.SlotOf(c))
    { poller.RemoveChannel(this); }
  }

  class EPollPoller {
    var channels: map<int, Channel>
    var kernel: map<int, EpollEvent>       // the interest list behind epollfd_
    var events: array<EpollEvent>
    var failures: nat                      // epoll_ctl calls that took the error branch
    ghost var live: set<Channel>           // the channels made for this poller's loop

    /** Live channels have distinct descriptors, and only live channels are ever registered. */
    ghost predicate Structural()
      reads this
    {
      && events.Length > 0
      && (forall c <- live :: c.poller == this)
      && (forall c <- live, d <- live :: c.fd == d.fd ==> c == d)
      && (forall fd <- channels :: channels[fd] in live && channels[fd].fd == fd)
      && (forall fd <- kernel :: kernel[fd].ptr != null && kernel[fd].ptr in live && kernel[fd].ptr.fd == fd)
    }

    ghost function SlotOf(c: Channel): Slot
      reads this`channels, this`kernel, c`index, c`events
    {
      Slot(c.index, c.events, HasChannel(c), if c.fd in kernel then Some(kernel[c.fd].events) else None)
    }

    ghost predicate Valid()
      reads this, live`index, live`events
    { Structural() && forall c <- live :: Agree(SlotOf(c)) }

    constructor ()
      ensures Valid() && live == {} && failures == 0 && events.Length == INIT_EVENT_LIST_SIZE && fresh(events)
    {
      channels, kernel, failures, live := map[], map[], 0, {};
      events := new EpollEvent[INIT_EVENT_LIST_SIZE](_ => EpollEvent(NONE_EVENT, null));
    }

    /** Poller::hasChannel. */
    predicate HasChannel(c: Channel)
      reads this`channels
    { c.fd in channels && channels[c.fd] == c }

    method Update(op: CtlOp, c: Channel)
      requires Structural() && c in live
      modifies this`kernel, this`failures
      ensures Structural()
      ensures SlotOf(c) == old(SlotOf(c)).(kernel := Ctl(old(SlotOf(c)).kernel, op, c.events))
      ensures failures == old(failures) + if CtlFails(old(SlotOf(c)).kernel, op) then 1 else 0
      ensures forall d <- live | d != c :: SlotOf(d) == old(SlotOf(d))
    {
      var present := c.fd in kernel;
      if op.CtlAdd? == present {
        failures := failures + 1;
      } else if op.CtlDel? {
        kernel := kernel - {c.fd};
      } else {
        kernel := kernel[c.fd := EpollEvent(c.events, c)];
      }
    }

    /** The registry query and the channel's own index give the same answer. */
    lemma HasChannelMatchesIndex(c: Channel)
      requires Valid() && c in live
      ensures HasChannel(c) <==> !c.index.New?
      ensures c.index.Added? <==> c.fd in kernel && kernel[c.fd].ptr == c && kernel[c.fd].events == c.events
    {
      assert Agree(SlotOf(c));
    }

    method SetIndex(c: Channel, index: Index)
      requires Structural() && c in live
      modifies c`index
      ensures Structural() && SlotOf(c) == old(SlotOf(c)).(index := index)
      ensures forall d <- live | d != c :: SlotOf(d) == old(SlotOf(d))
    { c.index := index; }

    /** The first half of updateChannel for a channel the kernel does not watch. */
    method Enter(c: Channel)
      requires Structural() && c in live && !c.index.Added? && AgreeUpToMask(SlotOf(c))
      modifies c`index, this`channels
      ensures Structural() && SlotOf(c) == old(SlotOf(c)).(index := Added, inMap := true)
      ensures forall d <- live | d != c :: SlotOf(d) == old(SlotOf(d))
    {
      if c.index.New? {
        channels := channels[c.fd := c];
      }
      c.index := Added;
    }

    /** Called with the channel's mask already changed, so only that may be out of step. */
    method UpdateChannel(c: Channel)
      requires Structural() && c in live && AgreeUpToMask(SlotOf(c))
      requires forall d <- live | d != c :: Agree(SlotOf(d))
      modifies c`index, this`channels, this`kernel, this`failures
      ensures Valid() && SlotOf(c) == UpdateSlot(old(SlotOf(c)))
      ensures failures == old(failures)
      ensures forall d <- live | d != c :: SlotOf(d) == old(SlotOf(d))
    {
      ghost var was := SlotOf(c);
      if c.index.New? || c.index.Deleted? {
        Enter(c);
        Update(CtlAdd, c);
      } else if c.IsNoneEvent() {
        Update(CtlDel, c);
        SetIndex(c, Deleted);
      } else {
        Update(CtlMod, c);
      }
      UpdatedAgrees(was);
    }

    method Erase(c: Channel)
      requires Structural() && c in live
      modifies this`channels
      ensures Structural() && SlotOf(c) == old(SlotOf(c)).(inMap := false)
      ensures forall d <- live | d != c :: SlotOf(d) == old(SlotOf(d))
    { channels := channels - {c.fd}; }

    method RemoveChannel(c: Channel)
      requires Valid() && c in live
      modifies c`index, this`channels, this`kernel, this`failures
      ensures Valid() && SlotOf(c) == RemoveSlot(old(SlotOf(c)))
      ensures failures == old(failures)
      ensures forall d <- live | d != c :: SlotOf(d) == old(SlotOf(d))
    {
      Erase(c);
      if c.index.Added? {
        Update(CtlDel, c);
      }
      SetIndex(c, New);
    }

    /** A channel is destroyed, and its descriptor closed, only after it was removed: then nothing in
        the map or in the kernel's list points to it, and a new channel may have its descriptor. */
    ghost method Forget(c: Channel)
      requires Valid() && c in live && c.index.New?
      modifies this`live
      ensures Valid() && live == old(live) - {c} && forall d <- live :: d.fd != c.fd
      ensures c.fd !in channels && c.fd !in kernel
      ensures forall d <- live :: SlotOf(d) == old(SlotOf(d))
    {
      assert Agree(SlotOf(c));
      live := live - {c};
    }

    /** What epoll_wait may report: registered descriptors, each once, no more than asked for. */
    ghost predicate LegalReport(report: seq<EpollEvent>)
      reads this
    {
      && |report| <= events.Length
      && (forall i :: 0 <= i < |report| ==>
            report[i].ptr != null && report[i].ptr in live && report[i].ptr.fd in kernel)
      && (forall i, j :: 0 <= i < j < |report| ==> report[i].ptr != report[j].ptr)
    }

    /** EPollPoller::fillActiveChannels: every reported channel learns its events, in report order. */
    method FillActiveChannels(numEvents: nat, ghost report: seq<EpollEvent>) returns (active: seq<Channel>)
      requires Valid() && numEvents <= events.Length && LegalReport(report)
      requires events[..numEvents] == report
      modifies live`revents
      ensures Valid() && Lists(active, report) && Registered(active)
      ensures forall i :: 0 <= i < |active| ==> active[i].revents == report[i].events
      ensures forall c <- live | c !in active :: c.revents == old(c.revents)
    {
      active := [];
      for i := 0 to numEvents
        invariant Lists(active, report[..i])
        invariant forall k :: 0 <= k < i ==> active[k].revents == report[k].events
        invariant forall c <- live | c !in active :: c.revents == old(c.revents)
      {
        assert events[i] == events[..numEvents][i] == report[i];
        var c: Channel := events[i].ptr;
        assert forall k :: 0 <= k < i ==> active[k] != c;
        c.revents := events[i].events;
        active := active + [c];
      }
      assert report[..numEvents] == report;
      ReportIsRegistered(report, active);
    }

    /** The channels of a report, in its order. */
    ghost predicate Lists(active: seq<Channel>, report: seq<EpollEvent>) {
      |active| == |report| && forall i :: 0 <= i < |report| ==> active[i] == report[i].ptr
    }

    /** Channels the poller knows and the kernel watches, each listed once. */
    ghost predicate Registered(active: seq<Channel>)
      reads this`channels, this`live, live`index
    {
      && (forall i :: 0 <= i < |active| ==> active[i] in live && HasChannel(active[i]) && active[i].index.Added?)
      && (forall i, j :: 0 <= i < j < |active| ==> active[i] != active[j])
    }

    lemma ReportIsRegistered(report: seq<EpollEvent>, active: seq<Channel>)
      requires Valid() && LegalReport(report) && Lists(active, report)
      ensures Registered(active)
    {
      forall i | 0 <= i < |active|
        ensures active[i] in live && HasChannel(active[i]) && active[i].index.Added?
      {
        assert Agree(SlotOf(active[i]));
      }
    }

    /** Every channel handed to the dispatch loop is registered, once, with the events reported for
        it; the event list doubles exactly when the report filled it. */
    method Poll(result: PollResult) returns (active: seq<Channel>)
      requires Valid() && (result.Ready? ==> LegalReport(result.events))
      modifies this`events, events, live`revents
      ensures Valid() && (events == old(events) || fresh(events))
      ensures result.PollFailed? ==> active == []
      ensures result.Ready? ==> Lists(active, result.events)
      ensures result.Ready? ==> forall i :: 0 <= i < |active| ==> active[i].revents == result.events[i].events
      ensures Registered(active)
      ensures events.Length == if result.Ready? && |result.events| == old(events.Length)
                               then 2 * old(events.Length) else old(events.Length)
      ensures forall c <- live :: SlotOf(c) == old(SlotOf(c)) && (c !in active ==> c.revents == old(c.revents))
    {
      active := [];
      if result.Ready? && |result.events| > 0 {
        var numEvents := |result.events|;
        EpollWait(result.events);
        assert events[..numEvents] == result.events;
        active := FillActiveChannels(numEvents, result.events);
        if numEvents == events.Length {
          DoubleEventList();
        }
      }
    }

    method DoubleEventList()
      requires Valid()
      modifies this`events
      ensures Valid() && fresh(events) && events.Length == 2 * old(events.Length)
    { events := new EpollEvent[2 * events.Length](_ => EpollEvent(NONE_EVENT, null)); }

    /** The kernel's part of epoll_wait: it fills the front of the event array. */
    method EpollWait(report: seq<EpollEvent>)
      requires |report| <= events.Length
      modifies events
      ensures events[..|report|] == report
    {
      for i := 0 to |report|
        invariant events[..i] == report[..i]
      {
        events[i] := report[i];
      }
    }
  }
}
