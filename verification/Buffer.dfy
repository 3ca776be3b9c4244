/** The in-place byte queue: Buffer.h and Buffer.cpp.

    `Layout` is the arithmetic of the three indices, `Apply` one call on them. The class does the
    same work on an array; its methods promise the layout that `Apply` gives and, separately,
    what happens to the readable bytes. */
module Buffers {

  const CHEAP_PREPEND: nat := 0
  const INITIAL_SIZE: nat := 0
  const EXTRA_BUF: nat := 65536

  function Max(x: nat, y: nat): nat { if x < y then y else x }

  // ---------------------------------------------------------------- index arithmetic

  datatype Layout = Layout(size: nat, reader: nat, writer: nat) {
    predicate Valid() { CHEAP_PREPEND <= reader <= writer <= size }

    function Readable(): nat
      requires Valid()
    { writer - reader }

    function Writeable(): nat
      requires Valid()
    { size - writer }

    function Prependable(): nat { reader }

    /** Bytes offered to readv: the spare space, plus the stack buffer when the space is short. */
    function Offered(): nat
      requires Valid()
    { if Writeable() < EXTRA_BUF then Writeable() + EXTRA_BUF else Writeable() }
  }

  function Fresh(initialSize: nat): Layout {
    Layout(CHEAP_PREPEND + initialSize, CHEAP_PREPEND, CHEAP_PREPEND)
  }

  function WithSpace(l: Layout, len: nat): Layout
    requires l.Valid() && l.Writeable() < len
  {
    if l.Writeable() + l.Prependable() < len + CHEAP_PREPEND then
      l.(size := l.writer + len)
    else
      Layout(l.size, CHEAP_PREPEND, CHEAP_PREPEND + l.Readable())
  }

  function EnsureWriteable(l: Layout, len: nat): Layout
    requires l.Valid()
  { if l.Writeable() < len then WithSpace(l, len) else l }

  function Appended(l: Layout, len: nat): Layout
    requires l.Valid()
  { var m := EnsureWriteable(l, len); m.(writer := m.writer + len) }

  function Emptied(l: Layout): Layout { l.(reader := CHEAP_PREPEND, writer := CHEAP_PREPEND) }

  /** The public calls that move the indices. `Read(n)` is readFd when readv returns n. */
  datatype Op = Append(len: nat) | Retrieve(len: nat) | RetrieveAll | Ensure(len: nat) | Read(n: nat)

  function Apply(l: Layout, op: Op): (r: Layout)
    requires l.Valid()
    ensures r.Valid() && r.size >= l.size
  {
    match op
    case Append(len) => Appended(l, len)
    case Retrieve(len) =>
      if len < l.Readable() then l.(reader := l.reader + len) else Emptied(l)
    case RetrieveAll => Emptied(l)
    case Ensure(len) => EnsureWriteable(l, len)
    case Read(n) =>
      if n > l.Offered() then l                       // readv returns no more than it was offered
      else if n <= l.Writeable() then l.(writer := l.writer + n)
      else Appended(l.(writer := l.size), n - l.Writeable())
  }

  /** Compaction is chosen only when there is a consumed prefix to reclaim, and it reclaims enough;
      the array grows exactly when the free bytes at both ends together cannot hold the request. */
  lemma MakeSpaceIsEnough(l: Layout, len: nat)
    requires l.Valid() && l.Writeable() < len
    ensures var r := WithSpace(l, len);
      && r.Valid() && r.Writeable() >= len && r.Readable() == l.Readable()
      && (r.size > l.size <==> l.size < CHEAP_PREPEND + l.Readable() + len)
      && (r.size == l.size ==> l.reader > CHEAP_PREPEND && r.reader == CHEAP_PREPEND)
  {
  }

  // ---------------------------------------------------------------- space over whole runs

  function RunOps(l: Layout, ops: seq<Op>): (r: Layout)
    requires l.Valid()
    ensures r.Valid()
    decreases |ops|
  { if ops == [] then l else RunOps(Apply(l, ops[0]), ops[1..]) }

  /** Bytes a call leaves readable; an explicit ensureWriteableBytes asks for room beyond that. */
  function Demand(l: Layout, op: Op): nat
    requires l.Valid()
  { if op.Ensure? then l.Readable() + op.len else Apply(l, op).Readable() }

  /** The largest demand over a run: its peak readable length when nothing but data moves. */
  function Peak(l: Layout, ops: seq<Op>): nat
    requires l.Valid()
    decreases |ops|
  { if ops == [] then 0 else Max(Demand(l, ops[0]), Peak(Apply(l, ops[0]), ops[1..])) }

  lemma StepSpace(l: Layout, op: Op, initialSize: nat, peak: nat)
    requires l.Valid() && l.size <= CHEAP_PREPEND + Max(initialSize, 2 * peak)
    requires Demand(l, op) <= peak
    ensures Apply(l, op).size <= CHEAP_PREPEND + Max(initialSize, 2 * peak)
  {
    match op
    case Append(len) =>
      if l.Writeable() < len { MakeSpaceIsEnough(l, len); }
    case Ensure(len) =>
    case Retrieve(len) =>
    case RetrieveAll =>
    case Read(n) =>
      if l.Writeable() < n <= l.Offered() {
        var full := l.(writer := l.size);
        var rest := n - l.Writeable();
        MakeSpaceIsEnough(full, rest);
      }
  }

  lemma {:induction false} SpaceBoundFrom(l: Layout, ops: seq<Op>, initialSize: nat, peak: nat)
    requires l.Valid() && l.size <= CHEAP_PREPEND + Max(initialSize, 2 * peak)
    requires Peak(l, ops) <= peak
    ensures RunOps(l, ops).size <= CHEAP_PREPEND + Max(initialSize, 2 * peak)
    decreases |ops|
  {
    if ops == [] {
    } else {
      StepSpace(l, ops[0], initialSize, peak);
      SpaceBoundFrom(Apply(l, ops[0]), ops[1..], initialSize, peak);
    }
  }

  /** Whatever the run, the array is never more than twice the peak demand (or the initial size). */
  lemma SpaceBound(initialSize: nat, ops: seq<Op>)
    ensures RunOps(Fresh(initialSize), ops).size
         <= CHEAP_PREPEND + Max(initialSize, 2 * Peak(Fresh(initialSize), ops))
  {
    SpaceBoundFrom(Fresh(initialSize), ops, initialSize, Peak(Fresh(initialSize), ops));
  }

  /** The factor two cannot be lowered: for every k a run with peak k+1 ends with an array of 2k. */
  lemma SpaceBoundIsTight(k: nat)
    requires k > 1
    ensures var ops := [Append(k), Retrieve(k - 1), Append(k)];
      Peak(Fresh(INITIAL_SIZE), ops) == k + 1 && RunOps(Fresh(INITIAL_SIZE), ops).size == 2 * k
  {
    var l0 := Fresh(INITIAL_SIZE);
    var l1 := Apply(l0, Append(k));
    var l2 := Apply(l1, Retrieve(k - 1));
    var l3 := Apply(l2, Append(k));
    assert l1 == Layout(k, 0, k) && l2 == Layout(k, k - 1, k) && l3 == Layout(2 * k, k - 1, 2 * k);
    var ops := [Append(k), Retrieve(k - 1), Append(k)];
    assert ops[1..] == [Retrieve(k - 1), Append(k)];
    assert ops[1..][1..] == [Append(k)];
    assert ops[1..][1..][1..] == [];
    assert RunOps(l2, ops[1..][1..]) == l3;
    assert Peak(l2, ops[1..][1..]) == k + 1;
    assert Peak(l1, ops[1..]) == k + 1;
  }

  // ---------------------------------------------------------------- the queue the bytes form

  /** The calls as the user sees them: bytes go in at the back and leave at the front. */
  datatype Call = Put(data: string) | Take(len: nat) | Reserve(len: nat)

  function Drop(q: string, len: nat): string { if len < |q| then q[len..] else [] }

  function Dropped(q: string, len: nat): string { if len < |q| then q[..len] else q }

  function QueueStep(q: string, c: Call): string {
    match c
    case Put(data) => q + data
    case Take(len) => Drop(q, len)
    case Reserve(_) => q
  }

  function RunQueue(q: string, calls: seq<Call>): string
    decreases |calls|
  {
    if calls == [] then q else RunQueue(QueueStep(q, calls[0]), calls[1..])
  }

  function BytesIn(calls: seq<Call>): string {
    if calls == [] then [] else (if calls[0].Put? then calls[0].data else []) + BytesIn(calls[1..])
  }

  function BytesOut(q: string, calls: seq<Call>): string
    decreases |calls|
  {
    if calls == [] then []
    else (if calls[0].Take? then Dropped(q, calls[0].len) else []) + BytesOut(QueueStep(q, calls[0]), calls[1..])
  }

  lemma Regroup(out: string, outs: string, left: string, q: string, inp: string, ins: string, q1: string)
    requires out + q1 == q + inp && outs + left == q1 + ins
    ensures (out + outs) + left == q + (inp + ins)
  {
    calc {
      (out + outs) + left;
      out + (outs + left);
      out + (q1 + ins);
      (out + q1) + ins;
      (q + inp) + ins;
      q + (inp + ins);
    }
  }

  /** Over any run the bytes taken out, then the bytes still readable, are the bytes put in. */
  lemma {:induction false} QueueConserves(q: string, calls: seq<Call>)
    ensures BytesOut(q, calls) + RunQueue(q, calls) == q + BytesIn(calls)
    decreases |calls|
  {
    if calls == [] {
    } else {
      var c, rest := calls[0], calls[1..];
      var q1 := QueueStep(q, c);
      QueueConserves(q1, rest);
      var out := if c.Take? then Dropped(q, c.len) else [];
      var inp := if c.Put? then c.data else [];
      assert out + q1 == q + inp;
      Regroup(out, BytesOut(q1, rest), RunQueue(q1, rest), q, inp, BytesIn(rest), q1);
    }
  }

  /** The layout holds exactly as many readable bytes as the queue, so the space bound is about it. */
  lemma {:induction false} LayoutTracksQueue(l: Layout, q: string, calls: seq<Call>)
    requires l.Valid() && l.Readable() == |q|
    ensures RunOps(l, OpsOf(calls)).Readable() == |RunQueue(q, calls)|
    decreases |calls|
  {
    if calls == [] {
    } else {
      var op := OpOf(calls[0]);
      assert OpsOf(calls)[0] == op && OpsOf(calls)[1..] == OpsOf(calls[1..]);
      LayoutTracksQueue(Apply(l, op), QueueStep(q, calls[0]), calls[1..]);
    }
  }

  function OpOf(c: Call): Op {
    match c
    case Put(data) => Append(|data|)
    case Take(len) => Retrieve(len)
    case Reserve(len) => Ensure(len)
  }

  function OpsOf(calls: seq<Call>): seq<Op> { seq(|calls|, i requires 0 <= i < |calls| => OpOf(calls[i])) }

  // ---------------------------------------------------------------- the class

  /** The result of readv or write: the bytes moved, or the errno of a failure. */
  datatype ReadResult = Data(bytes: string) | ReadFailed(errno: int)
  datatype WriteResult = Wrote(n: nat) | WouldBlock | Fault | OtherError

  /** A write moves at most the bytes it was given. */
  predicate LegalWrite(w: WriteResult, len: nat) { w.Wrote? ==> w.n <= len }

  function BytesWritten(w: WriteResult): nat { if w.Wrote? then w.n else 0 }

  lemma Associate(a: string, b: string, c: string)
    ensures (a + b) + c == a + (b + c)
  {
  }

  class Buffer {
    var buffer: array<char>
    var readerIndex: nat
    var writerIndex: nat

    ghost predicate Valid()
      reads this
    { CHEAP_PREPEND <= readerIndex <= writerIndex <= buffer.Length }

    ghost function Shape(): Layout
      reads this
    { Layout(buffer.Length, readerIndex, writerIndex) }

    ghost function Contents(): string
      reads this, buffer
      requires Valid()
    { buffer[readerIndex..writerIndex] }

    constructor (initialSize: nat := INITIAL_SIZE)
      ensures Valid() && fresh(buffer) && Shape() == Fresh(initialSize) && Contents() == []
    {
      buffer := new char[CHEAP_PREPEND + initialSize](_ => '\0');
      readerIndex := CHEAP_PREPEND;
      writerIndex := CHEAP_PREPEND;
    }

    method ReadableBytes() returns (n: nat)
      requires Valid()
      ensures n == |Contents()|
    { n := writerIndex - readerIndex; }

    method WriteableBytes() returns (n: nat)
      requires Valid()
      ensures n == Shape().Writeable()
    { n := buffer.Length - writerIndex; }

    method RetrieveAll()
      requires Valid()
      modifies this`readerIndex, this`writerIndex
      ensures Valid() && Contents() == [] && readerIndex == writerIndex == CHEAP_PREPEND
      ensures Shape() == Apply(old(Shape()), Op.RetrieveAll)
    {
      readerIndex := CHEAP_PREPEND;
      writerIndex := CHEAP_PREPEND;
    }

    method Retrieve(len: nat)
      requires Valid()
      modifies this`readerIndex, this`writerIndex
      ensures Valid() && Contents() == Drop(old(Contents()), len)
      ensures Contents() == [] ==> readerIndex == writerIndex == CHEAP_PREPEND
      ensures Shape() == Apply(old(Shape()), Op.Retrieve(len))
    {
      var readable := ReadableBytes();
      if len < readable {
        readerIndex := readerIndex + len;
      } else {
        RetrieveAll();
      }
    }

    /** The caller asks for no more than is readable: the source copies `len` bytes unchecked. */
    method RetrieveAsString(len: nat) returns (result: string)
      requires Valid() && len <= |Contents()|
      modifies this`readerIndex, this`writerIndex
      ensures Valid() && result + Contents() == old(Contents()) && |result| == len
      ensures Shape() == Apply(old(Shape()), Op.Retrieve(len))
    {
      result := buffer[readerIndex..readerIndex + len];
      Retrieve(len);
    }

    method RetrieveAllAsString() returns (result: string)
      requires Valid()
      modifies this`readerIndex, this`writerIndex
      ensures Valid() && result == old(Contents()) && Contents() == []
    {
      var n := ReadableBytes();
      result := RetrieveAsString(n);
    }

    /** vector::resize to a larger size: the old cells keep their values. */
    method Resize(newSize: nat)
      requires Valid() && buffer.Length <= newSize
      modifies this`buffer
      ensures Valid() && fresh(buffer) && buffer.Length == newSize
      ensures Contents() == old(Contents())
    {
      var bigger := new char[newSize](_ => '\0');
      var i := 0;
      while i < buffer.Length
        invariant 0 <= i <= buffer.Length
        invariant bigger[..i] == buffer[..i]
        modifies bigger
      {
        bigger[i] := buffer[i];
        i := i + 1;
      }
      assert forall k :: 0 <= k < writerIndex ==> bigger[k] == bigger[..i][k] == buffer[..i][k];
      buffer := bigger;
    }

    /** std::copy towards the front of the same array, one cell at a time from the left. */
    method CopyDown(first: nat, last: nat, dest: nat)
      requires dest <= first <= last <= buffer.Length
      modifies buffer
      ensures buffer[dest..dest + (last - first)] == old(buffer[first..last])
    {
      ghost var was := buffer[..];
      var i := 0;
      while i < last - first
        invariant 0 <= i <= last - first
        invariant buffer[dest..dest + i] == was[first..first + i]
        invariant forall k :: dest + i <= k < buffer.Length ==> buffer[k] == was[k]
      {
        buffer[dest + i] := buffer[first + i];
        i := i + 1;
      }
    }

    method MakeSpace(len: nat)
      requires Valid() && Shape().Writeable() < len
      modifies this, buffer
      ensures Valid() && (buffer == old(buffer) || fresh(buffer))
      ensures Contents() == old(Contents())
      ensures Shape() == WithSpace(old(Shape()), len)
    {
      var writeable := WriteableBytes();
      if writeable + readerIndex < len + CHEAP_PREPEND {
        Resize(writerIndex + len);
      } else {
        var readable := ReadableBytes();
        CopyDown(readerIndex, writerIndex, CHEAP_PREPEND);
        readerIndex := CHEAP_PREPEND;
        writerIndex := readerIndex + readable;
      }
    }

    method EnsureWriteableBytes(len: nat)
      requires Valid()
      modifies this, buffer
      ensures Valid() && (buffer == old(buffer) || fresh(buffer))
      ensures Contents() == old(Contents()) && Shape().Writeable() >= len
      ensures Shape() == Apply(old(Shape()), Ensure(len))
    {
      var writeable := WriteableBytes();
      if writeable < len {
        MakeSpaceIsEnough(Shape(), len);
        MakeSpace(len);
      }
    }

    /** std::copy of outside data to the write position, which `Append` then moves past it. */
    method CopyIn(data: string)
      requires Valid() && |data| <= Shape().Writeable()
      modifies buffer
      ensures buffer[writerIndex..writerIndex + |data|] == data
      ensures Contents() == old(Contents())
      ensures buffer[readerIndex..writerIndex + |data|] == old(Contents()) + data
    {
      var i := 0;
      while i < |data|
        invariant 0 <= i <= |data|
        invariant buffer[writerIndex..writerIndex + i] == data[..i]
        invariant buffer[..writerIndex] == old(buffer[..writerIndex])
      {
        buffer[writerIndex + i] := data[i];
        i := i + 1;
      }
      assert Contents() == buffer[..writerIndex][readerIndex..];
      Split(readerIndex, writerIndex, writerIndex + |data|);
    }

    method Append(data: string)
      requires Valid()
      modifies this, buffer
      ensures Valid() && (buffer == old(buffer) || fresh(buffer))
      ensures Contents() == old(Contents()) + data
      ensures Shape() == Apply(old(Shape()), Op.Append(|data|))
    {
      EnsureWriteableBytes(|data|);
      CopyIn(data);
      writerIndex := writerIndex + |data|;
    }

    lemma Split(from: nat, mid: nat, to: nat)
      requires from <= mid <= to <= buffer.Length
      ensures buffer[from..to] == buffer[from..mid] + buffer[mid..to]
    {
    }

    /** readv: the kernel fills the spare space first and only then the stack buffer. */
    method Readv(extrabuf: array<char>, iovcnt: nat, bytes: string)
      requires Valid() && extrabuf != buffer && extrabuf.Length == EXTRA_BUF
      requires iovcnt == if Shape().Writeable() < EXTRA_BUF then 2 else 1
      requires |bytes| <= Shape().Offered()
      modifies buffer, extrabuf
      ensures var room := Shape().Writeable();
        if |bytes| <= room then buffer[readerIndex..writerIndex + |bytes|] == old(Contents()) + bytes
        else iovcnt == 2 && |bytes| - room <= EXTRA_BUF
             && buffer[readerIndex..buffer.Length] + extrabuf[..|bytes| - room] == old(Contents()) + bytes
    {
      var room := WriteableBytes();
      if |bytes| <= room {
        CopyIn(bytes);
      } else {
        CopyIn(bytes[..room]);
        FillExtra(extrabuf, bytes[room..]);
        Associate(old(Contents()), bytes[..room], bytes[room..]);
        assert bytes[..room] + bytes[room..] == bytes;
      }
    }

    static method FillExtra(extrabuf: array<char>, bytes: string)
      requires |bytes| <= extrabuf.Length
      modifies extrabuf
      ensures extrabuf[..|bytes|] == bytes
    {
      for i := 0 to |bytes|
        invariant extrabuf[..i] == bytes[..i]
      {
        extrabuf[i] := bytes[i];
      }
    }

    method ReadFd(kernel: ReadResult) returns (n: int, savedErrno: int)
      requires Valid()
      requires kernel.Data? ==> |kernel.bytes| <= Shape().Offered()
      modifies this, buffer
      ensures Valid() && (buffer == old(buffer) || fresh(buffer))
      ensures old(Shape()).Offered() >= 65536
      ensures kernel.Data? ==> n == |kernel.bytes| && Contents() == old(Contents()) + kernel.bytes
                               && Shape() == Apply(old(Shape()), Read(n))
      ensures kernel.ReadFailed? ==> n < 0 && savedErrno == kernel.errno
                                     && Contents() == old(Contents()) && Shape() == old(Shape())
    {
      var extrabuf := new char[EXTRA_BUF];
      var writable := WriteableBytes();
      var iovcnt := if writable < EXTRA_BUF then 2 else 1;
      if kernel.ReadFailed? {
        return -1, kernel.errno;
      }
      Readv(extrabuf, iovcnt, kernel.bytes);
      n, savedErrno := |kernel.bytes|, 0;
      if n <= writable {
        writerIndex := writerIndex + n;
      } else {
        writerIndex := buffer.Length;
        Append(extrabuf[..n - writable]);
      }
    }

    /** write(2) of the readable bytes, from the cell peek() points at. Nothing moves here: what the
        kernel took and what a retrieve of that many bytes will leave make up the buffer. */
    method WriteFd(kernel: WriteResult) returns (n: int, taken: string)
      requires Valid() && LegalWrite(kernel, |Contents()|)
      ensures n == if kernel.Wrote? then kernel.n else -1
      ensures |taken| == BytesWritten(kernel)
      ensures taken + Drop(Contents(), |taken|) == Contents()
    {
      if kernel.Wrote? {
        n, taken := kernel.n, buffer[readerIndex..readerIndex + kernel.n];
      } else {
        n, taken := -1, [];
      }
    }
  }
}
