/** The byte buffer of a connection: a vector of bytes, a reader index and a writer index. */

module Bytes {
  newtype byte = b: int | 0 <= b < 256
}

/** What a buffer looks like from outside, and what each of its operations does to that view. */
module BufferSpec {
  import opened Bytes

  const CHEAP_PREPEND: nat := 8
  const EXTRA_BUF: nat := 65535

  datatype View = View(size: nat, reader: nat, content: seq<byte>) {
    function Writer(): nat { reader + |content| }

    predicate Ok() {
      CHEAP_PREPEND <= reader && Writer() <= size && (content == [] ==> reader == CHEAP_PREPEND)
    }

    function Writable(): int { size - Writer() }

    function MakeSpace(len: nat): View {
      if Writable() + reader < len + CHEAP_PREPEND
      then this.(size := Writer() + len)
      else this.(reader := CHEAP_PREPEND)
    }

    function EnsureWritable(len: nat): View {
      if Writable() < len then MakeSpace(len) else this
    }

    function Append(data: seq<byte>): View {
      var roomy := EnsureWritable(|data|);
      roomy.(content := roomy.content + data)
    }

    function Retrieve(len: nat): View {
      if len < |content|
      then this.(reader := reader + len, content := content[len..])
      else this.(reader := CHEAP_PREPEND, content := [])
    }

    // The two regions handed to readv: the writable tail, and a stack buffer if the tail is small.
    function ReadCapacity(): int {
      if Writable() < EXTRA_BUF then Writable() + EXTRA_BUF else Writable()
    }

    function Received(chunk: seq<byte>): View
      requires Ok()
    {
      if |chunk| <= Writable()
      then this.(content := content + chunk)
      else this.(content := content + chunk[..Writable()]).Append(chunk[Writable()..])
    }
  }

  // What readv answers.
  datatype Readv = Delivered(chunk: seq<byte>) | Failed(errno: int)

  function Fresh(initial: nat): View {
    View(CHEAP_PREPEND + initial, CHEAP_PREPEND, [])
  }

  datatype Op =
    | Append(data: seq<byte>)
    | Retrieve(len: nat)
    | RetrieveAsString(n: nat)
    | ReadFd(chunk: seq<byte>)

  predicate Legal(v: View, op: Op) {
    match op
    case RetrieveAsString(n) => n <= |v.content|
    case ReadFd(chunk) => |chunk| <= v.ReadCapacity()
    case _ => true
  }

  function Apply(v: View, op: Op): View
    requires v.Ok()
  {
    match op
    case Append(data) => v.Append(data)
    case Retrieve(len) => v.Retrieve(len)
    case RetrieveAsString(n) => v.Retrieve(n)
    case ReadFd(chunk) => v.Received(chunk)
  }

  // The independent reference: a FIFO queue of bytes, and the bytes each operation adds or takes.
  function Entering(op: Op): seq<byte> {
    match op
    case Append(data) => data
    case ReadFd(chunk) => chunk
    case _ => []
  }

  function Leaving(queue: seq<byte>, op: Op): seq<byte> {
    match op
    case Retrieve(len) => if len < |queue| then queue[..len] else queue
    case RetrieveAsString(n) => if n < |queue| then queue[..n] else queue
    case _ => []
  }

  function NextQueue(queue: seq<byte>, op: Op): seq<byte> {
    (queue + Entering(op))[|Leaving(queue, op)|..]
  }

  lemma RoomIsMade(v: View, len: nat)
    requires v.Ok()
    ensures var u := v.EnsureWritable(len);
            u.Ok() && u.content == v.content && u.size >= v.size && u.Writable() >= len
  {
  }

  /** Compaction copies downwards: it is chosen only when the data starts above the prepend area,
      so a forward copy never reads a byte it has already overwritten. */
  lemma CompactionMovesDown(v: View, len: nat)
    requires v.Ok() && v.Writable() < len
    ensures v.MakeSpace(len).size == v.size <==> v.Writable() + v.reader >= len + CHEAP_PREPEND
    ensures v.MakeSpace(len).size == v.size ==> v.reader > CHEAP_PREPEND
  {
  }

  /** One readv brings at most what the writable tail holds and, only if that is shorter than the spill
      buffer, 65535 bytes more. */
  lemma ReadvHasRoom(v: View)
    requires v.Ok()
    ensures v.ReadCapacity() == v.size - v.reader - |v.content|
            || (v.size - v.reader - |v.content| < 65535 && v.ReadCapacity() == v.size - v.reader - |v.content| + 65535)
    ensures v.ReadCapacity() >= 65535
  {
  }

  lemma StepIsFifo(v: View, op: Op)
    requires v.Ok() && Legal(v, op)
    ensures Apply(v, op).Ok()
    ensures v.content + Entering(op) == Leaving(v.content, op) + Apply(v, op).content
    ensures Apply(v, op).content == NextQueue(v.content, op)
  {
    match op
    case Append(data) => RoomIsMade(v, |data|);
    case ReadFd(chunk) =>
      if |chunk| > v.Writable() {
        var full := v.(content := v.content + chunk[..v.Writable()]);
        RoomIsMade(full, |chunk| - v.Writable());
        assert chunk[..v.Writable()] + chunk[v.Writable()..] == chunk;
      }
    case _ =>
  }

  // ----- whole runs

  predicate LegalRun(v: View, ops: seq<Op>)
    requires v.Ok()
    decreases |ops|
  {
    ops == [] || (Legal(v, ops[0]) && Apply(v, ops[0]).Ok() && LegalRun(Apply(v, ops[0]), ops[1..]))
  }

  function Run(v: View, ops: seq<Op>): View
    requires v.Ok() && LegalRun(v, ops)
    decreases |ops|
  {
    if ops == [] then v else Run(Apply(v, ops[0]), ops[1..])
  }

  function AllEntering(ops: seq<Op>): seq<byte> {
    if ops == [] then [] else Entering(ops[0]) + AllEntering(ops[1..])
  }

  // What the reference queue hands out over a run that starts from `queue`.
  function AllLeaving(queue: seq<byte>, ops: seq<Op>): seq<byte>
    decreases |ops|
  {
    if ops == [] then []
    else Leaving(queue, ops[0]) + AllLeaving(NextQueue(queue, ops[0]), ops[1..])
  }

  lemma ChainQueues(q0: seq<byte>, in0: seq<byte>, ins: seq<byte>, out0: seq<byte>,
                    q1: seq<byte>, outs: seq<byte>, q2: seq<byte>)
    requires q0 + in0 == out0 + q1 && q1 + ins == outs + q2
    ensures q0 + (in0 + ins) == (out0 + outs) + q2
  {
    assert q0 + (in0 + ins) == (q0 + in0) + ins;
    assert out0 + (q1 + ins) == (out0 + q1) + ins;
  }

  lemma {:induction false} RunIsFifo(v: View, ops: seq<Op>)
    requires v.Ok() && LegalRun(v, ops)
    ensures Run(v, ops).Ok()
    ensures v.content + AllEntering(ops) == AllLeaving(v.content, ops) + Run(v, ops).content
    decreases |ops|
  {
    if ops == [] {
    } else {
      var w := Apply(v, ops[0]);
      StepIsFifo(v, ops[0]);
      RunIsFifo(w, ops[1..]);
      ChainQueues(v.content, Entering(ops[0]), AllEntering(ops[1..]), Leaving(v.content, ops[0]),
                  w.content, AllLeaving(w.content, ops[1..]), Run(w, ops[1..]).content);
    }
  }

  // ----- space

  function Max(a: int, b: int): int { if a < b then b else a }

  function Peak(v: View, ops: seq<Op>): nat
    requires v.Ok() && LegalRun(v, ops)
    decreases |ops|
  {
    if ops == [] then |v.content| else Max(|v.content|, Peak(Apply(v, ops[0]), ops[1..]))
  }

  // The largest size that a buffer reaches which starts with room for `initial` bytes and never holds
  // more than `peak`.
  function GrowthBound(initial: nat, peak: nat): nat {
    if peak <= initial then CHEAP_PREPEND + initial
    else if peak == 1 then CHEAP_PREPEND + 1
    else 2 * peak + 6
  }

  // The size after a step that grows the buffer, if the step leaves `held` bytes.
  function GrownSize(held: nat): nat {
    if held <= 1 then CHEAP_PREPEND + held else 2 * held + 6
  }

  predicate Grown(v: View, u: View) {
    u.size == v.size || v.size < u.size <= GrownSize(|u.content|)
  }

  lemma AppendSpace(v: View, data: seq<byte>)
    requires v.Ok() || (CHEAP_PREPEND <= v.reader && v.Writer() == v.size && v.content != [])
    ensures Grown(v, v.Append(data))
    ensures |v.Append(data).content| + CHEAP_PREPEND <= v.size ==> v.Append(data).size == v.size
  {
  }

  /** A step that leaves no more than fits behind the prepend area does not grow the buffer. */
  lemma StepSpace(v: View, op: Op)
    requires v.Ok() && Legal(v, op)
    ensures Grown(v, Apply(v, op))
    ensures |Apply(v, op).content| + CHEAP_PREPEND <= v.size ==> Apply(v, op).size == v.size
  {
    match op
    case Append(data) => AppendSpace(v, data);
    case ReadFd(chunk) =>
      if |chunk| > v.Writable() {
        var full := v.(content := v.content + chunk[..v.Writable()]);
        AppendSpace(full, chunk[v.Writable()..]);
      }
    case _ =>
  }

  lemma {:induction false} RunSpace(v: View, ops: seq<Op>)
    requires v.Ok() && LegalRun(v, ops)
    ensures Run(v, ops).size == v.size
            || (v.size < Run(v, ops).size <= GrownSize(Peak(v, ops)) && v.size < Peak(v, ops) + CHEAP_PREPEND)
    decreases |ops|
  {
    if ops == [] {
    } else {
      StepSpace(v, ops[0]);
      RunSpace(Apply(v, ops[0]), ops[1..]);
      PeakCovers(Apply(v, ops[0]), ops[1..]);
    }
  }

  lemma PeakCovers(v: View, ops: seq<Op>)
    requires v.Ok() && LegalRun(v, ops)
    ensures Peak(v, ops) >= |v.content|
  {
  }

  /** The size never shrinks, and stays within the initial size or twice the peak and a constant. */
  lemma SpaceBound(initial: nat, ops: seq<Op>)
    requires LegalRun(Fresh(initial), ops)
    ensures var size, peak := Run(Fresh(initial), ops).size, Peak(Fresh(initial), ops);
            CHEAP_PREPEND + initial <= size <= GrowthBound(initial, peak) <= Max(CHEAP_PREPEND + initial, 2 * peak + 7)
  {
    RunSpace(Fresh(initial), ops);
  }

  // A run that makes the buffer as large as |data| bytes at the peak can make it.
  function Widest(initial: nat, data: seq<byte>): seq<Op> {
    if |data| <= initial || |data| == 1 then [Append(data)]
    else [Append(data[1..]), Retrieve(|data| - 2), Append(data[1..])]
  }

  /** The bound is exact: for every initial size and every peak some run reaches it. */
  lemma SpaceBoundIsReached(initial: nat, data: seq<byte>)
    ensures var ops := Widest(initial, data);
            LegalRun(Fresh(initial), ops)
            && Peak(Fresh(initial), ops) == |data|
            && Run(Fresh(initial), ops).size == GrowthBound(initial, |data|)
  {
    var v0, ops := Fresh(initial), Widest(initial, data);
    var v1 := Apply(v0, ops[0]);
    assert v1.Ok() && LegalRun(v1, []) && Peak(v1, []) == |v1.content|;
    if |ops| == 1 {
      assert ops[1..] == [];
    } else {
      var v2 := Apply(v1, ops[1]);
      var v3 := Apply(v2, ops[2]);
      assert ops[1..] == [ops[1], ops[2]] && ops[1..][1..] == [ops[2]] && [ops[2]][1..] == [];
      assert v3.Ok() && LegalRun(v3, []);
      assert LegalRun(v2, [ops[2]]) && Run(v2, [ops[2]]) == v3;
      assert Peak(v2, [ops[2]]) == |data|;
      assert LegalRun(v1, ops[1..]) && Run(v1, ops[1..]) == v3;
      assert Peak(v1, ops[1..]) == |data|;
    }
  }
}

module NetBuffer {
  import opened Bytes
  import opened BufferSpec
  import opened Wrappers

  class Buffer {
    var buffer: array<byte>
    var readerIndex: nat
    var writerIndex: nat

    ghost predicate Valid()
      reads this
    {
      CHEAP_PREPEND <= readerIndex <= writerIndex <= buffer.Length
      && (readerIndex == writerIndex ==> readerIndex == CHEAP_PREPEND)
    }

    ghost function V(): (v: View)
      requires Valid()
      reads this, buffer
      ensures v.Ok()
    {
      View(buffer.Length, readerIndex, buffer[readerIndex..writerIndex])
    }

    constructor (initialSize: nat)
      ensures Valid() && fresh(buffer)
      ensures V() == Fresh(initialSize)
    {
      buffer := new byte[CHEAP_PREPEND + initialSize](_ => 0);
      readerIndex, writerIndex := CHEAP_PREPEND, CHEAP_PREPEND;
    }

    function ReadableBytes(): (n: int)
      requires Valid()
      reads this, buffer
      ensures n == |V().content|
    {
      writerIndex - readerIndex
    }

    function WritableBytes(): (n: int)
      requires Valid()
      reads this, buffer
      ensures n == V().Writable()
    {
      buffer.Length - writerIndex
    }

    // std::copy from a source outside the buffer.
    method CopyIn(data: seq<byte>, at: nat)
      requires at + |data| <= buffer.Length
      modifies buffer
      ensures buffer[at..at + |data|] == data
      ensures forall k :: 0 <= k < at || at + |data| <= k < buffer.Length ==> buffer[k] == old(buffer[k])
    {
      var i := 0;
      while i < |data|
        invariant 0 <= i <= |data|
        invariant forall k :: at <= k < at + i ==> buffer[k] == data[k - at]
        invariant forall k :: 0 <= k < at || at + i <= k < buffer.Length ==> buffer[k] == old(buffer[k])
      {
        buffer[at + i] := data[i];
        i := i + 1;
      }
    }

    // std::copy within the buffer, ascending, so it is right only when the target lies below.
    method MoveDown(first: nat, last: nat, target: nat)
      requires target < first <= last <= buffer.Length
      modifies buffer
      ensures buffer[target..target + last - first] == old(buffer[first..last])
      ensures forall k :: 0 <= k < target || target + last - first <= k < buffer.Length ==> buffer[k] == old(buffer[k])
    {
      ghost var was := buffer[..];
      var i := 0;
      while i < last - first
        invariant 0 <= i <= last - first
        invariant forall k :: target <= k < target + i ==> buffer[k] == was[k - target + first]
        invariant forall k :: 0 <= k < target || target + i <= k < buffer.Length ==> buffer[k] == was[k]
      {
        buffer[target + i] := buffer[first + i];
        i := i + 1;
      }
    }

    method MakeSpace(len: nat)
      requires Valid() && WritableBytes() < len
      modifies this, buffer
      ensures Valid() && (buffer == old(buffer) || fresh(buffer))
      ensures V() == old(V()).MakeSpace(len)
    {
      if WritableBytes() + readerIndex < len + CHEAP_PREPEND {
        var kept := buffer[..];
        var bigger := new byte[writerIndex + len](i => if 0 <= i < |kept| then kept[i] else 0);
        assert bigger[readerIndex..writerIndex] == kept[readerIndex..writerIndex];
        buffer := bigger;
      } else {
        var readable := ReadableBytes();
        ghost var content := V().content;
        MoveDown(readerIndex, writerIndex, CHEAP_PREPEND);
        assert buffer[CHEAP_PREPEND..CHEAP_PREPEND + readable] == content;
        readerIndex := CHEAP_PREPEND;
        writerIndex := readerIndex + readable;
      }
    }

    method EnsureWriteableBytes(len: nat)
      requires Valid()
      modifies this, buffer
      ensures Valid() && (buffer == old(buffer) || fresh(buffer))
      ensures V() == old(V()).EnsureWritable(len)
    {
      if WritableBytes() < len {
        MakeSpace(len);
      }
    }

    // Bytes go into the writable tail, and the writer index moves behind them.
    method FillTail(data: seq<byte>)
      requires Valid() && |data| <= WritableBytes()
      modifies this`writerIndex, buffer
      ensures Valid()
      ensures V() == old(V()).(content := old(V()).content + data)
    {
      ghost var content, end := V().content, writerIndex;
      CopyIn(data, writerIndex);
      assert buffer[readerIndex..end] == content;
      writerIndex := writerIndex + |data|;
      assert buffer[readerIndex..writerIndex] == buffer[readerIndex..end] + buffer[end..writerIndex];
    }

    method Append(data: seq<byte>)
      requires Valid()
      modifies this, buffer
      ensures Valid() && (buffer == old(buffer) || fresh(buffer))
      ensures V() == old(V()).Append(data)
    {
      RoomIsMade(V(), |data|);
      EnsureWriteableBytes(|data|);
      FillTail(data);
    }

    method RetrieveAll()
      requires Valid()
      modifies this
      ensures Valid() && buffer == old(buffer)
      ensures V() == old(V()).Retrieve(old(ReadableBytes()))
    {
      readerIndex, writerIndex := CHEAP_PREPEND, CHEAP_PREPEND;
    }

    method Retrieve(len: nat)
      requires Valid()
      modifies this
      ensures Valid() && buffer == old(buffer)
      ensures V() == old(V()).Retrieve(len)
    {
      if len < ReadableBytes() {
        readerIndex := readerIndex + len;
      } else {
        RetrieveAll();
      }
    }

    method RetrieveAsString(len: nat) returns (result: seq<byte>)
      requires Valid() && len <= ReadableBytes()
      modifies this
      ensures Valid() && buffer == old(buffer)
      ensures result == old(V()).content[..len] && V() == old(V()).Retrieve(len)
    {
      result := buffer[readerIndex..readerIndex + len];
      Retrieve(len);
    }

    // What readv delivered has filled the writable tail first and the spill buffer next.
    method ReadFd(answer: Readv) returns (n: int, saveErrno: Option<int>)
      requires Valid() && (answer.Delivered? ==> |answer.chunk| <= V().ReadCapacity())
      modifies this, buffer
      ensures Valid() && (buffer == old(buffer) || fresh(buffer))
      ensures V() == if answer.Delivered? then old(V()).Received(answer.chunk) else old(V())
      ensures n == if answer.Delivered? then |answer.chunk| else -1
      ensures saveErrno == if answer.Failed? then Some(answer.errno) else None
    {
      var writable := WritableBytes();
      match answer {
        case Failed(errno) =>
          n, saveErrno := -1, Some(errno);
        case Delivered(chunk) =>
          n, saveErrno := |chunk|, None;
          if n <= writable {
            FillTail(chunk);
          } else {
            FillTail(chunk[..writable]);
            var extrabuf := chunk[writable..];
            Append(extrabuf);
          }
      }
    }
  }
}
