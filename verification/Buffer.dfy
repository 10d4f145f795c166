/** The growable byte buffer (Buffer.h, Buffer.cpp) as an array with two indices. */
module Buffers {
  import opened Numbers

  type byte = x: int | 0 <= x < 0x100

  const CHEAP_PREPEND: nat := 8
  const INITIAL_SIZE: nat := 1024
  const EXTRA_SIZE: nat := 65536

  /** How `makeSpace` sizes the vector when it has to grow.  `AsWritten` is the
      expression in Buffer.cpp; `Intended` is the size the comment on
      `ensureWritable` asks for: room for `len` bytes after the write index. */
  datatype Growth = AsWritten | Intended {
    function NewSize(size: nat, write: nat, len: nat): nat
      requires write <= size
    {
      match this
      case AsWritten => size - write + len
      case Intended => write + len
    }
  }

  /** The three numbers that describe a buffer's layout. */
  datatype Layout = Layout(size: nat, read: nat, write: nat) {
    /** A vector never gets shorter than the one it started with. */
    predicate Ok() { read <= write <= size && CHEAP_PREPEND + INITIAL_SIZE <= size }

    function Writable(): nat
      requires Ok()
    {
      size - write
    }

    /** `makeSpace` takes its growing branch. */
    predicate MustGrow(len: nat)
      requires Ok()
    {
      Writable() < len && len + CHEAP_PREPEND > Writable() + read
    }

    /** What a caller can test before `append`: the call keeps its promise. */
    predicate CanAppend(growth: Growth, len: nat)
      requires Ok()
    {
      MustGrow(len) ==> growth.Intended? || write <= Writable()
    }

    /** The layout once room for `len` bytes has been made. */
    function WithRoom(growth: Growth, len: nat): (l: Layout)
      requires Ok() && CanAppend(growth, len)
      ensures l.Ok() && len <= l.Writable() && l.write - l.read == write - read
    {
      if len <= Writable() then this
      else if MustGrow(len) then Layout(growth.NewSize(size, write, len), read, write)
      else Layout(size, CHEAP_PREPEND, CHEAP_PREPEND + (write - read))
    }
  }

  const FRESH: Layout := Layout(CHEAP_PREPEND + INITIAL_SIZE, CHEAP_PREPEND, CHEAP_PREPEND)

  /** Result of `readv` on the connection's socket. */
  datatype ReadResult = Failed(errno: int) | Bytes(data: seq<byte>)

  lemma Rejoin(s: seq<byte>, t: seq<byte>, n: nat)
    requires n <= |t|
    ensures (s + t[..n]) + t[n..] == s + t
  {
  }

  lemma Split(s: seq<byte>, lo: nat, mid: nat, hi: nat)
    requires lo <= mid <= hi <= |s|
    ensures s[lo..hi] == s[lo..mid] + s[mid..hi]
  {
  }

  class Buffer {
    const growth: Growth
    var data: array<byte>
    var readIndex: nat
    var writeIndex: nat

    ghost predicate Valid()
      reads this
    {
      Shape().Ok()
    }

    /** The readable bytes: the FIFO this buffer implements. */
    ghost function Contents(): seq<byte>
      reads this, data
      requires Valid()
    {
      data[readIndex..writeIndex]
    }

    ghost function Shape(): Layout
      reads this
    {
      Layout(data.Length, readIndex, writeIndex)
    }

    constructor (growth: Growth)
      ensures Valid() && fresh(data)
      ensures this.growth == growth && Contents() == [] && Shape() == FRESH
    {
      this.growth := growth;
      data := new byte[CHEAP_PREPEND + INITIAL_SIZE];
      readIndex := CHEAP_PREPEND;
      writeIndex := CHEAP_PREPEND;
    }

    function ReadableBytes(): nat
      reads this
      requires Valid()
    {
      writeIndex - readIndex
    }

    /** The first `len` readable bytes, copied out of the buffer from `peek()` on. */
    method PeekBytes(len: nat) returns (s: seq<byte>)
      requires Valid() && len <= ReadableBytes()
      ensures s == Contents()[..len]
    {
      s := data[readIndex..readIndex + len];
    }

    /** `buffer_.resize(n)`: keep the common prefix. */
    method Resize(n: nat)
      modifies this`data
      ensures fresh(data) && data.Length == n
      ensures forall i :: 0 <= i < n && i < old(data.Length) ==> data[i] == old(data[i])
    {
      var bigger := new byte[n];
      var i := 0;
      while i < n && i < data.Length
        invariant i <= n && i <= data.Length
        invariant unchanged(this) && unchanged(data)
        invariant forall k :: 0 <= k < i ==> bigger[k] == data[k]
      {
        bigger[i] := data[i];
        i := i + 1;
      }
      data := bigger;
    }

    /** `std::copy` onto an overlapping range further left. */
    method MoveLeft(to: nat)
      requires Valid() && to <= readIndex
      modifies data
      ensures data[to..to + (writeIndex - readIndex)] == old(Contents())
    {
      var i := 0;
      while i < writeIndex - readIndex
        invariant i <= writeIndex - readIndex
        invariant data[to..to + i] == old(data[readIndex..readIndex + i])
        invariant forall k :: readIndex + i <= k < data.Length ==> data[k] == old(data[k])
      {
        data[to + i] := data[readIndex + i];
        assert data[to..to + i + 1] == data[to..to + i] + [data[to + i]];
        i := i + 1;
      }
    }

    /** Grow or compact.  Private: called only when the writable part is too short. */
    method MakeSpace(len: nat)
      requires Valid() && Shape().Writable() < len
      modifies this`data, this`readIndex, this`writeIndex, data
      ensures data == old(data) || fresh(data)
      ensures old(Shape()).CanAppend(growth, len) ==>
                Valid() && Shape() == old(Shape()).WithRoom(growth, len) && Contents() == old(Contents())
      ensures !old(Shape()).CanAppend(growth, len) ==>
                data.Length < writeIndex + len
    {
      if len + CHEAP_PREPEND > (data.Length - writeIndex) + readIndex {
        Resize(growth.NewSize(data.Length, writeIndex, len));
      } else {
        assert CHEAP_PREPEND < readIndex;
        var readable := writeIndex - readIndex;
        MoveLeft(CHEAP_PREPEND);
        readIndex := CHEAP_PREPEND;
        writeIndex := readIndex + readable;
      }
    }

    /** `ok` is false when the closing assertion fails, or when the vector has become
        shorter than `writeIndex_` and the unsigned subtraction in it wraps around. */
    method EnsureWritable(len: nat) returns (ok: bool)
      requires Valid()
      modifies this`data, this`readIndex, this`writeIndex, data
      ensures data == old(data) || fresh(data)
      ensures ok <==> old(Shape()).CanAppend(growth, len)
      ensures ok ==> Valid() && Shape() == old(Shape()).WithRoom(growth, len) && Contents() == old(Contents())
    {
      if data.Length - writeIndex < len {
        MakeSpace(len);
      }
      ok := writeIndex + len <= data.Length;
    }

    /** Copy `bytes` into the writable part, without moving the write index. */
    method CopyIn(bytes: seq<byte>)
      requires Valid() && writeIndex + |bytes| <= data.Length
      modifies data
      ensures Contents() == old(Contents())
      ensures data[writeIndex..writeIndex + |bytes|] == bytes
    {
      var i := 0;
      while i < |bytes|
        invariant i <= |bytes|
        invariant forall k :: 0 <= k < writeIndex ==> data[k] == old(data[k])
        invariant forall k :: writeIndex <= k < writeIndex + i ==> data[k] == bytes[k - writeIndex]
      {
        data[writeIndex + i] := bytes[i];
        i := i + 1;
      }
    }

    /** The first `n` bytes after the write index become readable. */
    method HasWritten(n: nat)
      requires Valid() && writeIndex + n <= data.Length
      modifies this`writeIndex
      ensures Valid() && writeIndex == old(writeIndex) + n
      ensures Contents() == old(Contents()) + data[old(writeIndex)..writeIndex]
    {
      Split(data[..], readIndex, writeIndex, writeIndex + n);
      writeIndex := writeIndex + n;
    }

    method Append(bytes: seq<byte>) returns (ok: bool)
      requires Valid()
      modifies this`data, this`readIndex, this`writeIndex, data
      ensures data == old(data) || fresh(data)
      ensures ok <==> old(Shape()).CanAppend(growth, |bytes|)
      ensures ok ==> Valid() && Contents() == old(Contents()) + bytes
      ensures ok ==> Shape() == Appended(old(Shape()), growth, |bytes|)
    {
      ok := EnsureWritable(|bytes|);
      if ok {
        CopyIn(bytes);
        HasWritten(|bytes|);
      }
    }

    method Retrieve(len: nat)
      requires Valid() && len <= ReadableBytes()
      modifies this`readIndex
      ensures Valid() && Contents() == old(Contents())[len..]
      ensures Shape() == old(Shape()).(read := old(readIndex) + len)
    {
      readIndex := readIndex + len;
    }

    method RetrieveAll()
      requires Valid()
      modifies this`readIndex, this`writeIndex
      ensures Valid() && Contents() == [] && Shape() == Layout(data.Length, CHEAP_PREPEND, CHEAP_PREPEND)
    {
      readIndex := CHEAP_PREPEND;
      writeIndex := CHEAP_PREPEND;
    }

    method RetrieveAsString() returns (s: seq<byte>)
      requires Valid()
      modifies this`readIndex, this`writeIndex
      ensures Valid() && s == old(Contents()) && Contents() == []
      ensures Shape() == Layout(data.Length, CHEAP_PREPEND, CHEAP_PREPEND)
    {
      s := data[readIndex..writeIndex];
      RetrieveAll();
    }

    method Prepend(bytes: seq<byte>)
      requires Valid() && |bytes| <= readIndex
      modifies this`readIndex, data
      ensures Valid() && Contents() == bytes + old(Contents())
      ensures Shape() == old(Shape()).(read := old(readIndex) - |bytes|)
    {
      readIndex := readIndex - |bytes|;
      var i := 0;
      while i < |bytes|
        invariant i <= |bytes|
        invariant readIndex + |bytes| == old(readIndex)
        invariant forall k :: readIndex <= k < readIndex + i ==> data[k] == bytes[k - readIndex]
        invariant forall k :: old(readIndex) <= k < data.Length ==> data[k] == old(data[k])
      {
        data[readIndex + i] := bytes[i];
        i := i + 1;
      }
      assert data[readIndex..old(readIndex)] == bytes;
      assert data[old(readIndex)..writeIndex] == old(data[readIndex..writeIndex]);
      Split(data[..], readIndex, old(readIndex), writeIndex);
    }

    /** The writable part is filled to its end. */
    method FillUp(bytes: seq<byte>)
      requires Valid() && writeIndex + |bytes| == data.Length
      modifies this`writeIndex, data
      ensures Valid() && writeIndex == data.Length && Contents() == old(Contents()) + bytes
    {
      CopyIn(bytes);
      HasWritten(|bytes|);
    }

    /** Scattered read: first into the writable part, the rest by way of a 64 KiB
        stack buffer.  `readv` never returns more than the two parts can hold. */
    method ReadFd(result: ReadResult) returns (n: int, savedErrno: int, ok: bool)
      requires Valid()
      requires result.Bytes? ==> |result.data| <= data.Length - writeIndex + EXTRA_SIZE
      modifies this`data, this`readIndex, this`writeIndex, data
      ensures data == old(data) || fresh(data)
      ensures result.Failed? ==>
                ok && n < 0 && savedErrno == result.errno && Valid() && Contents() == old(Contents())
      ensures result.Bytes? ==>
                n == |result.data| && (ok <==> CanRead(old(Shape()), growth, n))
      ensures result.Bytes? && ok ==> Valid() && Contents() == old(Contents()) + result.data
      ensures result.Bytes? && ok ==> Shape() == AfterRead(old(Shape()), growth, n)
    {
      savedErrno := 0;
      ok := true;
      match result {
        case Failed(errno) =>
          n := -1;
          savedErrno := errno;
        case Bytes(bytes) =>
          var writable := data.Length - writeIndex;
          n := |bytes|;
          if n <= writable {
            CopyIn(bytes);
            HasWritten(n);
          } else {
            FillUp(bytes[..writable]);
            ghost var full := Contents();
            ok := Append(bytes[writable..]);
            Rejoin(old(Contents()), bytes, writable);
            assert ok ==> Contents() == full + bytes[writable..];
          }
      }
    }
  }

  /** The layout after a successful append of `len` bytes. */
  function Appended(l: Layout, growth: Growth, len: nat): (r: Layout)
    requires l.Ok() && l.CanAppend(growth, len)
    ensures r.Ok() && r.write - r.read == l.write - l.read + len
  {
    var room := l.WithRoom(growth, len);
    room.(write := room.write + len)
  }

  /** What decides whether a read of `n` bytes keeps its promise: it fits, or growing is
      done with the intended size, or the overflow fits after compaction. */
  predicate CanRead(l: Layout, growth: Growth, n: nat)
    requires l.Ok()
  {
    var overflow := n - l.Writable();
    overflow <= 0 || growth.Intended? || overflow + CHEAP_PREPEND <= l.read
  }

  /** The layout after a successful read of `n` bytes. */
  function AfterRead(l: Layout, growth: Growth, n: nat): (r: Layout)
    requires l.Ok() && CanRead(l, growth, n)
    ensures r.Ok() && r.write - r.read == l.write - l.read + n
  {
    if n <= l.Writable() then l.(write := l.write + n)
    else Appended(l.(write := l.size), growth, n - l.Writable())
  }

  // ----- Runs: any list of operations on one buffer -----

  datatype Op =
    | Append(bytes: seq<byte>)
    | Prepend(bytes: seq<byte>)
    | Retrieve(len: nat)
    | RetrieveAsString
    | Read(bytes: seq<byte>)

  /** What the operation means for the FIFO, with no indices in sight. */
  function Fifo(contents: seq<byte>, op: Op): seq<byte> {
    match op
    case Append(b) => contents + b
    case Prepend(b) => b + contents
    case Retrieve(n) => if n <= |contents| then contents[n..] else contents
    case RetrieveAsString => []
    case Read(b) => contents + b
  }

  function FifoAll(contents: seq<byte>, ops: seq<Op>): seq<byte>
    decreases |ops|
  {
    if ops == [] then contents else FifoAll(Fifo(contents, ops[0]), ops[1..])
  }

  /** The assertions of Buffer.h hold for the operation, and a read stays within what
      `readv` can return. */
  predicate Guard(l: Layout, growth: Growth, op: Op)
    requires l.Ok()
  {
    match op
    case Append(b) => l.CanAppend(growth, |b|)
    case Prepend(b) => |b| <= l.read
    case Retrieve(n) => n <= l.write - l.read
    case RetrieveAsString => true
    case Read(b) => |b| <= l.Writable() + EXTRA_SIZE && CanRead(l, growth, |b|)
  }

  function Next(l: Layout, growth: Growth, op: Op): (r: Layout)
    requires l.Ok() && Guard(l, growth, op)
    ensures r.Ok()
  {
    match op
    case Append(b) => Appended(l, growth, |b|)
    case Prepend(b) => l.(read := l.read - |b|)
    case Retrieve(n) => l.(read := l.read + n)
    case RetrieveAsString => Layout(l.size, CHEAP_PREPEND, CHEAP_PREPEND)
    case Read(b) => AfterRead(l, growth, |b|)
  }

  predicate AllGuarded(l: Layout, growth: Growth, ops: seq<Op>)
    requires l.Ok()
    decreases |ops|
  {
    ops == [] || (Guard(l, growth, ops[0]) && AllGuarded(Next(l, growth, ops[0]), growth, ops[1..]))
  }

  /** One operation on a buffer; `ok` is false when an assertion fails on the way. */
  method Apply(buffer: Buffer, op: Op) returns (ok: bool)
    requires buffer.Valid()
    modifies buffer, buffer.data
    ensures buffer.data == old(buffer.data) || fresh(buffer.data)
    ensures ok <==> Guard(old(buffer.Shape()), buffer.growth, op)
    ensures ok ==> buffer.Valid() && buffer.Shape() == Next(old(buffer.Shape()), buffer.growth, op)
    ensures ok ==> buffer.Contents() == Fifo(old(buffer.Contents()), op)
  {
    ok := true;
    match op {
      case Append(b) => ok := buffer.Append(b);
      case Prepend(b) =>
        if |b| <= buffer.readIndex { buffer.Prepend(b); } else { ok := false; }
      case Retrieve(n) =>
        if n <= buffer.ReadableBytes() { buffer.Retrieve(n); } else { ok := false; }
      case RetrieveAsString => var _ := buffer.RetrieveAsString();
      case Read(b) =>
        if |b| <= buffer.data.Length - buffer.writeIndex + EXTRA_SIZE {
          var n, e, kept := buffer.ReadFd(Bytes(b));
          ok := kept;
        } else { ok := false; }
    }
  }

  /** Run `ops` on a new buffer.  It gets through exactly when every guard holds on the
      way, and then the buffer holds what the plain FIFO holds. */
  method Replay(growth: Growth, ops: seq<Op>) returns (ok: bool, readable: seq<byte>)
    ensures ok <==> AllGuarded(FRESH, growth, ops)
    ensures ok ==> readable == FifoAll([], ops)
  {
    var buffer := new Buffer(growth);
    ok, readable := true, [];
    var i := 0;
    while i < |ops|
      invariant i <= |ops| && buffer.Valid() && fresh(buffer) && fresh(buffer.data)
      invariant buffer.growth == growth && ok
      invariant AllGuarded(FRESH, growth, ops) <==> AllGuarded(buffer.Shape(), growth, ops[i..])
      invariant FifoAll([], ops) == FifoAll(buffer.Contents(), ops[i..])
    {
      assert ops[i..][0] == ops[i] && ops[i..][1..] == ops[i + 1..];
      ok := Apply(buffer, ops[i]);
      if !ok { return; }
      i := i + 1;
    }
    readable := buffer.data[buffer.readIndex..buffer.writeIndex];
  }

  /** Nothing is prepended or retrieved that there is no room for or that is not there, and
      no read is longer than the stack buffer alone.  `held` is the number of readable bytes
      and `front` the room in front that is certain: making space may leave no more than
      `CHEAP_PREPEND` of it. */
  predicate Ordinary(held: nat, front: nat, ops: seq<Op>)
    decreases |ops|
  {
    ops == []
    || (match ops[0]
        case Append(b) => Ordinary(held + |b|, Min(front, CHEAP_PREPEND), ops[1..])
        case Prepend(b) => |b| <= front && Ordinary(held + |b|, front - |b|, ops[1..])
        case Retrieve(n) => n <= held && Ordinary(held - n, front + n, ops[1..])
        case RetrieveAsString => Ordinary(0, CHEAP_PREPEND, ops[1..])
        case Read(b) => |b| <= EXTRA_SIZE && Ordinary(held + |b|, Min(front, CHEAP_PREPEND), ops[1..]))
  }

  /** With the intended growth an ordinary run never fails. */
  lemma {:induction false} IntendedGrowthNeverFails(l: Layout, front: nat, ops: seq<Op>)
    requires l.Ok() && front <= l.read && Ordinary(l.write - l.read, front, ops)
    ensures AllGuarded(l, Intended, ops)
    decreases |ops|
  {
    if ops != [] {
      assert Guard(l, Intended, ops[0]);
      var left := match ops[0]
                  case Prepend(b) => front - |b|
                  case Retrieve(n) => front + n
                  case RetrieveAsString => CHEAP_PREPEND
                  case _ => Min(front, CHEAP_PREPEND);
      IntendedGrowthNeverFails(Next(l, Intended, ops[0]), left, ops[1..]);
    }
  }

  /** With the growth as written the same kind of run fails: two appends of 2000 bytes. */
  lemma AsWrittenGrowthFails()
    ensures var ops := [Append(seq(2000, _ => 0)), Append(seq(2000, _ => 0))];
            Ordinary(0, CHEAP_PREPEND, ops) && !AllGuarded(FRESH, AsWritten, ops)
  {
    var big: seq<byte> := seq(2000, _ => 0);
    var ops := [Append(big), Append(big)];
    assert ops[1..] == [Append(big)] && ops[1..][1..] == [];
    assert Next(FRESH, AsWritten, ops[0]) == Layout(3024, 8, 2008);
  }

  /** As written, a vector that has just grown cannot grow again at the next append, which is
      kept exactly when it fits or can be compacted in. */
  lemma AsWrittenGrowsOnce(l: Layout, first: nat, second: nat)
    requires l.Ok() && l.MustGrow(first) && l.CanAppend(AsWritten, first)
    ensures var grown := Appended(l, AsWritten, first);
            grown.CanAppend(AsWritten, second) <==> !grown.MustGrow(second)
  {
  }
}
