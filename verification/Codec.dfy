/** The length-header codec (asio/Codec.h): four bytes of big-endian length, then the message. */
module Codec {
  import opened Buffers

  const HEADER_LEN: nat := 4
  const MAX_LEN: nat := 65536
  const TWO_31: int := 0x8000_0000
  const TWO_32: int := 0x1_0000_0000

  type Message = seq<byte>

  /** `static_cast<int32_t>` of a size. */
  function ToInt32(n: int): (r: int)
    ensures -TWO_31 <= r < TWO_31
    ensures 0 <= n < TWO_32 ==> n == if r < 0 then r + TWO_32 else r
  {
    var low := n % TWO_32;
    if low < TWO_31 then low else low - TWO_32
  }

  /** The number with these base-256 digits, most significant first. */
  function Quad(x0: int, x1: int, x2: int, x3: int): int {
    ((x0 * 0x100 + x1) * 0x100 + x2) * 0x100 + x3
  }

  /** `ntohl` of four bytes in memory, read as a signed number. */
  function FromNetwork(b0: byte, b1: byte, b2: byte, b3: byte): (v: int)
    ensures -TWO_31 <= v < TWO_31
  {
    ToInt32(Quad(b0, b1, b2, b3))
  }

  /** `htonl`, seen as the bytes it leaves in memory. */
  function ToNetwork(v: int): (h: seq<byte>)
    requires -TWO_31 <= v < TWO_31
    ensures |h| == HEADER_LEN
  {
    var u := if v < 0 then v + TWO_32 else v;
    var q1 := u / 0x100;
    var q2 := q1 / 0x100;
    var q3 := q2 / 0x100;
    [q3 % 0x100, q2 % 0x100, q1 % 0x100, u % 0x100]
  }

  lemma LastDigit(q: nat, x: nat)
    requires x < 0x100
    ensures (q * 0x100 + x) / 0x100 == q && (q * 0x100 + x) % 0x100 == x
  {
  }

  lemma DigitsBack(u: nat)
    requires u < TWO_32
    ensures var q1 := u / 0x100;
            var q2 := q1 / 0x100;
            var q3 := q2 / 0x100;
            q3 % 0x100 == q3 && Quad(q3, q2 % 0x100, q1 % 0x100, u % 0x100) == u
  {
  }

  lemma HeaderRoundTrip(v: int)
    requires -TWO_31 <= v < TWO_31
    ensures var h := ToNetwork(v); FromNetwork(h[0], h[1], h[2], h[3]) == v
  {
    var u := if v < 0 then v + TWO_32 else v;
    DigitsBack(u);
    var h := ToNetwork(v);
    assert Quad(h[0], h[1], h[2], h[3]) == u;
  }

  /** The other direction: every non-negative header is the header of its own length. */
  lemma HeaderIsCanonical(b0: byte, b1: byte, b2: byte, b3: byte)
    requires FromNetwork(b0, b1, b2, b3) >= 0
    ensures ToNetwork(FromNetwork(b0, b1, b2, b3)) == [b0, b1, b2, b3]
  {
    var x0: nat, x1: nat, x2: nat, x3: nat := b0, b1, b2, b3;
    var q2 := x0 * 0x100 + x1;
    var q1 := q2 * 0x100 + x2;
    LastDigit(x0, x1);
    LastDigit(q2, x2);
    LastDigit(q1, x3);
    assert FromNetwork(b0, b1, b2, b3) == q1 * 0x100 + x3;
  }

  /** The header is big-endian: most significant byte first, in two's complement. */
  lemma HeaderIsBigEndian(v: int)
    requires -TWO_31 <= v < TWO_31
    ensures var h := ToNetwork(v);
            var x0: int, x1: int, x2: int, x3: int := h[0], h[1], h[2], h[3];
            x0 * 0x100_0000 + x1 * 0x1_0000 + x2 * 0x100 + x3 == if v < 0 then v + TWO_32 else v
  {
    DigitsBack(if v < 0 then v + TWO_32 else v);
  }

  function Encode(m: Message): seq<byte> {
    ToNetwork(ToInt32(|m|)) + m
  }

  function EncodeAll(ms: seq<Message>): seq<byte> {
    if ms == [] then [] else Encode(ms[0]) + EncodeAll(ms[1..])
  }

  /** What the front of the buffered bytes is. */
  datatype Front = Incomplete | BadLength | Complete(len: nat)

  function Peek(s: seq<byte>): (f: Front)
    ensures f.Complete? ==> HEADER_LEN + f.len <= |s| && f.len <= MAX_LEN
  {
    if |s| < HEADER_LEN then Incomplete
    else
      var len := FromNetwork(s[0], s[1], s[2], s[3]);
      if len > MAX_LEN || len < 0 then BadLength
      else if |s| >= len + HEADER_LEN then Complete(len)
      else Incomplete
  }

  /** What one call of `onMessage` makes of the buffered bytes. */
  datatype Parsed = Parsed(messages: seq<Message>, rest: seq<byte>, invalid: bool) {
    function After(earlier: seq<Message>): Parsed {
      this.(messages := earlier + messages)
    }
  }

  function Parse(s: seq<byte>): Parsed {
    match Peek(s)
    case Incomplete => Parsed([], s, false)
    case BadLength => Parsed([], s, true)
    case Complete(len) => Parse(s[HEADER_LEN + len..]).After([s[HEADER_LEN..HEADER_LEN + len]])
  }

  lemma AfterAfter(p: Parsed, a: seq<Message>, b: seq<Message>)
    ensures p.After([]) == p && p.After(b).After(a) == p.After(a + b)
  {
    assert a + (b + p.messages) == (a + b) + p.messages;
  }

  /** One round of the loop: the first frame of `s` comes off. */
  lemma ParseStep(s: seq<byte>, m: Message, rest: seq<byte>)
    requires Peek(s).Complete?
    requires m == s[HEADER_LEN..][..Peek(s).len] && rest == s[HEADER_LEN..][Peek(s).len..]
    ensures Parse(s) == Parse(rest).After([m])
  {
    assert m == s[HEADER_LEN..HEADER_LEN + Peek(s).len] && rest == s[HEADER_LEN + Peek(s).len..];
  }

  class LengthHeaderCodec {
    /** `onMessage`: the while loop over the connection's input buffer.  The messages are
        those handed to the callback, in order; `invalid` says that the connection was
        shut down because of a bad length. */
    method OnMessage(buffer: Buffer) returns (messages: seq<Message>, invalid: bool)
      requires buffer.Valid()
      modifies buffer`readIndex
      ensures buffer.Valid()
      ensures Parsed(messages, buffer.Contents(), invalid) == Parse(old(buffer.Contents()))
    {
      messages, invalid := [], false;
      AfterAfter(Parse(buffer.Contents()), [], []);
      while buffer.ReadableBytes() >= HEADER_LEN
        invariant buffer.Valid() && !invalid
        invariant Parse(old(buffer.Contents())) == Parse(buffer.Contents()).After(messages)
        decreases buffer.ReadableBytes()
      {
        ghost var here := buffer.Contents();
        var header := buffer.PeekBytes(HEADER_LEN);
        var len := FromNetwork(header[0], header[1], header[2], header[3]);
        if len > MAX_LEN || len < 0 {
          invalid := true;
          break;
        } else if buffer.ReadableBytes() >= len + HEADER_LEN {
          buffer.Retrieve(HEADER_LEN);
          var message := buffer.PeekBytes(len);
          buffer.Retrieve(len);
          ParseStep(here, message, buffer.Contents());
          AfterAfter(Parse(buffer.Contents()), messages, [message]);
          messages := messages + [message];
        } else {
          break;
        }
      }
    }

    /** `send`, up to the buffer it hands to the connection.  A new buffer has room for any
        message whichever way it grows, and for the header in front of it. */
    method Frame(growth: Growth, message: Message) returns (buffer: Buffer)
      ensures fresh(buffer) && buffer.Valid() && fresh(buffer.data)
      ensures buffer.Contents() == Encode(message)
    {
      buffer := new Buffer(growth);
      var ok := buffer.Append(message);
      assert ok;
      buffer.Prepend(ToNetwork(ToInt32(|message|)));
    }
  }

  // ----- Fragmentation -----

  /** More bytes do not change what a complete or bad front is. */
  lemma PeekIsStable(a: seq<byte>, b: seq<byte>)
    requires !Peek(a).Incomplete?
    ensures Peek(a + b) == Peek(a)
    ensures Peek(a).Complete? ==>
              var cut := HEADER_LEN + Peek(a).len;
              (a + b)[cut..] == a[cut..] + b && (a + b)[HEADER_LEN..cut] == a[HEADER_LEN..cut]
  {
  }

  /** Parsing in two instalments is parsing once, whatever the bytes are. */
  lemma {:induction false} ParseConcat(a: seq<byte>, b: seq<byte>)
    ensures Parse(a + b) == Parse(Parse(a).rest + b).After(Parse(a).messages)
    decreases |a|
  {
    hide FromNetwork;
    AfterAfter(Parse(a + b), [], []);
    match Peek(a) {
      case Incomplete =>
      case BadLength => PeekIsStable(a, b);
      case Complete(len) =>
        var cut := HEADER_LEN + len;
        var m, tail := a[HEADER_LEN..cut], a[cut..];
        PeekIsStable(a, b);
        assert Parse(a) == Parse(tail).After([m]) && Parse(a + b) == Parse(tail + b).After([m]);
        hide Parse, Peek;
        ParseConcat(tail, b);
        AfterAfter(Parse(Parse(tail).rest + b), [m], Parse(tail).messages);
    }
  }

  /** The receiving side of a connection: what was delivered and what is still buffered. */
  datatype Receiver = Receiver(delivered: seq<Message>, residue: seq<byte>, invalid: bool)

  const NOTHING_RECEIVED: Receiver := Receiver([], [], false)

  /** One `handleRead`: the chunk is appended to the input buffer, then `onMessage` runs. */
  function Feed(r: Receiver, chunk: seq<byte>): Receiver {
    var p := Parse(r.residue + chunk);
    Receiver(r.delivered + p.messages, p.rest, p.invalid)
  }

  function FeedAll(r: Receiver, chunks: seq<seq<byte>>): Receiver {
    if chunks == [] then r else Feed(FeedAll(r, chunks[..|chunks| - 1]), chunks[|chunks| - 1])
  }

  function Flatten(chunks: seq<seq<byte>>): seq<byte> {
    if chunks == [] then [] else Flatten(chunks[..|chunks| - 1]) + chunks[|chunks| - 1]
  }

  /** `TcpConnection::handleRead` with this codec as the message callback.  `kept` is false
      only when the buffer's growth fails (see `Buffers.CanRead`). */
  method HandleRead(codec: LengthHeaderCodec, buffer: Buffer, chunk: seq<byte>)
    returns (messages: seq<Message>, invalid: bool, kept: bool)
    requires buffer.Valid() && 0 < |chunk| <= buffer.data.Length - buffer.writeIndex + EXTRA_SIZE
    modifies buffer, buffer.data
    ensures kept <==> CanRead(old(buffer.Shape()), buffer.growth, |chunk|)
    ensures kept ==> buffer.Valid()
    ensures kept ==> forall delivered: seq<Message>, before: bool ::
              Feed(Receiver(delivered, old(buffer.Contents()), before), chunk)
              == Receiver(delivered + messages, buffer.Contents(), invalid)
  {
    var n, savedErrno, ok := buffer.ReadFd(Bytes(chunk));
    kept := ok;
    messages, invalid := [], false;
    if kept {
      messages, invalid := codec.OnMessage(buffer);
    }
  }

  /** However the stream is cut into chunks, valid or not, the receiver ends where a single
      parse of the whole stream ends. */
  lemma {:induction false} FragmentationIsInvisible(chunks: seq<seq<byte>>)
    ensures var p := Parse(Flatten(chunks));
            FeedAll(NOTHING_RECEIVED, chunks) == Receiver(p.messages, p.rest, p.invalid)
  {
    if chunks != [] {
      var front := chunks[..|chunks| - 1];
      FragmentationIsInvisible(front);
      ParseConcat(Flatten(front), chunks[|chunks| - 1]);
    }
  }

  // ----- Round trip -----

  predicate Fits(m: Message) { |m| <= MAX_LEN }

  predicate AllFit(ms: seq<Message>) { forall i :: 0 <= i < |ms| ==> Fits(ms[i]) }

  /** What the front of an encoded message is; the message fits exactly when it is whole. */
  lemma PeekFrame(m: Message, rest: seq<byte>)
    ensures var len := ToInt32(|m|);
            Peek(Encode(m) + rest) == if 0 <= len <= MAX_LEN then Complete(len) else BadLength
  {
    HeaderRoundTrip(ToInt32(|m|));
    var h := ToNetwork(ToInt32(|m|));
    var s := Encode(m) + rest;
    assert s[0] == h[0] && s[1] == h[1] && s[2] == h[2] && s[3] == h[3];
  }

  /** Any header that says how long the message is, in front of anything. */
  lemma ParseHeader(h: seq<byte>, m: Message, rest: seq<byte>)
    requires |h| == HEADER_LEN && FromNetwork(h[0], h[1], h[2], h[3]) == |m| && Fits(m)
    ensures Parse((h + m) + rest) == Parse(rest).After([m])
  {
    var s := (h + m) + rest;
    assert s[0] == h[0] && s[1] == h[1] && s[2] == h[2] && s[3] == h[3];
    assert s[HEADER_LEN..HEADER_LEN + |m|] == m && s[HEADER_LEN + |m|..] == rest;
  }

  /** One frame in front of anything. */
  lemma ParseFrame(m: Message, rest: seq<byte>)
    requires Fits(m)
    ensures Parse(Encode(m) + rest) == Parse(rest).After([m])
  {
    HeaderRoundTrip(ToInt32(|m|));
    ParseHeader(ToNetwork(ToInt32(|m|)), m, rest);
  }

  lemma {:induction false} ParseFrames(ms: seq<Message>, rest: seq<byte>)
    requires AllFit(ms)
    ensures Parse(EncodeAll(ms) + rest) == Parse(rest).After(ms)
  {
    if ms == [] {
      assert EncodeAll(ms) + rest == rest;
      AfterAfter(Parse(rest), [], []);
    } else {
      ParseFrames(ms[1..], rest);
      ParseFrame(ms[0], EncodeAll(ms[1..]) + rest);
      Assoc(Encode(ms[0]), EncodeAll(ms[1..]), rest);
      AfterAfter(Parse(rest), [ms[0]], ms[1..]);
      assert [ms[0]] + ms[1..] == ms;
    }
  }

  /** A message over the limit never comes out as itself: its header is refused, or (from
      2^32 bytes on) names a shorter message. */
  lemma OversizeIsNotDelivered(m: Message, rest: seq<byte>)
    requires !Fits(m)
    ensures var p := Parse(Encode(m) + rest); p.invalid || (p.messages != [] && p.messages[0] != m)
  {
    PeekFrame(m, rest);
  }

  /** The round trip, for every list of messages and every way to cut their encodings into
      chunks: it delivers exactly the messages, with nothing left over and no error, if and
      only if no message is longer than the limit. */
  lemma {:induction false} RoundTripExactly(ms: seq<Message>, chunks: seq<seq<byte>>)
    requires Flatten(chunks) == EncodeAll(ms)
    ensures FeedAll(NOTHING_RECEIVED, chunks) == Receiver(ms, [], false) <==> AllFit(ms)
  {
    FragmentationIsInvisible(chunks);
    if AllFit(ms) {
      ParseFrames(ms, []);
      assert EncodeAll(ms) + [] == EncodeAll(ms);
    } else {
      OversizeBreaksTheTrip(ms);
    }
  }

  lemma {:induction false} OversizeBreaksTheTrip(ms: seq<Message>)
    requires !AllFit(ms)
    ensures Parse(EncodeAll(ms)) != Parsed(ms, [], false)
  {
    if Fits(ms[0]) {
      ParseFrame(ms[0], EncodeAll(ms[1..]));
      assert exists i :: 0 <= i < |ms| && !Fits(ms[i]);
      var i :| 0 <= i < |ms| && !Fits(ms[i]);
      assert !Fits(ms[1..][i - 1]);
      OversizeBreaksTheTrip(ms[1..]);
      var p := Parse(EncodeAll(ms[1..]));
      if [ms[0]] + p.messages == ms {
        assert p.messages == ([ms[0]] + p.messages)[1..];
      }
    } else {
      OversizeIsNotDelivered(ms[0], EncodeAll(ms[1..]));
    }
  }

  /** The receiver is in the middle of the list `ms` after the bytes `stream`. */
  ghost predicate Midway(ms: seq<Message>, stream: seq<byte>, p: Parsed) {
    && !p.invalid && p.messages <= ms
    && EncodeAll(p.messages) + p.rest == stream
    && (if |p.messages| == |ms| then p.rest == [] else p.rest < Encode(ms[|p.messages|]))
  }

  /** After any prefix of the stream, in any fragmentation, the messages delivered are a
      prefix of the list, and the residue is a proper prefix of the next encoding. */
  lemma {:induction false} PrefixDelivered(ms: seq<Message>, chunks: seq<seq<byte>>)
    requires AllFit(ms) && Flatten(chunks) <= EncodeAll(ms)
    ensures var r := FeedAll(NOTHING_RECEIVED, chunks);
            Midway(ms, Flatten(chunks), Parsed(r.delivered, r.residue, r.invalid))
  {
    FragmentationIsInvisible(chunks);
    ParsePrefix(ms, Flatten(chunks));
  }

  lemma Assoc(a: seq<byte>, b: seq<byte>, c: seq<byte>)
    ensures (a + b) + c == a + (b + c)
  {
  }

  /** A frame cut short is incomplete. */
  lemma PartialFrame(m: Message, part: seq<byte>)
    requires Fits(m) && part < Encode(m)
    ensures Parse(part) == Parsed([], part, false)
  {
    if !Peek(part).Incomplete? {
      var missing := Encode(m)[|part|..];
      assert part + missing == Encode(m) + [];
      PeekFrame(m, []);
      PeekIsStable(part, missing);
    }
  }

  lemma {:induction false} ParsePrefix(ms: seq<Message>, stream: seq<byte>)
    requires AllFit(ms) && stream <= EncodeAll(ms)
    ensures Midway(ms, stream, Parse(stream))
  {
    if ms != [] {
      var first := Encode(ms[0]);
      if |stream| < |first| {
        assert stream == first[..|stream|];
        PartialFrame(ms[0], stream);
      } else {
        var tail := stream[|first|..];
        assert stream == first + tail;
        ParsePrefix(ms[1..], tail);
        ParseFrame(ms[0], tail);
        MidwayCons(ms, tail, Parse(tail));
      }
    }
  }

  lemma MidwayCons(ms: seq<Message>, tail: seq<byte>, p: Parsed)
    requires ms != [] && Midway(ms[1..], tail, p)
    ensures Midway(ms, Encode(ms[0]) + tail, p.After([ms[0]]))
  {
    EncodeCons(ms[0], p.messages);
    Assoc(Encode(ms[0]), EncodeAll(p.messages), p.rest);
    assert ms == [ms[0]] + ms[1..];
  }

  lemma EncodeCons(m: Message, ms: seq<Message>)
    ensures EncodeAll([m] + ms) == Encode(m) + EncodeAll(ms)
  {
    assert ([m] + ms)[1..] == ms;
  }

  lemma FrameIsCanonical(s: seq<byte>)
    requires Peek(s).Complete?
    ensures var cut := HEADER_LEN + Peek(s).len; Encode(s[HEADER_LEN..cut]) == s[..cut]
  {
    HeaderIsCanonical(s[0], s[1], s[2], s[3]);
  }

  /** What was delivered, encoded again, followed by the residue, is the stream. */
  predicate Lossless(stream: seq<byte>, p: Parsed) { EncodeAll(p.messages) + p.rest == stream }

  lemma LosslessCons(m: Message, tail: seq<byte>, p: Parsed)
    requires Lossless(tail, p)
    ensures Lossless(Encode(m) + tail, p.After([m]))
  {
    EncodeCons(m, p.messages);
    Assoc(Encode(m), EncodeAll(p.messages), p.rest);
  }

  /** Nothing is lost on any stream, well formed or not. */
  lemma {:induction false} NothingLost(stream: seq<byte>)
    ensures Lossless(stream, Parse(stream))
    decreases |stream|
  {
    if Peek(stream).Complete? {
      var cut := HEADER_LEN + Peek(stream).len;
      var m, tail := stream[HEADER_LEN..cut], stream[cut..];
      assert Parse(stream) == Parse(tail).After([m]);
      hide Parse, Lossless, Encode;
      NothingLost(tail);
      FrameIsCanonical(stream);
      LosslessCons(m, tail, Parse(tail));
      assert stream == stream[..cut] + tail;
    }
  }

  /** Nothing is held back: the residue contains no complete frame, and every delivered
      message is within the limit. */
  lemma {:induction false} NothingHeldBack(stream: seq<byte>)
    ensures var p := Parse(stream); AllFit(p.messages) && Parse(p.rest) == Parsed([], p.rest, p.invalid)
    decreases |stream|
  {
    if Peek(stream).Complete? {
      var cut := HEADER_LEN + Peek(stream).len;
      NothingHeldBack(stream[cut..]);
    }
  }

  /** After a bad length the connection is dead for this codec: no later chunk is delivered. */
  lemma {:induction false} InvalidIsFinal(r: Receiver, chunks: seq<seq<byte>>)
    requires r.invalid && Parse(r.residue) == Parsed([], r.residue, true)
    ensures var s := FeedAll(r, chunks);
            s.delivered == r.delivered && s.invalid && s.residue == r.residue + Flatten(chunks)
            && Parse(s.residue) == Parsed([], s.residue, true)
  {
    if chunks != [] {
      var front := chunks[..|chunks| - 1];
      InvalidIsFinal(r, front);
      var last := chunks[|chunks| - 1];
      ParseConcat(r.residue + Flatten(front), last);
      assert r.residue + Flatten(front) + last == r.residue + Flatten(chunks);
      assert r.delivered + [] == r.delivered;
    }
  }
}
