/** The RustDesk frame format: a payload after a header of one to four bytes whose low
    two bits give the header's length and whose remaining bits give the payload's. */
module FrameCodec {
  import opened Wrappers
  import opened Bits

  const HANDSHAKE_LIMIT := 1024 * 1024
  const MAX_ENCODABLE := 0x3fff_ffff

  // ---------- encoding ----------

  predicate Encodable(payload: seq<Byte>, max: nat) {
    |payload| <= max && |payload| <= MAX_ENCODABLE
  }

  /** The header length the encoder picks. */
  function HeaderLength(length: nat): nat {
    if length <= 0x3f then 1 else if length <= 0x3fff then 2 else if length <= 0x3f_ffff then 3 else 4
  }

  /** A frame: the length, tagged with the header length, little-endian, then the payload. */
  function Frame(payload: seq<Byte>): seq<Byte> {
    var h := HeaderLength(|payload|);
    ToLittleEndian(4 * |payload| + h - 1, h) + payload
  }

  function Frames(payloads: seq<seq<Byte>>): seq<Byte> {
    if payloads == [] then [] else Frame(payloads[0]) + Frames(payloads[1..])
  }

  lemma TagIsSum(length: nat, tag: nat)
    requires tag < 4
    ensures Or(Shl(length, 2), tag) == 4 * length + tag
  {
    assert Pow2(2) == 4;
    OrDisjoint(tag, length, 2);
  }

  /** A three-byte number as the encoder writes it: a two-byte part, then one byte. */
  lemma SplitHeader(n: nat)
    ensures ToLittleEndian(n % 0x1_0000, 2) + [n / 0x1_0000 % 256] == ToLittleEndian(n, 3)
  {
    var low := n % 0x1_0000;
    assert ToLittleEndian(low, 2) == [low % 256] + ToLittleEndian(low / 256, 1);
    assert ToLittleEndian(low / 256, 1) == [low / 256 % 256] + ToLittleEndian(low / 256 / 256, 0);
    assert ToLittleEndian(n, 3) == [n % 256] + ToLittleEndian(n / 256, 2);
    assert ToLittleEndian(n / 256, 2) == [n / 256 % 256] + ToLittleEndian(n / 256 / 256, 1);
    assert ToLittleEndian(n / 256 / 256, 1) == [n / 256 / 256 % 256] + ToLittleEndian(n / 256 / 256 / 256, 0);
    assert low % 256 == n % 256 && low / 256 % 256 == n / 256 % 256 && n / 256 / 256 == n / 0x1_0000;
  }

  /** Appends a frame to `target`, or refuses and leaves it alone. */
  method Encode(payload: seq<Byte>, max: nat, target: seq<Byte>) returns (r: Option<seq<Byte>>)
    ensures r == if Encodable(payload, max) then Some(target + Frame(payload)) else None
  {
    var length := |payload|;
    if length > max {
      return None;
    }
    var out := target;
    if length <= 0x3f {
      TagIsSum(length, 0);
      out := out + ToLittleEndian(Shl(length, 2), 1);
    } else if length <= 0x3fff {
      TagIsSum(length, 1);
      out := out + ToLittleEndian(Or(Shl(length, 2), 1), 2);
    } else if length <= 0x3f_ffff {
      TagIsSum(length, 2);
      var header := Or(Shl(length, 2), 2);
      SplitHeader(header);
      out := out + ToLittleEndian(header % 0x1_0000, 2);
      out := out + [header / 0x1_0000 % 256];
      assert out == target + ToLittleEndian(header, 3);
    } else if length <= 0x3fff_ffff {
      TagIsSum(length, 3);
      out := out + ToLittleEndian(Or(Shl(length, 2), 3), 4);
    } else {
      return None;
    }
    out := out + payload;
    assert out == target + Frame(payload);
    return Some(out);
  }

  /** The header is the shortest of one to four bytes that fits; its little-endian value, over four, is the
      payload's length, and its low two bits say how many bytes follow the first. */
  lemma HeaderSays(payload: seq<Byte>)
    requires |payload| <= 0x3fff_ffff
    ensures var n, frame := |payload|, Frame(payload);
            var h := |frame| - n;
            && h == (if n < 0x40 then 1 else if n < 0x4000 then 2 else if n < 0x40_0000 then 3 else 4)
            && frame[h..] == payload
            && LittleEndian(frame[..h]) == 4 * n + (h - 1)
  {
    var n := |payload|;
    var h := HeaderLength(n);
    FitsHeader(n);
    LittleEndianRoundTrip(4 * n + h - 1, h);
    assert Frame(payload)[..h] == ToLittleEndian(4 * n + h - 1, h);
  }

  // ---------- decoding ----------

  /** The decoder between calls: the payload length it is waiting for, and unread bytes. */
  datatype Decoder = Decoder(expected: Option<nat>, buffer: seq<Byte>)

  datatype Decoded = NeedMore(next: Decoder) | Got(payload: seq<Byte>, next: Decoder) | TooLong

  predicate HasHeader(bytes: seq<Byte>) {
    bytes != [] && |bytes| >= bytes[0] % 4 + 1
  }

  function Announced(bytes: seq<Byte>): nat
    requires HasHeader(bytes)
  {
    LittleEndian(bytes[..bytes[0] % 4 + 1]) / 4
  }

  function TakePayload(length: nat, bytes: seq<Byte>): Decoded {
    if |bytes| < length then NeedMore(Decoder(Some(length), bytes))
    else Got(bytes[..length], Decoder(None, bytes[length..]))
  }

  function Decode(d: Decoder, max: nat): Decoded {
    match d.expected
    case Some(length) => TakePayload(length, d.buffer)
    case None =>
      if !HasHeader(d.buffer) then NeedMore(d)
      else if Announced(d.buffer) > max then TooLong
      else TakePayload(Announced(d.buffer), d.buffer[d.buffer[0] % 4 + 1..])
  }

  class BytesCodec {
    const max: nat
    var expected: Option<nat>
    var source: seq<Byte>

    constructor (max: nat)
      ensures this.max == max && expected == None && source == []
    {
      this.max, expected, source := max, None, [];
    }

    method DecodeNext() returns (r: Option<seq<Byte>>, failed: bool)
      modifies this
      ensures match Decode(Decoder(old(expected), old(source)), max)
              case NeedMore(next) => r == None && !failed && Decoder(expected, source) == next
              case Got(payload, next) => r == Some(payload) && !failed && Decoder(expected, source) == next
              case TooLong => r == None && failed && expected == old(expected) && source == old(source)
    {
      if expected.None? {
        if source == [] {
          return None, false;
        }
        var headerLength := source[0] % 4 + 1;
        if |source| < headerLength {
          return None, false;
        }
        var length := Accumulate(source[..headerLength]);
        length := length / 4;
        if length > max {
          return None, true;
        }
        source := source[headerLength..];
        expected := Some(length);
      }
      var length := expected.value;
      if |source| < length {
        return None, false;
      }
      expected := None;
      r := Some(source[..length]);
      source := source[length..];
      failed := false;
    }
  }

  // ---------- a whole stream ----------

  /** Payloads decoded so far, and the decoder afterwards unless a frame was too long. */
  datatype Outcome = Outcome(payloads: seq<seq<Byte>>, rest: Option<Decoder>)

  function Prepend(payload: seq<Byte>, o: Outcome): Outcome {
    Outcome([payload] + o.payloads, o.rest)
  }

  function Then(payloads: seq<seq<Byte>>, later: Outcome): Outcome {
    Outcome(payloads + later.payloads, later.rest)
  }

  function Measure(d: Decoder): nat {
    2 * |d.buffer| + (if d.expected.Some? then 1 else 0)
  }

  /** Decoding until more bytes are needed. */
  function Drain(d: Decoder, max: nat): Outcome
    decreases Measure(d)
  {
    match Decode(d, max)
    case NeedMore(next) => Outcome([], Some(next))
    case TooLong => Outcome([], None)
    case Got(payload, next) => Prepend(payload, Drain(next, max))
  }

  function Push(d: Decoder, chunk: seq<Byte>): Decoder {
    d.(buffer := d.buffer + chunk)
  }

  /** Reading chunks as they arrive, draining after each. */
  function Feed(d: Decoder, chunks: seq<seq<Byte>>, max: nat): Outcome
    decreases |chunks|
  {
    if chunks == [] then Outcome([], Some(d))
    else
      var first := Drain(Push(d, chunks[0]), max);
      match first.rest
      case None => first
      case Some(next) => Then(first.payloads, Feed(next, chunks[1..], max))
  }

  function Concat(chunks: seq<seq<Byte>>): seq<Byte> {
    if chunks == [] then [] else chunks[0] + Concat(chunks[1..])
  }

  /** A decoder that has drained what it was given. */
  ghost predicate Drained(d: Decoder, max: nat) {
    Decode(d, max) == NeedMore(d)
  }

  lemma DecodeMore(d: Decoder, more: seq<Byte>, max: nat)
    ensures match Decode(d, max)
            case NeedMore(next) => Decode(Push(d, more), max) == Decode(Push(next, more), max) && Drained(next, max)
            case TooLong => Decode(Push(d, more), max) == TooLong
            case Got(payload, next) => Decode(Push(d, more), max) == Got(payload, Push(next, more))
  {
    var bytes := d.buffer + more;
    if d.expected.None? && HasHeader(d.buffer) {
      var h := d.buffer[0] % 4 + 1;
      assert bytes[..h] == d.buffer[..h];
      assert bytes[h..] == d.buffer[h..] + more;
      var length := Announced(d.buffer);
      var body := d.buffer[h..];
      if |body| >= length {
        assert (body + more)[..length] == body[..length];
        assert (body + more)[length..] == body[length..] + more;
      }
    } else if d.expected.Some? && |d.buffer| >= d.expected.value {
      assert bytes[..d.expected.value] == d.buffer[..d.expected.value];
      assert bytes[d.expected.value..] == d.buffer[d.expected.value..] + more;
    }
  }

  lemma DrainUnfolds(d: Decoder, payload: seq<Byte>, next: Decoder, max: nat)
    requires Decode(d, max) == Got(payload, next)
    ensures Measure(next) < Measure(d) && Drain(d, max) == Prepend(payload, Drain(next, max))
  {
  }

  lemma PrependThen(payload: seq<Byte>, payloads: seq<seq<Byte>>, later: Outcome)
    ensures Prepend(payload, Then(payloads, later)) == Then([payload] + payloads, later)
  {
    assert [payload] + (payloads + later.payloads) == [payload] + payloads + later.payloads;
  }

  /** Draining a stream with more bytes behind it: first what was there, then the rest. */
  lemma {:induction false} DrainMore(d: Decoder, more: seq<Byte>, max: nat)
    ensures var o := Drain(d, max);
            match o.rest
            case None => Drain(Push(d, more), max) == o
            case Some(next) => Drained(next, max) && Drain(Push(d, more), max) == Then(o.payloads, Drain(Push(next, more), max))
    decreases Measure(d)
  {
    DecodeMore(d, more, max);
    var step := Decode(d, max);
    if step.Got? {
      var payload, next := step.payload, step.next;
      DrainUnfolds(d, payload, next, max);
      DrainUnfolds(Push(d, more), payload, Push(next, more), max);
      DrainMore(next, more, max);
      var o := Drain(next, max);
      if o.rest.Some? {
        PrependThen(payload, o.payloads, Drain(Push(o.rest.value, more), max));
      }
    } else if step.NeedMore? {
      assert Drain(Push(d, more), max) == Drain(Push(step.next, more), max);
    }
  }

  /** The chunking does not matter: for any byte stream, valid or not, the payloads and
      the outcome are those of decoding the whole stream at once. */
  lemma {:induction false} ChunkingIsInvisible(d: Decoder, chunks: seq<seq<Byte>>, max: nat)
    requires Drained(d, max)
    ensures Feed(d, chunks, max) == Drain(Push(d, Concat(chunks)), max)
    decreases |chunks|
  {
    if chunks == [] {
      assert Push(d, Concat(chunks)) == d;
    } else {
      var more := Concat(chunks[1..]);
      assert Push(d, Concat(chunks)) == Push(Push(d, chunks[0]), more) by {
        assert d.buffer + (chunks[0] + more) == d.buffer + chunks[0] + more;
      }
      DrainMore(Push(d, chunks[0]), more, max);
      var first := Drain(Push(d, chunks[0]), max);
      if first.rest.Some? {
        ChunkingIsInvisible(first.rest.value, chunks[1..], max);
      }
    }
  }

  // ---------- round trip ----------

  lemma TagSurvives(n: nat, width: nat)
    requires width > 0
    ensures ToLittleEndian(n, width)[0] % 4 == n % 4
  {
  }

  lemma FitsHeader(length: nat)
    requires length <= MAX_ENCODABLE
    ensures 4 * length + 3 < Pow2(8 * HeaderLength(length))
  {
    assert Pow2(8) == 256;
    Pow2Adds(8, 8);
    Pow2Adds(16, 8);
    Pow2Adds(24, 8);
    assert Pow2(16) == 0x1_0000 && Pow2(24) == 0x100_0000 && Pow2(32) == 0x1_0000_0000;
  }

  lemma HeaderReadsBack(length: nat)
    requires length <= MAX_ENCODABLE
    ensures var h := HeaderLength(length);
            var header := ToLittleEndian(4 * length + h - 1, h);
            header[0] % 4 + 1 == h && LittleEndian(header) / 4 == length
  {
    var h := HeaderLength(length);
    FitsHeader(length);
    TagSurvives(4 * length + h - 1, h);
    LittleEndianRoundTrip(4 * length + h - 1, h);
  }

  lemma FrameDecodes(payload: seq<Byte>, rest: seq<Byte>, max: nat)
    requires Encodable(payload, max)
    ensures Decode(Decoder(None, Frame(payload) + rest), max) == Got(payload, Decoder(None, rest))
  {
    var h := HeaderLength(|payload|);
    var header := ToLittleEndian(4 * |payload| + h - 1, h);
    var bytes := Frame(payload) + rest;
    HeaderReadsBack(|payload|);
    assert bytes[0] == header[0];
    assert bytes[..h] == header;
    assert bytes[h..] == payload + rest;
    assert (payload + rest)[..|payload|] == payload && (payload + rest)[|payload|..] == rest;
  }

  lemma {:induction false} FramesDrain(payloads: seq<seq<Byte>>, max: nat)
    requires forall i :: 0 <= i < |payloads| ==> Encodable(payloads[i], max)
    ensures Drain(Decoder(None, Frames(payloads)), max) == Outcome(payloads, Some(Decoder(None, [])))
    decreases |payloads|
  {
    if payloads != [] {
      FrameDecodes(payloads[0], Frames(payloads[1..]), max);
      FramesDrain(payloads[1..], max);
    }
  }

  /** Every list of encodable payloads, cut into chunks anywhere, comes back exactly. */
  lemma StreamRoundTrip(payloads: seq<seq<Byte>>, chunks: seq<seq<Byte>>, max: nat)
    requires forall i :: 0 <= i < |payloads| ==> Encodable(payloads[i], max)
    requires Concat(chunks) == Frames(payloads)
    ensures Feed(Decoder(None, []), chunks, max) == Outcome(payloads, Some(Decoder(None, [])))
  {
    ChunkingIsInvisible(Decoder(None, []), chunks, max);
    assert Push(Decoder(None, []), Concat(chunks)) == Decoder(None, Frames(payloads));
    FramesDrain(payloads, max);
  }

  // ---------- the handshake reader ----------

  datatype Handshake = EndOfStream | HandshakeTooLarge | Read(payload: seq<Byte>, rest: seq<Byte>)

  /** Reads one frame from a stream of bytes, as the relay does for the first message. */
  method ReadFrame(stream: seq<Byte>) returns (r: Handshake)
    ensures r.EndOfStream? <==> Decode(Decoder(None, stream), 1_048_576).NeedMore?
    ensures r.HandshakeTooLarge? <==> Decode(Decoder(None, stream), 1_048_576).TooLong?
    ensures r.Read? ==> Decode(Decoder(None, stream), 1_048_576) == Got(r.payload, Decoder(None, r.rest))
  {
    if stream == [] {
      return EndOfStream;
    }
    var headerLength := stream[0] % 4 + 1;
    if |stream| < headerLength {
      return EndOfStream;
    }
    var packed := Accumulate(stream[..headerLength]);
    var length := packed / 4;
    if length > HANDSHAKE_LIMIT {
      return HandshakeTooLarge;
    }
    var body := stream[headerLength..];
    if |body| < length {
      return EndOfStream;
    }
    return Read(body[..length], body[length..]);
  }

  /** Two limits give the same frame exactly when its payload is within both. */
  lemma LimitsAgree(stream: seq<Byte>, small: nat, large: nat, payload: seq<Byte>, next: Decoder)
    requires Decode(Decoder(None, stream), large) == Got(payload, next)
    ensures Decode(Decoder(None, stream), small) == Got(payload, next) <==> |payload| <= small
    ensures Decode(Decoder(None, stream), small) == TooLong <==> |payload| > small
  {
  }
}
