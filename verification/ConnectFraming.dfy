/** The enveloped-message framing of the Connect protocol: each message is one flag byte, a
    four-byte big-endian length and the payload.  The decoder reads a stream that arrives
    in arbitrary chunks. */
module ConnectFraming {
  import opened Wrappers

  newtype byte = x: int | 0 <= x < 256

  type Bytes = seq<byte>

  datatype Frame = Frame(flags: byte, payload: Bytes)

  /** How reading ends: at the end of a message, within one, or because of a size limit. */
  datatype End = Complete | Truncated | TooLarge

  const MAX_FRAME_BYTES: nat := 64 * 1024 * 1024

  function Uint32(b: Bytes): (n: nat)
    requires |b| == 4
    ensures n < 0x1_0000_0000
  {
    ((b[0] as nat * 256 + b[1] as nat) * 256 + b[2] as nat) * 256 + b[3] as nat
  }

  function BigEndian(n: nat): (b: Bytes)
    requires n < 0x1_0000_0000
    ensures |b| == 4
  {
    [(n / 0x1_000000) as byte, (n / 0x1_0000 % 256) as byte, (n / 0x100 % 256) as byte, (n % 256) as byte]
  }

  lemma BigEndianRoundTrip(n: nat)
    requires n < 0x1_0000_0000
    ensures Uint32(BigEndian(n)) == n
  {
    assert n / 0x1_000000 == n / 0x1_0000 / 256;
    assert n / 0x1_0000 == n / 0x100 / 256;
  }

  // ---- Encoding ----

  function Encoded(payload: Bytes): (b: Bytes)
    requires |payload| <= MAX_FRAME_BYTES
    ensures |b| == 5 + |payload|
  {
    [0] + BigEndian(|payload|) + payload
  }

  method ConnectEnvelope(payload: Bytes) returns (r: Option<Bytes>)
    ensures r == if |payload| > MAX_FRAME_BYTES then None else Some(Encoded(payload))
  {
    if |payload| > MAX_FRAME_BYTES { return None; }
    var result := new byte[5 + |payload|](_ => 0);
    var size := BigEndian(|payload|);
    result[1], result[2], result[3], result[4] := size[0], size[1], size[2], size[3];
    var i := 0;
    while i < |payload|
      invariant 0 <= i <= |payload|
      invariant result[..5] == [0] + size
      invariant result[5..5 + i] == payload[..i]
    {
      result[5 + i] := payload[i];
      assert result[5..5 + i + 1] == result[5..5 + i] + [payload[i]];
      i := i + 1;
    }
    assert payload[..|payload|] == payload;
    assert result[..] == result[..5] + result[5..5 + |payload|];
    r := Some(result[..]);
  }

  // ---- What a whole stream means ----

  function Size(s: Bytes): nat
    requires |s| >= 5
  {
    Uint32(s[1..5])
  }

  /** The stream starts with a whole message of an allowed size. */
  predicate HasFrame(s: Bytes) {
    |s| >= 5 && Size(s) <= MAX_FRAME_BYTES && |s| >= 5 + Size(s)
  }

  function FrameOf(s: Bytes): Frame
    requires HasFrame(s)
  {
    Frame(s[0], s[5..5 + Size(s)])
  }

  function Tail(s: Bytes): (t: Bytes)
    requires HasFrame(s)
    ensures |t| < |s|
  {
    s[5 + Size(s)..]
  }

  function Frames(s: Bytes): seq<Frame>
    decreases |s|
  {
    if HasFrame(s) then [FrameOf(s)] + Frames(Tail(s)) else []
  }

  /** What is left after the last whole message. */
  function Rest(s: Bytes): (r: Bytes)
    ensures !HasFrame(r)
    decreases |s|
  {
    if HasFrame(s) then Rest(Tail(s)) else s
  }

  /** The next message announces more than the limit. */
  predicate Oversized(s: Bytes) {
    |Rest(s)| >= 5 && Size(Rest(s)) > MAX_FRAME_BYTES
  }

  lemma {:induction false} Extend(s: Bytes, t: Bytes)
    ensures Frames(s + t) == Frames(s) + Frames(Rest(s) + t)
    ensures Rest(s + t) == Rest(Rest(s) + t)
    decreases |s|
  {
    if HasFrame(s) {
      assert (s + t)[1..5] == s[1..5];
      assert FrameOf(s + t) == FrameOf(s);
      assert Tail(s + t) == Tail(s) + t;
      Extend(Tail(s), t);
    }
  }

  function Concat(chunks: seq<Bytes>): Bytes {
    if chunks == [] then [] else Concat(chunks[..|chunks| - 1]) + chunks[|chunks| - 1]
  }

  // ---- Decoding chunk by chunk ----

  /** `frames` have been taken off the buffer and `pending` is left. */
  ghost predicate Taken(buffer: Bytes, frames: seq<Frame>, pending: Bytes) {
    frames + Frames(pending) == Frames(buffer) && Rest(pending) == Rest(buffer)
  }

  lemma TakenNext(buffer: Bytes, frames: seq<Frame>, pending: Bytes)
    requires Taken(buffer, frames, pending)
    ensures HasFrame(pending) ==> Taken(buffer, frames + [FrameOf(pending)], Tail(pending))
    ensures !HasFrame(pending) ==> frames == Frames(buffer) && pending == Rest(buffer)
  {
    if HasFrame(pending) {
      assert frames + ([FrameOf(pending)] + Frames(Tail(pending))) ==
             (frames + [FrameOf(pending)]) + Frames(Tail(pending));
    }
  }

  /** One turn of the inner loop: whether the buffer holds a whole message, and whether the
      announced size is allowed. */
  method TakeFrame(pending: Bytes) returns (frame: Option<Frame>, rest: Bytes, fits: bool)
    ensures frame == if HasFrame(pending) then Some(FrameOf(pending)) else None
    ensures rest == if HasFrame(pending) then Tail(pending) else pending
    ensures fits <==> |pending| < 5 || Size(pending) <= MAX_FRAME_BYTES
  {
    frame, rest, fits := None, pending, true;
    if |pending| < 5 { return; }
    var size := Size(pending);
    if size > MAX_FRAME_BYTES {
      fits := false;
    } else if |pending| >= 5 + size {
      frame := Some(Frame(pending[0], pending[5..5 + size]));
      rest := pending[5 + size..];
    }
  }

  /** The inner loop: takes the whole messages off the buffer. */
  method TakeFrames(buffer: Bytes) returns (frames: seq<Frame>, pending: Bytes, fits: bool)
    ensures frames == Frames(buffer) && pending == Rest(buffer)
    ensures fits <==> !Oversized(buffer)
  {
    frames, pending := [], buffer;
    while true
      invariant Taken(buffer, frames, pending)
      decreases |pending|
    {
      TakenNext(buffer, frames, pending);
      var frame, rest, ok := TakeFrame(pending);
      if frame.None? { return frames, pending, ok; }
      frames, pending := frames + [frame.value], rest;
    }
  }

  /** The first `k` chunks went through, and what follows does not. */
  predicate FailsAt(chunks: seq<Bytes>, k: nat)
    requires k <= |chunks|
  {
    || Oversized(Concat(chunks[..k]))
    || (k < |chunks| && chunks[k] != [] && |Rest(Concat(chunks[..k]))| + |chunks[k]| > MAX_FRAME_BYTES + 5)
  }

  ghost predicate Fails(chunks: seq<Bytes>) {
    exists k :: 0 <= k <= |chunks| && FailsAt(chunks, k)
  }

  /** `frames` have been delivered and `pending` is still in the buffer after `k` chunks. */
  predicate Reading(chunks: seq<Bytes>, k: nat, frames: seq<Frame>, pending: Bytes)
    requires k <= |chunks|
  {
    && frames + Frames(pending) == Frames(Concat(chunks[..k]))
    && Rest(pending) == Rest(Concat(chunks[..k]))
  }

  lemma NextChunk(chunks: seq<Bytes>, k: nat, frames: seq<Frame>, pending: Bytes)
    requires k < |chunks|
    requires frames == Frames(Concat(chunks[..k])) && pending == Rest(Concat(chunks[..k]))
    ensures Reading(chunks, k + 1, frames, pending + chunks[k])
  {
    assert chunks[..k + 1][..k] == chunks[..k];
    Extend(Concat(chunks[..k]), chunks[k]);
  }

  lemma DeliveredIsPrefix(chunks: seq<Bytes>, k: nat)
    requires k <= |chunks|
    ensures Frames(Concat(chunks[..k])) <= Frames(Concat(chunks))
  {
    ConcatSplit(chunks, k);
    Extend(Concat(chunks[..k]), Concat(chunks[k..]));
  }

  method ConnectFrames(chunks: seq<Bytes>) returns (frames: seq<Frame>, end: End)
    ensures end == TooLarge <==> Fails(chunks)
    ensures frames <= Frames(Concat(chunks))
    ensures end != TooLarge ==> frames == Frames(Concat(chunks))
    ensures end != TooLarge ==> (end == Truncated <==> Rest(Concat(chunks)) != [])
  {
    frames := [];
    var pending: Bytes := [];
    var k := 0;
    while true
      invariant 0 <= k <= |chunks| && Reading(chunks, k, frames, pending)
      invariant forall j :: 0 <= j < k ==> !FailsAt(chunks, j)
      decreases |chunks| - k
    {
      var taken, rest, fits := TakeFrames(pending);
      frames, pending := frames + taken, rest;
      DeliveredIsPrefix(chunks, k);
      if !fits {
        assert FailsAt(chunks, k);
        return frames, TooLarge;
      }
      if k == |chunks| { break; }
      var next := chunks[k];
      NextChunk(chunks, k, frames, pending);
      if |next| > 0 {
        if |pending| + |next| > MAX_FRAME_BYTES + 5 {
          assert FailsAt(chunks, k);
          return frames, TooLarge;
        }
        pending := pending + next;
      } else {
        assert pending + next == pending;
      }
      assert !FailsAt(chunks, k);
      k := k + 1;
    }
    assert chunks[..k] == chunks;
    end := if pending != [] then Truncated else Complete;
  }

  lemma {:induction false} ConcatSplit(chunks: seq<Bytes>, k: nat)
    requires k <= |chunks|
    ensures Concat(chunks) == Concat(chunks[..k]) + Concat(chunks[k..])
    decreases |chunks| - k
  {
    if k == |chunks| {
      assert chunks[..k] == chunks;
    } else {
      var rest := chunks[k..];
      assert rest[..|rest| - 1] == chunks[..|chunks| - 1][k..];
      assert chunks[..|chunks| - 1][..k] == chunks[..k];
      ConcatSplit(chunks[..|chunks| - 1], k);
    }
  }

  // ---- Theorems ----

  /** Two chunkings of one stream, neither of which meets a size limit, give the same frames
      and the same verdict on truncation. */
  method DecodeTwice(chunks: seq<Bytes>, other: seq<Bytes>) returns (a: seq<Frame>, x: End, b: seq<Frame>, y: End)
    requires Concat(chunks) == Concat(other)
    ensures x != TooLarge && y != TooLarge ==> a == b && x == y
    ensures a <= b || b <= a
  {
    a, x := ConnectFrames(chunks);
    b, y := ConnectFrames(other);
  }

  predicate Encodable(payloads: seq<Bytes>) {
    forall i :: 0 <= i < |payloads| ==> |payloads[i]| <= MAX_FRAME_BYTES
  }

  /** The messages' envelopes one after the other. */
  function Stream(payloads: seq<Bytes>): Bytes
    requires Encodable(payloads)
  {
    if payloads == [] then [] else Stream(payloads[..|payloads| - 1]) + Encoded(payloads[|payloads| - 1])
  }

  lemma EnvelopeDecodes(payload: Bytes)
    requires |payload| <= MAX_FRAME_BYTES
    ensures Frames(Encoded(payload)) == [Frame(0, payload)] && Rest(Encoded(payload)) == []
  {
    var b := Encoded(payload);
    BigEndianRoundTrip(|payload|);
    assert b[1..5] == BigEndian(|payload|);
    assert b[5..5 + |payload|] == payload;
    assert Tail(b) == [];
    assert Frames([]) == [];
  }

  /** Encoding messages one after the other and decoding the stream gives them back, with
      flag zero and nothing left over. */
  lemma {:induction false} EnvelopesDecode(payloads: seq<Bytes>)
    requires Encodable(payloads)
    ensures Rest(Stream(payloads)) == [] && |Frames(Stream(payloads))| == |payloads|
    ensures forall i :: 0 <= i < |payloads| ==> Frames(Stream(payloads))[i] == Frame(0, payloads[i])
  {
    if payloads != [] {
      var before, last := payloads[..|payloads| - 1], payloads[|payloads| - 1];
      EnvelopesDecode(before);
      OneMoreDecodes(Stream(before), last);
    }
  }

  lemma OneMoreDecodes(s: Bytes, payload: Bytes)
    requires |payload| <= MAX_FRAME_BYTES && Rest(s) == []
    ensures Frames(s + Encoded(payload)) == Frames(s) + [Frame(0, payload)] && Rest(s + Encoded(payload)) == []
  {
    EnvelopeDecodes(payload);
    Extend(s, Encoded(payload));
    assert [] + Encoded(payload) == Encoded(payload);
  }

  // ---- Messages with any flags ----

  predicate Sendable(frames: seq<Frame>) {
    forall i :: 0 <= i < |frames| ==> |frames[i].payload| <= MAX_FRAME_BYTES
  }

  /** A message on the wire: flags, four bytes of length, payload. */
  function Message(f: Frame): Bytes
    requires |f.payload| <= MAX_FRAME_BYTES
  {
    [f.flags] + BigEndian(|f.payload|) + f.payload
  }

  function Wire(frames: seq<Frame>): Bytes
    requires Sendable(frames)
  {
    if frames == [] then [] else Wire(frames[..|frames| - 1]) + Message(frames[|frames| - 1])
  }

  lemma MessageDecodes(f: Frame)
    requires |f.payload| <= MAX_FRAME_BYTES
    ensures Frames(Message(f)) == [f] && Rest(Message(f)) == []
  {
    var b := Message(f);
    BigEndianRoundTrip(|f.payload|);
    assert b[1..5] == BigEndian(|f.payload|);
    assert b[5..5 + |f.payload|] == f.payload;
    assert Tail(b) == [];
    assert Frames([]) == [];
  }

  lemma OneMoreMessage(s: Bytes, f: Frame)
    requires |f.payload| <= MAX_FRAME_BYTES && Rest(s) == []
    ensures Frames(s + Message(f)) == Frames(s) + [f] && Rest(s + Message(f)) == []
  {
    Extend(s, Message(f));
    MessageDecodes(f);
    assert [] + Message(f) == Message(f);
  }

  /** Whatever their flags, messages on the wire decode to themselves, with nothing left. */
  lemma {:induction false} WireDecodes(frames: seq<Frame>)
    requires Sendable(frames)
    ensures Frames(Wire(frames)) == frames && Rest(Wire(frames)) == []
  {
    if frames != [] {
      var before, last := frames[..|frames| - 1], frames[|frames| - 1];
      WireDecodes(before);
      OneMoreMessage(Wire(before), last);
      assert frames == before + [last];
    }
  }

  /** So a peer that sends messages in chunks that meet no size limit has them received. */
  method ReceiveAll(frames: seq<Frame>, chunks: seq<Bytes>) returns (received: seq<Frame>, end: End)
    requires Sendable(frames) && Concat(chunks) == Wire(frames)
    ensures end == TooLarge <==> Fails(chunks)
    ensures end != TooLarge ==> received == frames && end == Complete
    ensures received <= frames
  {
    WireDecodes(frames);
    received, end := ConnectFrames(chunks);
  }
}
