/** Length-delimited frames: a base-128 varint (Protocol Buffers Encoding, section "Base 128
    Varints") followed by that many payload bytes, decoded incrementally from a growing buffer. */
module Transport {
  import opened Utf8
  import opened Wrappers

  const MAX_VARINT_LENGTH: nat := 10
  const USIZE_LIMIT: nat := 0x1_0000_0000_0000_0000

  /** The growable byte buffer that the codec consumes from the front and appends to. */
  class BytesMut {
    var bytes: seq<byte>

    constructor ()
      ensures bytes == []
    {
      bytes := [];
    }
  }

  datatype Decoded = NeedMore | Frame(payload: seq<byte>) | Corrupt

  // ---------------------------------------------------------------- varints

  /** The varint of `n`: seven bits a byte, lowest first, high bit set on all but the last. */
  function Varint(n: nat): (bytes: seq<byte>)
    ensures |bytes| > 0 && bytes[|bytes| - 1] < 0x80
    ensures forall i | 0 <= i < |bytes| - 1 :: bytes[i] >= 0x80
  {
    if n < 0x80 then [n as byte] else [(n % 0x80 + 0x80) as byte] + Varint(n / 0x80)
  }

  function VarintValue(bytes: seq<byte>): nat {
    if bytes == [] then 0 else (bytes[0] % 0x80) as nat + 0x80 * VarintValue(bytes[1..])
  }

  lemma {:induction false} VarintReads(n: nat)
    ensures VarintValue(Varint(n)) == n
  {
    if n >= 0x80 {
      VarintReads(n / 0x80);
      assert Varint(n)[1..] == Varint(n / 0x80);
    } else {
      assert Varint(n)[1..] == [];
    }
  }

  /** Values a varint of at most `k` bytes may hold when its k-th byte is 0 or 1. */
  function Limit(k: nat): nat
    requires k > 0
  {
    if k == 1 then 2 else 0x80 * Limit(k - 1)
  }

  lemma {:induction false} VarintLength(n: nat, k: nat)
    requires k > 0 && n < Limit(k)
    ensures |Varint(n)| <= k
    ensures |Varint(n)| == k ==> Varint(n)[k - 1] <= 1
  {
    if n >= 0x80 {
      VarintLength(n / 0x80, k - 1);
    }
  }

  /** Index of the byte that ends the length prefix, searched in the first ten bytes. */
  function PrefixEnd(b: seq<byte>, from: nat): (end: Option<nat>)
    decreases MAX_VARINT_LENGTH - from
  {
    if from >= MAX_VARINT_LENGTH || from >= |b| then None
    else if b[from] < 0x80 then Some(from)
    else PrefixEnd(b, from + 1)
  }

  lemma {:induction false} PrefixEndIs(b: seq<byte>, from: nat, end: nat)
    requires from <= end < MAX_VARINT_LENGTH && end < |b| && b[end] < 0x80
    requires forall i | from <= i < end :: b[i] >= 0x80
    ensures PrefixEnd(b, from) == Some(end)
    decreases end - from
  {
    if from < end { PrefixEndIs(b, from + 1, end); }
  }

  lemma {:induction false} PrefixEndBounds(b: seq<byte>, from: nat)
    ensures PrefixEnd(b, from).Some? ==>
      var end := PrefixEnd(b, from).value;
      from <= end < MAX_VARINT_LENGTH && end < |b| && b[end] < 0x80 && forall i | from <= i < end :: b[i] >= 0x80
    ensures PrefixEnd(b, from).None? ==>
      forall i | from <= i < |b| && i < MAX_VARINT_LENGTH :: b[i] >= 0x80
    decreases MAX_VARINT_LENGTH - from
  {
    if from < MAX_VARINT_LENGTH && from < |b| && b[from] >= 0x80 {
      PrefixEndBounds(b, from + 1);
    }
  }

  // ---------------------------------------------------------------- decoding

  /** The value of a complete prefix, unless it does not fit 64 bits. */
  function PrefixValue(prefix: seq<byte>): Option<nat>
    requires 0 < |prefix| <= MAX_VARINT_LENGTH
  {
    if |prefix| == MAX_VARINT_LENGTH && prefix[9] > 1 then None else Some(VarintValue(prefix))
  }

  /** One call of `decode`: what it returns and what is left in the buffer. */
  function DecodeStep(b: seq<byte>): (r: (Decoded, seq<byte>))
    ensures r.0.Frame? ==> |r.1| < |b|
    ensures !r.0.Frame? ==> r.1 == b
  {
    PrefixEndBounds(b, 0);
    match PrefixEnd(b, 0)
    case None => (if |b| >= MAX_VARINT_LENGTH then Corrupt else NeedMore, b)
    case Some(end) =>
      match PrefixValue(b[..end + 1])
      case None => (Corrupt, b)
      case Some(length) =>
        var size := length + (end + 1);
        if size >= USIZE_LIMIT then (Corrupt, b)
        else if |b| < size then (NeedMore, b)
        else (Frame(b[end + 1..size]), b[size..])
  }

  method DecodeFrame(src: BytesMut) returns (r: Decoded)
    modifies src
    ensures (r, src.bytes) == DecodeStep(old(src.bytes))
  {
    var end := 0;
    while end < |src.bytes| && end < MAX_VARINT_LENGTH && src.bytes[end] >= 0x80
      invariant 0 <= end <= |src.bytes| && end <= MAX_VARINT_LENGTH
      invariant forall i | 0 <= i < end :: src.bytes[i] >= 0x80
    {
      end := end + 1;
    }
    PrefixEndBounds(src.bytes, 0);
    if end == |src.bytes| || end == MAX_VARINT_LENGTH {
      if |src.bytes| >= MAX_VARINT_LENGTH { return Corrupt; }
      return NeedMore;
    }
    PrefixEndIs(src.bytes, 0, end);
    var value := PrefixValue(src.bytes[..end + 1]);
    if value.None? { return Corrupt; }
    var length, prefixLength := value.value, end + 1;
    if length + prefixLength >= USIZE_LIMIT { return Corrupt; }
    if |src.bytes| < length + prefixLength { return NeedMore; }
    var all := src.bytes;
    src.bytes := src.bytes[prefixLength..];
    r := Frame(src.bytes[..length]);
    src.bytes := src.bytes[length..];
    TwoCuts(all, prefixLength, length);
  }

  lemma TwoCuts(b: seq<byte>, i: nat, n: nat)
    requires i + n <= |b|
    ensures b[i..][..n] == b[i..i + n] && b[i..][n..] == b[i + n..]
  {
  }

  function Wire(payload: seq<byte>): seq<byte> {
    Varint(|payload|) + payload
  }

  method EncodeFrame(payload: seq<byte>, dst: BytesMut)
    modifies dst
    ensures dst.bytes == old(dst.bytes) + Wire(payload)
  {
    var n: nat := |payload|;
    while n >= 0x80
      invariant dst.bytes + Varint(n) == old(dst.bytes) + Varint(|payload|)
    {
      assert Varint(n) == [(n % 0x80 + 0x80) as byte] + Varint(n / 0x80);
      ghost var before := dst.bytes;
      dst.bytes := dst.bytes + [(n % 0x80 + 0x80) as byte];
      assert dst.bytes + Varint(n / 0x80) == before + Varint(n);
      n := n / 0x80;
    }
    dst.bytes := dst.bytes + [n as byte];
    assert dst.bytes == old(dst.bytes) + Varint(|payload|);
    dst.bytes := dst.bytes + payload;
  }

  /** A frame is read back whatever follows it, provided its size fits the host's `usize`. */
  lemma WireDecodes(payload: seq<byte>, rest: seq<byte>)
    requires |Wire(payload)| < USIZE_LIMIT
    ensures DecodeStep(Wire(payload) + rest) == (Frame(payload), rest)
  {
    var v := Varint(|payload|);
    var b := Wire(payload) + rest;
    assert Limit(10) == USIZE_LIMIT by {
      assert Limit(5) == 0x2000_0000;
    }
    VarintLength(|payload|, 10);
    VarintReads(|payload|);
    assert forall i | 0 <= i < |v| :: b[i] == v[i];
    PrefixEndIs(b, 0, |v| - 1);
    assert b[..|v|] == v;
    assert b[|v|..|v| + |payload|] == payload && b[|v| + |payload|..] == rest;
  }

  lemma {:induction false} PrefixStable(b: seq<byte>, more: seq<byte>)
    ensures PrefixEnd(b, 0).Some? ==>
      PrefixEnd(b + more, 0) == PrefixEnd(b, 0)
      && PrefixEnd(b, 0).value < MAX_VARINT_LENGTH && PrefixEnd(b, 0).value < |b|
    ensures PrefixEnd(b, 0).None? && |b| >= MAX_VARINT_LENGTH ==> PrefixEnd(b + more, 0).None?
  {
    var c := b + more;
    PrefixEndBounds(b, 0);
    PrefixEndBounds(c, 0);
    assert forall i | 0 <= i < |b| :: c[i] == b[i];
    if PrefixEnd(b, 0).Some? {
      PrefixEndIs(c, 0, PrefixEnd(b, 0).value);
    }
  }

  lemma SlicesStable(b: seq<byte>, more: seq<byte>, i: nat, j: nat)
    requires i <= j <= |b|
    ensures (b + more)[i..j] == b[i..j]
    ensures (b + more)[j..] == b[j..] + more
  {
  }

  /** Bytes that arrive later change neither a decoded frame nor a reported corruption. */
  lemma DecodeStable(b: seq<byte>, more: seq<byte>)
    ensures DecodeStep(b).0.Frame? ==> DecodeStep(b + more) == (DecodeStep(b).0, DecodeStep(b).1 + more)
    ensures DecodeStep(b).0.Corrupt? ==> DecodeStep(b + more).0.Corrupt?
  {
    PrefixStable(b, more);
    if PrefixEnd(b, 0).Some? {
      var end := PrefixEnd(b, 0).value;
      SlicesStable(b, more, 0, end + 1);
      if DecodeStep(b).0.Frame? {
        SlicesStable(b, more, end + 1, PrefixValue(b[..end + 1]).value + (end + 1));
      }
    }
  }

  // ---------------------------------------------------------------- what a call means

  /** A length prefix: at most ten bytes, all but the last with the high bit, of a value that fits 64 bits.
      It need not be the shortest. */
  predicate IsVarint(prefix: seq<byte>) {
    && 0 < |prefix| <= MAX_VARINT_LENGTH && prefix[|prefix| - 1] < 0x80
    && (forall i | 0 <= i < |prefix| - 1 :: prefix[i] >= 0x80)
    && VarintValue(prefix) < USIZE_LIMIT
  }

  function Scale(k: nat): (s: nat)
    ensures s > 0
  {
    if k == 0 then 1 else 0x80 * Scale(k - 1)
  }

  lemma {:induction false} VarintBounds(p: seq<byte>)
    requires p != [] && p[|p| - 1] < 0x80
    ensures p[|p| - 1] as nat * Scale(|p| - 1) <= VarintValue(p) < (p[|p| - 1] as nat + 1) * Scale(|p| - 1)
  {
    if |p| == 1 {
      assert p[1..] == [];
    } else {
      var last, s := p[|p| - 1] as nat, Scale(|p| - 2);
      VarintBounds(p[1..]);
      Times128(last, s);
      Times128(last + 1, s);
    }
  }

  lemma Times128(a: nat, s: nat)
    ensures a * (0x80 * s) == 0x80 * (a * s)
  {
  }

  lemma {:induction false} FitsIff(p: seq<byte>)
    requires 0 < |p| <= MAX_VARINT_LENGTH && p[|p| - 1] < 0x80
    ensures PrefixValue(p).Some? <==> VarintValue(p) < USIZE_LIMIT
    ensures p[|p| - 1] == 0 ==> VarintValue(p) < USIZE_LIMIT - MAX_VARINT_LENGTH
  {
    VarintBounds(p);
    assert Scale(9) == 0x8000_0000_0000_0000 by {
      assert Scale(4) == 0x1000_0000;
    }
    ScaleGrows(|p| - 1, 9);
    var last, s := p[|p| - 1] as nat, Scale(|p| - 1);
    if |p| == MAX_VARINT_LENGTH {
      assert s == 0x8000_0000_0000_0000;
    } else {
      ScaleGrows(|p|, 9);
      assert (last + 1) * s <= 0x80 * s == Scale(|p|) by { AtMost128(last + 1, s); }
    }
  }

  lemma AtMost128(a: nat, s: nat)
    requires a <= 0x80
    ensures a * s <= 0x80 * s
  {
  }

  lemma {:induction false} ScaleGrows(j: nat, k: nat)
    requires j <= k
    ensures Scale(j) <= Scale(k)
  {
    if j < k { ScaleGrows(j, k - 1); }
  }

  predicate Framed(b: seq<byte>, prefix: seq<byte>, payload: seq<byte>, rest: seq<byte>) {
    && IsVarint(prefix) && VarintValue(prefix) == |payload| && |prefix| + |payload| < USIZE_LIMIT
    && b == prefix + payload + rest
  }

  /** A call returns a frame just when the buffer is a length prefix, that many bytes, and what is left. */
  lemma {:induction false} FrameIff(b: seq<byte>, payload: seq<byte>, rest: seq<byte>)
    ensures DecodeStep(b) == (Frame(payload), rest) <==> exists prefix: seq<byte> :: Framed(b, prefix, payload, rest)
  {
    PrefixEndBounds(b, 0);
    if DecodeStep(b) == (Frame(payload), rest) {
      var end := PrefixEnd(b, 0).value;
      var prefix := b[..end + 1];
      FitsIff(prefix);
      assert b == prefix + payload + rest;
      assert Framed(b, prefix, payload, rest);
    }
    if exists prefix: seq<byte> :: Framed(b, prefix, payload, rest) {
      var prefix: seq<byte> :| Framed(b, prefix, payload, rest);
      FramedDecodes(b, prefix, payload, rest);
    }
  }

  lemma {:induction false} FramedDecodes(b: seq<byte>, prefix: seq<byte>, payload: seq<byte>, rest: seq<byte>)
    requires Framed(b, prefix, payload, rest)
    ensures DecodeStep(b) == (Frame(payload), rest)
  {
    var n := |prefix|;
    assert forall i | 0 <= i < n :: b[i] == prefix[i];
    PrefixEndIs(b, 0, n - 1);
    FitsIff(prefix);
    assert b[..n] == prefix;
    assert b[n..n + |payload|] == payload && b[n + |payload|..] == rest;
  }

  /** A call waits just when the buffer holds no frame yet but some more bytes would complete one; it fails
      just when no bytes ever could. */
  lemma {:induction false} WaitsIff(b: seq<byte>)
    ensures DecodeStep(b).0.Corrupt? <==> forall more: seq<byte> :: !DecodeStep(b + more).0.Frame?
    ensures DecodeStep(b).0.NeedMore?
       <==> !DecodeStep(b).0.Frame? && exists more: seq<byte> :: DecodeStep(b + more).0.Frame?
  {
    if DecodeStep(b).0.Corrupt? {
      forall more: seq<byte> ensures !DecodeStep(b + more).0.Frame? { DecodeStable(b, more); }
    } else {
      var more := Completion(b);
      assert DecodeStep(b + more).0.Frame?;
    }
  }

  lemma {:induction false} Completion(b: seq<byte>) returns (more: seq<byte>)
    requires !DecodeStep(b).0.Corrupt?
    ensures DecodeStep(b + more).0.Frame?
  {
    if PrefixEnd(b, 0).Some? {
      more := PayloadCompletion(b);
    } else {
      var c := b + [0];
      PrefixCompleted(b);
      var rest := PayloadCompletion(c);
      more := [0] + rest;
      assert b + more == c + rest;
    }
  }

  /** A zero byte completes an incomplete prefix of fewer than ten bytes. */
  lemma {:induction false} PrefixCompleted(b: seq<byte>)
    requires PrefixEnd(b, 0).None? && |b| < MAX_VARINT_LENGTH
    ensures PrefixEnd(b + [0], 0) == Some(|b|) && !DecodeStep(b + [0]).0.Corrupt?
  {
    var c := b + [0];
    PrefixEndBounds(b, 0);
    PrefixEndIs(c, 0, |b|);
    FitsIff(c);
    assert c[..|b| + 1] == c;
  }

  lemma {:induction false} PayloadCompletion(b: seq<byte>) returns (more: seq<byte>)
    requires PrefixEnd(b, 0).Some? && !DecodeStep(b).0.Corrupt?
    ensures DecodeStep(b + more).0.Frame?
  {
    PrefixEndBounds(b, 0);
    var end := PrefixEnd(b, 0).value;
    var size := PrefixValue(b[..end + 1]).value + (end + 1);
    more := if |b| < size then Zeros(size - |b|) else [];
    PrefixStable(b, more);
    SlicesStable(b, more, 0, end + 1);
  }

  function Zeros(n: nat): (zeros: seq<byte>)
    ensures |zeros| == n
  {
    seq(n, _ => 0)
  }

  // ---------------------------------------------------------------- reading a stream

  /** The reader's state: frames delivered, bytes buffered, and whether it stopped at an error. */
  datatype Reading = Reading(frames: seq<seq<byte>>, buffer: seq<byte>, failed: bool)

  /** Decode until more bytes are needed or the stream is found corrupt. */
  function Drain(b: seq<byte>): Reading
    decreases |b|
  {
    match DecodeStep(b)
    case (Frame(payload), rest) =>
      var r := Drain(rest);
      r.(frames := [payload] + r.frames)
    case (Corrupt, _) => Reading([], b, true)
    case (NeedMore, _) => Reading([], b, false)
  }

  /** One read: a stopped reader takes nothing more. */
  function Feed(r: Reading, chunk: seq<byte>): Reading {
    if r.failed then r
    else
      var d := Drain(r.buffer + chunk);
      d.(frames := r.frames + d.frames)
  }

  function FeedAll(r: Reading, chunks: seq<seq<byte>>): Reading
    decreases |chunks|
  {
    if chunks == [] then r else FeedAll(Feed(r, chunks[0]), chunks[1..])
  }

  function Join(chunks: seq<seq<byte>>): seq<byte> {
    if chunks == [] then [] else chunks[0] + Join(chunks[1..])
  }

  lemma FramesAssoc(a: seq<seq<byte>>, b: seq<seq<byte>>, c: seq<seq<byte>>)
    ensures a + b + c == a + (b + c)
  {
  }

  lemma {:induction false} DrainMore(b: seq<byte>, more: seq<byte>)
    ensures Drain(b).failed ==> Drain(b + more).failed && Drain(b + more).frames == Drain(b).frames
    ensures !Drain(b).failed ==>
      var later := Drain(Drain(b).buffer + more);
      Drain(b + more) == later.(frames := Drain(b).frames + later.frames)
    decreases |b|
  {
    DecodeStable(b, more);
    match DecodeStep(b) {
      case (Frame(payload), rest) =>
        DrainMore(rest, more);
        FramesAssoc([payload], Drain(rest).frames, Drain(Drain(rest).buffer + more).frames);
      case (Corrupt, _) =>
      case (NeedMore, _) =>
        var later := Drain(b + more);
        assert [] + later.frames == later.frames;
    }
  }

  /** The reader after bytes `b`, having delivered `frames` before them. */
  function After(frames: seq<seq<byte>>, b: seq<byte>): Reading {
    Drain(b).(frames := frames + Drain(b).frames)
  }

  lemma {:induction false} FeedExtends(frames: seq<seq<byte>>, b: seq<byte>, chunk: seq<byte>)
    requires !Drain(b).failed
    ensures Feed(After(frames, b), chunk) == After(frames, b + chunk)
  {
    DrainMore(b, chunk);
    FramesAssoc(frames, Drain(b).frames, Drain(Drain(b).buffer + chunk).frames);
  }

  lemma {:induction false} JoinFirst(b: seq<byte>, chunks: seq<seq<byte>>)
    requires chunks != []
    ensures b + chunks[0] + Join(chunks[1..]) == b + Join(chunks)
  {
  }

  /** The frames and the error point do not depend on how the bytes were split into reads. */
  lemma {:induction false} ChunkingIrrelevant(frames: seq<seq<byte>>, b: seq<byte>, chunks: seq<seq<byte>>)
    ensures var fed := FeedAll(After(frames, b), chunks);
            var whole := After(frames, b + Join(chunks));
            && fed.frames == whole.frames
            && fed.failed == whole.failed
            && (!fed.failed ==> fed.buffer == whole.buffer)
    decreases |chunks|
  {
    if chunks == [] {
      assert b + Join(chunks) == b;
    } else if Drain(b).failed {
      DrainMore(b, Join(chunks));
      StoppedStays(After(frames, b), chunks);
    } else {
      FeedExtends(frames, b, chunks[0]);
      JoinFirst(b, chunks);
      ChunkingIrrelevant(frames, b + chunks[0], chunks[1..]);
    }
  }

  lemma {:induction false} StoppedStays(r: Reading, chunks: seq<seq<byte>>)
    requires r.failed
    ensures FeedAll(r, chunks) == r
    decreases |chunks|
  {
    if chunks != [] { StoppedStays(r, chunks[1..]); }
  }

  function Wires(payloads: seq<seq<byte>>): seq<byte> {
    if payloads == [] then [] else Wire(payloads[0]) + Wires(payloads[1..])
  }

  lemma {:induction false} DrainWires(payloads: seq<seq<byte>>)
    requires forall p | p in payloads :: |Wire(p)| < USIZE_LIMIT
    ensures Drain(Wires(payloads)) == Reading(payloads, [], false)
  {
    if payloads != [] {
      WireDecodes(payloads[0], Wires(payloads[1..]));
      DrainWires(payloads[1..]);
      assert payloads == [payloads[0]] + payloads[1..];
    }
  }

  /** Encoded payloads, cut into reads anywhere at all, come out whole, in order, with nothing left. */
  lemma {:induction false} StreamRoundTrip(payloads: seq<seq<byte>>, chunks: seq<seq<byte>>)
    requires forall p | p in payloads :: |Wire(p)| < USIZE_LIMIT
    requires Join(chunks) == Wires(payloads)
    ensures FeedAll(Reading([], [], false), chunks) == Reading(payloads, [], false)
  {
    ChunkingIrrelevant([], [], chunks);
    DrainWires(payloads);
    DrainWires([]);
    assert [] + Join(chunks) == Wires(payloads);
    assert After([], []) == Reading([], [], false) && [] + payloads == payloads;
  }
}
