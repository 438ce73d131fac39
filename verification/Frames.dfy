// The frame layer (src/wire.cpp:380): a fixed envelope, the payload, an integrity trailer. A
// frame is accepted exactly when it is the encoding of the content it decodes to.
module Frames {
  import opened Types
  import opened StoreTypes
  import opened Bytes
  import opened Streams

  const ENVELOPE_SIZE: nat := 64
  const FRAME_TRAILER_SIZE: nat := 32
  const PROTOCOL: nat := 1
  const MAGIC_FIRST: nat := 0x52
  const MAGIC_SECOND: nat := 0x50

  /** The message identifiers are numbered from one without gaps. */
  const MESSAGES: nat := 26

  datatype FrameHeader = FrameHeader(
    protocol: nat, message: nat, flags: nat, epoch: nat, publisher: nat, boot: nat, attempt: nat, payload: nat)

  predicate KnownMessage(code: nat) {
    1 <= code <= MESSAGES
  }

  /** A digest of the header's fields and the payload. */
  type FrameDigest = (FrameHeader, seq<Byte>) -> nat

  ghost predicate IsDigest(digest: FrameDigest) {
    forall h, p :: Fits(digest(h, p), FRAME_TRAILER_SIZE)
  }

  function PutRoute(h: FrameHeader, rest: seq<Byte>): seq<Byte> {
    Put(h.epoch, 8, Put(h.publisher, 8, Put(h.boot, 8, Put(h.attempt, 8, Put(0, 8, Put(0, 8, rest))))))
  }

  function PutEnvelope(h: FrameHeader, rest: seq<Byte>): seq<Byte> {
    Put(MAGIC_FIRST, 1, Put(MAGIC_SECOND, 1, Put(h.protocol, 2, Put(h.message, 2, Put(h.flags, 2,
      Put(ENVELOPE_SIZE, 4, Put(h.payload, 4, PutRoute(h, rest))))))))
  }

  function FrameBytes(digest: FrameDigest, h: FrameHeader, payload: seq<Byte>): seq<Byte> {
    PutEnvelope(h, payload + Put(digest(h, payload), FRAME_TRAILER_SIZE, []))
  }

  function EncodeFrame(digest: FrameDigest, h: FrameHeader, payload: seq<Byte>, limits: Limits): Result<seq<Byte>> {
    if !KnownMessage(h.message) then Failure(ProtocolFailure)
    else if h.protocol != PROTOCOL then Failure(UnsupportedVersion)
    else if h.flags != 0 then Failure(MalformedRequest)
    else if |payload| > limits.maxFrameBytes then Failure(ResourceLimit)
    else if ENVELOPE_SIZE + |payload| + FRAME_TRAILER_SIZE > limits.maxFrameBytes then Failure(ResourceLimit)
    else Success(FrameBytes(digest, h.(payload := |payload|), payload))
  }

  /** The envelope as it stands in the bytes, before any of it is believed. */
  datatype Envelope = Envelope(first: nat, second: nat, size: nat, header: FrameHeader, reserved: (nat, nat))

  function GetRoute(s: seq<Byte>, e: Envelope): Parsed<Envelope> {
    var (epoch, s1) :- Get(s, 8);
    var (publisher, s2) :- Get(s1, 8);
    var (boot, s3) :- Get(s2, 8);
    var (attempt, s4) :- Get(s3, 8);
    var (a, s5) :- Get(s4, 8);
    var (b, s6) :- Get(s5, 8);
    Good(e.(header := e.header.(epoch := epoch, publisher := publisher, boot := boot, attempt := attempt),
            reserved := (a, b)), s6)
  }

  function GetEnvelope(s: seq<Byte>): Parsed<Envelope> {
    var (first, s1) :- Get(s, 1);
    var (second, s2) :- Get(s1, 1);
    var (protocol, s3) :- Get(s2, 2);
    var (message, s4) :- Get(s3, 2);
    var (flags, s5) :- Get(s4, 2);
    var (size, s6) :- Get(s5, 4);
    var (payload, s7) :- Get(s6, 4);
    GetRoute(s7, Envelope(first, second, size, FrameHeader(protocol, message, flags, 0, 0, 0, 0, payload), (0, 0)))
  }

  function EnvelopeOutcome(e: Envelope, size: nat, limits: Limits): Outcome {
    if e.first != MAGIC_FIRST || e.second != MAGIC_SECOND then WireIntegrityFailure
    else if e.header.protocol != PROTOCOL then UnsupportedVersion
    else if !KnownMessage(e.header.message) then ProtocolFailure
    else if e.header.flags != 0 then ProtocolFailure
    else if e.size != ENVELOPE_SIZE then ProtocolFailure
    else if e.reserved != (0, 0) then ProtocolFailure
    else if e.header.payload > limits.maxFrameBytes then ResourceLimit
    else if ENVELOPE_SIZE + e.header.payload + FRAME_TRAILER_SIZE != size then WireIntegrityFailure
    else Ok
  }

  function DecodeFrame(digest: FrameDigest, frame: seq<Byte>, limits: Limits): Result<(FrameHeader, seq<Byte>)> {
    if |frame| < ENVELOPE_SIZE + FRAME_TRAILER_SIZE then Failure(WireIntegrityFailure)
    else if |frame| > limits.maxFrameBytes then Failure(ResourceLimit)
    else
      var e := GetEnvelope(frame);
      if e.Bad? then Failure(WireIntegrityFailure)
      else
        var o := EnvelopeOutcome(e.value, |frame|, limits);
        if o != Ok then Failure(o)
        else if |e.rest| < e.value.header.payload then Failure(WireIntegrityFailure)
        else
          var payload := e.rest[..e.value.header.payload];
          if Get(e.rest[e.value.header.payload..], FRAME_TRAILER_SIZE) != Good(digest(e.value.header, payload), [])
          then Failure(WireIntegrityFailure)
          else Success((e.value.header, payload))
  }

  // ---------------------------------------------------------------------------------------
  // Accepted frames are exactly the encodings
  // ---------------------------------------------------------------------------------------

  /** What is read off the front is what a write would have put there. */
  lemma {:induction false} GetPut(s: seq<Byte>, n: nat)
    ensures Get(s, n).Good? ==> s == Put(Get(s, n).value, n, Get(s, n).rest) && Fits(Get(s, n).value, n)
    decreases n
  {
    if n > 0 && s != [] && Get(s[1..], n - 1).Good? {
      GetPut(s[1..], n - 1);
      LowByte(s[0], Get(s[1..], n - 1).value);
      assert s == [s[0]] + s[1..];
    }
  }

  lemma LowByte(low: Byte, high: nat)
    ensures (low + 256 * high) % 256 == low && (low + 256 * high) / 256 == high
  {
  }

  predicate RepHeader(h: FrameHeader) {
    && Fits(h.protocol, 2) && Fits(h.message, 2) && Fits(h.flags, 2) && Fits(h.payload, 4)
    && Fits(h.epoch, 8) && Fits(h.publisher, 8) && Fits(h.boot, 8) && Fits(h.attempt, 8)
  }

  function PlainEnvelope(h: FrameHeader): Envelope {
    Envelope(MAGIC_FIRST, MAGIC_SECOND, ENVELOPE_SIZE, h, (0, 0))
  }

  lemma RouteRoundTrip(h: FrameHeader, e: Envelope, rest: seq<Byte>)
    requires RepHeader(h)
    ensures GetRoute(PutRoute(h, rest), e) ==
            Good(e.(header := e.header.(epoch := h.epoch, publisher := h.publisher, boot := h.boot,
              attempt := h.attempt),
                    reserved := (0, 0)), rest)
  {
    hide Put, Get, Fits;
    var t5 := Put(0, 8, rest);
    var t4 := Put(0, 8, t5);
    var t3 := Put(h.attempt, 8, t4);
    var t2 := Put(h.boot, 8, t3);
    var t1 := Put(h.publisher, 8, t2);
    ConstantsFit();
    PutGet(h.epoch, 8, t1);
    PutGet(h.publisher, 8, t2);
    PutGet(h.boot, 8, t3);
    PutGet(h.attempt, 8, t4);
    PutGet(0, 8, t5);
    PutGet(0, 8, rest);
  }

  lemma ConstantsFit()
    ensures Fits(MAGIC_FIRST, 1) && Fits(MAGIC_SECOND, 1) && Fits(ENVELOPE_SIZE, 4) && Fits(0, 8)
  {
    assert Pow256(2) == 256 * Pow256(1) && Pow256(3) == 256 * Pow256(2) && Pow256(4) == 256 * Pow256(3);
    assert Pow256(5) == 256 * Pow256(4) && Pow256(6) == 256 * Pow256(5) && Pow256(7) == 256 * Pow256(6) &&
           Pow256(8) == 256 * Pow256(7);
  }

  lemma EnvelopeRoundTrip(h: FrameHeader, rest: seq<Byte>)
    requires RepHeader(h)
    ensures GetEnvelope(PutEnvelope(h, rest)) == Good(PlainEnvelope(h), rest)
  {
    hide Put, Get, Fits, GetRoute, PutRoute;
    var t7 := PutRoute(h, rest);
    var t6 := Put(h.payload, 4, t7);
    var t5 := Put(ENVELOPE_SIZE, 4, t6);
    var t4 := Put(h.flags, 2, t5);
    var t3 := Put(h.message, 2, t4);
    var t2 := Put(h.protocol, 2, t3);
    var t1 := Put(MAGIC_SECOND, 1, t2);
    ConstantsFit();
    PutGet(MAGIC_FIRST, 1, t1);
    PutGet(MAGIC_SECOND, 1, t2);
    PutGet(h.protocol, 2, t3);
    PutGet(h.message, 2, t4);
    PutGet(h.flags, 2, t5);
    PutGet(ENVELOPE_SIZE, 4, t6);
    PutGet(h.payload, 4, t7);
    RouteRoundTrip(h, Envelope(MAGIC_FIRST, MAGIC_SECOND, ENVELOPE_SIZE,
                               FrameHeader(h.protocol, h.message, h.flags, 0, 0, 0, 0, h.payload), (0, 0)), rest);
  }

  /** The bytes of an envelope that reads back plain are the ones a write would put there. */
  lemma EnvelopeIsWritten(s: seq<Byte>)
    requires GetEnvelope(s).Good?
    requires
      var e := GetEnvelope(s).value;
      e.first == MAGIC_FIRST && e.second == MAGIC_SECOND && e.size == ENVELOPE_SIZE && e.reserved == (0, 0)
    ensures s == PutEnvelope(GetEnvelope(s).value.header, GetEnvelope(s).rest) && RepHeader(GetEnvelope(s).value.header)
  {
    hide Put, Get, Fits;
    GetPut(s, 1);
    var s1 := Get(s, 1).rest;
    GetPut(s1, 1);
    var s2 := Get(s1, 1).rest;
    GetPut(s2, 2);
    var s3 := Get(s2, 2).rest;
    GetPut(s3, 2);
    var s4 := Get(s3, 2).rest;
    GetPut(s4, 2);
    var s5 := Get(s4, 2).rest;
    GetPut(s5, 4);
    var s6 := Get(s5, 4).rest;
    GetPut(s6, 4);
    var s7 := Get(s6, 4).rest;
    GetPut(s7, 8);
    var s8 := Get(s7, 8).rest;
    GetPut(s8, 8);
    var s9 := Get(s8, 8).rest;
    GetPut(s9, 8);
    var s10 := Get(s9, 8).rest;
    GetPut(s10, 8);
    var s11 := Get(s10, 8).rest;
    GetPut(s11, 8);
    GetPut(Get(s11, 8).rest, 8);
  }

  lemma RouteSize(h: FrameHeader, rest: seq<Byte>)
    ensures |PutRoute(h, rest)| == 48 + |rest|
  {
    hide Put;
    var t5 := Put(0, 8, rest);
    var t4 := Put(0, 8, t5);
    var t3 := Put(h.attempt, 8, t4);
    var t2 := Put(h.boot, 8, t3);
    var t1 := Put(h.publisher, 8, t2);
    PutSize(0, 8, rest);
    PutSize(0, 8, t5);
    PutSize(h.attempt, 8, t4);
    PutSize(h.boot, 8, t3);
    PutSize(h.publisher, 8, t2);
    PutSize(h.epoch, 8, t1);
  }

  lemma EnvelopeSize(h: FrameHeader, rest: seq<Byte>)
    ensures |PutEnvelope(h, rest)| == ENVELOPE_SIZE + |rest|
  {
    hide Put, PutRoute;
    var t7 := PutRoute(h, rest);
    var t6 := Put(h.payload, 4, t7);
    var t5 := Put(ENVELOPE_SIZE, 4, t6);
    var t4 := Put(h.flags, 2, t5);
    var t3 := Put(h.message, 2, t4);
    var t2 := Put(h.protocol, 2, t3);
    var t1 := Put(MAGIC_SECOND, 1, t2);
    RouteSize(h, rest);
    PutSize(h.payload, 4, t7);
    PutSize(ENVELOPE_SIZE, 4, t6);
    PutSize(h.flags, 2, t5);
    PutSize(h.message, 2, t4);
    PutSize(h.protocol, 2, t3);
    PutSize(MAGIC_SECOND, 1, t2);
    PutSize(MAGIC_FIRST, 1, t1);
  }

  /** What is encoded is decoded. */
  lemma FrameRoundTrip(digest: FrameDigest, h: FrameHeader, payload: seq<Byte>, limits: Limits)
    requires IsDigest(digest) && RepHeader(h.(payload := |payload|))
    requires EncodeFrame(digest, h, payload, limits).Success?
    ensures DecodeFrame(digest, EncodeFrame(digest, h, payload, limits).value, limits) ==
            Success((h.(payload := |payload|), payload))
  {
    hide Put, Get, PutEnvelope, GetEnvelope, RepHeader, Fits;
    var sent := h.(payload := |payload|);
    var trailer := Put(digest(sent, payload), FRAME_TRAILER_SIZE, []);
    EnvelopeRoundTrip(sent, payload + trailer);
    EnvelopeSize(sent, payload + trailer);
    PutSize(digest(sent, payload), FRAME_TRAILER_SIZE, []);
    assert Fits(digest(sent, payload), FRAME_TRAILER_SIZE);
    PutGet(digest(sent, payload), FRAME_TRAILER_SIZE, []);
    assert (payload + trailer)[..|payload|] == payload && (payload + trailer)[|payload|..] == trailer;
  }

  /** A frame is accepted exactly when it is what encoding its content gives. */
  lemma AcceptedExactly(digest: FrameDigest, frame: seq<Byte>, h: FrameHeader, payload: seq<Byte>, limits: Limits)
    requires IsDigest(digest)
    ensures DecodeFrame(digest, frame, limits) == Success((h, payload)) <==>
            RepHeader(h) && h.payload == |payload| && EncodeFrame(digest, h, payload, limits) == Success(frame)
  {
    hide Put, Get, PutEnvelope, GetEnvelope, RepHeader, Fits;
    if DecodeFrame(digest, frame, limits) == Success((h, payload)) {
      var e := GetEnvelope(frame);
      EnvelopeIsWritten(frame);
      GetPut(e.rest[h.payload..], FRAME_TRAILER_SIZE);
      assert e.rest == e.rest[..h.payload] + e.rest[h.payload..];
      assert h.(payload := |payload|) == h;
    }
    if RepHeader(h) && h.payload == |payload| && EncodeFrame(digest, h, payload, limits) == Success(frame) {
      assert h.(payload := |payload|) == h;
      FrameRoundTrip(digest, h, payload, limits);
    }
  }

  // ---------------------------------------------------------------------------------------
  // The frame layer as the program runs it
  // ---------------------------------------------------------------------------------------

  method WriteRoute(w: Writer, h: FrameHeader)
    modifies w
    ensures forall rest :: w.bytes + rest == old(w.bytes) + PutRoute(h, rest)
  {
    hide Put;
    ghost var w0 := w.bytes;
    w.Number(h.epoch, 8);
    ghost var w1 := w.bytes;
    w.Number(h.publisher, 8);
    ghost var w2 := w.bytes;
    w.Number(h.boot, 8);
    ghost var w3 := w.bytes;
    w.Number(h.attempt, 8);
    ghost var w4 := w.bytes;
    w.Number(0, 8);
    ghost var w5 := w.bytes;
    w.Number(0, 8);
    forall rest ensures w.bytes + rest == w0 + PutRoute(h, rest) {
      var t5 := Put(0, 8, rest);
      var t4 := Put(0, 8, t5);
      var t3 := Put(h.attempt, 8, t4);
      var t2 := Put(h.boot, 8, t3);
      var t1 := Put(h.publisher, 8, t2);
      assert w.bytes + rest == w5 + t5;
      assert w5 + t5 == w4 + t4;
      assert w4 + t4 == w3 + t3;
      assert w3 + t3 == w2 + t2;
      assert w2 + t2 == w1 + t1;
      assert w1 + t1 == w0 + Put(h.epoch, 8, t1);
    }
  }

  method WriteEnvelope(w: Writer, h: FrameHeader)
    modifies w
    ensures forall rest :: w.bytes + rest == old(w.bytes) + PutEnvelope(h, rest)
  {
    hide Put, PutRoute;
    ghost var w0 := w.bytes;
    w.Number(MAGIC_FIRST, 1);
    ghost var w1 := w.bytes;
    w.Number(MAGIC_SECOND, 1);
    ghost var w2 := w.bytes;
    w.Number(h.protocol, 2);
    ghost var w3 := w.bytes;
    w.Number(h.message, 2);
    ghost var w4 := w.bytes;
    w.Number(h.flags, 2);
    ghost var w5 := w.bytes;
    w.Number(ENVELOPE_SIZE, 4);
    ghost var w6 := w.bytes;
    w.Number(h.payload, 4);
    ghost var w7 := w.bytes;
    WriteRoute(w, h);
    forall rest ensures w.bytes + rest == w0 + PutEnvelope(h, rest) {
      var t7 := PutRoute(h, rest);
      var t6 := Put(h.payload, 4, t7);
      var t5 := Put(ENVELOPE_SIZE, 4, t6);
      var t4 := Put(h.flags, 2, t5);
      var t3 := Put(h.message, 2, t4);
      var t2 := Put(h.protocol, 2, t3);
      var t1 := Put(MAGIC_SECOND, 1, t2);
      assert w.bytes + rest == w7 + t7;
      assert w7 + t7 == w6 + t6;
      assert w6 + t6 == w5 + t5;
      assert w5 + t5 == w4 + t4;
      assert w4 + t4 == w3 + t3;
      assert w3 + t3 == w2 + t2;
      assert w2 + t2 == w1 + t1;
      assert w1 + t1 == w0 + Put(MAGIC_FIRST, 1, t1);
    }
  }

  method WriteFrame(digest: FrameDigest, h: FrameHeader, payload: seq<Byte>,
                    limits: Limits) returns (r: Result<seq<Byte>>)
    ensures r == EncodeFrame(digest, h, payload, limits)
  {
    hide Put, PutEnvelope;
    if !KnownMessage(h.message) {
      return Failure(ProtocolFailure);
    }
    if h.protocol != PROTOCOL {
      return Failure(UnsupportedVersion);
    }
    if h.flags != 0 {
      return Failure(MalformedRequest);
    }
    if |payload| > limits.maxFrameBytes {
      return Failure(ResourceLimit);
    }
    if ENVELOPE_SIZE + |payload| + FRAME_TRAILER_SIZE > limits.maxFrameBytes {
      return Failure(ResourceLimit);
    }
    var effective := h.(payload := |payload|);
    var w := new Writer();
    WriteEnvelope(w, effective);
    ghost var head := w.bytes;
    w.bytes := w.bytes + payload;
    ghost var trailer := Put(digest(effective, payload), FRAME_TRAILER_SIZE, []);
    w.Number(digest(effective, payload), FRAME_TRAILER_SIZE);
    assert w.bytes + [] == w.bytes && head + payload + trailer == head + (payload + trailer);
    assert [] + PutEnvelope(effective, payload + trailer) == PutEnvelope(effective, payload + trailer);
    return Success(w.bytes);
  }

  method ReadEnvelope(r: Reader) returns (x: Option<Envelope>)
    requires r.Valid()
    modifies r
    ensures r.Valid()
    ensures x.Some? <==> old(r.Rest()).Some? && GetEnvelope(old(r.Rest()).value).Good?
    ensures x.Some? ==> x.value == GetEnvelope(old(r.Rest()).value).value &&
                        r.Rest() == Some(GetEnvelope(old(r.Rest()).value).rest)
  {
    hide Get;
    var first := r.Number(1);
    var second := r.Number(1);
    var protocol := r.Number(2);
    var message := r.Number(2);
    var flags := r.Number(2);
    var size := r.Number(4);
    var payload := r.Number(4);
    var epoch := r.Number(8);
    var publisher := r.Number(8);
    var boot := r.Number(8);
    var attempt := r.Number(8);
    var a := r.Number(8);
    var b := r.Number(8);
    return if r.failed then None
           else Some(Envelope(first, second, size,
                              FrameHeader(protocol, message, flags, epoch, publisher, boot, attempt, payload), (a, b)));
  }

  method ReadFrame(digest: FrameDigest, frame: seq<Byte>, limits: Limits) returns (x: Result<(FrameHeader, seq<Byte>)>)
    ensures x == DecodeFrame(digest, frame, limits)
  {
    hide Get, GetEnvelope, EnvelopeOutcome;
    if |frame| < ENVELOPE_SIZE + FRAME_TRAILER_SIZE {
      return Failure(WireIntegrityFailure);
    }
    if |frame| > limits.maxFrameBytes {
      return Failure(ResourceLimit);
    }
    var r := new Reader(frame);
    var e := ReadEnvelope(r);
    if e.None? {
      return Failure(WireIntegrityFailure);
    }
    var checked := EnvelopeOutcome(e.value, |frame|, limits);
    if checked != Ok {
      return Failure(checked);
    }
    var size := e.value.header.payload;
    if |frame| - r.cursor < size {
      return Failure(WireIntegrityFailure);
    }
    var payload := frame[r.cursor..r.cursor + size];
    assert payload == frame[r.cursor..][..size] && frame[r.cursor + size..] == frame[r.cursor..][size..];
    var trailer := new Reader(frame[r.cursor + size..]);
    var stored := trailer.Number(FRAME_TRAILER_SIZE);
    if trailer.failed || trailer.cursor != |frame| - r.cursor - size || stored != digest(e.value.header, payload) {
      return Failure(WireIntegrityFailure);
    }
    return Success((e.value.header, payload));
  }
}
