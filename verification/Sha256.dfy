// The digest function: the specification of sections 4.1.2, 5.1.1 and 6.2.2 of FIPS 180-4, and
// the streaming hasher (Hasher, src/core.cpp:285), which absorbs a message in pieces and gives
// exactly the specified digest of the whole.
module Sha256 {

  type Octet = bv8
  type Word = bv32

  const BLOCK: nat := 64

  // ---------------------------------------------------------------------------------------
  // Functions and constants (sections 4.1.2 and 4.2.2)
  // ---------------------------------------------------------------------------------------

  function Rotr(x: Word, n: nat): Word
    requires 0 < n < 32
  {
    (x >> n) | (x << (32 - n))
  }

  function Ch(x: Word, y: Word, z: Word): Word {
    (x & y) ^ (!x & z)
  }

  function Maj(x: Word, y: Word, z: Word): Word {
    (x & y) ^ (x & z) ^ (y & z)
  }

  function BigSigma0(x: Word): Word {
    Rotr(x, 2) ^ Rotr(x, 13) ^ Rotr(x, 22)
  }

  function BigSigma1(x: Word): Word {
    Rotr(x, 6) ^ Rotr(x, 11) ^ Rotr(x, 25)
  }

  function SmallSigma0(x: Word): Word {
    Rotr(x, 7) ^ Rotr(x, 18) ^ (x >> 3)
  }

  function SmallSigma1(x: Word): Word {
    Rotr(x, 17) ^ Rotr(x, 19) ^ (x >> 10)
  }

  const K: seq<Word> := [
    0x428a2f98, 0x71374491, 0xb5c0fbcf, 0xe9b5dba5, 0x3956c25b, 0x59f111f1, 0x923f82a4, 0xab1c5ed5,
    0xd807aa98, 0x12835b01, 0x243185be, 0x550c7dc3, 0x72be5d74, 0x80deb1fe, 0x9bdc06a7, 0xc19bf174,
    0xe49b69c1, 0xefbe4786, 0x0fc19dc6, 0x240ca1cc, 0x2de92c6f, 0x4a7484aa, 0x5cb0a9dc, 0x76f988da,
    0x983e5152, 0xa831c66d, 0xb00327c8, 0xbf597fc7, 0xc6e00bf3, 0xd5a79147, 0x06ca6351, 0x14292967,
    0x27b70a85, 0x2e1b2138, 0x4d2c6dfc, 0x53380d13, 0x650a7354, 0x766a0abb, 0x81c2c92e, 0x92722c85,
    0xa2bfe8a1, 0xa81a664b, 0xc24b8b70, 0xc76c51a3, 0xd192e819, 0xd6990624, 0xf40e3585, 0x106aa070,
    0x19a4c116, 0x1e376c08, 0x2748774c, 0x34b0bcb5, 0x391c0cb3, 0x4ed8aa4a, 0x5b9cca4f, 0x682e6ff3,
    0x748f82ee, 0x78a5636f, 0x84c87814, 0x8cc70208, 0x90befffa, 0xa4506ceb, 0xbef9a3f7, 0xc67178f2]

  /** The eight words a to h. */
  datatype Words = Words(a: Word, b: Word, c: Word, d: Word, e: Word, f: Word, g: Word, h: Word)

  const INITIAL: Words := Words(
    0x6a09e667, 0xbb67ae85, 0x3c6ef372, 0xa54ff53a, 0x510e527f, 0x9b05688c, 0x1f83d9ab, 0x5be0cd19)

  // ---------------------------------------------------------------------------------------
  // One block (section 6.2.2)
  // ---------------------------------------------------------------------------------------

  function WordAt(block: seq<Octet>, i: nat): Word
    requires |block| == BLOCK && i < 16
  {
    ((block[4 * i] as Word) << 24) | ((block[4 * i + 1] as Word) << 16) | ((block[4 * i + 2] as Word) << 8) |
    (block[4 * i + 3] as Word)
  }

  /** The message schedule. */
  function W(block: seq<Octet>, t: nat): Word
    requires |block| == BLOCK && t < 64
  {
    if t < 16 then WordAt(block, t)
    else Sum(SmallSigma1(W(block, t - 2)), W(block, t - 7), SmallSigma0(W(block, t - 15)), W(block, t - 16))
  }

  function Sum(a: Word, b: Word, c: Word, d: Word): Word {
    a + b + c + d
  }

  function Round(v: Words, k: Word, w: Word): Words {
    var t1 := v.h + BigSigma1(v.e) + Ch(v.e, v.f, v.g) + k + w;
    var t2 := BigSigma0(v.a) + Maj(v.a, v.b, v.c);
    Words(t1 + t2, v.a, v.b, v.c, v.d + t1, v.e, v.f, v.g)
  }

  function Rounds(v: Words, block: seq<Octet>, t: nat): Words
    requires |block| == BLOCK && t <= 64
  {
    if t == 0 then v else Round(Rounds(v, block, t - 1), KAt(t - 1), W(block, t - 1))
  }

  function KAt(t: nat): Word
    requires t < 64
  {
    assert |K| == 64;
    K[t]
  }

  function Add(x: Words, y: Words): Words {
    Words(x.a + y.a, x.b + y.b, x.c + y.c, x.d + y.d, x.e + y.e, x.f + y.f, x.g + y.g, x.h + y.h)
  }

  function Compress(state: Words, block: seq<Octet>): Words
    requires |block| == BLOCK
  {
    Add(state, Rounds(state, block, 64))
  }

  function Fold(state: Words, m: seq<Octet>): Words
    requires |m| % BLOCK == 0
    decreases |m|
  {
    if m == [] then state else Fold(Compress(state, m[..BLOCK]), m[BLOCK..])
  }

  // ---------------------------------------------------------------------------------------
  // Padding (section 5.1.1) and the digest
  // ---------------------------------------------------------------------------------------

  /** The k low bytes of a number, most significant first. */
  function BigEndian(v: nat, k: nat): seq<Octet> {
    if k == 0 then [] else BigEndian(v / 256, k - 1) + [(v % 256) as Octet]
  }

  function Zeros(n: nat): seq<Octet> {
    if n == 0 then [] else [0] + Zeros(n - 1)
  }

  /** k zero bytes bring a message of n bytes and its 0x80 byte to 56 bytes modulo 64. */
  predicate Aligns(n: nat, k: nat) {
    (n + 1 + k) % BLOCK == 56
  }

  predicate IsZeroCount(n: nat, k: nat) {
    Aligns(n, k) && forall j: nat :: Aligns(n, j) ==> k <= j
  }

  function ZeroCount(n: nat): (k: nat)
    ensures IsZeroCount(n, k)
  {
    var k := (119 - n % BLOCK) % BLOCK;
    assert Aligns(n, k);
    k
  }

  lemma PadSize(n: nat)
    ensures (n + 1 + |Zeros(ZeroCount(n))| + |BigEndian(8 * n, 8)|) % BLOCK == 0
  {
    hide Zeros, BigEndian;
    ZerosSize(ZeroCount(n));
    BigEndianSize(8 * n, 8);
    assert Aligns(n, ZeroCount(n));
  }

  function Pad(m: seq<Octet>): (p: seq<Octet>)
    ensures |p| % BLOCK == 0
  {
    PadSize(|m|);
    m + [0x80] + Zeros(ZeroCount(|m|)) + BigEndian(8 * |m|, 8)
  }

  lemma ZerosSize(n: nat)
    ensures |Zeros(n)| == n
  {
  }

  lemma BigEndianSize(v: nat, k: nat)
    ensures |BigEndian(v, k)| == k
  {
  }

  function WordBytes(w: Word): seq<Octet> {
    [(w >> 24) as Octet, ((w >> 16) & 0xFF) as Octet, ((w >> 8) & 0xFF) as Octet, (w & 0xFF) as Octet]
  }

  function Serialize(v: Words): seq<Octet> {
    WordBytes(v.a) + WordBytes(v.b) + WordBytes(v.c) + WordBytes(v.d) + WordBytes(v.e) + WordBytes(v.f) +
      WordBytes(v.g) +
    WordBytes(v.h)
  }

  /** The digest of a message. */
  function Digest(m: seq<Octet>): seq<Octet> {
    Serialize(Fold(INITIAL, Pad(m)))
  }

  // ---------------------------------------------------------------------------------------
  // Folding in pieces
  // ---------------------------------------------------------------------------------------

  lemma {:induction false} FoldConcat(state: Words, a: seq<Octet>, b: seq<Octet>)
    requires |a| % BLOCK == 0 && |b| % BLOCK == 0
    ensures Fold(state, a + b) == Fold(Fold(state, a), b)
    decreases |a|
  {
    hide Compress;
    if a == [] {
      assert a + b == b;
    } else {
      assert (a + b)[..BLOCK] == a[..BLOCK] && (a + b)[BLOCK..] == a[BLOCK..] + b;
      FoldConcat(Compress(state, a[..BLOCK]), a[BLOCK..], b);
    }
  }

  lemma FoldOne(state: Words, block: seq<Octet>)
    requires |block| == BLOCK
    ensures Fold(state, block) == Compress(state, block)
  {
    hide Compress;
    assert block[..BLOCK] == block && block[BLOCK..] == [];
    assert Fold(Compress(state, block), []) == Compress(state, block);
  }

  // ---------------------------------------------------------------------------------------
  // The hasher
  // ---------------------------------------------------------------------------------------

  /** What has been absorbed: the state is the fold of the full blocks, the buffer the rest. */
  ghost predicate Absorbed(state: Words, buffer: seq<Octet>, m: seq<Octet>) {
    && |buffer| < BLOCK && |buffer| <= |m| && (|m| - |buffer|) % BLOCK == 0
    && m[|m| - |buffer|..] == buffer
    && state == Fold(INITIAL, m[..|m| - |buffer|])
  }

  lemma AbsorbPart(state: Words, buffer: seq<Octet>, m: seq<Octet>, data: seq<Octet>)
    requires Absorbed(state, buffer, m) && |buffer| + |data| < BLOCK
    ensures Absorbed(state, buffer + data, m + data)
  {
    var n := m + data;
    assert n[..|n| - |buffer + data|] == m[..|m| - |buffer|];
    assert n[|n| - |buffer + data|..] == buffer + data;
  }

  lemma AbsorbBlock(state: Words, buffer: seq<Octet>, m: seq<Octet>, data: seq<Octet>)
    requires Absorbed(state, buffer, m) && |buffer| + |data| == BLOCK
    ensures Absorbed(Compress(state, buffer + data), [], m + data)
  {
    hide Compress;
    var n, full := m + data, m[..|m| - |buffer|];
    assert m == full + buffer;
    assert n[..|n|] == n && n == full + (buffer + data);
    FoldConcat(INITIAL, full, buffer + data);
    FoldOne(state, buffer + data);
  }

  class Hasher {
    var state: Words
    const buffer: array<Octet>
    var buffered: nat
    var total: nat
    var finished: bool
    var result: seq<Octet>
    ghost var message: seq<Octet>

    ghost predicate Valid()
      reads this, buffer
    {
      && buffer.Length == BLOCK && buffered < BLOCK
      && (!finished ==> Absorbed(state, buffer[..buffered], message) && total == |message|)
      && (finished ==> result == Digest(message))
    }

    constructor ()
      ensures Valid() && !finished && message == [] && fresh(buffer)
    {
      state := INITIAL;
      buffer := new Octet[BLOCK];
      buffered := 0;
      total := 0;
      finished := false;
      result := [];
      message := [];
      new;
      assert message[..0] == [];
    }

    /** Copies into the buffer as much as fits, and compresses whenever it is full. */
    method Feed(data: seq<Octet>)
      requires buffer.Length == BLOCK && buffered < BLOCK
      requires Absorbed(state, buffer[..buffered], message)
      modifies this`state, this`buffered, this`message, buffer
      ensures buffered < BLOCK && message == old(message) + data
      ensures Absorbed(state, buffer[..buffered], message)
    {
      hide Absorbed;
      var cursor := 0;
      assert message + data[..0] == message;
      while cursor < |data|
        invariant cursor <= |data| && buffered < BLOCK
        invariant message == old(message) + data[..cursor]
        invariant Absorbed(state, buffer[..buffered], message)
      {
        var space := BLOCK - buffered;
        var take := if |data| - cursor < space then |data| - cursor else space;
        Absorb(data[cursor..cursor + take]);
        assert data[..cursor + take] == data[..cursor] + data[cursor..cursor + take];
        cursor := cursor + take;
      }
      assert data[..cursor] == data;
    }

    method Absorb(piece: seq<Octet>)
      requires buffer.Length == BLOCK && buffered < BLOCK && buffered + |piece| <= BLOCK
      requires Absorbed(state, buffer[..buffered], message)
      modifies this`state, this`buffered, this`message, buffer
      ensures buffered < BLOCK && message == old(message) + piece
      ensures Absorbed(state, buffer[..buffered], message)
    {
      hide Compress, Absorbed;
      ghost var before := buffer[..buffered];
      Copy(piece);
      assert buffer[..buffered + |piece|] == before + piece;
      if buffered + |piece| == BLOCK {
        assert buffer[..] == before + piece;
        AbsorbBlock(state, before, message, piece);
        state := CompressBlock();
        buffered := 0;
        assert buffer[..buffered] == [];
      } else {
        AbsorbPart(state, before, message, piece);
        buffered := buffered + |piece|;
      }
      message := message + piece;
    }

    method Copy(piece: seq<Octet>)
      requires buffer.Length == BLOCK && buffered + |piece| <= BLOCK
      modifies buffer
      ensures buffer[..buffered] == old(buffer[..buffered]) && buffer[buffered..buffered + |piece|] == piece
    {
      var i := 0;
      while i < |piece|
        invariant 0 <= i <= |piece|
        invariant buffer[..buffered] == old(buffer[..buffered]) && buffer[buffered..buffered + i] == piece[..i]
      {
        buffer[buffered + i] := piece[i];
        i := i + 1;
      }
    }

    /** The schedule and the 64 rounds over the full buffer. */
    method CompressBlock() returns (next: Words)
      requires buffer.Length == BLOCK
      ensures next == Compress(state, buffer[..])
    {
      hide W, Rounds;
      var w := Schedule();
      var v := Mix(w);
      next := Add(state, v);
    }

    method Schedule() returns (w: array<Word>)
      requires buffer.Length == BLOCK
      ensures fresh(w) && w.Length == 64
      ensures forall j :: 0 <= j < 64 ==> w[j] == W(buffer[..], j)
    {
      hide WordAt, SmallSigma0, SmallSigma1, W, Sum;
      ghost var block := buffer[..];
      w := new Word[64];
      var i := 0;
      while i < 16
        invariant 0 <= i <= 16 && buffer[..] == block
        invariant forall j :: 0 <= j < i ==> w[j] == W(block, j)
      {
        FirstWords(block, i);
        w[i] := WordAt(buffer[..], i);
        i := i + 1;
      }
      while i < 64
        invariant 16 <= i <= 64 && buffer[..] == block
        invariant forall j :: 0 <= j < i ==> w[j] == W(block, j)
      {
        ScheduleStep(block, i);
        w[i] := Sum(w[i - 16], SmallSigma0(w[i - 15]), w[i - 7], SmallSigma1(w[i - 2]));
        i := i + 1;
      }
    }

    method Mix(w: array<Word>) returns (v: Words)
      requires buffer.Length == BLOCK && w.Length == 64
      requires forall j :: 0 <= j < 64 ==> w[j] == W(buffer[..], j)
      ensures v == Rounds(state, buffer[..], 64)
    {
      hide Round, KAt, W;
      v := state;
      var i := 0;
      while i < 64
        invariant 0 <= i <= 64
        invariant v == Rounds(state, buffer[..], i)
      {
        v := Round(v, KAt(i), w[i]);
        i := i + 1;
      }
    }

    method Update(data: seq<Octet>)
      requires Valid()
      modifies this`state, this`buffered, this`message, this`total, buffer
      ensures Valid()
      ensures message == old(message) + (if finished then [] else data)
    {
      hide Absorbed, Digest;
      if finished {
        assert message == message + [];
        return;
      }
      total := total + |data|;
      Feed(data);
    }

    /** The digest of everything absorbed; asking again gives the same value. */
    method Finish() returns (digest: seq<Octet>)
      requires Valid() && (!finished ==> total < 0x2000_0000_0000_0000)
      modifies this`state, this`buffered, this`finished, this`result, this`message, buffer
      ensures Valid() && finished && message == old(message)
      ensures digest == Digest(message)
    {
      hide Absorbed, Serialize, Fold, Zeros, BigEndian, Pad;
      if finished {
        return result;
      }
      ghost var m := message;
      var bitLength := (total * 8) % 0x1_0000_0000_0000_0000;
      var rem := total % BLOCK;
      var zeroCount := if rem < 56 then 55 - rem else 119 - rem;
      var tail := [0x80] + Zeros(zeroCount) + BigEndian(bitLength, 8);
      PaddingIsSpecified(m, rem, zeroCount);
      Feed(tail);
      AllAbsorbed(state, buffer[..buffered], message, Pad(m));
      result := Serialize(state);
      finished := true;
      message := m;
      return result;
    }
  }

  lemma FirstWords(block: seq<Octet>, t: nat)
    requires |block| == BLOCK && t < 16
    ensures W(block, t) == WordAt(block, t)
  {
    hide WordAt;
  }

  /** The program adds the four terms in the other order. */
  lemma ScheduleStep(block: seq<Octet>, t: nat)
    requires |block| == BLOCK && 16 <= t < 64
    ensures W(block, t) ==
            Sum(W(block, t - 16), SmallSigma0(W(block, t - 15)), W(block, t - 7), SmallSigma1(W(block, t - 2)))
  {
    hide SmallSigma0, SmallSigma1, WordAt, Sum;
    SumReversed(SmallSigma1(W(block, t - 2)), W(block, t - 7), SmallSigma0(W(block, t - 15)), W(block, t - 16));
  }

  lemma SumReversed(a: Word, b: Word, c: Word, d: Word)
    ensures Sum(a, b, c, d) == Sum(d, c, b, a)
  {
  }

  /** The zero count of the program is the least one that aligns the message. */
  lemma PaddingIsSpecified(m: seq<Octet>, rem: nat, zeroCount: nat)
    requires rem == |m| % BLOCK && zeroCount == if rem < 56 then 55 - rem else 119 - rem
    requires |m| < 0x2000_0000_0000_0000
    ensures m + ([0x80] + Zeros(zeroCount) + BigEndian((|m| * 8) % 0x1_0000_0000_0000_0000, 8)) == Pad(m)
  {
    hide Zeros, BigEndian;
    assert Aligns(|m|, zeroCount);
    assert IsZeroCount(|m|, ZeroCount(|m|));
    assert zeroCount == ZeroCount(|m|);
    assert (|m| * 8) % 0x1_0000_0000_0000_0000 == 8 * |m|;
    var z, b := Zeros(zeroCount), BigEndian(8 * |m|, 8);
    assert m + ([0x80] + z + b) == m + [0x80] + z + b;
  }

  lemma AllAbsorbed(state: Words, buffer: seq<Octet>, m: seq<Octet>, p: seq<Octet>)
    requires Absorbed(state, buffer, m) && m == p && |p| % BLOCK == 0
    ensures buffer == [] && state == Fold(INITIAL, p)
  {
    hide Fold;
    assert |buffer| == 0;
    assert m[..|m| - |buffer|] == p;
  }

  /** One-shot hashing. */
  method Hash(data: seq<Octet>) returns (digest: seq<Octet>)
    requires |data| < 0x2000_0000_0000_0000
    ensures digest == Digest(data)
  {
    hide Absorbed, Digest;
    var hasher := new Hasher();
    hasher.Update(data);
    assert hasher.message == data;
    digest := hasher.Finish();
  }

  /** However a message is split into pieces, the digest is that of the whole. */
  method HashPieces(pieces: seq<seq<Octet>>) returns (digest: seq<Octet>)
    requires |Joined(pieces)| < 0x2000_0000_0000_0000
    ensures digest == Digest(Joined(pieces))
  {
    hide Absorbed, Digest;
    var hasher := new Hasher();
    var i := 0;
    assert pieces[..0] == [];
    while i < |pieces|
      invariant 0 <= i <= |pieces| && hasher.Valid() && !hasher.finished && fresh(hasher) && fresh(hasher.buffer)
      invariant hasher.message == Joined(pieces[..i])
    {
      hasher.Update(pieces[i]);
      assert pieces[..i + 1][..i] == pieces[..i];
      i := i + 1;
    }
    assert pieces[..i] == pieces;
    digest := hasher.Finish();
  }

  function Joined(pieces: seq<seq<Octet>>): seq<Octet> {
    if pieces == [] then [] else Joined(pieces[..|pieces| - 1]) + pieces[|pieces| - 1]
  }
}
