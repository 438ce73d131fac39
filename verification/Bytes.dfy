// Bytes: little-endian integers of a fixed width, written in front of what follows and read back
// off the front. A read that finds too few bytes fails.
module Bytes {
  import opened Types

  type Byte = x: int | 0 <= x < 256

  datatype Parsed<+T> = Bad | Good(value: T, rest: seq<Byte>)
  {
    predicate IsFailure() {
      Bad?
    }

    function PropagateFailure<U>(): Parsed<U>
      requires Bad?
    {
      Bad
    }

    function Extract(): (T, seq<Byte>)
      requires Good?
    {
      (value, rest)
    }
  }

  /** The n low bytes of a value, least significant first, in front of the rest. */
  function Put(v: nat, n: nat, rest: seq<Byte>): seq<Byte> {
    if n == 0 then rest else [v % 256] + Put(v / 256, n - 1, rest)
  }

  function Get(s: seq<Byte>, n: nat): Parsed<nat> {
    if n == 0 then Good(0, s)
    else if s == [] then Bad
    else
      var (v, rest) :- Get(s[1..], n - 1);
      Good(s[0] + 256 * v, rest)
  }

  function Pow256(n: nat): nat {
    if n == 0 then 1 else 256 * Pow256(n - 1)
  }

  /** The value fits in n bytes. */
  predicate Fits(v: nat, n: nat) {
    v < Pow256(n)
  }

  lemma FitsTwo(v: nat)
    requires v < 0x1_0000
    ensures Fits(v, 2)
  {
    assert Pow256(2) == 256 * Pow256(1) && Pow256(1) == 256 * Pow256(0);
  }

  lemma FitsOne(v: nat)
    requires v < 256
    ensures Fits(v, 1)
  {
  }

  /** What was put is read back, and what followed it is left. */
  lemma {:induction false} PutGet(v: nat, n: nat, rest: seq<Byte>)
    requires Fits(v, n)
    ensures Get(Put(v, n, rest), n) == Good(v, rest)
  {
    if n > 0 {
      PutGet(v / 256, n - 1, rest);
    }
  }

  /** Reading consumes exactly n bytes, or fails exactly when there are fewer. */
  lemma {:induction false} GetSize(s: seq<Byte>, n: nat)
    ensures Get(s, n).Bad? <==> |s| < n
    ensures Get(s, n).Good? ==> Get(s, n).rest == s[n..] && Fits(Get(s, n).value, n)
    decreases n
  {
    if n > 0 && s != [] {
      GetSize(s[1..], n - 1);
      if n <= |s| {
        assert s[n..] == s[1..][n - 1..];
      }
    }
  }

  lemma {:induction false} PutSize(v: nat, n: nat, rest: seq<Byte>)
    ensures |Put(v, n, rest)| == n + |rest|
    decreases n
  {
    if n > 0 {
      PutSize(v / 256, n - 1, rest);
    }
  }

  /** What is put does not depend on what follows. */
  lemma {:induction false} PutAppends(v: nat, n: nat, rest: seq<Byte>)
    ensures Put(v, n, rest) == Put(v, n, []) + rest
    decreases n
  {
    if n == 0 {
      assert Put(v, n, rest) == rest;
    } else {
      PutAppends(v / 256, n - 1, rest);
      assert [v % 256] + (Put(v / 256, n - 1, []) + rest) == ([v % 256] + Put(v / 256, n - 1, [])) + rest;
    }
  }

  lemma PutThen(v: nat, n: nat, a: seq<Byte>, b: seq<Byte>)
    ensures Put(v, n, a) + b == Put(v, n, a + b)
  {
    PutAppends(v, n, a);
    PutAppends(v, n, a + b);
    assert (Put(v, n, []) + a) + b == Put(v, n, []) + (a + b);
  }

  // ---------------------------------------------------------------------------------------
  // Text
  // ---------------------------------------------------------------------------------------

  /** Every character is one byte. */
  predicate ByteText(t: string) {
    forall i :: 0 <= i < |t| ==> t[i] as int < 256
  }

  function PutChars(t: string, rest: seq<Byte>): seq<Byte> {
    if t == "" then rest else [t[0] as int % 256] + PutChars(t[1..], rest)
  }

  function GetChars(s: seq<Byte>, n: nat): Parsed<string> {
    if n == 0 then Good("", s)
    else if s == [] then Bad
    else
      var (t, rest) :- GetChars(s[1..], n - 1);
      Good([s[0] as char] + t, rest)
  }

  lemma {:induction false} CharsRoundTrip(t: string, rest: seq<Byte>)
    requires ByteText(t)
    ensures GetChars(PutChars(t, rest), |t|) == Good(t, rest)
    decreases |t|
  {
    if t != "" {
      CharsRoundTrip(t[1..], rest);
      assert t == [t[0]] + t[1..];
    }
  }

  /** Text is length-prefixed, and refused when the length exceeds the bound. */
  function PutText(t: string, rest: seq<Byte>): seq<Byte> {
    Put(|t|, 4, PutChars(t, rest))
  }

  function GetText(s: seq<Byte>, bound: nat): Parsed<string> {
    var (n, s1) :- Get(s, 4);
    if n > bound then Bad else GetChars(s1, n)
  }

  lemma TextRoundTrip(t: string, bound: nat, rest: seq<Byte>)
    requires ByteText(t) && |t| <= bound && Fits(|t|, 4)
    ensures GetText(PutText(t, rest), bound) == Good(t, rest)
  {
    PutGet(|t|, 4, PutChars(t, rest));
    CharsRoundTrip(t, rest);
  }

  // ---------------------------------------------------------------------------------------
  // Bit masks
  // ---------------------------------------------------------------------------------------

  function Mask(bits: seq<bool>): nat {
    if bits == [] then 0 else (if bits[0] then 1 else 0) + 2 * Mask(bits[1..])
  }

  predicate Bit(mask: nat, k: nat)
    decreases k
  {
    if k == 0 then mask % 2 == 1 else Bit(mask / 2, k - 1)
  }

  function Pow2(n: nat): nat {
    if n == 0 then 1 else 2 * Pow2(n - 1)
  }

  lemma {:induction false} MaskBit(bits: seq<bool>, k: nat)
    requires k < |bits|
    ensures Bit(Mask(bits), k) == bits[k]
    decreases |bits|
  {
    if k > 0 {
      MaskBit(bits[1..], k - 1);
    }
  }

  lemma {:induction false} MaskBound(bits: seq<bool>)
    ensures Mask(bits) < Pow2(|bits|)
    decreases |bits|
  {
    if bits != [] {
      MaskBound(bits[1..]);
    }
  }
}
