// The writer and the reader of the binary codec (src/codec.hpp). A writer only appends. A reader
// moves a cursor; once a read finds too few bytes it has failed, and every later read fails
// without moving.
module Streams {
  import opened Types
  import opened Bytes

  class Writer {
    var bytes: seq<Byte>

    constructor ()
      ensures bytes == []
    {
      bytes := [];
    }

    /** Appends the bytes of a number one at a time, least significant first. */
    method Number(v: nat, n: nat)
      modifies this
      ensures forall rest :: bytes + rest == old(bytes) + Put(v, n, rest)
    {
      var left := v;
      var i := 0;
      while i < n
        invariant 0 <= i <= n
        invariant forall rest :: bytes + Put(left, n - i, rest) == old(bytes) + Put(v, n, rest)
      {
        ghost var before := bytes;
        bytes := bytes + [left % 256];
        forall rest ensures bytes + Put(left / 256, n - i - 1, rest) == old(bytes) + Put(v, n, rest) {
          assert before + Put(left, n - i, rest) == old(bytes) + Put(v, n, rest);
          assert before + ([left % 256] + Put(left / 256, n - i - 1, rest)) ==
                 before + [left % 256] + Put(left / 256, n - i - 1, rest);
        }
        left := left / 256;
        i := i + 1;
      }
      forall rest ensures bytes + rest == old(bytes) + Put(v, n, rest) {
        assert bytes + Put(left, 0, rest) == old(bytes) + Put(v, n, rest);
      }
    }

    method Text(t: string)
      modifies this
      ensures forall rest :: bytes + rest == old(bytes) + PutText(t, rest)
    {
      Number(|t|, 4);
      ghost var start := bytes;
      var i := 0;
      assert t[0..] == t;
      while i < |t|
        invariant 0 <= i <= |t|
        invariant forall rest :: bytes + PutChars(t[i..], rest) == start + PutChars(t, rest)
      {
        ghost var before := bytes;
        bytes := bytes + [t[i] as int % 256];
        forall rest ensures bytes + PutChars(t[i + 1..], rest) == start + PutChars(t, rest) {
          assert before + PutChars(t[i..], rest) == start + PutChars(t, rest);
          assert t[i..][1..] == t[i + 1..];
          assert before + ([t[i] as int % 256] + PutChars(t[i + 1..], rest)) == bytes + PutChars(t[i + 1..], rest);
        }
        i := i + 1;
      }
      assert t[i..] == "";
      forall rest ensures bytes + rest == old(bytes) + PutText(t, rest) {
        assert bytes + PutChars(t[i..], rest) == start + PutChars(t, rest);
      }
    }
  }

  class Reader {
    const data: seq<Byte>
    var cursor: nat
    var failed: bool

    ghost predicate Valid()
      reads this
    {
      cursor <= |data|
    }

    /** What is left to read; nothing once a read has failed. */
    ghost function Rest(): Option<seq<Byte>>
      requires Valid()
      reads this
    {
      if failed then None else Some(data[cursor..])
    }

    constructor (bytes: seq<Byte>)
      ensures Valid() && data == bytes && cursor == 0 && Rest() == Some(bytes)
    {
      data := bytes;
      cursor := 0;
      failed := false;
    }

    /** A number of n bytes; zero, and failure from now on, when they are not there. */
    method Number(n: nat) returns (v: nat)
      requires Valid()
      modifies this
      ensures Valid() && old(cursor) <= cursor
      ensures old(Rest()).None? || Get(old(Rest()).value, n).Bad? ==> Rest().None? && v == 0 && cursor == old(cursor)
      ensures old(Rest()).Some? && Get(old(Rest()).value, n).Good? ==>
                v == Get(old(Rest()).value, n).value && Rest() == Some(Get(old(Rest()).value, n).rest)
    {
      if failed || n > |data| - cursor {
        GetSize(data[cursor..], n);
        failed := true;
        return 0;
      }
      ghost var s := data[cursor..];
      GetSize(s, n);
      v := 0;
      var i := n;
      while i > 0
        invariant 0 <= i <= n
        invariant v == FromLittle(data[cursor + i..cursor + n])
      {
        i := i - 1;
        assert data[cursor + i..cursor + n] == [data[cursor + i]] + data[cursor + i + 1..cursor + n];
        v := data[cursor + i] + 256 * v;
      }
      GetIsLittle(s, n);
      assert s[..n] == data[cursor..cursor + n];
      cursor := cursor + n;
      assert s[n..] == data[cursor..];
    }

    /** The characters at the cursor, which are known to be there. */
    method Chars(n: nat) returns (t: string)
      requires Valid() && !failed && n <= |data| - cursor
      modifies this`cursor
      ensures Valid() && old(cursor) <= cursor && GetChars(old(data[cursor..]), n) == Good(t, data[cursor..])
    {
      ghost var s := data[cursor..];
      var start := cursor;
      t := "";
      var i := 0;
      assert s[0..] == s;
      PrependNothing(GetChars(s, n));
      while i < n
        invariant 0 <= i <= n && cursor == start
        invariant |t| == i && GetChars(s, n) == Prepend(t, GetChars(s[i..], n - i))
      {
        assert s[i..][1..] == s[i + 1..];
        PrependStep(t, s[i..], n - i);
        t := t + [data[cursor + i] as char];
        i := i + 1;
      }
      PrependDone(t, s[i..]);
      cursor := cursor + n;
      assert s[i..] == data[cursor..];
    }

    /** A length-prefixed text; a length over the bound is a failure. */
    method Text(bound: nat) returns (t: string)
      requires Valid()
      modifies this
      ensures Valid() && old(cursor) <= cursor
      ensures old(Rest()).None? || GetText(old(Rest()).value, bound).Bad? ==> Rest().None?
      ensures old(Rest()).Some? && GetText(old(Rest()).value, bound).Good? ==>
                t == GetText(old(Rest()).value, bound).value && Rest() == Some(GetText(old(Rest()).value, bound).rest)
    {
      hide Get, GetChars;
      var n := Number(4);
      if failed || n > bound {
        failed := true;
        return "";
      }
      GetCharsSize(data[cursor..], n);
      if n > |data| - cursor {
        failed := true;
        return "";
      }
      t := Chars(n);
    }
  }

  function FromLittle(s: seq<Byte>): nat {
    if s == [] then 0 else s[0] + 256 * FromLittle(s[1..])
  }

  lemma {:induction false} GetIsLittle(s: seq<Byte>, n: nat)
    requires n <= |s|
    ensures Get(s, n) == Good(FromLittle(s[..n]), s[n..])
    decreases n
  {
    if n == 0 {
      assert s[..0] == [] && s[0..] == s;
    } else {
      GetIsLittle(s[1..], n - 1);
      assert s[..n][1..] == s[1..][..n - 1] && s[1..][n - 1..] == s[n..];
    }
  }

  lemma {:induction false} GetCharsSize(s: seq<Byte>, n: nat)
    ensures GetChars(s, n).Bad? <==> |s| < n
    decreases n
  {
    if n > 0 && s != [] {
      GetCharsSize(s[1..], n - 1);
    }
  }

  ghost function Prepend(t: string, p: Parsed<string>): Parsed<string> {
    if p.Bad? then Bad else Good(t + p.value, p.rest)
  }

  lemma PrependStep(t: string, s: seq<Byte>, n: nat)
    requires s != [] && n > 0
    ensures Prepend(t, GetChars(s, n)) == Prepend(t + [s[0] as char], GetChars(s[1..], n - 1))
  {
    var p := GetChars(s[1..], n - 1);
    if p.Good? {
      assert t + ([s[0] as char] + p.value) == t + [s[0] as char] + p.value;
    }
  }

  lemma PrependNothing(p: Parsed<string>)
    ensures Prepend("", p) == p
  {
    if p.Good? {
      assert "" + p.value == p.value;
    }
  }

  lemma PrependDone(t: string, s: seq<Byte>)
    ensures Prepend(t, GetChars(s, 0)) == Good(t, s)
  {
    assert t + "" == t;
  }
}
