/**
  9P messages and directory entries (kernel/src/ninep.rs), and directory reads
  (kernel/src/dev.rs).
 */
module NineP {
  import opened ProcTable
  import opened Bytes

  // ---- integers, least byte first

  /** The low `n` bytes. */
  function Le(v: nat, n: nat): (b: bytes)
    ensures |b| == n
  {
    if n == 0 then [] else [v % 256] + Le(v / 256, n - 1)
  }

  function UnLe(b: bytes): nat {
    if b == [] then 0 else b[0] + 256 * UnLe(b[1..])
  }

  /** How many values `n` bytes can have. */
  function Span(n: nat): (r: nat)
    ensures r > 0
  {
    if n == 0 then 1 else 256 * Span(n - 1)
  }

  /** Reading back gives what was written exactly when it fits. */
  lemma {:induction false} LeRoundTrip(v: nat, n: nat)
    ensures UnLe(Le(v, n)) < Span(n) && UnLe(Le(v, n)) <= v
    ensures UnLe(Le(v, n)) == v <==> v < Span(n)
  {
    if n > 0 {
      LeRoundTrip(v / 256, n - 1);
      assert Le(v, n)[1..] == Le(v / 256, n - 1);
    }
  }

  lemma {:induction false} UnLeRoundTrip(b: bytes)
    ensures UnLe(b) < Span(|b|) && Le(UnLe(b), |b|) == b
  {
    if b != [] {
      UnLeRoundTrip(b[1..]);
      var lo: nat, hi := b[0], UnLe(b[1..]);
      hide UnLe;
      assert (lo + 256 * hi) % 256 == lo && (lo + 256 * hi) / 256 == hi;
    }
  }

  lemma Spans()
    ensures Span(1) == 0x100 && Span(2) == 0x1_0000 && Span(4) == 0x1_0000_0000 && Span(8) == 0x1_0000_0000_0000_0000
  {
    assert Span(4) == 256 * (256 * Span(2));
    assert Span(8) == 256 * (256 * (256 * (256 * Span(4))));
  }

  // ---- text

  /** A continuation byte, within these bounds. */
  predicate Cont(b: bytes, i: nat, lo: nat, hi: nat) {
    i < |b| && lo <= b[i] <= hi
  }

  /** How many bytes the character at the front takes; 0 if it is not one (section 4 of RFC 3629). */
  function CharLen(b: bytes): (n: nat)
    ensures n <= |b|
  {
    if b == [] then 0
    else if b[0] <= 0x7f then 1
    else if 0xc2 <= b[0] <= 0xdf && Cont(b, 1, 0x80, 0xbf) then 2
    else if 0xe0 <= b[0] <= 0xef
            && Cont(b, 1, if b[0] == 0xe0 then 0xa0 else 0x80, if b[0] == 0xed then 0x9f else 0xbf)
            && Cont(b, 2, 0x80, 0xbf) then 3
    else if 0xf0 <= b[0] <= 0xf4
            && Cont(b, 1, if b[0] == 0xf0 then 0x90 else 0x80, if b[0] == 0xf4 then 0x8f else 0xbf)
            && Cont(b, 2, 0x80, 0xbf) && Cont(b, 3, 0x80, 0xbf) then 4
    else 0
  }

  predicate Utf8(b: bytes) {
    b == [] || (CharLen(b) > 0 && Utf8(b[CharLen(b)..]))
  }

  // ---- fields

  /** What a message is made of: an integer of so many bytes, or a counted string. */
  datatype Field = Num(v: nat, n: nat) | Str(s: bytes)

  datatype Kind = Int(n: nat) | Text

  function KindOf(f: Field): Kind {
    if f.Num? then Int(f.n) else Text
  }

  /** A string's count is two bytes of its length, whatever that is. */
  function PutOne(f: Field): bytes {
    if f.Num? then Le(f.v, f.n) else Le(|f.s|, 2) + f.s
  }

  function Put(fs: seq<Field>): bytes {
    if fs == [] then [] else PutOne(fs[0]) + Put(fs[1..])
  }

  /** One field off the front, if it is all there; `utf8` is whether a string must be text. */
  function GetOne(k: Kind, b: bytes, utf8: bool): Option<(Field, bytes)> {
    if k.Int? then
      if k.n > |b| then None else Some((Num(UnLe(b[..k.n]), k.n), b[k.n..]))
    else if |b| < 2 then
      None
    else
      var n := UnLe(b[..2]);
      if 2 + n > |b| || (utf8 && !Utf8(b[2..2 + n])) then None else Some((Str(b[2..2 + n]), b[2 + n..]))
  }

  function Get(ks: seq<Kind>, b: bytes, utf8: bool): Option<(seq<Field>, bytes)> {
    if ks == [] then
      Some(([], b))
    else
      var one := GetOne(ks[0], b, utf8);
      if one.None? then
        None
      else
        var more := Get(ks[1..], one.value.1, utf8);
        if more.None? then None else Some(([one.value.0] + more.value.0, more.value.1))
  }

  function Kinds(fs: seq<Field>): seq<Kind> {
    if fs == [] then [] else [KindOf(fs[0])] + Kinds(fs[1..])
  }

  /** It fits where it is put. */
  predicate Fits(f: Field) {
    if f.Num? then f.v < Span(f.n) else |f.s| < Span(2)
  }

  predicate Texts(fs: seq<Field>) {
    forall i :: 0 <= i < |fs| ==> fs[i].Str? ==> Utf8(fs[i].s)
  }

  lemma OneRoundTrip(f: Field, rest: bytes, utf8: bool)
    requires utf8 && f.Str? ==> Utf8(f.s)
    ensures Fits(f) ==> GetOne(KindOf(f), PutOne(f) + rest, utf8) == Some((f, rest))
    ensures !Fits(f) ==> GetOne(KindOf(f), PutOne(f) + rest, utf8).None? || GetOne(KindOf(f), PutOne(f) + rest, utf8).value.0 != f
  {
    var b := PutOne(f) + rest;
    if f.Num? {
      LeRoundTrip(f.v, f.n);
      assert b[..f.n] == Le(f.v, f.n) && b[f.n..] == rest;
    } else {
      LeRoundTrip(|f.s|, 2);
      assert b[..2] == Le(|f.s|, 2);
      if Fits(f) {
        assert b[2..2 + |f.s|] == f.s && b[2 + |f.s|..] == rest;
      }
    }
  }

  /** Fields put and got back are the same exactly when each fits: an integer its bytes, a string its count. */
  lemma {:induction false} FieldsRoundTrip(fs: seq<Field>, rest: bytes, utf8: bool)
    requires utf8 ==> Texts(fs)
    ensures (forall i :: 0 <= i < |fs| ==> Fits(fs[i])) ==> Get(Kinds(fs), Put(fs) + rest, utf8) == Some((fs, rest))
    ensures Get(Kinds(fs), Put(fs) + rest, utf8).Some? && Get(Kinds(fs), Put(fs) + rest, utf8).value.0 == fs ==>
              forall i :: 0 <= i < |fs| ==> Fits(fs[i])
  {
    hide PutOne, GetOne, Fits, Utf8;
    if fs == [] {
      assert Put(fs) + rest == rest;
    } else {
      assert Kinds(fs)[0] == KindOf(fs[0]) && Kinds(fs)[1..] == Kinds(fs[1..]);
      assert Put(fs) + rest == PutOne(fs[0]) + (Put(fs[1..]) + rest);
      OneRoundTrip(fs[0], Put(fs[1..]) + rest, utf8);
      FieldsRoundTrip(fs[1..], rest, utf8);
      assert [fs[0]] + fs[1..] == fs;
      var r := Get(Kinds(fs), Put(fs) + rest, utf8);
      if r.Some? && r.value.0 == fs {
        assert Fits(fs[0]) by { assert r.value.0[0] == fs[0]; }
        assert r.value.0[1..] == fs[1..];
      }
    }
  }

  /** What is got is what was there: put again, it is the bytes that were read. */
  lemma {:induction false} GetIsPut(ks: seq<Kind>, b: bytes, utf8: bool)
    ensures var r := Get(ks, b, utf8);
            r.Some? ==> Kinds(r.value.0) == ks && b == Put(r.value.0) + r.value.1 && forall i :: 0 <= i < |r.value.0| ==> Fits(r.value.0[i])
  {
    hide GetOne, PutOne, Fits;
    var r := Get(ks, b, utf8);
    if ks != [] && r.Some? {
      var one := GetOne(ks[0], b, utf8).value;
      GetOneIsPut(ks[0], b, utf8);
      GetIsPut(ks[1..], one.1, utf8);
      var more := Get(ks[1..], one.1, utf8).value;
      assert r.value.0[0] == one.0 && r.value.0[1..] == more.0;
      assert ks == [ks[0]] + ks[1..];
    }
  }

  lemma GetOneIsPut(k: Kind, b: bytes, utf8: bool)
    ensures var r := GetOne(k, b, utf8); r.Some? ==> KindOf(r.value.0) == k && b == PutOne(r.value.0) + r.value.1 && Fits(r.value.0)
  {
    var r := GetOne(k, b, utf8);
    if r.Some? {
      var n := if k.Int? then k.n else 2;
      UnLeRoundTrip(b[..n]);
      assert b == b[..n] + b[n..];
    }
  }

  /** A reader over a message, whose every accessor may find it too short. */
  class R {
    const b: bytes
    var i: nat

    constructor (b: bytes)
      ensures this.b == b && i == 0
    {
      this.b, i := b, 0;
    }

    method Take(n: nat) returns (s: Option<bytes>)
      requires i <= |b|
      modifies this
      ensures i <= |b| && (s.None? <==> old(i) + n > |b|)
      ensures if s.Some? then i == old(i) + n && s.value == b[old(i)..i] else i == old(i)
    {
      if i + n > |b| {
        return None;
      }
      s := Some(b[i..i + n]);
      i := i + n;
    }

    method Uint(n: nat) returns (v: Option<nat>)
      requires i <= |b|
      modifies this
      ensures i <= |b|
      ensures var r := GetOne(Int(n), b[old(i)..], true);
              if v.Some? then r == Some((Num(v.value, n), b[i..])) && i == old(i) + n else r.None?
    {
      var s := Take(n);
      if s.None? {
        return None;
      }
      assert b[old(i)..][..n] == s.value;
      return Some(UnLe(s.value));
    }

    method Text() returns (t: Option<bytes>)
      requires i <= |b|
      modifies this
      ensures i <= |b|
      ensures var r := GetOne(Kind.Text, b[old(i)..], true);
              if t.Some? then r == Some((Str(t.value), b[i..])) else r.None?
    {
      var n := Uint(2);
      if n.None? {
        return None;
      }
      assert n.value == UnLe(b[old(i)..][..2]);
      var s := Take(n.value);
      assert s.Some? ==> b[old(i)..][2..2 + n.value] == s.value;
      if s.None? || !Utf8(s.value) {
        return None;
      }
      assert b[old(i)..][2..2 + n.value] == s.value && b[old(i)..][2 + n.value..] == b[i..];
      return s;
    }
  }

  // ---- messages

  datatype Msg = Msg(ty: nat, tag: nat, body: bytes)

  function Frame(m: Msg): bytes {
    Le(7 + |m.body|, 4) + Le(m.ty, 1) + Le(m.tag, 2) + m.body
  }

  function Unframe(buf: bytes): Option<Msg> {
    if |buf| < 7 then
      None
    else
      var size := UnLe(buf[..4]);
      if size < 7 || size > |buf| then None else Some(Msg(UnLe(buf[4..5]), UnLe(buf[5..7]), buf[7..size]))
  }

  /** A message framed, and whatever follows it, is read back exactly when its size is counted by four bytes. */
  lemma FrameRoundTrip(m: Msg, rest: bytes)
    requires m.ty < 0x100 && m.tag < 0x1_0000
    ensures Unframe(Frame(m) + rest) == Some(m) <==> 7 + |m.body| < 0x1_0000_0000
  {
    Spans();
    var buf := Frame(m) + rest;
    LeRoundTrip(7 + |m.body|, 4);
    LeRoundTrip(m.ty, 1);
    LeRoundTrip(m.tag, 2);
    assert buf[..4] == Le(7 + |m.body|, 4);
    assert buf[4..5] == Le(m.ty, 1);
    assert buf[5..7] == Le(m.tag, 2);
    assert buf[7..7 + |m.body|] == m.body;
  }
}
