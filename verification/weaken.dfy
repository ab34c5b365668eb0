/**
  Weak symbols set in place (userspace/weaken.py): a flag in a WebAssembly object's
  symbol table, in a LEB128 field (section 5.2.2 of the WebAssembly Core
  Specification) whose length must not change.
 */
module Leb128 {
  import opened ProcTable
  import opened Bytes

  /** The number that begins at `at`, and where it ends; `None` runs off the end. */
  function Leb(b: bytes, at: nat): (r: Option<(nat, nat)>)
    ensures r.Some? ==> at < r.value.1 <= |b|
    decreases |b| - at
  {
    if at >= |b| then
      None
    else if b[at] < 128 then
      Some((b[at], at + 1))
    else
      var rest := Leb(b, at + 1);
      if rest.None? then None else Some((b[at] % 128 + 128 * rest.value.0, rest.value.1))
  }

  /** A number in as few bytes as will hold it. */
  function Enc(v: nat): (b: bytes)
    ensures b != []
  {
    if v < 128 then [v] else [v % 128 + 128] + Enc(v / 128)
  }

  /** What is written is read back, and where it ends is where it was written to. */
  lemma {:induction false} EncRoundTrip(b: bytes, at: nat, v: nat)
    requires at + |Enc(v)| <= |b| && b[at..at + |Enc(v)|] == Enc(v)
    ensures Leb(b, at) == Some((v, at + |Enc(v)|))
    decreases v
  {
    var e := Enc(v);
    assert b[at] == e[0];
    if v >= 128 {
      assert b[at + 1..at + |e|] == e[1..] == Enc(v / 128) by {
        assert b[at..at + |e|][1..] == b[at + 1..at + |e|];
      }
      EncRoundTrip(b, at + 1, v / 128);
    }
  }

  /** No encoding of a number is shorter. */
  lemma {:induction false} EncShortest(b: bytes, at: nat)
    requires Leb(b, at).Some?
    ensures |Enc(Leb(b, at).value.0)| <= Leb(b, at).value.1 - at
    decreases |b| - at
  {
    if b[at] >= 128 {
      EncShortest(b, at + 1);
      EncGrows(b[at] % 128, Leb(b, at + 1).value.0);
    }
  }

  lemma EncGrows(lo: nat, hi: nat)
    requires lo < 128
    ensures |Enc(lo + 128 * hi)| <= 1 + |Enc(hi)|
  {
    var v := lo + 128 * hi;
    if v >= 128 {
      assert v / 128 == hi;
    }
  }

  /** An even number and the odd one after it are encoded in the same width. */
  lemma {:induction false} WeakSameWidth(v: nat)
    requires v % 2 == 0
    ensures |Enc(v + 1)| == |Enc(v)|
  {
    if v >= 128 {
      assert (v + 1) / 128 == v / 128;
    }
  }

  lemma {:induction false} LebSame(b: bytes, b': bytes, at: nat)
    requires Leb(b, at).Some? && Same(b, b', at, Leb(b, at).value.1)
    ensures Leb(b', at) == Leb(b, at)
    decreases |b| - at
  {
    assert b[at] == b'[at];
    if b[at] >= 128 {
      LebSame(b, b', at + 1);
    }
  }

  /** The same bytes in these places. */
  ghost predicate Same(b: bytes, b': bytes, lo: nat, hi: nat) {
    |b| == |b'| && forall i :: lo <= i < hi && i < |b| ==> b[i] == b'[i]
  }

  /** `leb`: encoded in exactly so many bytes, or refused. */
  method Reencode(v: nat, width: nat) returns (res: Result<bytes>)
    ensures res == if |Enc(v)| == width then Ok(Enc(v)) else Err("flags would need another width")
  {
    var out: bytes, left := [], v;
    while true
      invariant out + Enc(left) == Enc(v)
      decreases left
    {
      var c: byte := left % 128;
      if left / 128 != 0 {
        out := out + [c + 128];
        left := left / 128;
      } else {
        out := out + [c];
        break;
      }
    }
    if |out| != width {
      return Err("flags would need another width");
    }
    return Ok(out);
  }

  class Reader {
    const b: bytes
    var at: nat

    constructor (b: bytes, at: nat)
      ensures this.b == b && this.at == at
    {
      this.b, this.at := b, at;
    }

    method Byte() returns (v: Option<byte>)
      modifies this
      ensures if old(at) < |b| then v == Some(b[old(at)]) && at == old(at) + 1 else v == None && at == old(at)
    {
      if at >= |b| {
        return None;
      }
      v := Some(b[at]);
      at := at + 1;
    }

    /** A number, and where it began; how long it was is how far the reader has moved. */
    method Number() returns (v: Option<nat>)
      modifies this
      ensures Leb(b, old(at)) == if v.Some? then Some((v.value, at)) else None
    {
      hide Scaled;
      var sum: nat, scale: nat := 0, 1;
      ScaledNone(Leb(b, at));
      while true
        invariant old(at) <= at
        invariant Leb(b, old(at)) == Scaled(sum, scale, Leb(b, at))
        decreases |b| - at
      {
        ScaledStep(b, at, sum, scale);
        var c := Byte();
        if c.None? {
          return None;
        }
        sum := sum + c.value % 128 * scale;
        if c.value < 128 {
          return Some(sum);
        }
        scale := scale * 128;
      }
    }
  }

  /** What is still to be read, in its place in the number. */
  function Scaled(sum: nat, scale: nat, r: Option<(nat, nat)>): Option<(nat, nat)> {
    if r.None? then None else Some((sum + scale * r.value.0, r.value.1))
  }

  lemma ScaledNone(r: Option<(nat, nat)>)
    ensures Scaled(0, 1, r) == r
  {
  }

  lemma ScaledStep(b: bytes, at: nat, sum: nat, scale: nat)
    ensures at >= |b| ==> Scaled(sum, scale, Leb(b, at)) == None
    ensures at < |b| && b[at] < 128 ==> Scaled(sum, scale, Leb(b, at)) == Some((sum + b[at] % 128 * scale, at + 1))
    ensures at < |b| && b[at] >= 128 ==> Scaled(sum, scale, Leb(b, at)) == Scaled(sum + b[at] % 128 * scale, scale * 128, Leb(b, at + 1))
  {
    if at < |b| && b[at] >= 128 {
      var rest := Leb(b, at + 1);
      if rest.Some? {
        var c: nat, v := b[at] % 128, rest.value.0;
        calc {
          sum + scale * (c + 128 * v);
          sum + (scale * c + scale * (128 * v));
          { assert scale * (128 * v) == (scale * 128) * v; assert scale * c == c * scale; }
          (sum + c * scale) + (scale * 128) * v;
        }
      }
    }
  }
}
