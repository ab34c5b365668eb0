/**
  Reads and writes through a mount (kernel/src/devmnt.rs): one transfer made in
  messages none of which is longer than the session allows.
 */
module MountIo {
  import opened ProcTable
  import opened Bytes
  import opened MountDriver

  /** What a file has of `n` bytes from `off`. */
  function Slice(file: bytes, off: nat, n: nat): (r: bytes)
    ensures |r| <= n
  {
    if off >= |file| then [] else if off + n <= |file| then file[off..off + n] else file[off..]
  }

  /** A file with `data` written at `off`, and zeros where there was nothing before it. */
  function Splice(file: bytes, off: nat, data: bytes): bytes {
    if data == [] then
      file
    else
      var padded := if off <= |file| then file else file + seq(off - |file|, _ => 0);
      padded[..off] + data + (if off + |data| <= |file| then file[off + |data|..] else [])
  }

  /** What is before a write, zeros where there was nothing; and what is after it. */
  function Before(file: bytes, off: nat): (r: bytes)
    ensures |r| == off
  {
    if off <= |file| then file[..off] else file + seq(off - |file|, _ => 0)
  }

  function After(file: bytes, end: nat): bytes {
    if end <= |file| then file[end..] else []
  }

  lemma SpliceIs(file: bytes, off: nat, data: bytes)
    requires data != []
    ensures Splice(file, off, data) == Before(file, off) + data + After(file, off + |data|)
  {
  }

  lemma BeforeSplice(p: bytes, a: bytes, r: bytes)
    ensures Before(p + a + r, |p| + |a|) == p + a
  {
  }

  lemma AfterSplice(file: bytes, off: nat, n: nat, m: nat)
    ensures After(Before(file, off) + seq(n, _ => 0) + After(file, off + n), off + n + m) == After(file, off + n + m)
  {
    var r := After(file, off + n);
    if off + n + m <= |file| {
      assert r[m..] == file[off + n + m..];
    }
  }

  lemma AfterMiddle(p: bytes, a: bytes, b: bytes, r: bytes, at: nat)
    requires |a| == |b| && at >= |p| + |a|
    ensures After(p + a + r, at) == After(p + b + r, at)
  {
    if at <= |p + a + r| {
      assert (p + a + r)[at..] == r[at - |p| - |a|..] == (p + b + r)[at..];
    }
  }

  lemma SpliceThem(file: bytes, off: nat, a: bytes, b: bytes)
    requires a != [] && b != []
    ensures Splice(Splice(file, off, a), off + |a|, b) == Splice(file, off, a + b)
  {
    hide Splice, Before, After;
    var p, r, zeros := Before(file, off), After(file, off + |a|), seq(|a|, _ => 0);
    var one, end := Splice(file, off, a), off + |a| + |b|;
    BeforeLen(file, off);
    SpliceIs(file, off, a);
    BeforeSplice(p, a, r);
    AfterSplice(file, off, |a|, |b|);
    AfterMiddle(p, a, zeros, r, end);
    SpliceIs(one, off + |a|, b);
    SpliceIs(file, off, a + b);
    Together(p, a, b, After(file, end));
  }

  /** Two writes, the second where the first ended, are one. */
  lemma SpliceTwice(file: bytes, off: nat, a: bytes, b: bytes)
    ensures Splice(Splice(file, off, a), off + |a|, b) == Splice(file, off, a + b)
  {
    if a != [] && b != [] {
      SpliceThem(file, off, a, b);
    } else {
      assert a == [] ==> a + b == b;
      assert b == [] ==> a + b == a;
    }
  }

  lemma Together(p: bytes, a: bytes, b: bytes, r: bytes)
    ensures p + a + b + r == p + (a + b) + r
  {
  }

  lemma BeforeLen(file: bytes, off: nat)
    ensures |Before(file, off)| == off
  {
  }

  /** How much of a message is data. */
  function Cap(msize: nat): nat {
    if msize > IOHDRSZ then msize - IOHDRSZ else 0
  }

  /**
    A server's file. One that is `prompt` answers a read with all there is of
    what was asked for, and takes all of a write; any may answer with less, or
    with an error.
   */
  class FileServer {
    var file: bytes
    const prompt: bool

    constructor (file: bytes, prompt: bool)
      ensures this.file == file && this.prompt == prompt
    {
      this.file, this.prompt := file, prompt;
    }

    method Tread(off: nat, count: nat) returns (r: Option<bytes>)
      ensures r.Some? ==> r.value <= Slice(file, off, count)
      ensures prompt ==> r == Some(Slice(file, off, count))
    {
      var all := Slice(file, off, count);
      if prompt {
        return Some(all);
      }
      if * {
        return None;
      }
      var k: nat :| k <= |all|;
      return Some(all[..k]);
    }

    method Twrite(off: nat, data: bytes) returns (r: Option<nat>)
      modifies this
      ensures r.None? ==> file == old(file)
      ensures r.Some? ==> r.value <= |data| && file == Splice(old(file), off, data[..r.value])
      ensures prompt ==> r == Some(|data|)
    {
      if !prompt {
        if * {
          return None;
        }
      }
      var k: nat :| k <= |data| && (prompt ==> k == |data|);
      file := Splice(file, off, data[..k]);
      return Some(k);
    }
  }

  /**
    A read is the front of what one unbounded read would give; all of it, from a
    server that answers in full. It ends at a short answer, and always ends,
    since every message has room for data.
   */
  method Read(srv: FileServer, msize: nat, n: nat, off: nat) returns (res: Result<bytes>)
    requires msize > IOHDRSZ
    ensures res.Ok? ==> res.value <= Slice(srv.file, off, n)
    ensures srv.prompt ==> res == Ok(Slice(srv.file, off, n))
  {
    hide Slice;
    var out: bytes, at, left := [], off, n;
    var cap := Cap(msize);
    ReadNothing(srv.file, off, n);
    while left > 0
      invariant |out| + left == n && at == off + |out|
      invariant out == Slice(srv.file, off, |out|) && out <= Slice(srv.file, off, n)
    {
      var want := if left < cap then left else cap;
      var r := srv.Tread(at, want);
      if r.None? {
        return Err("Rerror");
      }
      var data := r.value;
      ReadStep(srv.file, off, out, want, left, data);
      out, at, left := out + data, at + |data|, left - |data|;
      if |data| != want {
        break;
      }
    }
    return Ok(out);
  }

  lemma ReadNothing(file: bytes, off: nat, n: nat)
    ensures Slice(file, off, 0) == []
  {
  }

  /** One answer more; if it was all there was and came short, there is no more. */
  lemma ReadStep(file: bytes, off: nat, out: bytes, want: nat, left: nat, data: bytes)
    requires out == Slice(file, off, |out|) && want <= left && data <= Slice(file, off + |out|, want)
    ensures |data| <= want
    ensures out + data == Slice(file, off, |out| + |data|) && out + data <= Slice(file, off, |out| + left)
    ensures data == Slice(file, off + |out|, want) && |data| < want ==> out + data == Slice(file, off, |out| + left)
  {
  }

  /**
    A write leaves what was acknowledged of it, from its front, at its offset, and
    nothing else changed: all of it, with a server that takes all. A failure leaves
    what had been acknowledged before it.
   */
  method Write(srv: FileServer, msize: nat, data: bytes, off: nat) returns (res: Result<nat>, ghost acked: nat)
    requires msize > IOHDRSZ
    modifies srv
    ensures acked <= |data| && srv.file == Splice(old(srv.file), off, data[..acked])
    ensures res.Ok? ==> res.value == acked
    ensures srv.prompt ==> res == Ok(|data|)
  {
    hide Splice;
    var done, at := 0, off;
    var cap := Cap(msize);
    WriteNothing(srv.file, off, data);
    while done < |data|
      invariant 0 <= done <= |data| && at == off + done
      invariant srv.file == Splice(old(srv.file), off, data[..done])
    {
      var end := if done + cap < |data| then done + cap else |data|;
      var chunk := data[done..end];
      var r := srv.Twrite(at, chunk);
      if r.None? {
        return Err("Rerror"), done;
      }
      SpliceTwice(old(srv.file), off, data[..done], chunk[..r.value]);
      assert data[..done] + chunk[..r.value] == data[..done + r.value];
      done, at := done + r.value, at + r.value;
      if r.value != |chunk| {
        break;
      }
    }
    return Ok(done), done;
  }

  lemma WriteNothing(file: bytes, off: nat, data: bytes)
    ensures Splice(file, off, data[..0]) == file
  {
  }
}
