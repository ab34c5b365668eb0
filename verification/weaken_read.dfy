/** Reading an object's symbol table (userspace/weaken.py), a byte at a time. */
module ObjectReader {
  import opened ProcTable
  import opened Bytes
  import opened Leb128
  import opened SymbolTable

  /** What was read, and where reading it ended. */
  function Upto<T>(v: Option<T>, at: nat): Option<(T, nat)> {
    if v.Some? then Some((v.value, at)) else None
  }

  method ReadName(r: Reader) returns (s: Option<bytes>)
    modifies r
    ensures Name(r.b, old(r.at)) == Upto(s, r.at)
  {
    var n := r.Number();
    if n.None? {
      return None;
    }
    s := Some(if r.at + n.value <= |r.b| then r.b[r.at..r.at + n.value] else r.b[r.at..]);
    r.at := r.at + n.value;
  }

  method SkipNumbers(r: Reader, n: nat) returns (ok: bool)
    modifies r
    ensures Skip(r.b, old(r.at), n) == if ok then Some(r.at) else None
  {
    var i := 0;
    while i < n
      invariant 0 <= i <= n
      invariant Skip(r.b, old(r.at), n) == Skip(r.b, r.at, n - i)
    {
      var v := r.Number();
      if v.None? {
        return false;
      }
      i := i + 1;
    }
    return true;
  }

  method ReadBody(r: Reader, kind: byte, flags: nat) returns (body: Option<(bytes, Option<nat>)>)
    modifies r
    ensures Body(r.b, old(r.at), kind, flags) == Upto(body, r.at)
  {
    hide Name, Leb;
    if kind == K_DATA {
      var name := ReadName(r);
      if name.None? {
        return None;
      }
      if Undefined(flags) {
        return Some((name.value, None));
      }
      var seg := r.Number();
      if seg.None? {
        return None;
      }
      var ok := SkipNumbers(r, 2);
      return if ok then Some((name.value, Some(seg.value))) else None;
    }
    var index := r.Number();
    if index.None? {
      return None;
    }
    if kind != K_SECTION && (!Undefined(flags) || Explicit(flags)) {
      var name := ReadName(r);
      if name.None? {
        return None;
      }
    }
    return Some(([], None));
  }

  method ReadSym(r: Reader) returns (s: Option<Sym>)
    modifies r
    ensures OneSym(r.b, old(r.at)) == Upto(s, r.at)
  {
    hide Leb, Body;
    var kind := r.Byte();
    if kind.None? {
      return None;
    }
    var at := r.at;
    var flags := r.Number();
    if flags.None? {
      return None;
    }
    var width := if r.at >= at then r.at - at else 0;
    var body := ReadBody(r, kind.value, flags.value);
    if body.None? {
      return None;
    }
    LebForward(r.b, at);
    return Some(Sym(kind.value, flags.value, at, width, body.value.0, body.value.1));
  }

  lemma LebForward(b: bytes, at: nat)
    ensures Leb(b, at).Some? ==> at < Leb(b, at).value.1
  {
  }

  /** A list read, with what was read of it before. */
  function Before<T>(acc: seq<T>, rest: Option<(seq<T>, nat)>): Option<(seq<T>, nat)> {
    if rest.None? then None else Some((acc + rest.value.0, rest.value.1))
  }

  lemma BeforeOne<T>(acc: seq<T>, x: T, rest: Option<(seq<T>, nat)>)
    ensures Before(acc, if rest.None? then None else Some(([x] + rest.value.0, rest.value.1))) == Before(acc + [x], rest)
  {
    assert rest.Some? ==> acc + ([x] + rest.value.0) == acc + [x] + rest.value.0;
  }

  lemma BeforeNone<T>(rest: Option<(seq<T>, nat)>)
    ensures Before([], rest) == rest
  {
    assert rest.Some? ==> [] + rest.value.0 == rest.value.0;
  }

  lemma BeforeEnd<T>(acc: seq<T>, at: nat)
    ensures Before(acc, Some(([], at))) == Some((acc, at))
  {
    assert acc + [] == acc;
  }

  method ReadSyms(r: Reader, n: nat) returns (syms: Option<seq<Sym>>)
    modifies r
    ensures Syms(r.b, old(r.at), n) == Upto(syms, r.at)
  {
    hide OneSym, Before;
    var acc: seq<Sym>, i := [], 0;
    BeforeNone(Syms(r.b, r.at, n));
    while i < n
      invariant 0 <= i <= n
      invariant Syms(r.b, old(r.at), n) == Before(acc, Syms(r.b, r.at, n - i))
    {
      var s := ReadSym(r);
      if s.None? {
        assert Before(acc, None) == None by { NothingBefore(acc); }
        return None;
      }
      BeforeOne(acc, s.value, Syms(r.b, r.at, n - i - 1));
      acc, i := acc + [s.value], i + 1;
    }
    BeforeEnd(acc, r.at);
    return Some(acc);
  }

  lemma NothingBefore<T>(acc: seq<T>)
    ensures Before(acc, None) == None
  {
  }

  method ReadSegs(r: Reader, n: nat) returns (segs: Option<seq<bytes>>)
    modifies r
    ensures Segs(r.b, old(r.at), n) == Upto(segs, r.at)
  {
    hide Name, Skip, Before;
    var acc: seq<bytes>, i := [], 0;
    BeforeNone(Segs(r.b, r.at, n));
    while i < n
      invariant 0 <= i <= n
      invariant Segs(r.b, old(r.at), n) == Before(acc, Segs(r.b, r.at, n - i))
    {
      NothingBefore(acc);
      var name := ReadName(r);
      if name.None? {
        return None;
      }
      var ok := SkipNumbers(r, 2);
      if !ok {
        return None;
      }
      BeforeOne(acc, name.value, Segs(r.b, r.at, n - i - 1));
      acc, i := acc + [name.value], i + 1;
    }
    BeforeEnd(acc, r.at);
    return Some(acc);
  }

  method ReadSub(r: Reader, kind: byte) returns (c: Option<(seq<Sym>, seq<bytes>)>)
    modifies r
    ensures var s := Sub(r.b, old(r.at), kind); if c.Some? then s == Some(Content(c.value.0, c.value.1, r.at)) else s.None?
  {
    if kind != SEGMENT_INFO && kind != SYMBOL_TABLE {
      return Some(([], []));
    }
    hide Leb;
    var n := r.Number();
    if n.None? {
      return None;
    }
    if kind == SEGMENT_INFO {
      var segs := ReadSegs(r, n.value);
      return if segs.Some? then Some(([], segs.value)) else None;
    }
    var syms := ReadSyms(r, n.value);
    return if syms.Some? then Some((syms.value, [])) else None;
  }

  /** Both lists, with what was read of them before. */
  function Both(syms: seq<Sym>, segs: seq<bytes>, rest: Option<(seq<Sym>, seq<bytes>)>): Option<(seq<Sym>, seq<bytes>)> {
    if rest.None? then None else Some((syms + rest.value.0, segs + rest.value.1))
  }

  lemma BothStep(syms: seq<Sym>, segs: seq<bytes>, b: bytes, at: nat, end: nat)
    requires at < end
    ensures at >= |b| || Leb(b, at + 1).None? || Sub(b, Leb(b, at + 1).value.1, b[at]).None? ==> Both(syms, segs, Subs(b, at, end)) == None
    ensures at < |b| && Leb(b, at + 1).Some? && Sub(b, Leb(b, at + 1).value.1, b[at]).Some? ==>
              var (size, from) := Leb(b, at + 1).value;
              var c := Sub(b, from, b[at]).value;
              Both(syms, segs, Subs(b, at, end)) == Both(syms + c.syms, segs + c.segs, Subs(b, from + size, end))
  {
    hide Sub, Leb;
    if at < |b| && Leb(b, at + 1).Some? && Sub(b, Leb(b, at + 1).value.1, b[at]).Some? {
      LebForward(b, at + 1);
      var (size, from) := Leb(b, at + 1).value;
      var c, more := Sub(b, from, b[at]).value, Subs(b, from + size, end);
      if more.Some? {
        assert syms + (c.syms + more.value.0) == syms + c.syms + more.value.0;
        assert segs + (c.segs + more.value.1) == segs + c.segs + more.value.1;
      }
    }
  }

  lemma BothEnds(syms: seq<Sym>, segs: seq<bytes>, b: bytes, at: nat, end: nat)
    requires at >= end
    ensures Both(syms, segs, Subs(b, at, end)) == Some((syms, segs))
  {
    assert syms + [] == syms && segs + [] == segs;
  }

  lemma BothNone(rest: Option<(seq<Sym>, seq<bytes>)>)
    ensures Both([], [], rest) == rest
  {
    assert rest.Some? ==> [] + rest.value.0 == rest.value.0 && [] + rest.value.1 == rest.value.1;
  }

  method ReadTable(b: bytes, start: nat, end: nat) returns (t: Option<map<bytes, Entry>>)
    ensures t == SymbolTable.Table(b, start, end)
  {
    hide Subs, Sub, Leb, Both, Finish, Found;
    var r := new Reader(b, start);
    var version := r.Number();
    if version.None? {
      return None;
    }
    var syms: seq<Sym>, segs: seq<bytes> := [], [];
    ghost var all := Subs(b, r.at, end);
    BothNone(all);
    while r.at < end
      invariant r.b == b && all == Both(syms, segs, Subs(b, r.at, end))
      decreases end - r.at
    {
      BothStep(syms, segs, b, r.at, end);
      ghost var was := r.at;
      var kind := r.Byte();
      if kind.None? {
        return None;
      }
      var size := r.Number();
      if size.None? {
        return None;
      }
      LebForward(b, was + 1);
      var stop := r.at + size.value;
      var c := ReadSub(r, kind.value);
      if c.None? {
        return None;
      }
      syms, segs := syms + c.value.0, segs + c.value.1;
      r.at := stop;
    }
    BothEnds(syms, segs, b, r.at, end);
    return Finish(Found(syms), segs);
  }

  method ReadSymbols(b: bytes) returns (t: Option<map<bytes, Entry>>)
    ensures t == Symbols(b)
  {
    hide SymbolTable.Table, Leb, Name;
    var r := new Reader(b, 8);
    while r.at < |b|
      invariant r.b == b && Sections(b, 8) == Sections(b, r.at)
      decreases |b| - r.at
    {
      ghost var was := r.at;
      var sid := r.Byte();
      var size := r.Number();
      if size.None? {
        return None;
      }
      LebForward(b, was + 1);
      var end := r.at + size.value;
      if sid.value == 0 {
        var name := ReadName(r);
        if name.None? {
          return None;
        }
        if name.value == LINKING {
          t := ReadTable(b, r.at, end);
          return;
        }
      }
      r.at := end;
    }
    return Some(map[]);
  }
}
