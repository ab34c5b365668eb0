/**
  The symbol table of a WebAssembly object's `linking` section, as
  userspace/weaken.py reads it, and what setting a weak bit does to it.
 */
module SymbolTable {
  import opened ProcTable
  import opened Bytes
  import opened Leb128

  const SYMBOL_TABLE: byte := 8
  const SEGMENT_INFO: byte := 5
  const K_DATA: byte := 1
  const K_SECTION: byte := 3

  const LINKING: bytes := [108, 105, 110, 107, 105, 110, 103]
  const BSS: bytes := [46, 98, 115, 115]

  predicate Weak(flags: nat) {
    flags % 2 == 1
  }

  /** The bits 0x10 and 0x40. */
  predicate Undefined(flags: nat) {
    flags / 16 % 2 == 1
  }

  predicate Explicit(flags: nat) {
    flags / 64 % 2 == 1
  }

  /** A symbol: its flags, and where they are and how many bytes they take. */
  datatype Sym = Sym(kind: byte, flags: nat, at: nat, width: nat, name: bytes, seg: Option<nat>)

  /** A counted name. As the script takes it, one that runs off the end is cut short there. */
  function Name(b: bytes, at: nat): (r: Option<(bytes, nat)>)
    ensures r.Some? ==> at < r.value.1
  {
    var n := Leb(b, at);
    if n.None? then
      None
    else
      var (len, from) := n.value;
      Some((if from + len <= |b| then b[from..from + len] else b[from..], from + len))
  }

  /** `n` numbers passed over. */
  function Skip(b: bytes, at: nat, n: nat): (r: Option<nat>)
    ensures r.Some? ==> at <= r.value
    decreases n
  {
    if n == 0 then
      Some(at)
    else
      var v := Leb(b, at);
      if v.None? then None else Skip(b, v.value.1, n - 1)
  }

  /** What follows a symbol's flags. */
  function Body(b: bytes, at: nat, kind: byte, flags: nat): (r: Option<((bytes, Option<nat>), nat)>)
    ensures r.Some? ==> at <= r.value.1
  {
    if kind == K_DATA then
      var name := Name(b, at);
      if name.None? then None
      else if Undefined(flags) then Some(((name.value.0, None), name.value.1))
      else
        var seg := Leb(b, name.value.1);
        if seg.None? then None
        else
          var end := Skip(b, seg.value.1, 2);
          if end.None? then None else Some(((name.value.0, Some(seg.value.0)), end.value))
    else
      var index := Leb(b, at);
      if index.None? then None
      else if kind != K_SECTION && (!Undefined(flags) || Explicit(flags)) then
        var name := Name(b, index.value.1);
        if name.None? then None else Some((([], None), name.value.1))
      else Some((([], None), index.value.1))
  }

  function OneSym(b: bytes, at: nat): (r: Option<(Sym, nat)>)
    ensures r.Some? ==> at < r.value.0.at && r.value.0.at + r.value.0.width <= r.value.1 && r.value.0.at + r.value.0.width <= |b|
  {
    if at >= |b| then
      None
    else
      var f := Leb(b, at + 1);
      if f.None? then
        None
      else
        var (flags, next) := f.value;
        var body := Body(b, next, b[at], flags);
        if body.None? then None
        else Some((Sym(b[at], flags, at + 1, next - at - 1, body.value.0.0, body.value.0.1), body.value.1))
  }

  function Syms(b: bytes, at: nat, n: nat): (r: Option<(seq<Sym>, nat)>)
    ensures r.Some? ==> at <= r.value.1
    decreases n
  {
    if n == 0 then
      Some(([], at))
    else
      var one := OneSym(b, at);
      if one.None? then None
      else
        var more := Syms(b, one.value.1, n - 1);
        if more.None? then None else Some(([one.value.0] + more.value.0, more.value.1))
  }

  function Segs(b: bytes, at: nat, n: nat): (r: Option<(seq<bytes>, nat)>)
    ensures r.Some? ==> at <= r.value.1
    decreases n
  {
    if n == 0 then
      Some(([], at))
    else
      var name := Name(b, at);
      if name.None? then None
      else
        var next := Skip(b, name.value.1, 2);
        if next.None? then None
        else
          var more := Segs(b, next.value, n - 1);
          if more.None? then None else Some(([name.value.0] + more.value.0, more.value.1))
  }

  /** What a subsection holds, and where reading it ends. */
  datatype Content = Content(syms: seq<Sym>, segs: seq<bytes>, end: nat)

  function Sub(b: bytes, at: nat, kind: byte): (r: Option<Content>)
    ensures r.Some? ==> at <= r.value.end
  {
    if kind != SEGMENT_INFO && kind != SYMBOL_TABLE then
      Some(Content([], [], at))
    else
      var n := Leb(b, at);
      if n.None? then None
      else if kind == SEGMENT_INFO then
        var s := Segs(b, n.value.1, n.value.0);
        if s.None? then None else Some(Content([], s.value.0, s.value.1))
      else
        var s := Syms(b, n.value.1, n.value.0);
        if s.None? then None else Some(Content(s.value.0, [], s.value.1))
  }

  /** The subsections from `at`. Each is passed over by its own size, wherever reading it ended. */
  function Subs(b: bytes, at: nat, end: nat): Option<(seq<Sym>, seq<bytes>)>
    decreases end - at
  {
    if at >= end then
      Some(([], []))
    else if at >= |b| || Leb(b, at + 1).None? then
      None
    else
      var (size, from) := Leb(b, at + 1).value;
      var c := Sub(b, from, b[at]);
      if c.None? then None
      else
        var more := Subs(b, from + size, end);
        if more.None? then None else Some((c.value.syms + more.value.0, c.value.segs + more.value.1))
  }

  /** A data symbol in the table: a later one of the same name stands in for an earlier. */
  datatype Info = Info(flags: nat, at: nat, width: nat, seg: Option<nat>)

  function Found(syms: seq<Sym>): map<bytes, Info> {
    if syms == [] then
      map[]
    else
      var s, before := syms[|syms| - 1], Found(syms[..|syms| - 1]);
      if s.kind == K_DATA then before[s.name := Info(s.flags, s.at, s.width, s.seg)] else before
  }

  /** The last element says whether it is in a segment that is not `.bss`. */
  datatype Entry = Entry(flags: nat, at: nat, width: nat, initialised: bool)

  function Finish(found: map<bytes, Info>, segs: seq<bytes>): Option<map<bytes, Entry>> {
    if exists name :: name in found && found[name].seg.Some? && found[name].seg.value >= |segs| then
      None
    else
      Some(map name | name in found ::
             var i := found[name];
             Entry(i.flags, i.at, i.width, i.seg.Some? && !(BSS <= segs[i.seg.value])))
  }

  function Table(b: bytes, at: nat, end: nat): Option<map<bytes, Entry>> {
    var v := Leb(b, at);
    if v.None? then None
    else
      var all := Subs(b, v.value.1, end);
      if all.None? then None else Finish(Found(all.value.0), all.value.1)
  }

  /** The sections from `at`, up to the one that is `linking`. */
  function Sections(b: bytes, at: nat): Option<map<bytes, Entry>>
    decreases |b| - at
  {
    if at >= |b| then
      Some(map[])
    else if Leb(b, at + 1).None? then
      None
    else
      var (size, from) := Leb(b, at + 1).value;
      if b[at] == 0 then
        var name := Name(b, from);
        if name.None? then None
        else if name.value.0 == LINKING then Table(b, name.value.1, from + size)
        else Sections(b, from + size)
      else
        Sections(b, from + size)
  }

  function Symbols(b: bytes): Option<map<bytes, Entry>> {
    Sections(b, 8)
  }

  // ---- reading the same bytes

  lemma LebOn(b: bytes, at: nat)
    ensures Leb(b, at).Some? ==> at < Leb(b, at).value.1 <= |b|
  {
  }

  lemma NameSame(b: bytes, b': bytes, at: nat)
    requires Name(b, at).Some? && Name(b, at).value.1 <= |b| && Same(b, b', at, Name(b, at).value.1)
    ensures Name(b', at) == Name(b, at)
  {
    LebSame(b, b', at);
    var (len, from) := Leb(b, at).value;
    assert b[from..from + len] == b'[from..from + len];
  }

  lemma {:induction false} SkipSame(b: bytes, b': bytes, at: nat, n: nat)
    requires Skip(b, at, n).Some? && Same(b, b', at, Skip(b, at, n).value)
    ensures Skip(b', at, n) == Skip(b, at, n)
    decreases n
  {
    if n > 0 {
      LebSame(b, b', at);
      SkipSame(b, b', Leb(b, at).value.1, n - 1);
    }
  }

  /** The weak bit has no say in what follows. */
  lemma BodySame(b: bytes, b': bytes, at: nat, kind: byte, flags: nat, flags': nat)
    requires Body(b, at, kind, flags).Some? && Body(b, at, kind, flags).value.1 <= |b| && Same(b, b', at, Body(b, at, kind, flags).value.1)
    requires Undefined(flags) == Undefined(flags') && Explicit(flags) == Explicit(flags')
    ensures Body(b', at, kind, flags') == Body(b, at, kind, flags)
  {
    if kind == K_DATA {
      NameSame(b, b', at);
      if !Undefined(flags) {
        LebSame(b, b', Name(b, at).value.1);
        SkipSame(b, b', Leb(b, Name(b, at).value.1).value.1, 2);
      }
    } else {
      LebSame(b, b', at);
      if kind != K_SECTION && (!Undefined(flags) || Explicit(flags)) {
        NameSame(b, b', Leb(b, at).value.1);
      }
    }
  }

  lemma BodyOn(b: bytes, at: nat, kind: byte, flags: nat)
    ensures Body(b, at, kind, flags).Some? ==> at <= Body(b, at, kind, flags).value.1
  {
  }

  lemma SymSame(b: bytes, b': bytes, at: nat)
    requires OneSym(b, at).Some? && OneSym(b, at).value.1 <= |b| && Same(b, b', at, OneSym(b, at).value.1)
    ensures OneSym(b', at) == OneSym(b, at)
  {
    hide Body, Leb;
    var (flags, next) := Leb(b, at + 1).value;
    LebOn(b, at + 1);
    assert next <= OneSym(b, at).value.1 by { BodyOn(b, next, b[at], flags); }
    LebSame(b, b', at + 1);
    BodySame(b, b', next, b[at], flags, flags);
  }

  lemma {:induction false} SymsSame(b: bytes, b': bytes, at: nat, n: nat)
    requires Syms(b, at, n).Some? && Syms(b, at, n).value.1 <= |b| && Same(b, b', at, Syms(b, at, n).value.1)
    ensures Syms(b', at, n) == Syms(b, at, n)
    decreases n
  {
    hide Body, Name, Skip, Leb;
    if n > 0 {
      SymSame(b, b', at);
      SymsSame(b, b', OneSym(b, at).value.1, n - 1);
    }
  }

  lemma {:induction false} SegsSame(b: bytes, b': bytes, at: nat, n: nat)
    requires Segs(b, at, n).Some? && Segs(b, at, n).value.1 <= |b| && Same(b, b', at, Segs(b, at, n).value.1)
    ensures Segs(b', at, n) == Segs(b, at, n)
    decreases n
  {
    if n > 0 {
      NameSame(b, b', at);
      SkipSame(b, b', Name(b, at).value.1, 2);
      SegsSame(b, b', Skip(b, Name(b, at).value.1, 2).value, n - 1);
    }
  }

  lemma SubSame(b: bytes, b': bytes, at: nat, kind: byte)
    requires Sub(b, at, kind).Some? && Sub(b, at, kind).value.end <= |b| && Same(b, b', at, Sub(b, at, kind).value.end)
    ensures Sub(b', at, kind) == Sub(b, at, kind)
  {
    if kind == SEGMENT_INFO || kind == SYMBOL_TABLE {
      LebSame(b, b', at);
      var (n, from) := Leb(b, at).value;
      if kind == SEGMENT_INFO {
        SegsSame(b, b', from, n);
      } else {
        SymsSame(b, b', from, n);
      }
    }
  }

  /** No subsection is read past its own end, nor lies past the end of the file. */
  predicate TidySubs(b: bytes, at: nat, end: nat)
    decreases end - at
  {
    at >= end || at >= |b| || Leb(b, at + 1).None? ||
    (var (size, from) := Leb(b, at + 1).value;
     && from + size <= |b|
     && (Sub(b, from, b[at]).Some? ==> Sub(b, from, b[at]).value.end <= from + size)
     && TidySubs(b, from + size, end))
  }

  lemma SameFrom(b: bytes, b': bytes, at: nat, from: nat, to: nat)
    requires Same(b, b', at, |b|) && at <= from <= |b| && to <= |b|
    ensures |b'| == |b| && Same(b, b', from, to) && (at < |b| ==> b'[at] == b[at])
  {
  }

  /** The first subsection, and the rest. */
  lemma FirstSub(b: bytes, at: nat, end: nat)
    requires at < end && Subs(b, at, end).Some? && TidySubs(b, at, end)
    ensures at < |b| && Leb(b, at + 1).Some?
    ensures var (size, from) := Leb(b, at + 1).value;
            && at + 1 < from && from + size <= |b|
            && Sub(b, from, b[at]).Some? && Sub(b, from, b[at]).value.end <= from + size
            && Subs(b, from + size, end).Some? && TidySubs(b, from + size, end)
            && var c, rest := Sub(b, from, b[at]).value, Subs(b, from + size, end).value;
               Subs(b, at, end) == Some((c.syms + rest.0, c.segs + rest.1))
  {
    hide Leb, Sub;
    LebOn(b, at + 1);
  }

  lemma WithFirstSub(b: bytes, at: nat, end: nat, size: nat, from: nat, c: Content, rest: (seq<Sym>, seq<bytes>))
    requires at < end && at < |b| && Leb(b, at + 1) == Some((size, from)) && at + 1 < from && from + size <= |b|
    requires Sub(b, from, b[at]) == Some(c) && c.end <= from + size
    requires Subs(b, from + size, end) == Some(rest) && TidySubs(b, from + size, end)
    ensures Subs(b, at, end) == Some((c.syms + rest.0, c.segs + rest.1)) && TidySubs(b, at, end)
  {
    hide Leb, Sub;
  }

  lemma NoSubs(b: bytes, at: nat, end: nat)
    requires at >= end
    ensures Subs(b, at, end) == Some(([], [])) && TidySubs(b, at, end)
  {
  }

  lemma {:induction false} SubsSame(b: bytes, b': bytes, at: nat, end: nat)
    requires Subs(b, at, end).Some? && TidySubs(b, at, end) && Same(b, b', at, |b|)
    ensures Subs(b', at, end) == Subs(b, at, end) && TidySubs(b', at, end)
    decreases end - at
  {
    hide *;
    if at < end {
      FirstSub(b, at, end);
      var (size, from) := Leb(b, at + 1).value;
      SameFrom(b, b', at, at + 1, from);
      SameFrom(b, b', at, from, Sub(b, from, b[at]).value.end);
      SameFrom(b, b', at, from + size, |b|);
      LebSame(b, b', at + 1);
      SubSame(b, b', from, b[at]);
      SubsSame(b, b', from + size, end);
      WithFirstSub(b', at, end, size, from, Sub(b, from, b[at]).value, Subs(b, from + size, end).value);
    } else {
      NoSubs(b, at, end);
      NoSubs(b', at, end);
    }
  }

  // ---- the weak bit set

  /** The flags at `at` are one more, and nothing else is changed. */
  ghost predicate Patched(b: bytes, b': bytes, at: nat, width: nat, flags: nat) {
    && Same(b, b', 0, at) && Same(b, b', at + width, |b|)
    && at + width <= |b'| && b'[at..at + width] == Enc(flags + 1)
  }

  lemma OtherBits(flags: nat)
    requires !Weak(flags)
    ensures Undefined(flags + 1) == Undefined(flags) && Explicit(flags + 1) == Explicit(flags)
  {
    var half := flags / 2;
    assert flags == 2 * half;
    assert (flags + 1) / 16 == half / 8 == flags / 16;
    assert (flags + 1) / 64 == half / 32 == flags / 64;
  }

  lemma SymPatched(b: bytes, b': bytes, at: nat)
    requires OneSym(b, at).Some? && OneSym(b, at).value.1 <= |b|
    requires var s := OneSym(b, at).value.0; !Weak(s.flags) && Patched(b, b', s.at, s.width, s.flags)
    ensures var (s, next) := OneSym(b, at).value; OneSym(b', at) == Some((s.(flags := s.flags + 1), next))
  {
    hide Body, Name, Skip, Enc;
    var (s, next) := OneSym(b, at).value;
    assert |Enc(s.flags + 1)| == s.width by { assert |b'[s.at..s.at + s.width]| == s.width; }
    EncRoundTrip(b', s.at, s.flags + 1);
    OtherBits(s.flags);
    BodySame(b, b', s.at + s.width, b[at], s.flags, s.flags + 1);
  }

  lemma {:induction false} SymsBounds(b: bytes, at: nat, n: nat)
    requires Syms(b, at, n).Some?
    ensures var (syms, end) := Syms(b, at, n).value; forall k :: 0 <= k < |syms| ==> at < syms[k].at && syms[k].at + syms[k].width <= end && syms[k].at + syms[k].width <= |b|
    decreases n
  {
    hide Body, Name, Skip, Leb;
    if n > 0 {
      SymsBounds(b, OneSym(b, at).value.1, n - 1);
    }
  }

  function Weaken(syms: seq<Sym>, k: nat): seq<Sym>
    requires k < |syms|
  {
    syms[k := syms[k].(flags := syms[k].flags + 1)]
  }

  lemma {:induction false} SymsPatched(b: bytes, b': bytes, at: nat, n: nat, k: nat)
    requires Syms(b, at, n).Some? && Syms(b, at, n).value.1 <= |b| && k < |Syms(b, at, n).value.0|
    requires var s := Syms(b, at, n).value.0[k]; !Weak(s.flags) && Patched(b, b', s.at, s.width, s.flags)
    ensures Syms(b', at, n) == Some((Weaken(Syms(b, at, n).value.0, k), Syms(b, at, n).value.1))
    decreases n
  {
    hide OneSym, Body, Name, Skip, Leb, Enc;
    var (s, next) := OneSym(b, at).value;
    var (rest, end) := Syms(b, next, n - 1).value;
    SymsBounds(b, next, n - 1);
    if k == 0 {
      SymPatched(b, b', at);
      SymsSame(b, b', next, n - 1);
      assert Weaken([s] + rest, 0) == [s.(flags := s.flags + 1)] + rest;
    } else {
      assert ([s] + rest)[k] == rest[k - 1];
      SymSame(b, b', at);
      SymsPatched(b, b', next, n - 1, k - 1);
      assert Weaken([s] + rest, k) == [s] + Weaken(rest, k - 1);
    }
  }

  lemma SubBounds(b: bytes, at: nat, kind: byte)
    requires Sub(b, at, kind).Some?
    ensures var c := Sub(b, at, kind).value; forall k :: 0 <= k < |c.syms| ==> at < c.syms[k].at && c.syms[k].at + c.syms[k].width <= c.end && c.syms[k].at + c.syms[k].width <= |b|
  {
    if kind == SYMBOL_TABLE {
      SymsBounds(b, Leb(b, at).value.1, Leb(b, at).value.0);
    }
  }

  lemma SubPatched(b: bytes, b': bytes, at: nat, kind: byte, k: nat)
    requires Sub(b, at, kind).Some? && Sub(b, at, kind).value.end <= |b| && k < |Sub(b, at, kind).value.syms|
    requires var s := Sub(b, at, kind).value.syms[k]; !Weak(s.flags) && Patched(b, b', s.at, s.width, s.flags)
    ensures var c := Sub(b, at, kind).value; Sub(b', at, kind) == Some(c.(syms := Weaken(c.syms, k)))
  {
    var (n, from) := Leb(b, at).value;
    SymsBounds(b, from, n);
    LebSame(b, b', at);
    SymsPatched(b, b', from, n, k);
  }

  lemma {:induction false} SubsBounds(b: bytes, at: nat, end: nat)
    requires Subs(b, at, end).Some?
    ensures var syms := Subs(b, at, end).value.0; forall k :: 0 <= k < |syms| ==> at < syms[k].at && syms[k].at + syms[k].width <= |b|
    decreases end - at
  {
    hide Sub, Syms, Segs, Leb;
    if at < end {
      var (size, from) := Leb(b, at + 1).value;
      SubBounds(b, from, b[at]);
      SubsBounds(b, from + size, end);
    }
  }

  /** Bytes away from a patch. */
  lemma Unpatched(b: bytes, b': bytes, s: Sym, from: nat, to: nat)
    requires Patched(b, b', s.at, s.width, s.flags) && to <= |b|
    requires to <= s.at || s.at + s.width <= from
    ensures |b'| == |b| && Same(b, b', from, to) && (from < to ==> b'[from] == b[from] && Same(b, b', from + 1, to))
  {
  }

  lemma WeakenPart(a: seq<Sym>, b: seq<Sym>, k: nat)
    requires k < |a + b|
    ensures Weaken(a + b, k) == if k < |a| then Weaken(a, k) + b else a + Weaken(b, k - |a|)
  {
  }

  lemma {:induction false} SubsPatched(b: bytes, b': bytes, at: nat, end: nat, k: nat)
    requires Subs(b, at, end).Some? && TidySubs(b, at, end) && k < |Subs(b, at, end).value.0|
    requires var s := Subs(b, at, end).value.0[k]; !Weak(s.flags) && Patched(b, b', s.at, s.width, s.flags)
    ensures Subs(b', at, end) == Some((Weaken(Subs(b, at, end).value.0, k), Subs(b, at, end).value.1))
    ensures TidySubs(b', at, end)
    decreases end - at
  {
    hide *;
    if at >= end {
      NoSubs(b, at, end);
    } else {
      FirstSub(b, at, end);
      var (size, from) := Leb(b, at + 1).value;
      var c, rest := Sub(b, from, b[at]).value, Subs(b, from + size, end).value;
      var s := (c.syms + rest.0)[k];
      SubBounds(b, from, b[at]);
      SubsBounds(b, from + size, end);
      Unpatched(b, b', s, at, from);
      LebSame(b, b', at + 1);
      WeakenPart(c.syms, rest.0, k);
      if k < |c.syms| {
        Unpatched(b, b', s, from + size, |b|);
        SubPatched(b, b', from, b[at], k);
        SubsSame(b, b', from + size, end);
        WithFirstSub(b', at, end, size, from, c.(syms := Weaken(c.syms, k)), rest);
      } else {
        Unpatched(b, b', s, from, c.end);
        SubSame(b, b', from, b[at]);
        SubsPatched(b, b', from + size, end, k - |c.syms|);
        WithFirstSub(b', at, end, size, from, c, (Weaken(rest.0, k - |c.syms|), rest.1));
      }
    }
  }

  /** Which symbol a name in the table is. */
  lemma {:induction false} LastOf(syms: seq<Sym>, name: bytes) returns (k: nat)
    requires name in Found(syms)
    ensures k < |syms| && syms[k].kind == K_DATA && syms[k].name == name
    ensures Found(syms)[name] == Info(syms[k].flags, syms[k].at, syms[k].width, syms[k].seg)
    ensures Found(Weaken(syms, k)) == Found(syms)[name := Found(syms)[name].(flags := syms[k].flags + 1)]
  {
    var n := |syms| - 1;
    if syms[n].kind == K_DATA && syms[n].name == name {
      k := n;
      assert Weaken(syms, k)[..n] == syms[..n];
    } else {
      k := LastOf(syms[..n], name);
      assert Weaken(syms, k)[..n] == Weaken(syms[..n], k);
    }
  }

  lemma FinishKeys(found: map<bytes, Info>, segs: seq<bytes>)
    requires Finish(found, segs).Some?
    ensures Finish(found, segs).value.Keys == found.Keys
  {
  }

  lemma FinishPatched(found: map<bytes, Info>, segs: seq<bytes>, name: bytes)
    requires Finish(found, segs).Some? && name in found
    ensures var t := Finish(found, segs).value;
            && name in t && t[name].flags == found[name].flags && t[name].at == found[name].at && t[name].width == found[name].width
            && Finish(found[name := found[name].(flags := found[name].flags + 1)], segs) == Some(t[name := t[name].(flags := t[name].flags + 1)])
  {
    var found' := found[name := found[name].(flags := found[name].flags + 1)];
    assert forall x :: x in found' ==> x in found && found'[x].seg == found[x].seg;
    var t, t' := Finish(found, segs).value, Finish(found', segs).value;
    assert t' == t[name := t[name].(flags := t[name].flags + 1)];
  }

  lemma TablePatched(b: bytes, b': bytes, at: nat, end: nat, name: bytes)
    requires Table(b, at, end).Some? && TidySubs(b, Leb(b, at).value.1, end) && name in Table(b, at, end).value
    requires var e := Table(b, at, end).value[name]; !Weak(e.flags) && Patched(b, b', e.at, e.width, e.flags)
    ensures var t := Table(b, at, end).value; Table(b', at, end) == Some(t[name := t[name].(flags := t[name].flags + 1)])
    ensures Table(b, at, end).value[name].at > at
    ensures Leb(b', at) == Leb(b, at) && TidySubs(b', Leb(b', at).value.1, end)
  {
    hide Subs, Leb, Found, Finish, Enc;
    var next := Leb(b, at).value.1;
    var (syms, segs) := Subs(b, next, end).value;
    FinishKeys(Found(syms), segs);
    FinishPatched(Found(syms), segs, name);
    var k := LastOf(syms, name);
    SubsBounds(b, next, end);
    LebSame(b, b', at);
    SubsPatched(b, b', next, end, k);
  }

  /** No section's name runs past its end, and the `linking` section is read within itself. */
  predicate TidySections(b: bytes, at: nat)
    decreases |b| - at
  {
    at >= |b| || Leb(b, at + 1).None? ||
    (var (size, from) := Leb(b, at + 1).value;
     if b[at] == 0 && Name(b, from).Some? then
       var (name, next) := Name(b, from).value;
       if name == LINKING then next <= |b| && (Leb(b, next).Some? ==> TidySubs(b, Leb(b, next).value.1, from + size))
       else next <= from + size && from + size <= |b| && TidySections(b, from + size)
     else
       TidySections(b, from + size))
  }

  lemma {:induction false} SectionsBounds(b: bytes, at: nat, name: bytes)
    requires Sections(b, at).Some? && name in Sections(b, at).value
    ensures var e := Sections(b, at).value[name]; e.at > at && e.at + e.width <= |b|
    decreases |b| - at
  {
    hide Subs, Leb, Found, Finish;
    var (size, from) := Leb(b, at + 1).value;
    if b[at] == 0 && Name(b, from).value.0 == LINKING {
      var start, end := Name(b, from).value.1, from + size;
      var next := Leb(b, start).value.1;
      var (syms, segs) := Subs(b, next, end).value;
      FinishKeys(Found(syms), segs);
      FinishPatched(Found(syms), segs, name);
      var k := LastOf(syms, name);
      SubsBounds(b, next, end);
    } else {
      SectionsBounds(b, from + size, name);
    }
  }

  lemma {:induction false} SectionsPatched(b: bytes, b': bytes, at: nat, name: bytes)
    requires Sections(b, at).Some? && TidySections(b, at) && name in Sections(b, at).value
    requires var e := Sections(b, at).value[name]; !Weak(e.flags) && Patched(b, b', e.at, e.width, e.flags)
    ensures var t := Sections(b, at).value; Sections(b', at) == Some(t[name := t[name].(flags := t[name].flags + 1)])
    ensures TidySections(b', at)
    decreases |b| - at
  {
    hide Subs, Leb, Name, Found, Finish, Enc;
    var (size, from) := Leb(b, at + 1).value;
    if b[at] == 0 && Name(b, from).value.0 == LINKING {
      var start := Name(b, from).value.1;
      TablePatched(b, b', start, from + size, name);
      LebSame(b, b', at + 1);
      NameSame(b, b', from);
    } else {
      SectionsBounds(b, from + size, name);
      LebSame(b, b', at + 1);
      if b[at] == 0 {
        NameSame(b, b', from);
      }
      SectionsPatched(b, b', from + size, name);
    }
  }

  /** The object with the weak bit of the symbol that `e` is set. */
  function SetWeak(b: bytes, e: Entry): bytes
    requires e.at + e.width <= |b|
  {
    b[..e.at] + Enc(e.flags + 1) + b[e.at + e.width..]
  }

  lemma SetWeakPatches(b: bytes, e: Entry)
    requires e.at + e.width <= |b| && |Enc(e.flags + 1)| == e.width
    ensures |SetWeak(b, e)| == |b| && Patched(b, SetWeak(b, e), e.at, e.width, e.flags)
  {
    hide Enc;
    assert SetWeak(b, e)[e.at..e.at + e.width] == Enc(e.flags + 1);
  }

  /**
    Setting a symbol's weak bit in place, where its flags are written in as few
    bytes as will hold them, and reading the object again gives the same table
    with that symbol's weak bit set and nothing else different.
   */
  lemma WeakenedReparses(b: bytes, name: bytes)
    requires Symbols(b).Some? && TidySections(b, 8) && name in Symbols(b).value
    requires var e := Symbols(b).value[name]; !Weak(e.flags) && |Enc(e.flags)| == e.width
    ensures var t := Symbols(b).value; var e := t[name];
            && e.at + e.width <= |b| && |SetWeak(b, e)| == |b| && TidySections(SetWeak(b, e), 8)
            && Symbols(SetWeak(b, e)) == Some(t[name := e.(flags := e.flags + 1)])
  {
    var e := Symbols(b).value[name];
    SectionsBounds(b, 8, name);
    WeakSameWidth(e.flags);
    hide Sections, TidySections, Enc, Same, Weak;
    assert Patched(b, SetWeak(b, e), e.at, e.width, e.flags) by { SetWeakPatches(b, e); }
    hide Patched;
    SectionsPatched(b, SetWeak(b, e), 8, name);
  }

  /** The weak bits of all these set, one after another, each where the table first said it was. */
  function SetAll(b: bytes, t: map<bytes, Entry>, names: seq<bytes>): bytes {
    if names == [] then
      b
    else
      var n := names[|names| - 1];
      var b' := SetAll(b, t, names[..|names| - 1]);
      if n in t && t[n].at + t[n].width <= |b'| then SetWeak(b', t[n]) else b'
  }

  function WeakAll(t: map<bytes, Entry>, names: seq<bytes>): map<bytes, Entry> {
    map n | n in t :: if n in names then t[n].(flags := t[n].flags + 1) else t[n]
  }

  /** The same of any number of symbols, each named once. */
  lemma {:induction false} AllWeakenedReparse(b: bytes, names: seq<bytes>)
    requires Symbols(b).Some? && TidySections(b, 8)
    requires forall i, j :: 0 <= i < j < |names| ==> names[i] != names[j]
    requires var t := Symbols(b).value;
             forall i :: 0 <= i < |names| ==> names[i] in t && !Weak(t[names[i]].flags) && |Enc(t[names[i]].flags)| == t[names[i]].width
    ensures var t := Symbols(b).value; var b' := SetAll(b, t, names);
            |b'| == |b| && TidySections(b', 8) && Symbols(b') == Some(WeakAll(t, names))
  {
    hide Symbols, TidySections, Enc;
    var t := Symbols(b).value;
    if names == [] {
      assert WeakAll(t, names) == t;
    } else {
      var init, n := names[..|names| - 1], names[|names| - 1];
      AllWeakenedReparse(b, init);
      var b' := SetAll(b, t, init);
      assert n !in init;
      WeakenedReparses(b', n);
      assert WeakAll(t, names) == WeakAll(t, init)[n := t[n].(flags := t[n].flags + 1)];
    }
  }

  /** Flags that are not weak are re-encoded in their own width exactly when they were written in the fewest bytes. */
  lemma WidthKept(flags: nat, width: nat)
    requires !Weak(flags)
    ensures |Enc(flags + 1)| == width <==> |Enc(flags)| == width
  {
    WeakSameWidth(flags);
  }

  /** The edit itself: in place, or refused with nothing changed. */
  method Patch(b: array<byte>, e: Entry) returns (res: Result<()>)
    requires e.at + e.width <= b.Length && !Weak(e.flags)
    modifies b
    ensures res.Ok? <==> |Enc(e.flags)| == e.width
    ensures b[..] == if res.Ok? then SetWeak(old(b[..]), e) else old(b[..])
  {
    WidthKept(e.flags, e.width);
    var enc := Reencode(e.flags + 1, e.width);
    if enc.Err? {
      return Err(enc.error);
    }
    hide Enc;
    ghost var was := b[..];
    var i := 0;
    while i < e.width
      invariant 0 <= i <= e.width == |enc.value|
      invariant forall j :: 0 <= j < b.Length ==> b[j] == if e.at <= j < e.at + i then enc.value[j - e.at] else was[j]
    {
      b[e.at + i] := enc.value[i];
      i := i + 1;
    }
    assert b[..] == SetWeak(was, e);
    return Ok(());
  }
}
