/**
  Directory entries as stat(5) writes them (kernel/src/ninep.rs), and reads of a
  directory, which are of whole entries (kernel/src/dev.rs).
 */
module Directories {
  import opened ProcTable
  import opened Bytes
  import opened NineP

  datatype Qid = Qid(qtype: nat, vers: nat, path: nat)

  datatype Dir = Dir(
    dtype: nat, dev: nat, qid: Qid, mode: nat, atime: nat, mtime: nat, length: nat,
    name: bytes, uid: bytes, gid: bytes, muid: bytes)

  function FieldsOf(d: Dir): seq<Field> {
    [Num(d.dtype, 2), Num(d.dev, 4), Num(d.qid.qtype, 1), Num(d.qid.vers, 4), Num(d.qid.path, 8),
     Num(d.mode, 4), Num(d.atime, 4), Num(d.mtime, 4), Num(d.length, 8), Str(d.name), Str(d.uid), Str(d.gid), Str(d.muid)]
  }

  const INTS: seq<Kind> := [Int(2), Int(4), Int(1), Int(4), Int(8), Int(4), Int(4), Int(4), Int(8)]
  const TEXTS: seq<Kind> := [Text, Text, Text, Text]
  const KINDS: seq<Kind> := INTS + TEXTS

  function ToDir(fs: seq<Field>): (d: Dir)
    requires Kinds(fs) == KINDS
    ensures FieldsOf(d) == fs
  {
    KindsAt(fs);
    Dir(fs[0].v, fs[1].v, Qid(fs[2].v, fs[3].v, fs[4].v), fs[5].v, fs[6].v, fs[7].v, fs[8].v, fs[9].s, fs[10].s, fs[11].s, fs[12].s)
  }

  lemma {:induction false} KindsAt(fs: seq<Field>)
    ensures |Kinds(fs)| == |fs| && forall i :: 0 <= i < |fs| ==> Kinds(fs)[i] == KindOf(fs[i])
  {
    if fs != [] {
      KindsAt(fs[1..]);
    }
  }

  lemma KindsOfDir(d: Dir)
    ensures Kinds(FieldsOf(d)) == KINDS
  {
    KindsAt(FieldsOf(d));
  }

  /** Numbers within their fields, as their types have them. */
  predicate Sized(d: Dir) {
    && d.dtype < 0x1_0000 && d.dev < 0x1_0000_0000
    && d.qid.qtype < 0x100 && d.qid.vers < 0x1_0000_0000 && d.qid.path < 0x1_0000_0000_0000_0000
    && d.mode < 0x1_0000_0000 && d.atime < 0x1_0000_0000 && d.mtime < 0x1_0000_0000
    && d.length < 0x1_0000_0000_0000_0000
  }

  /** And the strings text. */
  predicate Typed(d: Dir) {
    Sized(d) && Utf8(d.name) && Utf8(d.uid) && Utf8(d.gid) && Utf8(d.muid)
  }

  predicate Counted(d: Dir) {
    |d.name| < 0x1_0000 && |d.uid| < 0x1_0000 && |d.gid| < 0x1_0000 && |d.muid| < 0x1_0000
  }

  /** The fixed part of an entry, its own count included. */
  const STATFIXLEN: nat := 49

  /** How long an entry is. */
  function Len(d: Dir): nat {
    STATFIXLEN + |d.name| + |d.uid| + |d.gid| + |d.muid|
  }

  function ConvD2M(d: Dir): bytes {
    var body := Put(FieldsOf(d));
    Le(|body|, 2) + body
  }

  function ConvM2D(b: bytes): Option<Dir> {
    if |b| < 2 || UnLe(b[..2]) + 2 > |b| then
      None
    else
      var r := Get(KINDS, b[2..], true);
      if r.None? then None else GetIsPut(KINDS, b[2..], true); Some(ToDir(r.value.0))
  }

  lemma {:induction false} PutLen(fs: seq<Field>)
    ensures |Put(fs)| == Total(fs)
  {
    if fs != [] {
      PutLen(fs[1..]);
    }
  }

  /** How long a field is. */
  function Size(f: Field): nat {
    if f.Num? then f.n else 2 + |f.s|
  }

  function Total(fs: seq<Field>): nat {
    if fs == [] then 0 else Size(fs[0]) + Total(fs[1..])
  }

  lemma TotalFrom(fs: seq<Field>, i: nat)
    requires i < |fs|
    ensures Total(fs[i..]) == Size(fs[i]) + Total(fs[i + 1..])
  {
    assert fs[i..][1..] == fs[i + 1..];
  }

  lemma TotalOfEach(fs: seq<Field>)
    requires |fs| == 13
    ensures Total(fs) == Size(fs[0]) + Size(fs[1]) + Size(fs[2]) + Size(fs[3]) + Size(fs[4]) + Size(fs[5]) + Size(fs[6])
                         + Size(fs[7]) + Size(fs[8]) + Size(fs[9]) + Size(fs[10]) + Size(fs[11]) + Size(fs[12])
  {
    assert fs[13..] == [] && Total([]) == 0;
    hide *;
    TotalFrom(fs, 12); TotalFrom(fs, 11); TotalFrom(fs, 10); TotalFrom(fs, 9); TotalFrom(fs, 8);
    TotalFrom(fs, 7); TotalFrom(fs, 6); TotalFrom(fs, 5); TotalFrom(fs, 4); TotalFrom(fs, 3);
    TotalFrom(fs, 2); TotalFrom(fs, 1); TotalFrom(fs, 0);
    assert fs[0..] == fs;
  }

  lemma FieldSizes(d: Dir)
    ensures var fs := FieldsOf(d);
            && |fs| == 13 && Size(fs[0]) == 2 && Size(fs[1]) == 4 && Size(fs[2]) == 1 && Size(fs[3]) == 4 && Size(fs[4]) == 8
            && Size(fs[5]) == 4 && Size(fs[6]) == 4 && Size(fs[7]) == 4 && Size(fs[8]) == 8
            && Size(fs[9]) == 2 + |d.name| && Size(fs[10]) == 2 + |d.uid| && Size(fs[11]) == 2 + |d.gid| && Size(fs[12]) == 2 + |d.muid|
  {
  }

  /** An entry is its count and its fields. */
  lemma EntryParts(d: Dir, rest: bytes)
    ensures var b, body := ConvD2M(d) + rest, Put(FieldsOf(d));
            |ConvD2M(d)| == 2 + |body| && b[..2] == Le(|body|, 2) && b[2..] == body + rest
  {
    hide Put, FieldsOf;
  }

  lemma EntryLen(d: Dir)
    ensures |ConvD2M(d)| == Len(d) && |Put(FieldsOf(d))| == Len(d) - 2
  {
    hide Put, FieldsOf, ConvD2M, Total, Size;
    EntryParts(d, []);
    PutLen(FieldsOf(d));
    FieldSizes(d);
    TotalOfEach(FieldsOf(d));
  }

  lemma DirFits(d: Dir)
    ensures (forall i :: 0 <= i < |FieldsOf(d)| ==> Fits(FieldsOf(d)[i])) <==> Sized(d) && Counted(d)
  {
    Spans();
    var fs := FieldsOf(d);
    if forall i :: 0 <= i < |fs| ==> Fits(fs[i]) {
      assert Fits(fs[0]) && Fits(fs[1]) && Fits(fs[2]) && Fits(fs[3]) && Fits(fs[4]) && Fits(fs[5]) && Fits(fs[6]);
      assert Fits(fs[7]) && Fits(fs[8]) && Fits(fs[9]) && Fits(fs[10]) && Fits(fs[11]) && Fits(fs[12]);
    }
  }

  /**
    An entry, and whatever follows it, is read back as itself exactly when each
    of its strings is counted by two bytes: even where its own count is not.
   */
  lemma DirRoundTrip(d: Dir, rest: bytes)
    requires Typed(d)
    ensures ConvM2D(ConvD2M(d) + rest) == Some(d) <==> Counted(d)
  {
    hide *;
    var fs, got := FieldsOf(d), ConvM2D(ConvD2M(d) + rest);
    ReadsFields(d, rest);
    KindsOfDir(d);
    DirTexts(d);
    DirFits(d);
    FieldsRoundTrip(fs, rest, true);
    if got.Some? {
      SameDir(got.value, d);
    }
  }

  /** What is read of an entry is what its fields are read as. */
  lemma ReadsFields(d: Dir, rest: bytes)
    ensures var r, got := Get(KINDS, Put(FieldsOf(d)) + rest, true), ConvM2D(ConvD2M(d) + rest);
            if r.None? then got.None? else got.Some? && FieldsOf(got.value) == r.value.0
  {
    var b, body := ConvD2M(d) + rest, Put(FieldsOf(d));
    EntryParts(d, rest);
    LeRoundTrip(|body|, 2);
    GetIsPut(KINDS, b[2..], true);
    hide Put, Le, UnLe, Get, FieldsOf, Kinds, KINDS, ConvD2M;
    assert |b| == |b[2..]| + 2;
  }

  lemma DirTexts(d: Dir)
    requires Typed(d)
    ensures Sized(d) && Texts(FieldsOf(d))
  {
    hide Utf8;
  }

  lemma SameDir(a: Dir, b: Dir)
    ensures FieldsOf(a) == FieldsOf(b) <==> a == b
  {
    var fa, fb := FieldsOf(a), FieldsOf(b);
    if fa == fb {
      assert forall i :: 0 <= i < 13 ==> fa[i] == fb[i];
      assert fa[0] == fb[0] && fa[1] == fb[1] && fa[2] == fb[2] && fa[3] == fb[3] && fa[4] == fb[4] && fa[5] == fb[5] && fa[6] == fb[6];
      assert fa[7] == fb[7] && fa[8] == fb[8] && fa[9] == fb[9] && fa[10] == fb[10] && fa[11] == fb[11] && fa[12] == fb[12];
    }
  }

  // ---- one entry checked

  lemma {:induction false} GetAppend(a: seq<Kind>, k: seq<Kind>, b: bytes, utf8: bool)
    ensures var one, both := Get(a, b, utf8), Get(a + k, b, utf8);
            && (one.None? ==> both.None?)
            && (one.Some? ==>
                  var two := Get(k, one.value.1, utf8);
                  both == if two.None? then None else Some((one.value.0 + two.value.0, two.value.1)))
  {
    if a == [] {
      assert a + k == k;
      var two := Get(k, b, utf8);
      assert two.Some? ==> [] + two.value.0 == two.value.0;
    } else {
      assert (a + k)[0] == a[0] && (a + k)[1..] == a[1..] + k;
      var one := GetOne(a[0], b, utf8);
      if one.Some? {
        GetAppend(a[1..], k, one.value.1, utf8);
        var more := Get(a[1..], one.value.1, utf8);
        if more.Some? {
          var two := Get(k, more.value.1, utf8);
          assert two.Some? ==> [one.value.0] + (more.value.0 + two.value.0) == [one.value.0] + more.value.0 + two.value.0;
        }
      }
    }
  }

  /** The fixed part is always there to be had, if there is that much. */
  lemma {:induction false} GetInts(ks: seq<Kind>, b: bytes, n: nat)
    requires (forall i :: 0 <= i < |ks| ==> ks[i].Int?) && n == Widths(ks) <= |b|
    ensures Get(ks, b, false).Some? && Get(ks, b, false).value.1 == b[n..]
  {
    if ks != [] {
      GetInts(ks[1..], b[ks[0].n..], n - ks[0].n);
    }
  }

  function Widths(ks: seq<Kind>): nat {
    if ks == [] then 0 else (if ks[0].Int? then ks[0].n else 0) + Widths(ks[1..])
  }

  lemma IntsWidth()
    ensures Widths(INTS) == 39
  {
    assert Widths(INTS[5..]) == 4 + 4 + 4 + 8 by {
      assert INTS[5..][1..][1..][1..][1..] == [];
      assert INTS[5..] == [Int(4), Int(4), Int(4), Int(8)];
      assert Widths([Int(8)]) == 8 by { assert [Int(8)][1..] == []; }
      assert [Int(4), Int(8)][1..] == [Int(8)];
      assert [Int(4), Int(4), Int(8)][1..] == [Int(4), Int(8)];
      assert INTS[5..][1..] == [Int(4), Int(4), Int(8)];
    }
    assert INTS[4..][1..] == INTS[5..];
    assert INTS[3..][1..] == INTS[4..];
    assert INTS[2..][1..] == INTS[3..];
    assert INTS[1..][1..] == INTS[2..];
  }

  /** An entry a buffer may be: its numbers are of their sizes, and it is no longer than its count can say. */
  predicate Entry(d: Dir) {
    Sized(d) && Len(d) - 2 < 0x1_0000
  }

  /** What is checked: the count is the rest of it, and four strings end where it does. */
  predicate Checks(b: bytes) {
    && |b| >= STATFIXLEN && |b| == 2 + UnLe(b[..2])
    && var r := Get(TEXTS, b[41..], false);
       r.Some? && r.value.1 == []
  }

  lemma ChecksAll(b: bytes)
    requires |b| >= STATFIXLEN
    ensures Get(KINDS, b[2..], false).Some? <==> Get(TEXTS, b[41..], false).Some?
    ensures Get(KINDS, b[2..], false).Some? ==> Get(KINDS, b[2..], false).value.1 == Get(TEXTS, b[41..], false).value.1
  {
    IntsWidth();
    GetInts(INTS, b[2..], 39);
    assert b[2..][39..] == b[41..];
    GetAppend(INTS, TEXTS, b[2..], false);
  }

  /** What passes is exactly what an entry is written as. */
  lemma ChecksIffEntry(b: bytes)
    ensures Checks(b) <==> exists d :: Entry(d) && b == ConvD2M(d)
  {
    hide *;
    if Checks(b) {
      var d := EntryOf(b);
      assert Entry(d) && b == ConvD2M(d);
    }
    forall d | Entry(d) && b == ConvD2M(d)
      ensures Checks(b)
    {
      EntryChecks(d);
    }
  }

  lemma EntryOf(b: bytes) returns (d: Dir)
    requires Checks(b)
    ensures Entry(d) && b == ConvD2M(d)
  {
    ChecksAll(b);
    UnLeRoundTrip(b[..2]);
    GetIsPut(KINDS, b[2..], false);
    hide Get, Put, Fits, Kinds, KINDS, Le, UnLe, Sized, Counted;
    var r := Get(KINDS, b[2..], false).value;
    d := ToDir(r.0);
    assert Put(r.0) == b[2..] by { assert r.1 == []; }
    assert b == b[..2] + b[2..];
    hide ToDir;
    hide FieldsOf;
    DirFits(d);
    EntryLen(d);
  }

  lemma EntryChecks(d: Dir)
    requires Entry(d)
    ensures Checks(ConvD2M(d))
  {
    var b, fs := ConvD2M(d), FieldsOf(d);
    EntryLen(d);
    EntryParts(d, []);
    assert b + [] == b;
    Spans();
    LeRoundTrip(|Put(fs)|, 2);
    KindsOfDir(d);
    DirFits(d);
    hide Put, Get, Fits, FieldsOf, Kinds, KINDS, INTS, TEXTS, Le, UnLe, ConvD2M;
    FieldsRoundTrip(fs, [], false);
    ChecksAll(b);
  }

  /** An entry passes exactly when it is no longer than its count can say. */
  lemma ChecksIffFits(d: Dir)
    requires Sized(d)
    ensures Checks(ConvD2M(d)) <==> Len(d) - 2 < 0x1_0000
  {
    if Len(d) - 2 < 0x1_0000 {
      EntryChecks(d);
    } else {
      EntryLen(d);
      Spans();
      LeRoundTrip(|Put(FieldsOf(d))|, 2);
      assert ConvD2M(d)[..2] == Le(|Put(FieldsOf(d))|, 2);
    }
  }

  /** Where `n` strings from `at` end; nowhere if one is not all there. */
  function TextsEnd(b: bytes, at: nat, n: nat): Option<nat>
    decreases n
  {
    if n == 0 then Some(at)
    else if at + 2 > |b| then None
    else
      var next := at + 2 + UnLe(b[at..at + 2]);
      if next > |b| then None else TextsEnd(b, next, n - 1)
  }

  lemma {:induction false} TextsEndIsGet(b: bytes, at: nat, n: nat, ks: seq<Kind>)
    requires at <= |b| && |ks| == n && forall i :: 0 <= i < n ==> ks[i] == Text
    ensures TextsEnd(b, at, n).Some? <==> Get(ks, b[at..], false).Some?
    ensures TextsEnd(b, at, n).Some? ==> TextsEnd(b, at, n).value <= |b| && Get(ks, b[at..], false).value.1 == b[TextsEnd(b, at, n).value..]
    decreases n
  {
    if n > 0 && at + 2 <= |b| {
      assert b[at..][..2] == b[at..at + 2];
      var next := at + 2 + UnLe(b[at..at + 2]);
      if next <= |b| {
        assert b[at..][next - at..] == b[next..];
        TextsEndIsGet(b, next, n - 1, ks[1..]);
      }
    }
  }

  lemma ChecksByEnds(b: bytes)
    ensures (exists d :: Entry(d) && b == ConvD2M(d)) <==> |b| >= STATFIXLEN && |b| == 2 + UnLe(b[..2]) && TextsEnd(b, 41, 4) == Some(|b|)
  {
    ChecksIffEntry(b);
    hide Entry, ConvD2M, Get, UnLe, TextsEnd;
    if |b| >= STATFIXLEN {
      TextsEndIsGet(b, 41, 4, TEXTS);
    }
  }

  lemma NextText(b: bytes, at: nat, n: nat)
    requires n > 0
    ensures at + 2 > |b| ==> TextsEnd(b, at, n) == None
    ensures at + 2 <= |b| ==>
              var next := at + 2 + UnLe(b[at..at + 2]); TextsEnd(b, at, n) == if next > |b| then None else TextsEnd(b, next, n - 1)
  {
    hide UnLe;
  }

  method StatCheck(b: bytes) returns (ok: bool)
    ensures ok <==> exists d :: Entry(d) && b == ConvD2M(d)
  {
    hide Entry, ConvD2M, UnLe, TextsEnd;
    ChecksByEnds(b);
    var n := |b|;
    if n < STATFIXLEN || n != 2 + UnLe(b[..2]) {
      return false;
    }
    var at := STATFIXLEN - 4 * 2;
    var k := 0;
    while k < 4
      invariant 0 <= k <= 4 && at >= 41
      invariant TextsEnd(b, 41, 4) == if at <= n then TextsEnd(b, at, 4 - k) else None
    {
      NextText(b, at, 4 - k);
      if at + 2 > n {
        return false;
      }
      at := at + 2 + UnLe(b[at..at + 2]);
      k := k + 1;
    }
    NoMoreTexts(b, at);
    return at == n;
  }

  lemma NoMoreTexts(b: bytes, at: nat)
    ensures TextsEnd(b, at, 0) == Some(at)
  {
  }

  /** What is got, with what was got before it. */
  function Prefixed(fs: seq<Field>, r: Option<(seq<Field>, bytes)>): Option<(seq<Field>, bytes)> {
    if r.None? then None else Some((fs + r.value.0, r.value.1))
  }

  lemma PrefixedNone(r: Option<(seq<Field>, bytes)>)
    ensures Prefixed([], r) == r
  {
    assert r.Some? ==> [] + r.value.0 == r.value.0;
  }

  lemma PrefixedStep(fs: seq<Field>, ks: seq<Kind>, b: bytes)
    requires ks != []
    ensures var one := GetOne(ks[0], b, true);
            Prefixed(fs, Get(ks, b, true)) == if one.None? then None else Prefixed(fs + [one.value.0], Get(ks[1..], one.value.1, true))
  {
    var one := GetOne(ks[0], b, true);
    if one.Some? {
      var more := Get(ks[1..], one.value.1, true);
      assert more.Some? ==> fs + ([one.value.0] + more.value.0) == fs + [one.value.0] + more.value.0;
    }
  }

  lemma PrefixedAll(fs: seq<Field>, b: bytes)
    ensures Prefixed(fs, Get([], b, true)) == Some((fs, b))
  {
    assert fs + [] == fs;
  }

  method ReadField(r: R, k: Kind) returns (f: Option<Field>)
    requires r.i <= |r.b|
    modifies r
    ensures r.i <= |r.b| && GetOne(k, r.b[old(r.i)..], true) == if f.Some? then Some((f.value, r.b[r.i..])) else None
  {
    hide GetOne;
    if k.Int? {
      var v := r.Uint(k.n);
      return if v.Some? then Some(Num(v.value, k.n)) else None;
    }
    var t := r.Text();
    return if t.Some? then Some(Str(t.value)) else None;
  }

  /** An entry, field by field. */
  method ReadDir(b: bytes) returns (res: Option<Dir>)
    ensures res == ConvM2D(b)
  {
    if |b| < 2 || UnLe(b[..2]) + 2 > |b| {
      return None;
    }
    var r := new R(b);
    var size := r.Take(2);
    var fs := ReadFields(r);
    GetIsPut(KINDS, b[2..], true);
    return if fs.Some? then Some(ToDir(fs.value)) else None;
  }

  method ReadFields(r: R) returns (res: Option<seq<Field>>)
    requires r.i <= |r.b|
    modifies r
    ensures r.i <= |r.b| && Get(KINDS, r.b[old(r.i)..], true) == if res.Some? then Some((res.value, r.b[r.i..])) else None
  {
    hide Get, GetOne, Prefixed, KINDS;
    ghost var b := r.b[r.i..];
    var k := 0;
    var fs: seq<Field> := [];
    assert KINDS[0..] == KINDS;
    PrefixedNone(Get(KINDS, b, true));
    while k < |KINDS|
      invariant 0 <= k <= |KINDS| && r.i <= |r.b|
      invariant Get(KINDS, b, true) == Prefixed(fs, Get(KINDS[k..], r.b[r.i..], true))
    {
      PrefixedStep(fs, KINDS[k..], r.b[r.i..]);
      assert KINDS[k..][0] == KINDS[k] && KINDS[k..][1..] == KINDS[k + 1..];
      var f := ReadField(r, KINDS[k]);
      if f.None? {
        return None;
      }
      fs, k := fs + [f.value], k + 1;
    }
    PrefixedAll(fs, r.b[r.i..]);
    assert KINDS[k..] == [];
    return Some(fs);
  }

  // ---- a directory read

  /** The entries at the front of what was read, until something else is met. */
  function ParseAll(b: bytes): seq<Dir>
    decreases |b|
  {
    if |b| < 2 then
      []
    else
      var d := ConvM2D(b);
      if d.None? then [] else [d.value] + ParseAll(b[2 + UnLe(b[..2])..])
  }

  lemma EntryWithin(b: bytes)
    requires ConvM2D(b).Some?
    ensures |b| >= 2 && 2 + UnLe(b[..2]) <= |b|
  {
  }

  method ParseEntries(b: bytes) returns (out: seq<Dir>)
    ensures out == ParseAll(b)
  {
    hide ConvM2D, UnLe;
    out := [];
    var at := 0;
    assert b[0..] == b;
    while at + 2 <= |b|
      invariant 0 <= at <= |b|
      invariant ParseAll(b) == out + ParseAll(b[at..])
      decreases |b| - at
    {
      var rest := b[at..];
      var size := 2 + UnLe(rest[..2]);
      var d := ReadDir(rest);
      if d.None? {
        break;
      }
      EntryWithin(rest);
      out := out + [d.value];
      assert rest[size..] == b[at + size..];
      at := at + size;
    }
  }

  function PutAll(ds: seq<Dir>): bytes {
    if ds == [] then [] else ConvD2M(ds[0]) + PutAll(ds[1..])
  }

  /** Entries one after another are parsed back, each within its own count. */
  lemma {:induction false} ParseRoundTrip(ds: seq<Dir>)
    requires forall d :: d in ds ==> Typed(d) && Entry(d)
    ensures ParseAll(PutAll(ds)) == ds
  {
    if ds != [] {
      var d, rest := ds[0], PutAll(ds[1..]);
      ParseRoundTrip(ds[1..]);
      DirRoundTrip(d, rest);
      EntryLen(d);
      Spans();
      LeRoundTrip(|Put(FieldsOf(d))|, 2);
      var b := ConvD2M(d) + rest;
      assert b[..2] == Le(|Put(FieldsOf(d))|, 2);
      assert b[Len(d)..] == rest;
    }
  }

  lemma {:induction false} PutAllAppend(a: seq<Dir>, b: seq<Dir>)
    ensures PutAll(a + b) == PutAll(a) + PutAll(b)
  {
    if a == [] {
      assert a + b == b;
    } else {
      assert (a + b)[1..] == a[1..] + b;
      PutAllAppend(a[1..], b);
    }
  }

  /** Where a read of `n` bytes from entry `dri` ends: at the first that does not fit whole. */
  function NextDri(entries: seq<Dir>, dri: nat, n: int): (r: nat)
    requires dri <= |entries|
    ensures dri <= r <= |entries|
    decreases |entries| - dri
  {
    if dri < |entries| && Len(entries[dri]) <= n then NextDri(entries, dri + 1, n - Len(entries[dri])) else dri
  }

  lemma NoEntries(entries: seq<Dir>, dri: nat)
    requires dri <= |entries|
    ensures PutAll(entries[dri..dri]) == []
  {
  }

  lemma OneMore(entries: seq<Dir>, from: nat, dri: nat)
    requires from <= dri < |entries|
    ensures PutAll(entries[from..dri + 1]) == PutAll(entries[from..dri]) + ConvD2M(entries[dri])
  {
    PutAllAppend(entries[from..dri], [entries[dri]]);
    assert entries[from..dri + 1] == entries[from..dri] + [entries[dri]];
    assert PutAll([entries[dri]]) == ConvD2M(entries[dri]) + PutAll([]);
  }

  /** A read has as many whole entries as fit in its buffer: the next would not. */
  lemma {:induction false} AsManyAsFit(entries: seq<Dir>, dri: nat, n: nat)
    requires dri <= |entries|
    ensures var next := NextDri(entries, dri, n);
            && |PutAll(entries[dri..next])| <= n
            && (next < |entries| ==> |PutAll(entries[dri..next + 1])| > n)
    decreases |entries| - dri
  {
    hide PutAll, ConvD2M, Len;
    var next := NextDri(entries, dri, n);
    NoEntries(entries, dri);
    if dri < |entries| {
      EntryLen(entries[dri]);
      OneMore(entries, dri, dri);
      if Len(entries[dri]) <= n {
        AsManyAsFit(entries, dri + 1, n - Len(entries[dri]));
        FirstEntry(entries, dri, next);
        if next < |entries| {
          FirstEntry(entries, dri, next + 1);
        }
      }
    }
  }

  lemma FirstEntry(entries: seq<Dir>, dri: nat, next: nat)
    requires dri < next <= |entries|
    ensures PutAll(entries[dri..next]) == ConvD2M(entries[dri]) + PutAll(entries[dri + 1..next])
  {
    assert entries[dri..next][1..] == entries[dri + 1..next];
  }

  /** A channel on a directory, and the entry its next read begins at. */
  class DirChan {
    var dri: nat

    constructor ()
      ensures dri == 0
    {
      dri := 0;
    }

    method Read(n: nat, entries: seq<Dir>) returns (out: bytes)
      requires dri <= |entries|
      modifies this
      ensures dri == NextDri(entries, old(dri), n) && out == PutAll(entries[old(dri)..dri]) && |out| <= n
    {
      hide PutAll, ConvD2M, Len;
      out := [];
      NoEntries(entries, dri);
      while dri < |entries|
        invariant old(dri) <= dri <= |entries| && |out| <= n
        invariant out == PutAll(entries[old(dri)..dri])
        invariant NextDri(entries, old(dri), n) == NextDri(entries, dri, n - |out|)
      {
        var b := ConvD2M(entries[dri]);
        EntryLen(entries[dri]);
        if |out| + |b| > n {
          break;
        }
        OneMore(entries, old(dri), dri);
        out := out + b;
        dri := dri + 1;
      }
    }
  }

  /** A run of reads, each of its own size: all they answered, and where they ended. */
  function Reads(entries: seq<Dir>, dri: nat, ns: seq<nat>): (bytes, nat)
    requires dri <= |entries|
    decreases |ns|
  {
    if ns == [] then
      ([], dri)
    else
      var next := NextDri(entries, dri, ns[0]);
      var (more, end) := Reads(entries, next, ns[1..]);
      (PutAll(entries[dri..next]) + more, end)
  }

  lemma SliceTogether(entries: seq<Dir>, i: nat, j: nat, k: nat)
    requires i <= j <= k <= |entries|
    ensures entries[i..j] + entries[j..k] == entries[i..k]
  {
  }

  /** Reads answer whole entries, each once and in order, whatever their sizes. */
  lemma {:induction false} ReadsWholeEntries(entries: seq<Dir>, dri: nat, ns: seq<nat>)
    requires dri <= |entries|
    ensures var (out, end) := Reads(entries, dri, ns); dri <= end <= |entries| && out == PutAll(entries[dri..end])
    decreases |ns|
  {
    if ns != [] {
      var next := NextDri(entries, dri, ns[0]);
      ReadsWholeEntries(entries, next, ns[1..]);
      var end := Reads(entries, next, ns[1..]).1;
      hide PutAll, NextDri, Reads;
      SliceTogether(entries, dri, next, end);
      PutAllAppend(entries[dri..next], entries[next..end]);
    }
  }

  /** Every buffer has room for any entry. */
  predicate Roomy(entries: seq<Dir>, ns: seq<nat>) {
    forall i, j :: 0 <= i < |ns| && 0 <= j < |entries| ==> Len(entries[j]) <= ns[i]
  }

  /** A read with room for the next entry gets on. */
  lemma {:induction false} ReadsGetOn(entries: seq<Dir>, dri: nat, ns: seq<nat>)
    requires dri <= |entries| && Roomy(entries, ns)
    ensures var end := Reads(entries, dri, ns).1; end == |entries| || end >= dri + |ns|
    decreases |ns|
  {
    if ns != [] {
      var next := NextDri(entries, dri, ns[0]);
      if dri < |entries| {
        assert Len(entries[dri]) <= ns[0];
        assert next >= dri + 1;
      }
      ReadsGetOn(entries, next, ns[1..]);
      ReadsWholeEntries(entries, next, ns[1..]);
    }
  }

  /**
    A directory read to its end through any buffers each of which has room for an
    entry, and parsed, is the directory.
   */
  lemma DirectoryReadBack(entries: seq<Dir>, ns: seq<nat>)
    requires forall d :: d in entries ==> Typed(d) && Entry(d)
    requires Roomy(entries, ns) && |ns| >= |entries|
    ensures var (out, end) := Reads(entries, 0, ns); end == |entries| && ParseAll(out) == entries
  {
    ReadsWholeEntries(entries, 0, ns);
    ReadsGetOn(entries, 0, ns);
    assert entries[0..|entries|] == entries;
    ParseRoundTrip(entries);
  }

  /** A read that answers nothing is at the end of the directory, or has no room for the next entry. */
  lemma NothingRead(entries: seq<Dir>, dri: nat, n: nat)
    requires dri <= |entries|
    ensures PutAll(entries[dri..NextDri(entries, dri, n)]) == [] <==> dri == |entries| || n < Len(entries[dri])
  {
    var next := NextDri(entries, dri, n);
    if dri < |entries| && Len(entries[dri]) <= n {
      EntryLen(entries[dri]);
      assert entries[dri..next][0] == entries[dri];
    }
  }
}
