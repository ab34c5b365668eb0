/**
  The console's line discipline (kernel/src/devcons.rs): keystrokes are edited
  into lines, and a read takes from one line.

  `KbdState` is the keyboard as a value and `Linedisc` the discipline as a
  function; `Kbd` is the mutable object, whose loop is proved to be that function.
  `Edit` is the editing by itself: what a whole string of keystrokes comes to.
 */
module Console {
  import opened ProcTable
  import opened Bytes

  const BS: byte := 0x08
  const KILL: byte := 0x15
  const NL: byte := 0x0a
  const EOT: byte := 0x04
  const KBDLINE: nat := 1024

  datatype KbdState = KbdState(raw: bool, line: bytes, kbdq: bytes, lineq: bytes, eof: bool)

  function Sendline(k: KbdState): KbdState {
    k.(lineq := k.lineq + k.line, line := [])
  }

  /** One character in: the line after it, and whether to send that. */
  function Key(k: KbdState, ch: byte, last: bool): (bytes, bool) {
    if ch == 0 then (k.line, k.line != [] && last)
    else if k.raw then (k.line + [ch], last)
    else if ch == BS then (if k.line == [] then [] else k.line[..|k.line| - 1], false)
    else if ch == KILL then ([], false)
    else if ch == NL then (k.line + [ch], true)
    else if ch == EOT then (k.line, true)
    else (k.line + [ch], false)
  }

  /** Take keys from `kbdq` until they make a line, or run out. */
  function Linedisc(k: KbdState): (r: KbdState)
    decreases |k.kbdq|
  {
    if k.lineq != [] then
      k
    else if k.kbdq == [] then
      if k.eof then Sendline(k) else k
    else
      var (line, send) := Key(k, k.kbdq[0], |k.kbdq| == 1);
      var k' := k.(kbdq := k.kbdq[1..], line := line);
      Linedisc(if send || |line| == KBDLINE then Sendline(k') else k')
  }

  /** From `lineq`, as much as is asked for or there is; `None` is a reader that sleeps. */
  function TakeLine(k: KbdState, n: nat): (KbdState, Option<bytes>) {
    if k.lineq == [] && !k.eof then
      (k, None)
    else
      var take := if n < |k.lineq| then n else |k.lineq|;
      (k.(lineq := k.lineq[take..]), Some(k.lineq[..take]))
  }

  function Consread(k: KbdState, n: nat): (KbdState, Option<bytes>) {
    TakeLine(Linedisc(k), n)
  }

  /** The clock: what was typed since, or that there will be no more; and the interrupt key. */
  function Clock(k: KbdState, chars: Option<bytes>, interrupt: bool): KbdState {
    var k := if k.eof then k else if chars.None? then k.(eof := true) else k.(kbdq := k.kbdq + chars.value);
    if interrupt then k.(kbdq := [], line := []) else k
  }

  class Kbd {
    var raw: bool
    var line: bytes
    var kbdq: bytes
    var lineq: bytes
    var eof: bool

    constructor ()
      ensures Val() == KbdState(false, [], [], [], false)
    {
      raw, line, kbdq, lineq, eof := false, [], [], [], false;
    }

    function Val(): KbdState
      reads this
    {
      KbdState(raw, line, kbdq, lineq, eof)
    }

    method SendLine()
      modifies this
      ensures Val() == Sendline(old(Val()))
    {
      lineq := lineq + line;
      line := [];
    }

    method LineDisc()
      modifies this
      ensures Val() == Linedisc(old(Val()))
    {
      while lineq == []
        invariant Linedisc(Val()) == Linedisc(old(Val()))
        decreases |kbdq|
      {
        if kbdq == [] {
          if eof {
            SendLine();
          }
          return;
        }
        var ch := kbdq[0];
        kbdq := kbdq[1..];
        var send := false;
        if ch == 0 {
          if line != [] {
            send := kbdq == [];
          }
        } else if raw {
          line := line + [ch];
          send := kbdq == [];
        } else if ch == BS {
          if line != [] {
            line := line[..|line| - 1];
          }
        } else if ch == KILL {
          line := [];
        } else if ch == NL || ch == EOT {
          if ch != EOT {
            line := line + [ch];
          }
          send := true;
        } else {
          line := line + [ch];
        }
        if send || |line| == KBDLINE {
          SendLine();
        }
      }
    }

    method ConsRead(n: nat) returns (got: Option<bytes>)
      modifies this
      ensures (Val(), got) == Consread(old(Val()), n)
    {
      LineDisc();
      if lineq == [] && !eof {
        return None;
      }
      var take := if n < |lineq| then n else |lineq|;
      got := Some(lineq[..take]);
      lineq := lineq[take..];
    }

    method KbdPutcClock(chars: Option<bytes>, interrupt: bool)
      modifies this
      ensures Val() == Clock(old(Val()), chars, interrupt)
    {
      if !eof {
        if chars.None? {
          eof := true;
        } else {
          kbdq := kbdq + chars.value;
        }
      }
      if interrupt {
        kbdq, line := [], [];
      }
    }
  }

  // ---- the editing by itself

  /** What has been sent, line by line, and the line being edited. */
  datatype Ed = Ed(sent: seq<bytes>, line: bytes)
  {
    function Send(): Ed {
      Ed(sent + [line], [])
    }

    /** A line this long is sent as it is. */
    function Put(ch: byte): Ed {
      var e := this.(line := line + [ch]);
      if |e.line| == KBDLINE then e.Send() else e
    }

    function Type(ch: byte): Ed {
      if ch == BS then this.(line := if line == [] then [] else line[..|line| - 1])
      else if ch == KILL then this.(line := [])
      else if ch == EOT then Send()
      else if ch == NL then this.(line := line + [NL]).Send()
      else Put(ch)
    }
  }

  function Edit(keys: bytes): Ed {
    if keys == [] then Ed([], []) else Edit(keys[..|keys| - 1]).Type(keys[|keys| - 1])
  }

  predicate Plain(ch: byte) {
    ch != 0 && ch != BS && ch != KILL && ch != NL && ch != EOT
  }

  /** More keys, from where the editing had got to. */
  function EditOn(e: Ed, keys: bytes): Ed
    decreases |keys|
  {
    if keys == [] then e else EditOn(e.Type(keys[0]), keys[1..])
  }

  lemma {:induction false} EditAppend(a: bytes, b: bytes)
    ensures Edit(a + b) == EditOn(Edit(a), b)
    decreases |b|
  {
    if b == [] {
      assert a + b == a;
    } else {
      var a' := a + [b[0]];
      assert a'[..|a|] == a;
      assert a + b == a' + b[1..];
      EditAppend(a', b[1..]);
    }
  }

  lemma {:induction false} LineShort(keys: bytes)
    ensures |Edit(keys).line| < KBDLINE
  {
    if keys != [] {
      LineShort(keys[..|keys| - 1]);
    }
  }

  /** A character and then a backspace is nothing, unless the character filled the line and sent it. */
  lemma BackspaceUndoes(a: bytes, ch: byte, b: bytes)
    requires Plain(ch)
    ensures |Edit(a).line| < KBDLINE - 1 ==> Edit(a + [ch, BS] + b) == Edit(a + b)
    ensures |Edit(a).line| == KBDLINE - 1 ==> Edit(a + [ch, BS]) == Ed(Edit(a).sent + [Edit(a).line + [ch]], [])
  {
    LineShort(a);
    hide Edit;
    EditAppend(a, [ch, BS] + b);
    EditAppend(a, b);
    EditAppend(a, [ch, BS]);
    assert a + [ch, BS] + b == a + ([ch, BS] + b);
    TwoKeys(Edit(a), ch, BS, b);
    TwoKeys(Edit(a), ch, BS, []);
    assert [ch, BS] + [] == [ch, BS];
  }

  lemma TwoKeys(e: Ed, x: byte, y: byte, b: bytes)
    ensures EditOn(e, [x, y] + b) == EditOn(e.Type(x).Type(y), b)
  {
    var keys := [x, y] + b;
    assert keys[1..][0] == y && keys[1..][1..] == b;
  }

  /** Characters with no editing among them, and no line's length of them, come through as they were typed. */
  lemma {:induction false} PlainLine(a: bytes, line: bytes)
    requires Edit(a).line == [] && |line| < KBDLINE && forall i :: 0 <= i < |line| ==> Plain(line[i])
    ensures Edit(a + line) == Ed(Edit(a).sent, line)
    ensures Edit(a + line + [NL]) == Ed(Edit(a).sent + [line + [NL]], [])
    decreases |line|
  {
    if line == [] {
      assert a + line == a;
    } else {
      var n := |line| - 1;
      PlainLine(a, line[..n]);
      assert (a + line)[..|a + line| - 1] == a + line[..n];
      assert line[..n] + [line[n]] == line;
    }
    assert (a + line + [NL])[..|a + line|] == a + line;
  }

  // ---- every run

  function Concat(lines: seq<bytes>): bytes {
    if lines == [] then [] else Concat(lines[..|lines| - 1]) + lines[|lines| - 1]
  }

  /** Which line a read was of, where on it, and how much it asked for. */
  datatype Got = Got(line: nat, at: nat, want: nat, data: bytes)

  /** A run: the keyboard, what has been typed and read, and how many keys have been taken off `kbdq`. */
  datatype Sys = Sys(k: KbdState, typed: bytes, taken: nat, got: seq<Got>)

  datatype Event = Typed(keys: bytes) | Read(n: nat)

  predicate Enabled(e: Event) {
    e.Typed? ==> 0 !in e.keys
  }

  const Init := Sys(KbdState(false, [], [], [], false), [], 0, [])

  function Step(s: Sys, e: Event): Sys {
    match e
    case Typed(keys) => s.(k := Clock(s.k, Some(keys), false), typed := s.typed + keys)
    case Read(n) => Take(Discipline(s), n)
  }

  /** A read in two parts: the discipline, and the taking. */
  function Discipline(s: Sys): Sys {
    var k := Linedisc(s.k);
    s.(k := k, taken := if |k.kbdq| <= |s.typed| then |s.typed| - |k.kbdq| else 0)
  }

  function Take(s: Sys, n: nat): Sys {
    var (k, r) := TakeLine(s.k, n);
    if r.None? || s.taken > |s.typed| then
      s
    else
      var lines := Edit(s.typed[..s.taken]).sent;
      var i := if lines == [] then 0 else |lines| - 1;
      var at := if lines == [] || |lines[i]| < |s.k.lineq| then 0 else |lines[i]| - |s.k.lineq|;
      s.(k := k, got := s.got + [Got(i, at, n, r.value)])
  }

  function Exec(es: seq<Event>): Sys {
    if es == [] then Init else Step(Exec(es[..|es| - 1]), es[|es| - 1])
  }

  function Keys(es: seq<Event>): bytes {
    if es == [] then []
    else
      var e := es[|es| - 1];
      Keys(es[..|es| - 1]) + if e.Typed? then e.keys else []
  }

  /** Everything the reads answered. */
  function Delivered(got: seq<Got>): bytes {
    if got == [] then [] else Delivered(got[..|got| - 1]) + got[|got| - 1].data
  }

  /** What is left to read is the end of the last line sent. */
  ghost predicate Tail(lineq: bytes, sent: seq<bytes>) {
    lineq == [] || (sent != [] && |lineq| <= |sent[|sent| - 1]| && lineq == sent[|sent| - 1][|sent[|sent| - 1]| - |lineq|..])
  }

  /** The keys taken come to the lines sent and the line in hand; what was read and what is left are those lines. */
  ghost predicate Edited(k: KbdState, typed: bytes, taken: nat, given: bytes) {
    && !k.raw && !k.eof && 0 !in typed
    && taken <= |typed| && k.kbdq == typed[taken..]
    && var e := Edit(typed[..taken]);
       && k.line == e.line
       && given + k.lineq == Concat(e.sent)
       && Tail(k.lineq, e.sent)
  }

  /** A read is of one line, and is as much of the rest of it as was asked for. */
  ghost predicate Inside(g: Got, sent: seq<bytes>) {
    && g.line < |sent| && g.at < |sent[g.line]|
    && g.data == sent[g.line][g.at..if g.want < |sent[g.line]| - g.at then g.at + g.want else |sent[g.line]|]
  }

  ghost predicate Inv(s: Sys) {
    && Edited(s.k, s.typed, s.taken, Delivered(s.got))
    && forall i :: 0 <= i < |s.got| ==> Inside(s.got[i], Edit(s.typed[..s.taken]).sent)
  }

  lemma {:induction false} LinediscEdits(k: KbdState, typed: bytes, taken: nat, given: bytes) returns (taken': nat)
    requires Edited(k, typed, taken, given)
    ensures taken <= taken' <= |typed| && |Linedisc(k).kbdq| == |typed| - taken'
    ensures Edited(Linedisc(k), typed, taken', given)
    ensures Linedisc(k).lineq == [] ==> taken' == |typed|
    decreases |k.kbdq|
  {
    taken' := taken;
    if k.lineq == [] && k.kbdq != [] {
      var ch := k.kbdq[0];
      var (line, send) := Key(k, ch, |k.kbdq| == 1);
      var k' := k.(kbdq := k.kbdq[1..], line := line);
      var k'' := if send || |line| == KBDLINE then Sendline(k') else k';
      KeyEdits(k, typed, taken, given, k'');
      taken' := LinediscEdits(k'', typed, taken + 1, given);
    }
  }

  /** One key taken is one key of the editing. */
  lemma KeyEdits(k: KbdState, typed: bytes, taken: nat, given: bytes, k'': KbdState)
    requires Edited(k, typed, taken, given) && k.lineq == [] && k.kbdq != []
    requires var (line, send) := Key(k, k.kbdq[0], |k.kbdq| == 1);
             var k' := k.(kbdq := k.kbdq[1..], line := line);
             k'' == if send || |line| == KBDLINE then Sendline(k') else k'
    ensures Edited(k'', typed, taken + 1, given)
  {
    var ch := typed[taken];
    assert ch != 0 by { assert ch in typed; }
    LineShort(typed[..taken]);
    assert typed[..taken + 1][..taken] == typed[..taken];
    var e, e' := Edit(typed[..taken]), Edit(typed[..taken + 1]);
    assert e' == e.Type(ch);
    hide Edit, Concat, Key, Ed.Type;
    KeyIsType(k, ch, |k.kbdq| == 1, e.sent);
    assert typed[taken..][1..] == typed[taken + 1..];
    ConcatOne(e.sent, Key(k, ch, |k.kbdq| == 1).0);
  }

  /** In cooked mode the kernel's key is the editing's. */
  lemma KeyIsType(k: KbdState, ch: byte, last: bool, sent: seq<bytes>)
    requires !k.raw && ch != 0 && |k.line| < KBDLINE
    ensures var (line, send) := Key(k, ch, last);
            Ed(sent, k.line).Type(ch) == if send || |line| == KBDLINE then Ed(sent + [line], []) else Ed(sent, line)
  {
  }

  lemma ConcatOne(lines: seq<bytes>, line: bytes)
    ensures Concat(lines + [line]) == Concat(lines) + line
  {
    assert (lines + [line])[..|lines|] == lines;
  }

  lemma {:induction false} SentGrows(a: bytes, b: bytes)
    ensures Edit(a).sent <= Edit(a + b).sent
    decreases |b|
  {
    if b == [] {
      assert a + b == a;
    } else {
      var n := |b| - 1;
      assert (a + b)[..|a + b| - 1] == a + b[..n];
      SentGrows(a, b[..n]);
    }
  }

  lemma TypedKeeps(s: Sys, keys: bytes)
    requires Inv(s) && 0 !in keys
    ensures Inv(Step(s, Typed(keys)))
  {
    assert (s.typed + keys)[..s.taken] == s.typed[..s.taken];
    assert (s.typed + keys)[s.taken..] == s.typed[s.taken..] + keys;
  }

  /** The lines the keys taken come to. */
  function Sent(s: Sys): seq<bytes>
    requires s.taken <= |s.typed|
  {
    Edit(s.typed[..s.taken]).sent
  }

  lemma DisciplineKeeps(s: Sys)
    requires Inv(s)
    ensures Inv(Discipline(s))
    ensures Discipline(s).k.lineq == [] ==> Discipline(s).taken == |s.typed|
  {
    var taken := LinediscEdits(s.k, s.typed, s.taken, Delivered(s.got));
    hide Linedisc, Edit, Tail, Inside, Concat;
    var s' := Discipline(s);
    assert s'.taken == taken;
    assert s.typed[..taken] == s.typed[..s.taken] + s.typed[s.taken..taken];
    SentGrows(s.typed[..s.taken], s.typed[s.taken..taken]);
    StillInside(s, s');
  }

  lemma TakeKeeps(s: Sys, n: nat)
    requires Inv(s)
    ensures Inv(Take(s, n))
  {
    hide Edit, Tail, Inside, Concat, Delivered;
    var s', r := Take(s, n), TakeLine(s.k, n).1;
    if r.Some? {
      ReadInside(s.k, Sent(s), n);
      Delivers(s.got, s'.got[|s.got|]);
      GivenSplit(Delivered(s.got), r.value, s'.k.lineq, s.k.lineq);
      StillInside(s, s');
      assert s'.got == s.got + [s'.got[|s.got|]];
    }
  }

  lemma GivenSplit(given: bytes, data: bytes, left: bytes, lineq: bytes)
    requires data + left == lineq
    ensures given + data + left == given + lineq
  {
  }

  lemma ReadKeeps(s: Sys, n: nat)
    requires Inv(s)
    ensures Inv(Step(s, Read(n)))
  {
    hide Inv;
    DisciplineKeeps(s);
    TakeKeeps(Discipline(s), n);
  }

  lemma Delivers(got: seq<Got>, g: Got)
    ensures Delivered(got + [g]) == Delivered(got) + g.data
  {
    assert (got + [g])[..|got|] == got;
  }

  lemma StillInside(s: Sys, s': Sys)
    requires s.taken <= |s.typed| && s'.taken <= |s'.typed| && Sent(s) <= Sent(s') && s.got <= s'.got
    requires forall i :: 0 <= i < |s.got| ==> Inside(s.got[i], Sent(s))
    ensures forall i :: 0 <= i < |s.got| ==> Inside(s'.got[i], Sent(s'))
  {
    hide Edit;
    forall i | 0 <= i < |s.got|
      ensures Inside(s'.got[i], Sent(s'))
    {
      assert s'.got[i] == s.got[i] && Inside(s.got[i], Sent(s));
    }
  }

  /** A read takes the front of what is left of the line, as much as it asks for. */
  lemma ReadInside(k: KbdState, sent: seq<bytes>, n: nat)
    requires Tail(k.lineq, sent) && k.lineq != []
    ensures var (k', r) := TakeLine(k, n);
            && r.Some? && r.value + k'.lineq == k.lineq && Tail(k'.lineq, sent) && sent != [] && |k.lineq| <= |sent[|sent| - 1]|
            && Inside(Got(|sent| - 1, |sent[|sent| - 1]| - |k.lineq|, n, r.value), sent)
  {
  }

  lemma {:induction false} RunKeeps(es: seq<Event>)
    requires forall i :: 0 <= i < |es| ==> Enabled(es[i])
    ensures Inv(Exec(es)) && Exec(es).typed == Keys(es)
  {
    if es != [] {
      var init, e := es[..|es| - 1], es[|es| - 1];
      RunKeeps(init);
      if e.Typed? {
        TypedKeeps(Exec(init), e.keys);
      } else {
        ReadKeeps(Exec(init), e.n);
      }
    }
  }

  lemma {:induction false} ConcatPrefix(a: seq<bytes>, b: seq<bytes>)
    requires a <= b
    ensures Concat(a) <= Concat(b)
  {
    if |a| < |b| {
      ConcatPrefix(a, b[..|b| - 1]);
    } else {
      assert a == b;
    }
  }

  /**
    However the keys were batched and however large the reads: what has been read
    is the front of the lines the keys come to, and all of them once a reader has
    had to wait.
   */
  lemma ChunksDoNotMatter(es: seq<Event>)
    requires forall i :: 0 <= i < |es| ==> Enabled(es[i])
    ensures Delivered(Exec(es).got) <= Concat(Edit(Keys(es)).sent)
    ensures forall n :: Consread(Exec(es).k, n).1.None? ==> Delivered(Exec(es).got) == Concat(Edit(Keys(es)).sent)
  {
    RunKeeps(es);
    var s := Exec(es);
    DeliveredFront(s);
    hide *;
    forall n | Consread(s.k, n).1.None?
      ensures Delivered(s.got) == Concat(Edit(s.typed).sent)
    {
      AllDelivered(s, n);
    }
  }

  lemma DeliveredFront(s: Sys)
    requires Inv(s)
    ensures Delivered(s.got) <= Concat(Edit(s.typed).sent)
  {
    hide Inside, Tail, Edit, Concat, Delivered;
    assert s.typed == s.typed[..s.taken] + s.typed[s.taken..];
    SentGrows(s.typed[..s.taken], s.typed[s.taken..]);
    ConcatPrefix(Edit(s.typed[..s.taken]).sent, Edit(s.typed).sent);
  }

  lemma AllDelivered(s: Sys, n: nat)
    requires Inv(s) && Consread(s.k, n).1.None?
    ensures Delivered(s.got) == Concat(Edit(s.typed).sent)
  {
    DisciplineKeeps(s);
    hide Linedisc, Edit, Concat, Tail, Inside;
    assert s.typed[..|s.typed|] == s.typed;
  }

  /** In every cooked run a read is of one line, and is all that is left of it or as much as was asked for. */
  lemma ReadsInsideOneLine(es: seq<Event>, i: nat)
    requires (forall j :: 0 <= j < |es| ==> Enabled(es[j])) && i < |Exec(es).got|
    ensures Inside(Exec(es).got[i], Edit(Keys(es)).sent)
  {
    RunKeeps(es);
    var s := Exec(es);
    assert s.typed == s.typed[..s.taken] + s.typed[s.taken..];
    SentGrows(s.typed[..s.taken], s.typed[s.taken..]);
  }

  // ---- raw mode, and the end of input

  /** Keys in raw mode go as they come, none of them edited, but for a line's length at a time. */
  lemma {:induction false} RawSends(k: KbdState)
    requires k.raw && k.lineq == [] && k.kbdq != [] && 0 !in k.kbdq && |k.line| < KBDLINE
    ensures var n := if |k.line| + |k.kbdq| < KBDLINE then |k.kbdq| else KBDLINE - |k.line|;
            Linedisc(k) == k.(lineq := k.line + k.kbdq[..n], line := [], kbdq := k.kbdq[n..])
    decreases |k.kbdq|
  {
    var ch := k.kbdq[0];
    var line := k.line + [ch];
    var k' := k.(kbdq := k.kbdq[1..], line := line);
    RawKey(k);
    hide Linedisc, Key;
    if |k.kbdq| > 1 && |line| < KBDLINE {
      RawSends(k');
      var n := if |line| + |k'.kbdq| < KBDLINE then |k'.kbdq| else KBDLINE - |line|;
      RawPart(k.line, k.kbdq, n);
    } else {
      assert k.kbdq[..1] == [ch];
    }
  }

  lemma RawPart(line: bytes, keys: bytes, n: nat)
    requires keys != [] && n < |keys|
    ensures line + [keys[0]] + keys[1..][..n] == line + keys[..n + 1] && keys[1..][n..] == keys[n + 1..]
  {
  }

  /** The first key in raw mode. */
  lemma RawKey(k: KbdState)
    requires k.raw && k.lineq == [] && k.kbdq != [] && 0 !in k.kbdq
    ensures var k' := k.(kbdq := k.kbdq[1..], line := k.line + [k.kbdq[0]]);
            Linedisc(k) == if |k.kbdq| == 1 || |k'.line| == KBDLINE then Sendline(k') else Linedisc(k')
  {
    assert k.kbdq[0] in k.kbdq;
    var k' := k.(kbdq := k.kbdq[1..], line := k.line + [k.kbdq[0]]);
    assert Sendline(k').lineq != [];
  }

  /** Once there is no more to come a read never waits: it takes what is left, a line not ended and all, and then nothing. */
  lemma EofReads(k: KbdState, n: nat)
    requires k.eof && k.kbdq == []
    ensures var (k', r) := Consread(k, n);
            var all := if k.lineq != [] then k.lineq else k.line;
            && r.Some? && r.value == all[..if n < |all| then n else |all|] && k'.lineq == all[|r.value|..]
            && k'.line == (if k.lineq != [] then k.line else []) && k'.kbdq == [] && k'.eof
  {
    assert Linedisc(k).lineq == if k.lineq != [] then k.lineq else k.line;
  }

  /** A key of nothing sends an unfinished line when no more keys follow, and is otherwise passed over. */
  lemma NothingKey(k: KbdState)
    requires k.lineq == [] && k.kbdq != [] && k.kbdq[0] == 0 && |k.line| < KBDLINE
    ensures Linedisc(k) ==
            if k.line != [] && |k.kbdq| == 1 then k.(kbdq := [], lineq := k.line, line := []) else Linedisc(k.(kbdq := k.kbdq[1..]))
  {
    var k' := k.(kbdq := k.kbdq[1..]);
    if k.line != [] && |k.kbdq| == 1 {
      assert k'.kbdq == [] && Linedisc(Sendline(k')) == Sendline(k');
    }
  }

  /**
    An interrupt drops what was typed and not yet sent: the next read has only what
    had been sent, and with nothing sent it waits, unless there is no more to come.
   */
  lemma InterruptDrops(k: KbdState, chars: Option<bytes>, n: nat)
    ensures var k' := Clock(k, chars, true);
            var r := Consread(k', n).1;
            if k.lineq != [] then r == Some(k.lineq[..if n < |k.lineq| then n else |k.lineq|])
            else if k.eof || chars.None? then r == Some([]) else r.None?
  {
    var k' := Clock(k, chars, true);
    assert k.lineq == [] ==> Linedisc(k').lineq == [];
  }

  /** Nothing typed after the end of input is read. */
  lemma NothingAfterEof(k: KbdState, chars: Option<bytes>, interrupt: bool)
    requires k.eof
    ensures Clock(k, chars, interrupt) == Clock(k, None, interrupt)
  {
  }
}
