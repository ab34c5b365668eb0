/**
  What every run of the pipe device carries. A log is kept beside the run: the
  pieces each queue was given, each with the write it came from; what has left
  the queue, read or dropped by a close; and how each write ended.
 */
module PipeStream {
  import opened Bytes
  import opened ProcTable
  import opened Qio
  import opened QueueWakeup
  import opened QueueStream
  import opened QueueAnswers
  import opened PipeSystem

  datatype Piece = Piece(id: nat, data: bytes)

  /** Bytes that left a queue: `from` where in which piece the run of them begins, and how many were asked for. */
  datatype Taken = Taken(dropped: bool, piece: nat, from: nat, want: nat, data: bytes)

  /** `head` and `off` are where the next byte to leave is: in which piece, and how far in. */
  datatype Hist = Hist(queued: seq<Piece>, head: nat, off: nat, out: seq<Taken>)

  /** A write that is over: whether, when it was last entered, its process had a note and its queue was closed. */
  datatype Finished = Finished(k: Qk, data: bytes, res: Result<nat>, noted: bool, hung: bool)

  datatype Log = Log(hs: map<Qk, Hist>, over: map<nat, Finished>)

  /** Every byte a queue was given, in order. */
  function Stream(ps: seq<Piece>): bytes {
    if ps == [] then [] else Stream(ps[..|ps| - 1]) + ps[|ps| - 1].data
  }

  /** Every byte that has left it, in order. */
  function Departed(ts: seq<Taken>): bytes {
    if ts == [] then [] else Departed(ts[..|ts| - 1]) + ts[|ts| - 1].data
  }

  /** The pieces of one write, in order. */
  function Parts(ps: seq<Piece>, id: nat): seq<bytes> {
    if ps == [] then
      []
    else
      var last := ps[|ps| - 1];
      Parts(ps[..|ps| - 1], id) + if last.id == id then [last.data] else []
  }

  function Tag(bs: seq<Block>, id: nat): (r: seq<Piece>)
    ensures |r| == |bs|
    ensures forall i :: 0 <= i < |r| ==> r[i] == Piece(id, bs[i].data)
  {
    seq(|bs|, i requires 0 <= i < |bs| => Piece(id, bs[i].data))
  }

  const NoHist := Hist([], 0, 0, [])

  /** A read of up to `n` bytes, which took `b`. */
  function Advance(h: Hist, n: nat, b: bytes): Hist {
    if h.head >= |h.queued| then
      h
    else
      var h := h.(out := h.out + [Taken(false, h.head, h.off, n, b)]);
      if h.off + |b| >= |h.queued[h.head].data| then h.(head := h.head + 1, off := 0) else h.(off := h.off + |b|)
  }

  function Drop(h: Hist, rest: bytes): Hist {
    h.(out := h.out + [Taken(true, h.head, h.off, |rest|, rest)], head := |h.queued|, off := 0)
  }

  function Over(s: Sys, pid: Pid, call: Call, res: Result<nat>): Finished
    requires call.Writing? && call.k in s.qs
  {
    Finished(call.k, call.data, res, Noted(s.t, pid), s.qs[call.k].closed)
  }

  /** What an entry into `call` adds to the log. */
  function RecordEntry(l: Log, s: Sys, s': Sys, pid: Pid, call: Call, reply: Reply): Log
    requires call.k in s.qs && call.k in s'.qs && call.k in l.hs
  {
    var (k, h) := (call.k, l.hs[call.k]);
    if call.Reading? then
      if reply.GotRead? && reply.read.Ok? && s.qs[k].blocks != [] then
        l.(hs := l.hs[k := Advance(h, call.n, reply.read.value)])
      else
        l
    else
      var added := if |s.qs[k].blocks| <= |s'.qs[k].blocks| then s'.qs[k].blocks[|s.qs[k].blocks|..] else [];
      var l := l.(hs := l.hs[k := h.(queued := h.queued + Tag(added, call.id))]);
      if reply.GotWrite? then l.(over := l.over[call.id := Over(s, pid, call, reply.written)]) else l
  }

  // ---- what the log keeps ----

  /** The queue holds what was put in and has not left: the rest of the piece at `head`, and those after it. */
  ghost predicate Cursor(h: Hist, bs: seq<Block>) {
    && h.head <= |h.queued| && |bs| == |h.queued| - h.head
    && (if h.head < |h.queued| then h.off == 0 || h.off < |h.queued[h.head].data| else h.off == 0)
    && (bs != [] ==> bs[0].data == h.queued[h.head].data[h.off..])
    && (forall i :: 0 < i < |bs| ==> bs[i].data == h.queued[h.head + i].data)
  }

  /** What has left is what was put in, up to the cursor. */
  ghost predicate Passed(h: Hist) {
    && h.head <= |h.queued| && (h.head < |h.queued| ==> h.off <= |h.queued[h.head].data|)
    && Departed(h.out) == Stream(h.queued[..h.head]) + (if h.head < |h.queued| then h.queued[h.head].data[..h.off] else [])
  }

  /** A read lies inside one piece, and is as much of the rest of it as was asked for. */
  predicate Inside(t: Taken, ps: seq<Piece>) {
    && t.piece < |ps| && t.from <= |ps[t.piece].data|
    && t.data == ps[t.piece].data[t.from..t.from + Min(t.want, |ps[t.piece].data| - t.from)]
  }

  ghost predicate HistInv(h: Hist, bs: seq<Block>, nextid: nat) {
    && Cursor(h, bs)
    && Passed(h)
    && (forall i :: 0 <= i < |h.queued| ==> h.queued[i].id < nextid)
    && (forall t :: t in h.out && !t.dropped ==> Inside(t, h.queued))
  }

  ghost predicate WriteInv(h: Hist, a: At, call: Call)
    requires call.Writing?
  {
    !a.Read? && Queued(a) <= |Chunks(call.data)| && Parts(h.queued, call.id) == Chunks(call.data)[..Queued(a)]
  }

  /**
    A write that is over queued all its pieces if it succeeded, and otherwise some
    whole ones from the front; and it failed for a note or a hangup.
   */
  ghost predicate FinishedInv(h: Hist, id: nat, f: Finished) {
    && Parts(h.queued, id) <= Chunks(f.data)
    && (f.res.Ok? ==> f.res.value == |f.data| && Parts(h.queued, id) == Chunks(f.data))
    && (f.res.Err? ==> (f.noted && f.res.error == EINTR) || (f.hung && f.res.error == EHUNGUP))
  }

  ghost predicate HistsInv(l: Log, s: Sys) {
    l.hs.Keys == s.qs.Keys && forall k :: k in s.qs ==> HistInv(l.hs[k], s.qs[k].blocks, s.nextid)
  }

  ghost predicate WritesInv(l: Log, s: Sys) {
    && (forall p :: p in s.calls && s.calls[p].Writing? ==>
          && s.calls[p].k in l.hs && p in s.at
          && s.calls[p].id < s.nextid && s.calls[p].id !in l.over
          && WriteInv(l.hs[s.calls[p].k], s.at[p], s.calls[p]))
    && (forall p, p' :: p in s.calls && p' in s.calls && s.calls[p].Writing? && s.calls[p'].Writing? && p != p' ==>
          s.calls[p].id != s.calls[p'].id)
  }

  ghost predicate OverInv(l: Log, s: Sys) {
    forall id :: id in l.over ==>
      id < s.nextid && l.over[id].k in l.hs && FinishedInv(l.hs[l.over[id].k], id, l.over[id])
  }

  ghost predicate LogInv(l: Log, s: Sys) {
    HistsInv(l, s) && WritesInv(l, s) && OverInv(l, s)
  }

  // ---- lemmas on the streams ----

  lemma PartsFresh(ps: seq<Piece>, id: nat)
    requires forall i :: 0 <= i < |ps| ==> ps[i].id < id
    ensures Parts(ps, id) == []
  {}

  lemma PartsStep(ps: seq<Piece>, p: Piece, x: nat)
    ensures Parts(ps + [p], x) == Parts(ps, x) + if p.id == x then [p.data] else []
  {
    assert (ps + [p])[..|ps|] == ps;
  }

  lemma {:induction false} PartsAdded(ps: seq<Piece>, added: seq<Block>, id: nat, x: nat)
    ensures Parts(ps + Tag(added, id), x) == Parts(ps, x) + if x == id then Datas(added) else []
    decreases |added|
  {
    hide Parts;
    if added == [] {
      assert ps + Tag(added, id) == ps;
    } else {
      var (front, last) := (added[..|added| - 1], added[|added| - 1]);
      PartsAdded(ps, front, id, x);
      PartsStep(ps + Tag(front, id), Piece(id, last.data), x);
      assert Tag(added, id) == Tag(front, id) + [Piece(id, last.data)];
      assert ps + Tag(added, id) == ps + Tag(front, id) + [Piece(id, last.data)];
      assert Datas(added) == Datas(front) + [last.data];
    }
  }

  function Datas(bs: seq<Block>): (r: seq<bytes>)
    ensures |r| == |bs|
    ensures forall i :: 0 <= i < |r| ==> r[i] == bs[i].data
  {
    seq(|bs|, i requires 0 <= i < |bs| => bs[i].data)
  }

  lemma StreamStep(ps: seq<Piece>, n: nat)
    requires n < |ps|
    ensures Stream(ps[..n + 1]) == Stream(ps[..n]) + ps[n].data
  {
    assert ps[..n + 1][..n] == ps[..n];
  }

  lemma {:induction false} StreamSplit(ps: seq<Piece>, n: nat, bs: seq<Block>)
    requires n <= |ps| && |bs| == |ps| - n
    requires forall i :: 0 <= i < |bs| ==> bs[i].data == ps[n + i].data
    ensures Stream(ps) == Stream(ps[..n]) + Flat(bs)
    decreases |bs|
  {
    hide Stream;
    if bs == [] {
      assert ps[..n] == ps;
    } else {
      var rest := bs[1..];
      forall i | 0 <= i < |rest| ensures rest[i].data == ps[n + 1 + i].data {
        assert rest[i] == bs[i + 1];
      }
      StreamSplit(ps, n + 1, rest);
      StreamStep(ps, n);
      assert bs[0].data == ps[n].data;
    }
  }

  /** What has left a queue, and then what it holds, is what it was given. */
  lemma JoinAt(a: bytes, p: bytes, off: nat, b: bytes)
    requires off <= |p|
    ensures a + p[..off] + (p[off..] + b) == a + p + b
  {
    assert p == p[..off] + p[off..];
  }

  lemma Conservation(h: Hist, bs: seq<Block>)
    requires Cursor(h, bs) && Passed(h)
    ensures Departed(h.out) + Flat(bs) == Stream(h.queued)
  {
    hide Stream, Departed;
    if bs == [] {
      assert h.queued[..h.head] == h.queued;
      assert Flat(bs) == [];
    } else {
      var p := h.queued[h.head].data;
      var rest := bs[1..];
      forall i | 0 <= i < |rest| ensures rest[i].data == h.queued[h.head + 1 + i].data {
        assert rest[i] == bs[i + 1];
      }
      StreamSplit(h.queued, h.head + 1, rest);
      StreamStep(h.queued, h.head);
      assert Flat(bs) == p[h.off..] + Flat(rest);
      hide Flat, Cursor, Passed;
      JoinAt(Stream(h.queued[..h.head]), p, h.off, Flat(rest));
    }
  }

  lemma DepartedMore(ts: seq<Taken>, t: Taken)
    ensures Departed(ts + [t]) == Departed(ts) + t.data
  {
    assert (ts + [t])[..|ts|] == ts;
  }

  lemma DropKeeps(h: Hist, bs: seq<Block>, nextid: nat)
    requires HistInv(h, bs, nextid)
    ensures HistInv(Drop(h, Flat(bs)), [], nextid)
  {
    hide Stream, Departed, Inside;
    Conservation(h, bs);
    var h' := Drop(h, Flat(bs));
    assert h'.queued[..h'.head] == h.queued;
    DepartedMore(h.out, Taken(true, h.head, h.off, |Flat(bs)|, Flat(bs)));
  }

  lemma CursorPart(h: Hist, bs: seq<Block>, n: nat, alloc: nat)
    requires Cursor(h, bs) && bs != [] && n < |bs[0].data|
    ensures Cursor(h.(off := h.off + n), [Block(bs[0].data[n..], alloc)] + bs[1..])
  {
    var p := h.queued[h.head].data;
    assert p[h.off..][n..] == p[h.off + n..];
  }

  lemma CursorNext(h: Hist, bs: seq<Block>)
    requires Cursor(h, bs) && bs != []
    ensures Cursor(h.(head := h.head + 1, off := 0), bs[1..])
  {
    forall i | 0 <= i < |bs[1..]| ensures bs[1..][i].data == h.queued[h.head + 1 + i].data {
      assert bs[1..][i] == bs[i + 1];
    }
  }

  lemma CursorFront(h: Hist, bs: seq<Block>, n: nat)
    requires Cursor(h, bs) && bs != [] && n <= |bs[0].data|
    ensures h.head < |h.queued| && h.off <= |h.queued[h.head].data|
    ensures |bs[0].data| == |h.queued[h.head].data| - h.off
    ensures bs[0].data[..n] == h.queued[h.head].data[h.off..h.off + n]
  {}

  lemma CursorOut(h: Hist, bs: seq<Block>, out: seq<Taken>)
    requires Cursor(h, bs)
    ensures Cursor(h.(out := out), bs)
  {}

  /** A read of `n` from `bs` that took `b` and left `left` moves the cursor past it. */
  lemma AdvanceCursor(h: Hist, bs: seq<Block>, n: nat, b: bytes, left: seq<Block>)
    requires Cursor(h, bs) && bs != [] && Takes(bs, n, false, b, left)
    ensures Cursor(Advance(h, n, b), left)
    ensures h.head < |h.queued| && h.off <= |h.queued[h.head].data|
    ensures b == h.queued[h.head].data[h.off..h.off + Min(n, |h.queued[h.head].data| - h.off)]
  {
    hide Cursor;
    var first := bs[0];
    var n' := Min(n, |first.data|);
    CursorFront(h, bs, n');
    var h1 := h.(out := h.out + [Taken(false, h.head, h.off, n, b)]);
    CursorOut(h, bs, h1.out);
    if |first.data| > n {
      CursorPart(h1, bs, n, first.alloc);
    } else {
      assert first.data[..n'] == first.data;
      CursorNext(h1, bs);
    }
  }

  lemma AdvancePassed(h: Hist, n: nat, b: bytes)
    requires Passed(h) && h.head < |h.queued|
    requires h.off + |b| <= |h.queued[h.head].data| && b == h.queued[h.head].data[h.off..h.off + |b|]
    ensures Passed(Advance(h, n, b))
  {
    hide Stream, Departed;
    var p := h.queued[h.head].data;
    DepartedMore(h.out, Taken(false, h.head, h.off, n, b));
    assert p[..h.off + |b|] == p[..h.off] + b;
    StreamStep(h.queued, h.head);
    if h.off + |b| >= |p| {
      assert p[..h.off] + b == p;
    }
  }

  lemma AdvanceKeeps(h: Hist, bs: seq<Block>, n: nat, b: bytes, left: seq<Block>, nextid: nat)
    requires HistInv(h, bs, nextid) && bs != [] && Takes(bs, n, false, b, left)
    ensures HistInv(Advance(h, n, b), left, nextid)
  {
    hide Stream, Departed, Cursor, Passed, Takes;
    AdvanceCursor(h, bs, n, b, left);
    AdvancePassed(h, n, b);
  }

  lemma AddKeeps(h: Hist, bs: seq<Block>, added: seq<Block>, id: nat, nextid: nat)
    requires HistInv(h, bs, nextid) && id < nextid
    ensures HistInv(h.(queued := h.queued + Tag(added, id)), bs + added, nextid)
  {
    hide Stream, Departed, Cursor, Inside;
    var ps := h.queued + Tag(added, id);
    AddCursor(h, bs, added, id);
    assert ps[..h.head] == h.queued[..h.head];
    forall t | t in h.out && !t.dropped ensures Inside(t, ps) {
      InsideMore(t, h.queued, Tag(added, id));
    }
  }

  lemma InsideMore(t: Taken, ps: seq<Piece>, more: seq<Piece>)
    requires Inside(t, ps)
    ensures Inside(t, ps + more)
  {}

  lemma AddCursor(h: Hist, bs: seq<Block>, added: seq<Block>, id: nat)
    requires Cursor(h, bs)
    ensures Cursor(h.(queued := h.queued + Tag(added, id)), bs + added)
  {}

  // ---- the log of a run ----

  ghost function Record(l: Log, s: Sys, e: Event, s': Sys, reply: Reply): Log
    requires Fit(s, e) && HistsInv(l, s) && s.qs.Keys <= s'.qs.Keys
  {
    match e
    case Attach =>
      var k := Qk(s.npipes, 0);
      l.(hs := l.hs[k := NoHist][Peer(k) := NoHist])
    case Close(end) =>
      if s.qref[end] <= 1 then l.(hs := l.hs[end := Drop(l.hs[end], Flat(s.qs[end].blocks))]) else l
    case StartRead(pid, end, n) => RecordEntry(l, s, s', pid, Reading(end, n), reply)
    case StartWrite(pid, end, data, mounted, outranks) =>
      RecordEntry(l, s, s', pid, Writing(Peer(end), data, mounted, s.nextid), reply)
    case Resume(pid, outranks) => RecordEntry(l, s, s', pid, s.calls[pid], reply)
    case _ => l
  }

  /** An entry of `pid` into `call`, as the log sees it: the at-records and calls of everybody else stand. */
  ghost predicate EntrySeen(s: Sys, pid: Pid, call: Call, s': Sys, reply: Reply) {
    && call.k in s.qs && call.k in s'.qs && s'.nextid == s.nextid
    && s'.qs == s.qs[call.k := s'.qs[call.k]]
    && (reply == Pending <==> pid in s'.calls)
    && (pid in s'.calls ==> s'.calls == s.calls[pid := call] && pid in s'.at && s'.at == s.at[pid := s'.at[pid]])
    && (pid !in s'.calls ==> s'.calls == Gone(s.calls, pid) && s'.at == Without(s.at, pid))
  }

  lemma EntryIsSeen(s: Sys, pid: Pid, call: Call, outranks: bool)
    requires Inv(s) && Calling(s, pid, call)
    ensures var (s', reply) := Enter(s, pid, call, outranks);
            && EntrySeen(s, pid, call, s', reply)
            && s'.qs[call.k] == Device(s, pid, call, outranks).0.q
            && s'.at == Device(s, pid, call, outranks).0.at
            && (reply != Pending ==> reply == Device(s, pid, call, outranks).1)
  {
    hide QueueInv, CallInv, DeviceDone, Device, ProcInv, RendezInv, Only, Others, Core;
    var c' := Device(s, pid, call, outranks).0;
    var hr, hw := DeviceKeeps(s, pid, call, outranks);
    DeviceSeen(s, pid, call, c', hr, hw);
    LabelFrame(call.k, pid, Ctx(s.qs[call.k], Without(s.at, pid), s.t), c',
               Readers(s.calls[pid := call], call.k), Writers(s.calls[pid := call], call.k));
    DeviceReply(s, pid, call, outranks);
    if pid in c'.at {
      assert s.at[pid := c'.at[pid]] == Without(s.at, pid)[pid := c'.at[pid]];
    }
  }

  lemma DeviceReply(s: Sys, pid: Pid, call: Call, outranks: bool)
    requires Enterable(s, pid, call)
    ensures var reply := Device(s, pid, call, outranks).1; reply != Pending && reply.GotRead? == call.Reading? && reply.GotWrite? == call.Writing?
  {
    hide QreadSpec, QwriteSpec;
  }

  /** A read entry keeps the history of its queue. */
  lemma ReadHist(s: Sys, pid: Pid, call: Call, outranks: bool, h: Hist) returns (h': Hist)
    requires Inv(s) && Calling(s, pid, call) && call.Reading? && HistInv(h, s.qs[call.k].blocks, s.nextid)
    ensures var (s', reply) := Enter(s, pid, call, outranks);
            && call.k in s'.qs && HistInv(h', s'.qs[call.k].blocks, s.nextid)
            && h' == (if reply.GotRead? && reply.read.Ok? && s.qs[call.k].blocks != [] then Advance(h, call.n, reply.read.value) else h)
  {
    hide QueueInv, CallInv, ProcInv, RendezInv, Enter, QreadSpec, HistInv, Advance, Takes, QueuesInv, CallsInv, ProcsInv, Noted, Asleep;
    EntryIsSeen(s, pid, call, outranks);
    InvQueue(s, call.k);
    var (s', reply) := Enter(s, pid, call, outranks);
    var r := ReadCall(pid, call.k.devno, call.k.which, call.n);
    QreadEnds(Ctx(s.qs[call.k], s.at, s.t), r);
    h' := if reply.GotRead? && reply.read.Ok? && s.qs[call.k].blocks != [] then Advance(h, call.n, reply.read.value) else h;
    if s.qs[call.k].blocks != [] && reply.GotRead? && reply.read.Ok? {
      AdvanceKeeps(h, s.qs[call.k].blocks, call.n, reply.read.value, s'.qs[call.k].blocks, s.nextid);
    }
  }

  /** The pieces of a write before and after an entry of it that took it from piece `i` to piece `j`. */
  lemma MoreParts(ps: seq<Piece>, q: QueueState, q': QueueState, data: bytes, id: nat, i: nat, j: nat) returns (added: seq<Block>)
    requires Appended(q, q', data, i, j) && Parts(ps, id) == Chunks(data)[..i]
    ensures q'.blocks == q.blocks + added && q'.blocks[|q.blocks|..] == added
    ensures j <= |Chunks(data)| && Parts(ps + Tag(added, id), id) == Chunks(data)[..j]
    ensures forall x :: x != id ==> Parts(ps + Tag(added, id), x) == Parts(ps, x)
  {
    hide Chunks, Parts;
    var cs := Chunks(data);
    added := AsBlocks(cs[i..j]);
    assert Datas(added) == cs[i..j];
    PartsAdded(ps, added, id, id);
    assert cs[..i] + cs[i..j] == cs[..j];
    forall x | x != id ensures Parts(ps + Tag(added, id), x) == Parts(ps, x) {
      PartsAdded(ps, added, id, x);
    }
  }

  lemma SofarOf(s: Sys, pid: Pid, call: Call)
    requires Calling(s, pid, call) && call.Writing? && pid in s.at
    ensures !s.at[pid].Read? && SofarOk(s.at[pid].sofar, |call.data|)
  {}

  /** A write fails for a note, or a hangup. */
  lemma WhyFailed(c: Ctx, w: WriteCall)
    requires QueueOk(c.q) && (w.pid in c.at ==> !c.at[w.pid].Read? && c.at[w.pid].sofar <= |w.data|)
    ensures var (c', res) := QwriteSpec(c, w);
            && !Dropping(c'.q)
            && (w.pid !in c'.at && res.Err? ==> (Noted(c.t, w.pid) && res.error == EINTR) || (c.q.closed && res.error == EHUNGUP))
  {
    hide QwriteSpec, Noted, Full, NoteEnds;
    QwriteEnds(c, w);
  }

  /** A write entry keeps the history of its queue, and its own place in it. */
  lemma WriteHist(s: Sys, pid: Pid, call: Call, outranks: bool, h: Hist) returns (h': Hist)
    requires Inv(s) && Calling(s, pid, call) && call.Writing? && call.id < s.nextid
    requires HistInv(h, s.qs[call.k].blocks, s.nextid)
    requires Before(s.at, pid) <= |Chunks(call.data)| && Parts(h.queued, call.id) == Chunks(call.data)[..Before(s.at, pid)]
    ensures var (s', reply) := Enter(s, pid, call, outranks);
            && call.k in s'.qs && HistInv(h', s'.qs[call.k].blocks, s.nextid)
            && |s.qs[call.k].blocks| <= |s'.qs[call.k].blocks|
            && h' == h.(queued := h.queued + Tag(s'.qs[call.k].blocks[|s.qs[call.k].blocks|..], call.id))
            && (forall x :: x != call.id ==> Parts(h'.queued, x) == Parts(h.queued, x))
            && (pid in s'.calls ==> pid in s'.at && WriteInv(h', s'.at[pid], call))
            && (pid !in s'.calls ==> reply.GotWrite? && FinishedInv(h', call.id, Over(s, pid, call, reply.written)))
  {
    hide QueueInv, CallInv, ProcInv, RendezInv, Enter, QwriteSpec, HistInv, Chunks, QueuesInv, CallsInv, ProcsInv, Parts, Calling, Inv, QueueStream.Before, QueueStream.Queued, Noted, QueueOk;
    EntryIsSeen(s, pid, call, outranks);
    InvNoblock(s, call.k);
    CallingIs(s, pid, call);
    DeviceReply(s, pid, call, outranks);
    var (s', reply) := Enter(s, pid, call, outranks);
    var w := WriteCall(pid, call.k.devno, call.k.which, call.data, !call.mounted, outranks);
    var c := Ctx(s.qs[call.k], s.at, s.t);
    if pid in s.at {
      SofarOf(s, pid, call);
    }
    var j := QwriteAppends(c, w);
    InvEnd(s, call.k);
    WhyFailed(c, w);
    var added := MoreParts(h.queued, c.q, s'.qs[call.k], call.data, call.id, Before(s.at, pid), j);
    AddKeeps(h, c.q.blocks, added, call.id, s.nextid);
    h' := h.(queued := h.queued + Tag(added, call.id));
  }

  lemma CallingIs(s: Sys, pid: Pid, call: Call)
    requires Calling(s, pid, call)
    ensures Enterable(s, pid, call)
  {
    hide CallInv;
  }

  lemma InvNoblock(s: Sys, k: Qk)
    requires Inv(s) && k in s.qs
    ensures !s.qs[k].noblock
  {
    hide QueueInv, CallInv;
    InvQueue(s, k);
  }

  /** The log an entry leaves is as sound as the one it found. */
  ghost predicate EntryLogged(l: Log, s: Sys, pid: Pid, call: Call, outranks: bool) {
    && Enterable(s, pid, call) && call.k in l.hs
    && var (s', reply) := Enter(s, pid, call, outranks);
       call.k in s'.qs && LogInv(RecordEntry(l, s, s', pid, call, reply), s')
  }

  /** A step that queues nothing keeps every write's place. */
  lemma NothingQueued(l: Log, s: Sys, l': Log, s': Sys)
    requires WritesInv(l, s) && OverInv(l, s)
    requires l'.over == l.over && s'.nextid == s.nextid && l.hs.Keys <= l'.hs.Keys
    requires forall k :: k in l.hs ==> l'.hs[k].queued == l.hs[k].queued
    requires forall p :: p in s'.calls && s'.calls[p].Writing? ==>
               p in s.calls && s.calls[p] == s'.calls[p] && p in s'.at && p in s.at && s'.at[p] == s.at[p]
    ensures WritesInv(l', s') && OverInv(l', s')
  {
    hide WriteInv, FinishedInv;
    forall p | p in s'.calls && s'.calls[p].Writing? ensures WriteInv(l'.hs[s'.calls[p].k], s'.at[p], s'.calls[p]) {
      SameWrite(l.hs[s'.calls[p].k], l'.hs[s'.calls[p].k], s'.at[p], s'.calls[p]);
    }
    forall id | id in l'.over ensures FinishedInv(l'.hs[l'.over[id].k], id, l'.over[id]) {
      SameFinished(l.hs[l'.over[id].k], l'.hs[l'.over[id].k], id, l'.over[id]);
    }
  }

  lemma ReadLog(l: Log, s: Sys, pid: Pid, call: Call, outranks: bool)
    requires Inv(s) && Calling(s, pid, call) && LogInv(l, s) && call.Reading? && call.k in l.hs
    requires WritersRecorded(s)
    ensures EntryLogged(l, s, pid, call, outranks)
  {
    hide Enter, HistInv, Calling, Inv, Advance, Enterable, WritesInv, OverInv;
    CallingIs(s, pid, call);
    EntryIsSeen(s, pid, call, outranks);
    CallingMine(s, pid, call);
    var h' := ReadHist(s, pid, call, outranks, l.hs[call.k]);
    var (s', reply) := Enter(s, pid, call, outranks);
    var l' := RecordEntry(l, s, s', pid, call, reply);
    assert l' == l.(hs := l.hs[call.k := h']);
    ReadQueued(l.hs[call.k], h', call.n, reply);
    ReadHists(l, s, s', call.k, h');
    hide RecordEntry, HistsInv;
    NothingQueued(l, s, l', s');
  }

  lemma ReadHists(l: Log, s: Sys, s': Sys, k: Qk, h': Hist)
    requires HistsInv(l, s) && k in s.qs && k in s'.qs && s'.qs == s.qs[k := s'.qs[k]] && s'.nextid == s.nextid
    requires HistInv(h', s'.qs[k].blocks, s'.nextid)
    ensures HistsInv(l.(hs := l.hs[k := h']), s')
  {
    hide HistInv;
  }

  ghost predicate WritersRecorded(s: Sys) {
    s.at.Keys == s.calls.Keys
  }

  lemma InvRecorded(s: Sys)
    requires Inv(s)
    ensures WritersRecorded(s)
  {
    hide QueuesInv, ProcsInv, CallInv;
  }

  lemma InvKnown(s: Sys, pid: Pid)
    requires Inv(s) && pid in s.calls
    ensures s.calls[pid].k in s.qs
  {
    hide QueuesInv, ProcsInv, CallInv;
  }

  lemma CallingMine(s: Sys, pid: Pid, call: Call)
    requires Calling(s, pid, call)
    ensures pid in s.calls ==> s.calls[pid] == call
  {
    hide CallInv;
  }

  lemma ReadQueued(h: Hist, h': Hist, n: nat, reply: Reply)
    requires h' == h || (reply.GotRead? && reply.read.Ok? && h' == Advance(h, n, reply.read.value))
    ensures h'.queued == h.queued
  {}

  lemma SameWrite(h: Hist, h': Hist, a: At, call: Call)
    requires call.Writing? && WriteInv(h, a, call) && Parts(h'.queued, call.id) == Parts(h.queued, call.id)
    ensures WriteInv(h', a, call)
  {
    hide Parts, Chunks;
  }

  lemma SameFinished(h: Hist, h': Hist, id: nat, f: Finished)
    requires FinishedInv(h, id, f) && Parts(h'.queued, id) == Parts(h.queued, id)
    ensures FinishedInv(h', id, f)
  {
    hide Parts, Chunks;
  }

  /** Which write is being entered: the one its process is in, or one with a number of its own. */
  ghost predicate OwnWrite(l: Log, s: Sys, pid: Pid, call: Call) {
    && call.Writing? && call.id < s.nextid && call.id !in l.over
    && (forall p :: p in s.calls && s.calls[p].Writing? && p != pid ==> s.calls[p].id != call.id)
  }

  /** An entry of a write moves its own place and nobody else's. */
  lemma OneWrite(l: Log, s: Sys, l': Log, s': Sys, pid: Pid, call: Call, reply: Reply)
    requires WritesInv(l, s) && OverInv(l, s) && OwnWrite(l, s, pid, call) && WritersRecorded(s)
    requires EntrySeen(s, pid, call, s', reply) && call.k in l.hs && call.k in l'.hs && l'.hs == l.hs[call.k := l'.hs[call.k]]
    requires forall x :: x != call.id ==> Parts(l'.hs[call.k].queued, x) == Parts(l.hs[call.k].queued, x)
    requires pid in s'.calls ==> l'.over == l.over && WriteInv(l'.hs[call.k], s'.at[pid], call)
    requires pid !in s'.calls ==>
               && reply.GotWrite?
               && l'.over == l.over[call.id := Over(s, pid, call, reply.written)]
               && FinishedInv(l'.hs[call.k], call.id, l'.over[call.id])
    ensures WritesInv(l', s') && OverInv(l', s')
  {
    hide WriteInv, FinishedInv, Parts;
    forall p | p in s'.calls && s'.calls[p].Writing? && p != pid ensures WriteInv(l'.hs[s'.calls[p].k], s'.at[p], s'.calls[p]) {
      SameWrite(l.hs[s'.calls[p].k], l'.hs[s'.calls[p].k], s'.at[p], s'.calls[p]);
    }
    forall id | id in l'.over && id != call.id ensures FinishedInv(l'.hs[l'.over[id].k], id, l'.over[id]) {
      SameFinished(l.hs[l'.over[id].k], l'.hs[l'.over[id].k], id, l'.over[id]);
    }
  }

  lemma WriteLog(l: Log, s: Sys, pid: Pid, call: Call, outranks: bool)
    requires Inv(s) && Calling(s, pid, call) && LogInv(l, s) && OwnWrite(l, s, pid, call)
    requires call.k in l.hs && Before(s.at, pid) <= |Chunks(call.data)|
    requires Parts(l.hs[call.k].queued, call.id) == Chunks(call.data)[..Before(s.at, pid)]
    ensures EntryLogged(l, s, pid, call, outranks)
  {
    hide Enter, HistInv, Calling, Inv, WriteInv, FinishedInv, Parts, Chunks, QueueStream.Before, WritesInv, OverInv, Enterable;
    CallingIs(s, pid, call);
    EntryIsSeen(s, pid, call, outranks);
    InvRecorded(s);
    var h' := WriteHist(s, pid, call, outranks, l.hs[call.k]);
    var (s', reply) := Enter(s, pid, call, outranks);
    var l' := RecordEntry(l, s, s', pid, call, reply);
    assert l'.hs == l.hs[call.k := h'];
    OneWrite(l, s, l', s', pid, call, reply);
  }

  /** A write just begun has queued nothing. */
  lemma FreshWrite(l: Log, s: Sys, k: Qk)
    requires HistsInv(l, s) && k in s.qs
    ensures Parts(l.hs[k].queued, s.nextid) == []
  {
    PartsFresh(l.hs[k].queued, s.nextid);
  }

  lemma MoreIds(l: Log, s: Sys)
    requires LogInv(l, s)
    ensures LogInv(l, s.(nextid := s.nextid + 1))
  {
    hide WriteInv, FinishedInv, Cursor, Passed, Inside;
    var s' := s.(nextid := s.nextid + 1);
    forall k | k in s'.qs ensures HistInv(l.hs[k], s'.qs[k].blocks, s'.nextid) {
      assert HistInv(l.hs[k], s.qs[k].blocks, s.nextid);
    }
  }

  lemma StartWriteLog(l: Log, s: Sys, pid: Pid, k: Qk, data: bytes, mounted: bool, outranks: bool)
    requires Inv(s) && LogInv(l, s) && Idle(s, pid) && k in s.qs
    ensures EntryLogged(l, s.(nextid := s.nextid + 1), pid, Writing(k, data, mounted, s.nextid), outranks)
  {
    hide QueueInv, CallInv, ProcInv, RendezInv, HistInv, Calling, WriteInv, FinishedInv, Parts, Chunks, QueuesInv, EntryLogged;
    var (s1, call) := (s.(nextid := s.nextid + 1), Writing(k, data, mounted, s.nextid));
    MoreIds(l, s);
    FreshWrite(l, s, k);
    CallingOf(s1, pid, call);
    WriteLog(l, s1, pid, call, outranks);
  }

  lemma SameRecord(l: Log, s: Sys, s1: Sys, s': Sys, pid: Pid, call: Call, reply: Reply)
    requires s1.qs == s.qs && s1.t == s.t && call.k in s.qs && call.k in s'.qs && call.k in l.hs
    ensures RecordEntry(l, s, s', pid, call, reply) == RecordEntry(l, s1, s', pid, call, reply)
  {}

  lemma ResumeLog(l: Log, s: Sys, pid: Pid, call: Call, outranks: bool)
    requires Inv(s) && LogInv(l, s) && Enabled(s, Resume(pid, outranks)) && pid in s.calls && call == s.calls[pid]
    ensures EntryLogged(l, s, pid, call, outranks)
  {
    hide QueueInv, CallInv, ProcInv, RendezInv, HistInv, Calling, FinishedInv, Parts, Chunks, QueuesInv, EntryLogged, CallsInv;
    InvRecorded(s);
    InvKnown(s, pid);
    CallingOf(s, pid, call);
    if call.Reading? {
      ReadLog(l, s, pid, call, outranks);
    } else {
      WriteLog(l, s, pid, call, outranks);
    }
  }

  lemma CloseLog(l: Log, s: Sys, end: Qk)
    requires LogInv(l, s) && Fit(s, Close(end)) && WritersRecorded(s)
    requires QueueOk(s.qs[end]) && QueueOk(s.qs[Peer(end)]) && end.which < 2
    ensures LogInv(Record(l, s, Close(end), CloseStep(s, end), NoReply), CloseStep(s, end))
  {
    hide HistInv, Drop, CloseStep, WakeBoth, WritesInv, OverInv, QueueOk;
    var s' := CloseStep(s, end);
    ClosedOk(s, end);
    ClosedBlocks(s, end);
    var h := l.hs[end];
    DropKeeps(h, s.qs[end].blocks, s.nextid);
    DropQueued(h, Flat(s.qs[end].blocks));
    var h' := if s.qref[end] <= 1 then Drop(h, Flat(s.qs[end].blocks)) else h;
    CloseHists(l, s, s', end, h');
    var l' := Record(l, s, Close(end), s', NoReply);
    assert l'.hs == l.hs[end := h'] && l'.over == l.over;
    hide Record, HistsInv;
    NothingQueued(l, s, l', s');
  }

  lemma CloseHists(l: Log, s: Sys, s': Sys, end: Qk, h': Hist)
    requires HistsInv(l, s) && end in s.qs && s'.qs.Keys == s.qs.Keys && s'.nextid == s.nextid
    requires forall k :: k in s.qs && k != end ==> s'.qs[k].blocks == s.qs[k].blocks
    requires HistInv(h', s'.qs[end].blocks, s'.nextid)
    ensures HistsInv(l.(hs := l.hs[end := h']), s')
  {
    hide HistInv;
  }

  lemma DropQueued(h: Hist, rest: bytes)
    ensures Drop(h, rest).queued == h.queued
  {}

  /** A last close empties the end's own queue, and leaves its peer's as it is. */
  lemma ClosedBlocks(s: Sys, end: Qk)
    requires Fit(s, Close(end))
    ensures var s' := CloseStep(s, end);
            && (s.qref[end] <= 1 ==> s'.qs[end].blocks == [] && s'.qs[Peer(end)].blocks == s.qs[Peer(end)].blocks)
  {
    hide WakeBoth;
  }

  lemma AttachLog(l: Log, s: Sys)
    requires Qk(s.npipes, 0) !in s.qs && Qk(s.npipes, 1) !in s.qs && s.at.Keys == s.calls.Keys && LogInv(l, s)
    ensures LogInv(Record(l, s, Attach, AttachStep(s), NoReply), AttachStep(s))
  {
    hide WritesInv, OverInv, HistInv;
    NewHist(s.nextid);
    var l', s' := Record(l, s, Attach, AttachStep(s), NoReply), AttachStep(s);
    assert forall k :: k in l.hs ==> l'.hs[k] == l.hs[k];
    NothingQueued(l, s, l', s');
  }

  lemma AttachFresh(s: Sys)
    requires Inv(s)
    ensures Qk(s.npipes, 0) !in s.qs && Qk(s.npipes, 1) !in s.qs && s.at.Keys == s.calls.Keys
  {
    hide QueuesInv, ProcsInv, CallInv;
  }

  lemma NewHist(nextid: nat)
    ensures HistInv(NoHist, [], nextid)
  {}

  lemma BeginWriteLog(l: Log, s: Sys, e: Event)
    requires Inv(s) && Enabled(s, e) && Fit(s, e) && LogInv(l, s) && e.StartWrite?
    ensures s.qs.Keys <= Apply(s, e).0.qs.Keys
    ensures LogInv(Record(l, s, e, Apply(s, e).0, Apply(s, e).1), Apply(s, e).0)
  {
    hide QueueInv, CallInv, HistInv, QueuesInv, CallsInv, Enter, RecordEntry, Calling, WritesInv, OverInv, Inv;
    var (s1, call) := (s.(nextid := s.nextid + 1), Writing(Peer(e.end), e.data, e.mounted, s.nextid));
    InvKeys(s);
    InvMore(s);
    CallingOf(s1, e.pid, call);
    EntryIsSeen(s1, e.pid, call, e.outranks);
    StartWriteLog(l, s, e.pid, Peer(e.end), e.data, e.mounted, e.outranks);
    SameRecord(l, s, s1, Enter(s1, e.pid, call, e.outranks).0, e.pid, call, Enter(s1, e.pid, call, e.outranks).1);
  }

  /** Every step keeps the log. */
  lemma LogKeeps(l: Log, s: Sys, e: Event)
    requires Inv(s) && Enabled(s, e) && Fit(s, e) && LogInv(l, s)
    ensures s.qs.Keys <= Apply(s, e).0.qs.Keys
    ensures LogInv(Record(l, s, e, Apply(s, e).0, Apply(s, e).1), Apply(s, e).0)
  {
    hide QueueInv, CallInv, HistInv, QueuesInv, CallsInv, Enter, CloseStep, RecordEntry, Calling, WritesInv, OverInv, Inv;
    InvKeys(s);
    match e
    case Attach =>
      AttachFresh(s);
      AttachLog(l, s);
    case Close(end) =>
      InvEnd(s, end);
      ClosedOk(s, end);
      CloseLog(l, s, end);
    case StartRead(pid, end, n) =>
      CallingOf(s, pid, Reading(end, n));
      EntryIsSeen(s, pid, Reading(end, n), false);
      ReadLog(l, s, pid, Reading(end, n), false);
    case StartWrite(pid, end, data, mounted, outranks) => BeginWriteLog(l, s, e);
    case Resume(pid, outranks) =>
      CallingOf(s, pid, s.calls[pid]);
      EntryIsSeen(s, pid, s.calls[pid], outranks);
      ResumeLog(l, s, pid, s.calls[pid], outranks);
    case Open(end) => NothingQueued(l, s, l, Apply(s, e).0);
    case Note(pid) => NothingQueued(l, s, l, Apply(s, e).0);
    case Elsewhere(pid, rec) => NothingQueued(l, s, l, Apply(s, e).0);
  }

  lemma InvKeys(s: Sys)
    requires Inv(s)
    ensures s.at.Keys == s.calls.Keys && s.qref.Keys == s.qs.Keys && WritersRecorded(s)
  {
    hide QueuesInv, ProcsInv, CallInv;
  }

  lemma InvEnd(s: Sys, end: Qk)
    requires Inv(s) && end in s.qs
    ensures QueueOk(s.qs[end]) && Peer(end) in s.qs && QueueOk(s.qs[Peer(end)]) && end.which < 2
  {
    hide QueueInv, CallInv, QueueOk;
    InvQueue(s, end);
    InvQueue(s, Peer(end));
  }

  lemma InvMore(s: Sys)
    requires Inv(s)
    ensures Inv(s.(nextid := s.nextid + 1))
  {
    hide QueuesInv, CallsInv;
  }

  /** The log of a run. */
  ghost function Trace(qsize: nat, es: seq<Event>): (l: Log)
    requires qsize >= 2 && Exec(qsize, es).Some?
    ensures LogInv(l, Exec(qsize, es).value)
  {
    if es == [] then
      Log(map[], map[])
    else
      var (front, e) := (es[..|es| - 1], es[|es| - 1]);
      var (l, s) := (Trace(qsize, front), Exec(qsize, front).value);
      InvFit(s, e);
      LogKeeps(l, s, e);
      Record(l, s, e, Apply(s, e).0, Apply(s, e).1)
  }

  // ---- what a pipe promises ----

  /** In every run, what has left a queue followed by what is in it is what was put into it: nothing lost, twice or out of order. */
  lemma ExactlyOnce(qsize: nat, es: seq<Event>, k: Qk)
    requires qsize >= 2 && Exec(qsize, es).Some? && k in Exec(qsize, es).value.qs
    ensures k in Trace(qsize, es).hs
    ensures Departed(Trace(qsize, es).hs[k].out) + Flat(Exec(qsize, es).value.qs[k].blocks) == Stream(Trace(qsize, es).hs[k].queued)
  {
    hide Exec, Trace, Inv, WritesInv, OverInv, Cursor, Passed, Inside;
    Conservation(Trace(qsize, es).hs[k], Exec(qsize, es).value.qs[k].blocks);
  }

  /** In every run, what a read took is of one piece, and is all that was left of it or as much as was asked for. */
  lemma ReadsInsideOnePiece(qsize: nat, es: seq<Event>, k: Qk, t: Taken)
    requires qsize >= 2 && Exec(qsize, es).Some? && k in Exec(qsize, es).value.qs
    requires k in Trace(qsize, es).hs && t in Trace(qsize, es).hs[k].out && !t.dropped
    ensures Inside(t, Trace(qsize, es).hs[k].queued)
  {
    hide Exec, Trace, Inv, WritesInv, OverInv, Cursor, Passed, Inside;
    assert HistInv(Trace(qsize, es).hs[k], Exec(qsize, es).value.qs[k].blocks, Exec(qsize, es).value.nextid);
  }

  /**
    In every run, whatever it waited for on the way, a write that answered
    success put exactly the pieces of its data in the queue, in order, and one
    that failed put some of them, whole and from the front, and failed because its
    process had a note or the queue was closed.
   */
  lemma WritesArePieces(qsize: nat, es: seq<Event>, id: nat)
    requires qsize >= 2 && Exec(qsize, es).Some? && id in Trace(qsize, es).over
    ensures var l := Trace(qsize, es);
            var f := l.over[id];
            && f.k in l.hs
            && Parts(l.hs[f.k].queued, id) <= Chunks(f.data)
            && (f.res.Ok? ==> f.res == Ok(|f.data|) && Parts(l.hs[f.k].queued, id) == Chunks(f.data)
                              && Concat(Parts(l.hs[f.k].queued, id)) == f.data)
            && (f.res.Err? ==> (f.noted && f.res.error == EINTR) || (f.hung && f.res.error == EHUNGUP))
  {
    hide Exec, Trace, Inv, WritesInv, HistsInv, Chunks, Parts;
    ChunksConcat(Trace(qsize, es).over[id].data);
  }
}
