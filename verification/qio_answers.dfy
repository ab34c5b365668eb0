/**
  How each entry of a read and of a write ends: who waits and for what, what a
  call answers and how much of it, and when it may fail. Nothing here is said in
  terms of how the entry goes about it.
 */
module QueueAnswers {
  import opened Bytes
  import opened ProcTable
  import opened Qio

  predicate Noted(t: Table, pid: Pid) {
    pid in t.tab && t.tab[pid].notepending
  }

  /** Waiting at `r`, and to be found there. */
  predicate Asleep(t: Table, pid: Pid, r: Rid) {
    && r in t.rr && t.rr[r] == pid
    && (pid in t.tab ==> t.tab[pid].state == Wakeme && t.tab[pid].r == Some(r))
  }

  predicate SameNote(c: Ctx, c': Ctx, pid: Pid) {
    Noted(c'.t, pid) == Noted(c.t, pid)
  }

  lemma UnlockNotes(t: Table, l: QLock, pid: Pid)
    ensures Noted(t.Qunlock(l).0, pid) == Noted(t, pid)
  {
  }

  lemma WokenNotes(t: Table, r: Rid, pid: Pid)
    ensures Noted(t.Wakeup(r).0, pid) == Noted(t, pid)
  {
  }

  // ---- reads

  /** The number of blocks before the first with anything in it. */
  function Empties(bs: seq<Block>): (i: nat)
    ensures i <= |bs| && (i < |bs| ==> bs[i].data != []) && forall j :: 0 <= j < i ==> bs[j].data == []
  {
    if bs == [] || bs[0].data != [] then 0 else 1 + Empties(bs[1..])
  }

  /** What a read looks at: coalescing, blocks of nothing at the front just go away. */
  function Facing(q: QueueState): seq<Block> {
    if q.coalesce then q.blocks[Empties(q.blocks)..] else q.blocks
  }

  /**
    `b` is what a read of up to `n` bytes takes from `bs`, and `left` is what it
    leaves: all of the first block that fits; and, coalescing, if all of it did,
    then whole blocks after it up to the first that does not fit.
   */
  ghost predicate Takes(bs: seq<Block>, n: nat, coalesce: bool, b: bytes, left: seq<Block>)
    requires bs != []
  {
    var first := bs[0];
    if n < |first.data| then
      b == first.data[..n] && left == [Block(first.data[n..], first.alloc)] + bs[1..]
    else if !coalesce then
      b == first.data && left == bs[1..]
    else
      exists k :: 1 <= k <= |bs| && TakesWhole(bs, n, k, b, left)
  }

  ghost predicate TakesWhole(bs: seq<Block>, n: nat, k: nat, b: bytes, left: seq<Block>)
    requires k <= |bs|
  {
    && b == Flat(bs[..k]) && |b| <= n && left == bs[k..]
    && (k < |bs| ==> |b| + |bs[k].data| > n)
  }

  /** What is taken and what is left are what there was. */
  lemma TakesFlat(bs: seq<Block>, n: nat, b: bytes, left: seq<Block>)
    requires bs != [] && Takes(bs, n, false, b, left)
    ensures b + Flat(left) == Flat(bs)
  {
    var first := bs[0];
    if n < |first.data| {
      assert left[1..] == bs[1..];
      assert first.data == first.data[..n] + first.data[n..];
      assert first.data[..n] + (first.data[n..] + Flat(bs[1..])) == first.data + Flat(bs[1..]);
    }
  }

  lemma {:induction false} SkipsEmpties(q: QueueState)
    requires q.Valid()
    ensures SkipEmpty(q) == q.(blocks := q.blocks[Empties(q.blocks)..], len := SkipEmpty(q).len) && SkipEmpty(q).len <= q.len
    decreases |q.blocks|
  {
    if q.blocks != [] && q.blocks[0].data == [] {
      DropValid(q);
      SkipOne(q);
      var q1 := q.(blocks := q.blocks[1..], len := q.len - q.blocks[0].alloc);
      SkipsEmpties(q1);
      assert q.blocks[1..][Empties(q1.blocks)..] == q.blocks[Empties(q.blocks)..];
    }
  }

  lemma FrontTakes(q: QueueState, n: nat)
    requires q.Valid() && q.blocks != []
    ensures var (b, q') := TakeFirst(q, n); Takes(q.blocks, n, false, b, q'.blocks) && q' == q.(blocks := q'.blocks, len := q'.len)
  {
  }

  lemma FlatFirst(bs: seq<Block>, k: nat)
    requires 1 <= k <= |bs|
    ensures Flat(bs[..k]) == bs[0].data + Flat(bs[1..][..k - 1])
  {
    assert bs[..k][1..] == bs[1..][..k - 1];
  }

  /** Where the first block fits, the loop takes whole blocks. */
  lemma {:induction false} LoopTakes(q: QueueState, n: nat, got: bytes) returns (k: nat)
    requires q.Valid() && q.blocks != [] && q.coalesce && |got| + |q.blocks[0].data| <= n
    ensures 1 <= k <= |q.blocks|
    ensures var (b, q') := TakeSpec(q, n, got);
            && b == got + Flat(q.blocks[..k]) && |b| <= n && q'.blocks == q.blocks[k..]
            && (k < |q.blocks| ==> |b| + |q.blocks[k].data| > n)
    decreases |q.blocks|
  {
    hide SumAlloc, Flat;
    var (b, q1) := TakeFirst(q, n - |got|);
    assert b == q.blocks[0].data && q1.blocks == q.blocks[1..];
    var got1 := got + b;
    if q1.blocks == [] || |got1| + |q1.blocks[0].data| > n {
      k := 1;
      FlatFirst(q.blocks, 1);
      FlatNone();
    } else {
      var k1 := LoopTakes(q1, n, got1);
      k := k1 + 1;
      FlatFirst(q.blocks, k);
      assert got1 + Flat(q1.blocks[..k1]) == got + (b + Flat(q1.blocks[..k1]));
    }
  }

  lemma FlatNone()
    ensures Flat([]) == []
  {
  }

  lemma ReadTakes(q: QueueState, n: nat)
    requires q.Valid() && q.blocks != []
    ensures var (b, q') := TakeSpec(q, n, []); Takes(q.blocks, n, q.coalesce, b, q'.blocks)
  {
    hide SumAlloc, Flat;
    var (b, q') := TakeSpec(q, n, []);
    if |q.blocks[0].data| <= n && q.coalesce {
      var k := LoopTakes(q, n, []);
      assert TakesWhole(q.blocks, n, k, b, q'.blocks);
    } else {
      FrontTakes(q, n);
      assert [] + TakeFirst(q, n).0 == TakeFirst(q, n).0;
    }
  }

  /** What no read or write changes. */
  predicate Kept(q: QueueState, q': QueueState) {
    && q'.closed == q.closed && q'.err == q.err && q'.limit == q.limit && q'.inilim == q.inilim
    && q'.coalesce == q.coalesce && q'.noblock == q.noblock
  }

  /** Nothing of what is queued or counted is changed. */
  predicate Untouched(q: QueueState, q': QueueState) {
    q'.blocks == q.blocks && q'.len == q.len && q'.eof == q.eof
  }

  /**
    How an entry of a read ends. A newcomer waits in line if somebody has the
    lock; a note ends a sleep; otherwise it has the lock and is served.
   */
  ghost predicate ReadEnds(c: Ctx, r: ReadCall, out: (Ctx, Result<bytes>)) {
    var (c', res) := out;
    if r.pid !in c.at && c.q.rlock.locked then
      && r.pid in c'.at && c'.at[r.pid] == Read(false) && res == Ok([]) && SameNote(c, c', r.pid)
      && Kept(c.q, c'.q) && Untouched(c.q, c'.q) && c'.q.rlock.q == c.q.rlock.q + [r.pid]
    else if r.pid in c.at && c.at[r.pid] == Read(true) && Noted(c.t, r.pid) then
      && r.pid !in c'.at && res == Err(EINTR) && !Noted(c'.t, r.pid)
      && Kept(c.q, c'.q) && Untouched(c.q, c'.q)
    else
      Served(c, r, out)
  }

  /**
    The read answers from what is queued, as much as it asked for or as there is to
    take; with nothing queued it is one more empty read if the queue is closed, and
    if it is open the process sleeps, unless a note is pending.
   */
  ghost predicate Served(c: Ctx, r: ReadCall, out: (Ctx, Result<bytes>)) {
    var (c', res) := out;
    var (q, q') := (c.q, c'.q);
    && Kept(q, q') && q'.len <= q.len
    && if Facing(q) != [] then
         && r.pid !in c'.at && res.Ok? && Takes(Facing(q), r.n, q.coalesce, res.value, q'.blocks)
         && q'.eof == q.eof && SameNote(c, c', r.pid)
       else if q.closed then
         && r.pid !in c'.at && q'.blocks == [] && q'.eof == q.eof + 1 && SameNote(c, c', r.pid)
         && res == if q.eof < 3 && q.err == EHUNGUP then Ok([]) else Err(q.err)
       else if Noted(c.t, r.pid) then
         r.pid !in c'.at && q'.blocks == [] && q'.eof == q.eof && res == Err(EINTR) && !Noted(c'.t, r.pid)
       else
         && r.pid in c'.at && c'.at[r.pid] == Read(true) && res == Ok([]) && SameNote(c, c', r.pid)
         && q'.blocks == [] && q'.eof == q.eof && q'.starve && Asleep(c'.t, r.pid, Rr(r.devno, r.which))
  }

  /** Holding the lock, with the blocks of nothing gone: what `c0` comes to before the read is served. */
  ghost predicate Faced(c0: Ctx, c: Ctx, r: ReadCall) {
    && c.q.Valid() && c.q.blocks == Facing(c0.q) && c.q.len <= c0.q.len && c.q.eof == c0.q.eof && Kept(c0.q, c.q)
    && r.pid !in c.at && SameNote(c0, c, r.pid)
  }

  lemma EmptyEnds(c0: Ctx, c: Ctx, r: ReadCall)
    requires Faced(c0, c, r) && c.q.blocks == []
    ensures Served(c0, r, ReadEmpty(c, r))
  {
    var t := c.t.Sleep(r.pid, Rr(r.devno, r.which), false).0.Interrupted(r.pid).0;
    UnlockNotes(c.t, c.q.rlock, r.pid);
    UnlockNotes(t, c.q.rlock, r.pid);
    hide ProcTable.Table.Qunlock, Facing, SumAlloc;
  }

  lemma TakeEnds(c0: Ctx, c: Ctx, r: ReadCall)
    requires Faced(c0, c, r) && c.q.blocks != []
    ensures Served(c0, r, ReadTake(c, r))
  {
    ReadTakes(c.q, r.n);
    WokenNotes(c.t, Wr(r.devno, r.which), r.pid);
    UnlockNotes(c.t, c.q.rlock, r.pid);
    UnlockNotes(c.t.Wakeup(Wr(r.devno, r.which)).0, c.q.rlock, r.pid);
    hide Noted, ProcTable.Table.Qunlock, ProcTable.Table.Wakeup, Takes, SumAlloc, Flat, Facing;
  }

  lemma AgainEnds(c0: Ctx, c: Ctx, r: ReadCall)
    requires c0.q.Valid() && c.q == c0.q.(rlock := c.q.rlock) && r.pid !in c.at && SameNote(c0, c, r.pid)
    ensures Served(c0, r, ReadAgain(c, r))
  {
    SkipsEmpties(c.q);
    var c1 := if c.q.coalesce then c.(q := SkipEmpty(c.q)) else c;
    assert Faced(c0, c1, r);
    hide Faced, Served, ReadEmpty, ReadTake;
    if c1.q.blocks == [] {
      EmptyEnds(c0, c1, r);
    } else {
      TakeEnds(c0, c1, r);
    }
  }

  /** One entry of a read of any queue, from wherever it was. */
  lemma QreadEnds(c: Ctx, r: ReadCall)
    requires c.q.Valid()
    ensures ReadEnds(c, r, QreadSpec(c, r))
  {
    if r.pid in c.at {
      if c.at[r.pid] == Read(true) && Noted(c.t, r.pid) {
        SleepEnded(c, r);
      } else {
        ResumedEnds(c, r);
      }
    } else if c.q.rlock.locked {
      LineEnds(c, r);
    } else {
      var c1 := Ctx(c.q.(rlock := c.q.rlock.(locked := true)), Without(c.at, r.pid), c.t);
      assert QreadSpec(c, r) == ReadAgain(c1, r) by { hide ReadAgain; }
      hide QreadSpec, Served;
      AgainEnds(c, c1, r);
    }
  }

  lemma SleepEnded(c: Ctx, r: ReadCall)
    requires c.q.Valid() && r.pid in c.at && c.at[r.pid] == Read(true) && Noted(c.t, r.pid)
    ensures ReadEnds(c, r, QreadSpec(c, r))
  {
    UnlockNotes(c.t.Interrupted(r.pid).0, c.q.rlock, r.pid);
    hide ReadAgain, Served, ProcTable.Table.Qunlock;
  }

  lemma ResumedEnds(c: Ctx, r: ReadCall)
    requires c.q.Valid() && r.pid in c.at && !(c.at[r.pid] == Read(true) && Noted(c.t, r.pid))
    ensures ReadEnds(c, r, QreadSpec(c, r))
  {
    var c0 := c.(at := Without(c.at, r.pid));
    var (t, noted) := c.t.Interrupted(r.pid);
    assert noted == Noted(c.t, r.pid) && (!noted ==> !Noted(t, r.pid));
    hide ReadAgain, Served, Noted, ProcTable.Table.Interrupted;
    AgainEnds(c, if c.at[r.pid] == Read(true) then c0.(t := t) else c0, r);
  }

  lemma LineEnds(c: Ctx, r: ReadCall)
    requires c.q.Valid() && r.pid !in c.at && c.q.rlock.locked
    ensures ReadEnds(c, r, QreadSpec(c, r))
  {
    hide ReadAgain, Served;
  }

  /** `consume` takes from the first block with anything in it, and says when a writer waiting for room is to be woken. */
  lemma ConsumeEnds(q: QueueState, n: nat)
    requires q.Valid()
    ensures var (q', got, wake) := ConsumeSpec(q, n);
            var bs := q.blocks[Empties(q.blocks)..];
            && Kept(q, q')
            && (if bs == [] then got == None && q'.blocks == [] && q'.starve
                else got.Some? && Takes(bs, n, false, got.value, q'.blocks) && q'.starve == q.starve)
            && (wake <==> bs != [] && q.flow && q'.len < q'.limit / 2)
            && q'.flow == (q.flow && !wake)
  {
    SkipsEmpties(q);
    hide Takes, Empties, Flat, SumAlloc;
    var q1 := SkipEmpty(q);
    if q1.blocks != [] {
      FrontTakes(q1, n);
    }
  }

  // ---- writes

  /**
    How an entry of a write ends. It has left only to wait in line for a lock that
    others had, or asleep with the queue open, blocking and at its limit, or to
    let a starving reader that it woke and that outranks it run; success is all
    of the data, with room or nobody to wait for it; and it fails only for a note
    that was pending, which is taken, or because the queue is closed, and then its
    process has the device's note if the device posts one.
   */
  ghost predicate WriteEnds(c: Ctx, w: WriteCall, out: (Ctx, Result<nat>)) {
    var (c', res) := out;
    var (q, q') := (c.q, c'.q);
    && Kept(q, q') && q'.eof == q.eof
    && (if w.pid in c'.at then
          && res == Ok(0)
          && match c'.at[w.pid] {
               case Wlock(_) => q'.wlock.locked && w.pid in q'.wlock.q && (q.wlock.q != [] || (w.pid !in c.at && q.wlock.locked))
               case Flow(_, slept) =>
                 if slept then !Noted(c.t, w.pid) && Full(q') && q'.flow && Asleep(c'.t, w.pid, Wr(w.devno, w.which))
                 else w.outranks && q.starve && !q'.starve
               case Read(_) => false
             }
        else if res.Ok? then
          res.value == |w.data| && !Full(q')
        else
          || (q.closed && res.error == q.err)
          || (Noted(c.t, w.pid) && res.error == EINTR && (NoteEnds(c, w) || Full(q'))))
    && (NoteEnds(c, w) ==> w.pid !in c'.at && res == Err(EINTR) && Untouched(q, q'))
    && (res.Ok? ==> SameNote(c, c', w.pid))
    && (res.Err? && w.failnote && w.pid in c.t.tab ==> Noted(c'.t, w.pid))
    && (res.Err? && !w.failnote && Noted(c'.t, w.pid) ==> Noted(c.t, w.pid) && q.closed)
  }

  /** A writer is to wait. */
  predicate Full(q: QueueState) {
    !q.noblock && !q.closed && q.len >= q.limit
  }

  /** A note came to a writer asleep. */
  predicate NoteEnds(c: Ctx, w: WriteCall) {
    w.pid in c.at && c.at[w.pid].Flow? && c.at[w.pid].slept && Noted(c.t, w.pid)
  }

  /** Between pieces: `c` is what the entry has come to from `c0`. */
  ghost predicate Midway(c0: Ctx, c: Ctx, w: WriteCall) {
    && !NoteEnds(c0, w) && Kept(c0.q, c.q) && c.q.eof == c0.q.eof && w.pid !in c.at
    && Noted(c.t, w.pid) == Noted(c0.t, w.pid) && c.t.tab.Keys == c0.t.tab.Keys
    && (c.q.starve ==> c0.q.starve)
    && (c.q.wlock.q != [] ==> c0.q.wlock.q != [])
  }

  lemma HeldEnds(c0: Ctx, c: Ctx, w: WriteCall, sofar: nat)
    requires Midway(c0, c, w) && sofar <= |w.data|
    ensures WriteEnds(c0, w, WriteHeld(c, w, sofar))
    decreases |w.data| - sofar, 2
  {
    PieceEnds(c0, c, w, sofar);
    hide QueuePiece, WriteFlow, WriteNext, WriteEnds, Midway;
    var (c1, o) := QueuePiece(c, w, sofar);
    if o == ToFlow {
      FlowEnds(c0, c1, w, sofar);
    } else if o == ToNext {
      NextEnds(c0, c1, w, sofar);
    }
  }

  lemma PieceEnds(c0: Ctx, c: Ctx, w: WriteCall, sofar: nat)
    requires Midway(c0, c, w) && sofar <= |w.data|
    ensures var (c1, o) := QueuePiece(c, w, sofar);
            && (o == ToFlow ==> Midway(c0, c1, w))
            && (o == ToNext ==> LetGo(c0, c1, w) && !Full(c1.q))
            && (o.Over? ==> WriteEnds(c0, w, (c1, o.res)))
  {
    if c.q.closed {
      FailEnds(c0, c, w, c.q.err);
      hide WriteFail;
    } else if c.q.len >= c.q.limit && c.q.noblock {
      UnlockEnds(c0, c, w);
      hide WriteEnds;
    } else {
      PushEnds(c0, c, w, sofar);
    }
  }

  lemma PushEnds(c0: Ctx, c: Ctx, w: WriteCall, sofar: nat)
    requires Midway(c0, c, w) && sofar <= |w.data| && !c.q.closed && !(c.q.len >= c.q.limit && c.q.noblock)
    ensures var (c1, o) := QueuePiece(c, w, sofar);
            && (o == ToFlow ==> Midway(c0, c1, w))
            && (o.Over? ==> WriteEnds(c0, w, (c1, o.res)))
            && o != ToNext
  {
    WokenNotes(c.t, Rr(w.devno, w.which), w.pid);
    assert c.t.Wakeup(Rr(w.devno, w.which)).0.tab.Keys == c.t.tab.Keys;
    hide ProcTable.Table.Wakeup, Balloc, Full, Asleep;
  }

  /** The lock let go: if it is not free, others were in line for it. */
  ghost predicate LetGo(c0: Ctx, c: Ctx, w: WriteCall) {
    Midway(c0, c, w) && (c.q.wlock.locked ==> c0.q.wlock.q != [])
  }

  lemma UnlockEnds(c0: Ctx, c: Ctx, w: WriteCall)
    requires Midway(c0, c, w)
    ensures LetGo(c0, c.WUnlock(), w) && c.WUnlock().q == c.q.(wlock := c.WUnlock().q.wlock)
  {
  }

  lemma NotePosted(t: Table, pid: Pid)
    requires pid in t.tab
    ensures Noted(t.Postnote(pid), pid)
  {
  }

  lemma FailEnds(c0: Ctx, c: Ctx, w: WriteCall, e: string)
    requires Kept(c0.q, c.q) && w.pid !in c.at
    ensures var (c', res) := WriteFail(c, w, e);
            && w.pid !in c'.at && res == Err(e) && Kept(c0.q, c'.q) && c'.q == c.q.(wlock := c'.q.wlock)
            && (if w.failnote then w.pid in c.t.tab ==> Noted(c'.t, w.pid) else SameNote(c, c', w.pid))
  {
    UnlockNotes(c.t, c.q.wlock, w.pid);
    if w.pid in c.t.tab {
      NotePosted(c.WUnlock().t, w.pid);
    }
    assert c.WUnlock().t.tab.Keys == c.t.tab.Keys;
    hide ProcTable.Table.Postnote, ProcTable.Table.Qunlock, Noted;
  }

  lemma FlowEnds(c0: Ctx, c: Ctx, w: WriteCall, sofar: nat)
    requires Midway(c0, c, w) && sofar <= |w.data|
    ensures WriteEnds(c0, w, WriteFlow(c, w, sofar))
    decreases |w.data| - sofar, 1
  {
    ControlEnds(c0, c, w, sofar);
    hide FlowControl, WriteNext, WriteEnds, LetGo, Full;
    var (c1, o) := FlowControl(c, w, sofar);
    if !o.Over? {
      NextEnds(c0, c1, w, sofar);
    }
  }

  lemma ControlEnds(c0: Ctx, c: Ctx, w: WriteCall, sofar: nat)
    requires Midway(c0, c, w) && sofar <= |w.data|
    ensures var (c1, o) := FlowControl(c, w, sofar);
            && (o == ToNext ==> LetGo(c0, c1, w) && !Full(c1.q))
            && (o.Over? ==> WriteEnds(c0, w, (c1, o.res)))
            && o != ToFlow
  {
    UnlockEnds(c0, c, w);
    var (t, slept) := c.t.Sleep(w.pid, Wr(w.devno, w.which), false);
    FailEnds(c0, c.(q := c.q.(flow := true), t := t.Interrupted(w.pid).0), w, EINTR);
    hide ProcTable.Table.Postnote, ProcTable.Table.Qunlock, WriteFail;
  }

  lemma NextEnds(c0: Ctx, c: Ctx, w: WriteCall, sofar: nat)
    requires LetGo(c0, c, w) && !Full(c.q) && sofar <= |w.data|
    ensures WriteEnds(c0, w, WriteNext(c, w, sofar))
    decreases |w.data| - sofar, 0
  {
    hide WriteLock;
    if sofar + w.Piece(sofar) < |w.data| {
      LockEnds(c0, c, w, sofar + w.Piece(sofar));
    }
  }

  lemma LockEnds(c0: Ctx, c: Ctx, w: WriteCall, sofar: nat)
    requires Midway(c0, c, w) && sofar <= |w.data|
    requires c.q.wlock.locked ==> c0.q.wlock.q != [] || (w.pid !in c0.at && c0.q.wlock.locked)
    ensures WriteEnds(c0, w, WriteLock(c, w, sofar))
    decreases |w.data| - sofar, 3
  {
    hide WriteHeld;
    var (t, l, ok) := c.t.Qlock(c.q.wlock, w.pid);
    if ok {
      var c1 := c.(t := t, q := c.q.(wlock := l));
      assert Midway(c0, c1, w);
      hide WriteEnds;
      HeldEnds(c0, c1, w, sofar);
    }
  }

  /** One entry of a write to any queue, from wherever it was. */
  lemma QwriteEnds(c: Ctx, w: WriteCall)
    requires w.pid in c.at ==> !c.at[w.pid].Read? && c.at[w.pid].sofar <= |w.data|
    ensures WriteEnds(c, w, QwriteSpec(c, w))
  {
    var c0 := c.(at := Without(c.at, w.pid));
    var (t, noted) := c.t.Interrupted(w.pid);
    assert noted == Noted(c.t, w.pid) && (!noted ==> !Noted(t, w.pid));
    FailEnds(c, c0.(t := t), w, EINTR);
    hide WriteHeld, WriteFlow, WriteLock, WriteFail, ProcTable.Table.Interrupted;
    if w.pid !in c.at {
      LockEnds(c, c0, w, 0);
    } else if c.at[w.pid].Wlock? {
      HeldEnds(c, c0, w, c.at[w.pid].sofar);
    } else if !c.at[w.pid].slept {
      FlowEnds(c, c0, w, c.at[w.pid].sofar);
    } else if !noted {
      FlowEnds(c, c0.(t := t), w, c.at[w.pid].sofar);
    }
  }

  /** The process may queue its next piece, the one at `sofar`: it is to take a free lock, or was handed it. */
  predicate Ready(c: Ctx, w: WriteCall, sofar: nat) {
    && sofar <= |w.data| && !c.q.closed && (c.q.noblock ==> c.q.len < c.q.limit)
    && (if w.pid in c.at then c.at[w.pid] == Wlock(sofar) else sofar == 0 && c.q.wlock == Unlocked)
  }

  /** Its entry then is that of a process holding the lock. */
  lemma ReadyHolds(c: Ctx, w: WriteCall, sofar: nat) returns (c1: Ctx)
    requires Ready(c, w, sofar)
    ensures c1.q == c.q.(wlock := c1.q.wlock) && c1.t == c.t && w.pid !in c1.at
    ensures QwriteSpec(c, w) == WriteHeld(c1, w, sofar)
  {
    var c0 := c.(at := Without(c.at, w.pid));
    c1 := if w.pid in c.at then c0 else c0.(q := c.q.(wlock := QLock(true, [])));
    hide WriteHeld;
  }

  function PieceAt(w: WriteCall, sofar: nat): Block
    requires sofar <= |w.data|
  {
    var n := if |w.data| - sofar < MAXATOMIC then |w.data| - sofar else MAXATOMIC;
    Block(w.data[sofar..sofar + n], Balloc(n))
  }

  /** A piece that brings a blocking queue to its limit is queued, and with no note pending and no reader to let run the writer waits for room. */
  lemma WaitsForRoom(c: Ctx, w: WriteCall, sofar: nat)
    requires Ready(c, w, sofar) && !c.q.noblock && c.q.len + PieceAt(w, sofar).alloc >= c.q.limit
    requires !Noted(c.t, w.pid) && !(w.outranks && c.q.starve)
    ensures var (c', res) := QwriteSpec(c, w);
            && c'.q.blocks == c.q.blocks + [PieceAt(w, sofar)] && Full(c'.q)
            && w.pid in c'.at && c'.at[w.pid] == Flow(sofar, true) && Asleep(c'.t, w.pid, Wr(w.devno, w.which))
  {
    var c1 := ReadyHolds(c, w, sofar);
    PieceQueued(c1, w, sofar);
    hide QwriteSpec, QueuePiece, FlowControl, Balloc, Noted, Asleep, Full, PieceAt;
    var c2 := QueuePiece(c1, w, sofar).0;
    MustWait(c2, w, sofar);
    assert WriteHeld(c1, w, sofar) == WriteFlow(c2, w, sofar);
  }

  lemma PieceQueued(c: Ctx, w: WriteCall, sofar: nat)
    requires sofar <= |w.data| && !c.q.closed && !c.q.noblock && !(w.outranks && c.q.starve)
    ensures var (c2, o) := QueuePiece(c, w, sofar);
            && o == ToFlow && c2.q == c.q.(blocks := c.q.blocks + [PieceAt(w, sofar)], len := c.q.len + PieceAt(w, sofar).alloc, starve := false)
            && c2.at == c.at && Noted(c2.t, w.pid) == Noted(c.t, w.pid)
  {
    WokenNotes(c.t, Rr(w.devno, w.which), w.pid);
    hide ProcTable.Table.Wakeup, Balloc, Noted;
  }

  lemma MustWait(c: Ctx, w: WriteCall, sofar: nat)
    requires sofar <= |w.data| && Full(c.q) && !Noted(c.t, w.pid)
    ensures var (c', o) := FlowControl(c, w, sofar);
            && o == Over(Ok(0)) && c'.q == c.q.(flow := true)
            && w.pid in c'.at && c'.at[w.pid] == Flow(sofar, true) && Asleep(c'.t, w.pid, Wr(w.devno, w.which))
  {
  }

  /** A piece that a starving reader asleep is woken for is queued, and the writer lets a reader that outranks it run at once. */
  lemma LetsReaderRun(c: Ctx, w: WriteCall, sofar: nat, p: Pid)
    requires Ready(c, w, sofar) && c.q.starve && w.outranks && Asleep(c.t, p, Rr(w.devno, w.which)) && p in c.t.tab
    ensures var (c', res) := QwriteSpec(c, w);
            && c'.q.blocks == c.q.blocks + [PieceAt(w, sofar)] && !c'.q.starve
            && w.pid in c'.at && c'.at[w.pid] == Flow(sofar, false)
            && p in c'.t.tab && c'.t.tab[p].state == Runnable && Rr(w.devno, w.which) !in c'.t.rr
  {
    var c1 := ReadyHolds(c, w, sofar);
    hide QwriteSpec;
    assert QueuePiece(c1, w, sofar).1 == Over(Ok(0));
  }

  // ---- a device's own

  /** `produce` refuses at the limit, and otherwise queues what it is given and says whether a reader is starving. */
  lemma ProduceEnds(q: QueueState, data: bytes)
    ensures var (q', wake) := ProduceSpec(q, data);
            && Kept(q, q')
            && (wake.None? <==> q.len >= q.limit)
            && (wake.None? ==> Untouched(q, q') && q'.starve == q.starve && q'.flow)
            && (wake.Some? ==>
                  && q'.blocks == q.blocks + [Block(data, Balloc(|data|))] && q'.len == q.len + Balloc(|data|)
                  && wake.value == q.starve && !q'.starve && (q'.flow <==> q.flow || q'.len >= q'.limit))
  {
  }
}
