/**
  What one entry into a queue keeps. A queue has two sides, its readers and its
  writers; on each, one process holds the lock, the rest wait for it in a line,
  and only the holder is ever asleep on the side's rendez. `Core` adds what a
  sleeper is entitled to: a reader asleep means an empty, starving, open queue,
  and a writer asleep means a flow-controlled, open queue at least half full.
 */
module QueueWakeup {
  import opened Bytes
  import opened ProcTable
  import opened Qio

  datatype Qk = Qk(devno: nat, which: nat)
  {
    function R(): Rid { Rr(devno, which) }
    function W(): Rid { Wr(devno, which) }
  }

  ghost predicate NoDup(s: seq<Pid>) {
    forall i, j :: 0 <= i < j < |s| ==> s[i] != s[j]
  }

  /** `h` holds `l`; the rest of `members` wait for it; only `h` may be asleep on `rid`. */
  ghost predicate Side(h: Option<Pid>, l: QLock, members: set<Pid>, rid: Rid, t: Table) {
    && members <= t.tab.Keys
    && NoDup(l.q)
    && (forall w :: w in l.q ==> w in members && h != Some(w) && t.tab[w].state == Queueing)
    && (forall m :: m in members ==> m in l.q || h == Some(m))
    && (h.Some? ==> h.value in members)
    && l.locked == h.Some?
    && (l.q != [] ==> h.Some?)
    && (h.Some? ==> t.tab[h.value].state != Queueing)
    && (h.Some? && t.tab[h.value].state == Wakeme ==>
          rid in t.rr && t.rr[rid] == h.value && t.tab[h.value].r == Some(rid))
    && (rid in t.rr ==> h == Some(t.rr[rid]) && t.tab[h.value].state == Wakeme)
  }

  /** `t'` differs from `t` only in the records of `ps` and the rendez `rs`. */
  ghost predicate Only(t: Table, t': Table, ps: set<Pid>, rs: set<Rid>) {
    && t'.tab.Keys == t.tab.Keys
    && t'.doublesleep == t.doublesleep
    && (forall p :: p in t.tab && p !in ps ==> t'.tab[p] == t.tab[p])
    && (forall r :: r !in rs ==> (r in t.rr <==> r in t'.rr))
    && (forall r :: r in t.rr && r !in rs ==> t'.rr[r] == t.rr[r])
  }

  lemma SideFrame(h: Option<Pid>, l: QLock, members: set<Pid>, rid: Rid, t: Table, t': Table, ps: set<Pid>, rs: set<Rid>)
    requires Side(h, l, members, rid, t) && Only(t, t', ps, rs)
    requires members !! ps && rid !in rs
    ensures Side(h, l, members, rid, t')
  {}

  /** The holder lets go: the first in line, if any, is handed the lock. */
  lemma SideUnlock(p: Pid, l: QLock, members: set<Pid>, rid: Rid, t: Table) returns (h: Option<Pid>)
    requires Side(Some(p), l, members, rid, t) && t.tab[p].state == Runnable
    ensures var (t', l') := t.Qunlock(l);
            && Side(h, l', members - {p}, rid, t')
            && Only(t, t', members - {p}, {})
            && t'.rr == t.rr
            && (forall m :: m in members ==> t'.tab[m] == t.tab[m] || (h == Some(m) && m in l.q && t'.tab[m] == t.tab[m].(state := Runnable)))
  {
    h := if l.q == [] then None else Some(l.q[0]);
  }

  /** A newcomer takes the lock, or waits at the end of the line. */
  lemma SideLock(p: Pid, h: Option<Pid>, l: QLock, members: set<Pid>, rid: Rid, t: Table) returns (h': Option<Pid>)
    requires Side(h, l, members, rid, t)
    requires p in t.tab && p !in members && t.tab[p].state == Runnable
    ensures var (t', l', ok) := t.Qlock(l, p);
            && Side(h', l', members + {p}, rid, t')
            && Only(t, t', {p}, {})
            && t'.rr == t.rr
            && (ok ==> h' == Some(p) && t' == t)
            && (!ok ==> h' == h && p in l'.q && t'.Left(p))
  {
    h' := if l.locked then h else Some(p);
  }

  lemma SideSleep(p: Pid, l: QLock, members: set<Pid>, rid: Rid, t: Table)
    requires Side(Some(p), l, members, rid, t) && t.tab[p].state == Runnable
    ensures var (t', slept) := t.Sleep(p, rid, false);
            && Side(Some(p), l, members, rid, t')
            && Only(t, t', {p}, {rid})
            && (slept ==> rid in t'.rr && t'.Left(p))
            && (!slept ==> rid !in t'.rr && t'.tab == t.tab)
  {}

  lemma SideWake(h: Option<Pid>, l: QLock, members: set<Pid>, rid: Rid, t: Table)
    requires Side(h, l, members, rid, t)
    ensures var t' := t.Wakeup(rid).0;
            && Side(h, l, members, rid, t')
            && Only(t, t', members, {rid})
            && rid !in t'.rr
            && (forall m :: m in members ==> t'.tab[m] == t.tab[m] || (h == Some(m) && t.tab[m].state == Wakeme && t'.tab[m] == t.tab[m].(state := Runnable, r := None)))
  {}

  /** A change to `p`'s note or label, and to nothing else. */
  lemma SideTouch(p: Pid, q: Proc, h: Option<Pid>, l: QLock, members: set<Pid>, rid: Rid, t: Table)
    requires Side(h, l, members, rid, t) && p in t.tab
    requires q.state == t.tab[p].state && q.r == t.tab[p].r
    ensures Side(h, l, members, rid, t.Set(p, q)) && Only(t, t.Set(p, q), {p}, {})
  {}

  /** A note readies a sleeper, and nobody else. */
  lemma SideNote(p: Pid, h: Option<Pid>, l: QLock, members: set<Pid>, rid: Rid, t: Table)
    requires Side(h, l, members, rid, t) && p in members
    ensures Side(h, l, members, rid, t.Postnote(p)) && Only(t, t.Postnote(p), {p}, {rid})
    ensures rid in t.Postnote(p).rr ==> rid in t.rr
    ensures Readied(t.tab[p], t.Postnote(p).tab[p])
  {}

  /** A blocking, non-coalescing queue, as a pipe's is. */
  ghost predicate QueueOk(q: QueueState) {
    && q.Valid()
    && q.limit == q.inilim >= 2
    && !q.coalesce && !q.noblock
    && (q.closed ==> q.err == EHUNGUP)
    && (!q.closed ==> q.eof == 0)
  }

  ghost predicate Core(k: Qk, q: QueueState, t: Table, rm: set<Pid>, wm: set<Pid>, hr: Option<Pid>, hw: Option<Pid>) {
    && QueueOk(q)
    && rm !! wm
    && Side(hr, q.rlock, rm, k.R(), t)
    && Side(hw, q.wlock, wm, k.W(), t)
    && (k.R() in t.rr ==> q.blocks == [] && q.starve && !q.closed)
    && (k.W() in t.rr ==> q.flow && q.len >= q.limit / 2 && !q.closed)
  }

  /** What an entry may do to another process: nothing, ready it, or hand it a lock. */
  predicate Readied(m: Proc, m': Proc) {
    && m'.setlabel == m.setlabel
    && (|| (m'.state == m.state && m'.r == m.r)
        || (m'.state == Runnable && (m'.r == None || (m.state != Wakeme && m'.r == m.r))))
  }

  ghost predicate Others(p: Pid, c: Ctx, c': Ctx) {
    && c'.t.tab.Keys == c.t.tab.Keys
    && forall m :: m in c.t.tab && m != p ==>
         && Readied(c.t.tab[m], c'.t.tab[m])
         && (m in c'.q.rlock.q ==> m in c.q.rlock.q)
         && (m in c'.q.wlock.q ==> m in c.q.wlock.q)
  }

  /** At no queue's rendez. */
  predicate OffQueues(p: Proc) {
    p.r.None? || p.r.value.Sema?
  }

  /** `p` is running, and is not recorded as having left. */
  ghost predicate Running(p: Pid, c: Ctx) {
    && p in c.t.tab && c.t.tab[p].state == Runnable && OffQueues(c.t.tab[p])
    && !c.t.Left(p) && p !in c.at
  }

  /** How an entry of `p` ends: it has left and is recorded, or its call is over. */
  ghost predicate Framed(k: Qk, p: Pid, c: Ctx, c': Ctx, rm: set<Pid>, wm: set<Pid>) {
    && Only(c.t, c'.t, rm + wm + {p}, {k.R(), k.W()})
    && Others(p, c, c')
    && p in c'.t.tab && (c'.t.tab[p].state == Wakeme || OffQueues(c'.t.tab[p]))
    && if p in c'.at then c'.t.Left(p) && c'.at == c.at[p := c'.at[p]] else Running(p, c') && c'.at == c.at
  }

  /** If it has left, `p` is still on its side of the queue; if not, it is on neither. */
  ghost predicate Entered(k: Qk, p: Pid, c: Ctx, c': Ctx, rm: set<Pid>, wm: set<Pid>, hr: Option<Pid>, hw: Option<Pid>) {
    && Framed(k, p, c, c', rm, wm)
    && if p in c'.at then Core(k, c'.q, c'.t, rm, wm, hr, hw) else Core(k, c'.q, c'.t, rm - {p}, wm - {p}, hr, hw)
  }

  lemma ReadUnlockKeeps(k: Qk, p: Pid, c: Ctx, rm: set<Pid>, wm: set<Pid>, hw: Option<Pid>) returns (hr: Option<Pid>)
    requires Core(k, c.q, c.t, rm, wm, Some(p), hw) && Running(p, c)
    ensures Entered(k, p, c, c.RUnlock(), rm, wm, hr, hw) && p !in c.RUnlock().at
  {
    hr := SideUnlock(p, c.q.rlock, rm, k.R(), c.t);
    SideFrame(hw, c.q.wlock, wm, k.W(), c.t, c.RUnlock().t, rm - {p}, {});
    assert wm - {p} == wm;
  }

  lemma WriteUnlockKeeps(k: Qk, p: Pid, c: Ctx, rm: set<Pid>, wm: set<Pid>, hr: Option<Pid>) returns (hw: Option<Pid>)
    requires Core(k, c.q, c.t, rm, wm, hr, Some(p)) && Running(p, c)
    ensures Entered(k, p, c, c.WUnlock(), rm, wm, hr, hw) && p !in c.WUnlock().at
  {
    hw := SideUnlock(p, c.q.wlock, wm, k.W(), c.t);
    SideFrame(hr, c.q.rlock, rm, k.R(), c.t, c.WUnlock().t, wm - {p}, {});
    assert rm - {p} == rm;
  }

  /** `c1` is what an entry of `p` has come to so far, with nothing lost on the way. */
  ghost predicate SoFar(k: Qk, p: Pid, c: Ctx, c1: Ctx, rm: set<Pid>, wm: set<Pid>) {
    && Only(c.t, c1.t, rm + wm + {p}, {k.R(), k.W()})
    && Others(p, c, c1)
    && p in c1.t.tab && (c1.t.tab[p].state == Wakeme || OffQueues(c1.t.tab[p]))
    && c1.at == c.at
  }

  lemma Compose(k: Qk, p: Pid, c: Ctx, c1: Ctx, c': Ctx, rm: set<Pid>, wm: set<Pid>, hr: Option<Pid>, hw: Option<Pid>)
    requires SoFar(k, p, c, c1, rm, wm) && Entered(k, p, c1, c', rm, wm, hr, hw)
    ensures Entered(k, p, c, c', rm, wm, hr, hw)
  {}

  /** A read takes from the front, and restarts the writer below half the limit. */
  lemma TakeKeepsCore(k: Qk, p: Pid, c: Ctx, q: QueueState, rm: set<Pid>, wm: set<Pid>, hw: Option<Pid>) returns (c1: Ctx)
    requires Core(k, c.q, c.t, rm, wm, Some(p), hw) && Running(p, c)
    requires QueueOk(q) && q == c.q.(blocks := q.blocks, len := q.len)
    ensures c1 == if q.flow && q.len < q.limit / 2
                  then c.(q := q.(flow := false), t := c.t.Wakeup(k.W()).0)
                  else c.(q := q)
    ensures Core(k, c1.q, c1.t, rm, wm, Some(p), hw) && Running(p, c1) && SoFar(k, p, c, c1, rm, wm)
  {
    c1 := c.(q := q);
    if q.flow && q.len < q.limit / 2 {
      SideWake(hw, q.wlock, wm, k.W(), c.t);
      c1 := c.(q := q.(flow := false), t := c.t.Wakeup(k.W()).0);
      SideFrame(Some(p), q.rlock, rm, k.R(), c.t, c1.t, wm, {k.W()});
    }
  }

  lemma ReadTakeKeeps(k: Qk, c: Ctx, r: ReadCall, rm: set<Pid>, wm: set<Pid>, hw: Option<Pid>) returns (hr: Option<Pid>)
    requires Core(k, c.q, c.t, rm, wm, Some(r.pid), hw) && Running(r.pid, c)
    requires k == Qk(r.devno, r.which) && c.q.blocks != []
    ensures Entered(k, r.pid, c, ReadTake(c, r).0, rm, wm, hr, hw) && r.pid !in ReadTake(c, r).0.at
  {
    var c1 := TakeKeepsCore(k, r.pid, c, TakeSpec(c.q, r.n, []).1, rm, wm, hw);
    hr := ReadUnlockKeeps(k, r.pid, c1, rm, wm, hw);
    Compose(k, r.pid, c, c1, c1.RUnlock(), rm, wm, hr, hw);
  }

  /** Nothing of `p` but its note is changed. */
  predicate SameButNote(m: Proc, m': Proc) {
    m' == m.(notepending := m'.notepending)
  }

  lemma TouchCore(k: Qk, p: Pid, q: QueueState, t: Table, rec: Proc, rm: set<Pid>, wm: set<Pid>, hr: Option<Pid>, hw: Option<Pid>)
    requires Core(k, q, t, rm, wm, hr, hw) && p in t.tab && SameButNote(t.tab[p], rec)
    ensures Core(k, q, t.Set(p, rec), rm, wm, hr, hw) && Only(t, t.Set(p, rec), {p}, {})
  {
    hide Side, Only, QueueOk;
    SideTouch(p, rec, hr, q.rlock, rm, k.R(), t);
    SideTouch(p, rec, hw, q.wlock, wm, k.W(), t);
  }

  lemma TouchSoFar(k: Qk, p: Pid, c: Ctx, c1: Ctx, rec: Proc, rm: set<Pid>, wm: set<Pid>)
    requires SoFar(k, p, c, c1, rm, wm) && SameButNote(c1.t.tab[p], rec)
    ensures SoFar(k, p, c, c1.(t := c1.t.Set(p, rec)), rm, wm)
  {}

  lemma TouchEntered(k: Qk, p: Pid, c: Ctx, c1: Ctx, rec: Proc, rm: set<Pid>, wm: set<Pid>, hr: Option<Pid>, hw: Option<Pid>)
    requires Entered(k, p, c, c1, rm, wm, hr, hw) && p !in c1.at && SameButNote(c1.t.tab[p], rec)
    ensures Entered(k, p, c, c1.(t := c1.t.Set(p, rec)), rm, wm, hr, hw)
  {
    hide Core;
    TouchCore(k, p, c1.q, c1.t, rec, rm - {p}, wm - {p}, hr, hw);
  }

  /** A process asleep, or refused by a note it then takes, has at most left everybody else as they were. */
  lemma SleptSoFar(k: Qk, p: Pid, c: Ctx, q: QueueState, t: Table, rm: set<Pid>, wm: set<Pid>, rid: Rid)
    requires Only(c.t, t, {p}, {rid}) && rid in {k.R(), k.W()} && p in c.t.tab && Running(p, c)
    requires q.rlock == c.q.rlock && q.wlock == c.q.wlock
    requires t.tab[p].state == Wakeme || OffQueues(t.tab[p])
    ensures SoFar(k, p, c, c.(q := q, t := t), rm, wm)
  {}

  /** A refused sleep leaves the process as it was. */
  lemma Refused(p: Pid, rid: Rid, t: Table)
    requires p in t.tab && t.tab[p].state == Runnable
    ensures var (t', slept) := t.Sleep(p, rid, false);
            && p in t'.tab && (slept ==> t'.tab[p].state == Wakeme) && (!slept ==> t'.tab == t.tab)
            && t'.Interrupted(p).0 == t'.Set(p, t'.tab[p].(notepending := false))
  {}

  /** The holder of the reader lock, about to sleep for data. */
  lemma SleepKeepsCore(k: Qk, p: Pid, c: Ctx, rm: set<Pid>, wm: set<Pid>, hw: Option<Pid>) returns (c1: Ctx)
    requires Core(k, c.q, c.t, rm, wm, Some(p), hw) && Running(p, c)
    requires c.q.blocks == [] && !c.q.closed
    ensures var (t, slept) := c.t.Sleep(p, k.R(), false);
            && c1 == c.(q := c.q.(starve := true), t := if slept then t else t.Interrupted(p).0)
            && Core(k, c1.q, c1.t, rm, wm, Some(p), hw)
            && SoFar(k, p, c, c1, rm, wm)
            && if slept then c1.t.Left(p) && k.R() in c1.t.rr else Running(p, c1)
  {
    var (t, slept) := c.t.Sleep(p, k.R(), false);
    var q := c.q.(starve := true);
    SideSleep(p, c.q.rlock, rm, k.R(), c.t);
    SideFrame(hw, c.q.wlock, wm, k.W(), c.t, t, {p}, {k.R()});
    Refused(p, k.R(), c.t);
    c1 := c.(q := q, t := t);
    assert Core(k, q, t, rm, wm, Some(p), hw) by { hide Side; }
    hide Side, Core, SoFar;
    SleptSoFar(k, p, c, q, t, rm, wm, k.R());
    if !slept {
      var rec := t.tab[p].(notepending := false);
      TouchCore(k, p, q, t, rec, rm, wm, Some(p), hw);
      TouchSoFar(k, p, c, c1, rec, rm, wm);
      c1 := c1.(t := t.Set(p, rec));
    }
  }

  /** End of file. */
  lemma EofKeeps(k: Qk, p: Pid, c: Ctx, rm: set<Pid>, wm: set<Pid>, hw: Option<Pid>) returns (hr: Option<Pid>)
    requires Core(k, c.q, c.t, rm, wm, Some(p), hw) && Running(p, c) && c.q.closed
    ensures var c' := c.(q := c.q.(eof := c.q.eof + 1)).RUnlock(); Entered(k, p, c, c', rm, wm, hr, hw) && p !in c'.at
  {
    var c1 := c.(q := c.q.(eof := c.q.eof + 1));
    assert Core(k, c1.q, c1.t, rm, wm, Some(p), hw) by { hide Side; }
    assert SoFar(k, p, c, c1, rm, wm) by { SleptSoFar(k, p, c, c1.q, c1.t, rm, wm, k.R()); }
    hide Core, SoFar, Entered;
    hr := ReadUnlockKeeps(k, p, c1, rm, wm, hw);
    Compose(k, p, c, c1, c1.RUnlock(), rm, wm, hr, hw);
  }

  lemma AsleepEntered(k: Qk, p: Pid, c: Ctx, c1: Ctx, a: At, rm: set<Pid>, wm: set<Pid>, hr: Option<Pid>, hw: Option<Pid>)
    requires Core(k, c1.q, c1.t, rm, wm, hr, hw) && SoFar(k, p, c, c1, rm, wm) && c1.t.Left(p)
    ensures Entered(k, p, c, c1.Put(p, a), rm, wm, hr, hw)
  {
    hide Core;
  }

  lemma ReadEmptyKeeps(k: Qk, c: Ctx, r: ReadCall, rm: set<Pid>, wm: set<Pid>, hw: Option<Pid>) returns (hr: Option<Pid>)
    requires Core(k, c.q, c.t, rm, wm, Some(r.pid), hw) && Running(r.pid, c)
    requires k == Qk(r.devno, r.which) && c.q.blocks == []
    ensures Entered(k, r.pid, c, ReadEmpty(c, r).0, rm, wm, hr, hw)
    ensures r.pid in ReadEmpty(c, r).0.at ==>
              hr == Some(r.pid) && ReadEmpty(c, r).0.at[r.pid] == Read(true) && k.R() in ReadEmpty(c, r).0.t.rr
  {
    hide Core, SoFar, Entered, ProcTable.Table.Qunlock, ProcTable.Table.Sleep, ProcTable.Table.Interrupted;
    if c.q.closed {
      hr := EofKeeps(k, r.pid, c, rm, wm, hw);
    } else {
      var c1 := SleepKeepsCore(k, r.pid, c, rm, wm, hw);
      if c.t.Sleep(r.pid, k.R(), false).1 {
        hr := Some(r.pid);
        AsleepEntered(k, r.pid, c, c1, Read(true), rm, wm, hr, hw);
      } else {
        hr := ReadUnlockKeeps(k, r.pid, c1, rm, wm, hw);
        Compose(k, r.pid, c, c1, c1.RUnlock(), rm, wm, hr, hw);
      }
    }
  }

  lemma WriteFailKeeps(k: Qk, c: Ctx, w: WriteCall, e: string, rm: set<Pid>, wm: set<Pid>, hr: Option<Pid>) returns (hw: Option<Pid>)
    requires Core(k, c.q, c.t, rm, wm, hr, Some(w.pid)) && Running(w.pid, c)
    ensures Entered(k, w.pid, c, WriteFail(c, w, e).0, rm, wm, hr, hw) && w.pid !in WriteFail(c, w, e).0.at
  {
    hw := WriteUnlockKeeps(k, w.pid, c, rm, wm, hr);
    if w.failnote {
      var c1 := c.WUnlock();
      assert Running(w.pid, c1);
      NotedSelf(w.pid, c1.t);
      hide Entered, Core;
      TouchEntered(k, w.pid, c, c1, c1.t.tab[w.pid].(notepending := true), rm, wm, hr, hw);
    }
  }

  lemma NotedSelf(p: Pid, t: Table)
    requires p in t.tab && t.tab[p].state == Runnable
    ensures t.Postnote(p) == t.Set(p, t.tab[p].(notepending := true))
  {}

  /** A piece goes on the end, and a starving reader is woken. */
  lemma PushKeepsCore(k: Qk, p: Pid, c: Ctx, data: bytes, rm: set<Pid>, wm: set<Pid>, hr: Option<Pid>) returns (c1: Ctx)
    requires Core(k, c.q, c.t, rm, wm, hr, Some(p)) && Running(p, c)
    ensures c1 == c.(q := c.q.Push(data).(starve := false), t := if c.q.starve then c.t.Wakeup(k.R()).0 else c.t)
    ensures Core(k, c1.q, c1.t, rm, wm, hr, Some(p)) && Running(p, c1) && SoFar(k, p, c, c1, rm, wm)
  {
    SumAllocAppend(c.q.blocks, Block(data, Balloc(|data|)));
    SideWake(hr, c.q.rlock, rm, k.R(), c.t);
    c1 := c.(q := c.q.Push(data).(starve := false), t := if c.q.starve then c.t.Wakeup(k.R()).0 else c.t);
    SideFrame(Some(p), c.q.wlock, wm, k.W(), c.t, c.t.Wakeup(k.R()).0, rm, {k.R()});
  }

  lemma SumAllocAppend(bs: seq<Block>, b: Block)
    ensures SumAlloc(bs + [b]) == SumAlloc(bs) + b.alloc
  {
    if bs == [] {
      assert SumAlloc([b]) == b.alloc;
    } else {
      assert (bs + [b])[1..] == bs[1..] + [b];
    }
  }

  lemma QueuePieceKeeps(k: Qk, c: Ctx, w: WriteCall, sofar: nat, rm: set<Pid>, wm: set<Pid>, hr: Option<Pid>) returns (hw: Option<Pid>)
    requires Core(k, c.q, c.t, rm, wm, hr, Some(w.pid)) && Running(w.pid, c)
    requires k == Qk(w.devno, w.which) && sofar <= |w.data|
    ensures var (c', o) := QueuePiece(c, w, sofar);
            && o != ToNext
            && (o.Over? ==> Entered(k, w.pid, c, c', rm, wm, hr, hw))
            && (o == ToFlow ==> Core(k, c'.q, c'.t, rm, wm, hr, Some(w.pid)) && Running(w.pid, c') && SoFar(k, w.pid, c, c', rm, wm))
            && (w.pid in c'.at ==> c'.at[w.pid] == Flow(sofar, false) && hw == Some(w.pid) && k.W() !in c'.t.rr)
  {
    hw := Some(w.pid);
    if c.q.closed {
      hw := WriteFailKeeps(k, c, w, c.q.err, rm, wm, hr);
    } else {
      var c1 := PushKeepsCore(k, w.pid, c, w.data[sofar..sofar + w.Piece(sofar)], rm, wm, hr);
      if QueuePiece(c, w, sofar).1.Over? {
        YieldKeeps(k, w.pid, c, c1, Flow(sofar, false), rm, wm, hr);
      }
    }
  }

  /** The holder of the writer lock lets a reader it woke run first. */
  lemma LabelledCore(k: Qk, p: Pid, q: QueueState, t: Table, rm: set<Pid>, wm: set<Pid>, hr: Option<Pid>, hw: Option<Pid>)
    requires Core(k, q, t, rm, wm, hr, hw) && p in t.tab
    ensures Core(k, q, t.SetLabel(p), rm, wm, hr, hw)
  {
    hide Side, Only, QueueOk;
    var rec := t.tab[p].(setlabel := true);
    SideTouch(p, rec, hr, q.rlock, rm, k.R(), t);
    SideTouch(p, rec, hw, q.wlock, wm, k.W(), t);
  }

  lemma LabelledSoFar(k: Qk, p: Pid, c: Ctx, c1: Ctx, rm: set<Pid>, wm: set<Pid>)
    requires SoFar(k, p, c, c1, rm, wm)
    ensures SoFar(k, p, c, c1.(t := c1.t.SetLabel(p)), rm, wm) && c1.t.SetLabel(p).Left(p)
  {}

  lemma YieldKeeps(k: Qk, p: Pid, c: Ctx, c1: Ctx, a: At, rm: set<Pid>, wm: set<Pid>, hr: Option<Pid>)
    requires Core(k, c1.q, c1.t, rm, wm, hr, Some(p)) && Running(p, c1) && SoFar(k, p, c, c1, rm, wm)
    ensures var c' := c1.(t := c1.t.SetLabel(p)).Put(p, a);
            Entered(k, p, c, c', rm, wm, hr, Some(p)) && k.W() !in c'.t.rr
  {
    assert k.W() !in c1.t.rr;
    hide Core, SoFar, Entered;
    LabelledCore(k, p, c1.q, c1.t, rm, wm, hr, Some(p));
    LabelledSoFar(k, p, c, c1, rm, wm);
    AsleepEntered(k, p, c, c1.(t := c1.t.SetLabel(p)), a, rm, wm, hr, Some(p));
  }

  /** The holder of the writer lock, about to sleep for room. */
  lemma RoomKeepsCore(k: Qk, p: Pid, c: Ctx, rm: set<Pid>, wm: set<Pid>, hr: Option<Pid>) returns (c1: Ctx)
    requires Core(k, c.q, c.t, rm, wm, hr, Some(p)) && Running(p, c)
    requires c.q.len >= c.q.limit && !c.q.closed
    ensures var (t, slept) := c.t.Sleep(p, k.W(), false);
            && c1 == c.(q := c.q.(flow := true), t := if slept then t else t.Interrupted(p).0)
            && Core(k, c1.q, c1.t, rm, wm, hr, Some(p))
            && SoFar(k, p, c, c1, rm, wm)
            && if slept then c1.t.Left(p) && k.W() in c1.t.rr else Running(p, c1)
  {
    var (t, slept) := c.t.Sleep(p, k.W(), false);
    var q := c.q.(flow := true);
    SideSleep(p, c.q.wlock, wm, k.W(), c.t);
    SideFrame(hr, c.q.rlock, rm, k.R(), c.t, t, {p}, {k.W()});
    Refused(p, k.W(), c.t);
    c1 := c.(q := q, t := t);
    assert Core(k, q, t, rm, wm, hr, Some(p)) by { hide Side; }
    hide Side, Core, SoFar;
    SleptSoFar(k, p, c, q, t, rm, wm, k.W());
    if !slept {
      var rec := t.tab[p].(notepending := false);
      TouchCore(k, p, q, t, rec, rm, wm, hr, Some(p));
      TouchSoFar(k, p, c, c1, rec, rm, wm);
      c1 := c1.(t := t.Set(p, rec));
    }
  }


  lemma FlowControlKeeps(k: Qk, c: Ctx, w: WriteCall, sofar: nat, rm: set<Pid>, wm: set<Pid>, hr: Option<Pid>) returns (hw: Option<Pid>)
    requires Core(k, c.q, c.t, rm, wm, hr, Some(w.pid)) && Running(w.pid, c)
    requires k == Qk(w.devno, w.which) && sofar <= |w.data|
    ensures var (c', o) := FlowControl(c, w, sofar);
            && Entered(k, w.pid, c, c', rm, wm, hr, hw)
            && o != ToFlow
            && (o == ToNext ==> w.pid !in c'.at)
            && (w.pid in c'.at ==> c'.at[w.pid] == Flow(sofar, true) && hw == Some(w.pid))
  {
    if c.q.len >= c.q.limit && !c.q.closed {
      var c1 := RoomKeepsCore(k, w.pid, c, rm, wm, hr);
      if c1.t.Left(w.pid) {
        hw := Some(w.pid);
      } else {
        hw := WriteFailKeeps(k, c1, w, EINTR, rm, wm, hr);
        Compose(k, w.pid, c, c1, WriteFail(c1, w, EINTR).0, rm, wm, hr, hw);
      }
    } else {
      hw := WriteUnlockKeeps(k, w.pid, c, rm, wm, hr);
    }
  }

  /** Off both sides, `p` asks for the writer lock. */
  lemma LockKeeps(k: Qk, p: Pid, c: Ctx, rm: set<Pid>, wm: set<Pid>, hr: Option<Pid>, hw: Option<Pid>) returns (hw': Option<Pid>)
    requires Core(k, c.q, c.t, rm, wm - {p}, hr, hw) && Running(p, c) && p in wm && p !in rm
    ensures var (t, l, ok) := c.t.Qlock(c.q.wlock, p);
            var c1 := c.(t := t, q := c.q.(wlock := l));
            && Core(k, c1.q, c1.t, rm, wm, hr, hw')
            && SoFar(k, p, c, c1, rm, wm)
            && (if ok then hw' == Some(p) && Running(p, c1) else c1.t.Left(p) && p in l.q)
            && c1.t.rr == c.t.rr
  {
    hw' := SideLock(p, hw, c.q.wlock, wm - {p}, k.W(), c.t);
    SideFrame(hr, c.q.rlock, rm, k.R(), c.t, c.t.Qlock(c.q.wlock, p).0, {p}, {});
    assert wm - {p} + {p} == wm;
  }

  predicate SofarOk(sofar: nat, len: nat) {
    sofar % MAXATOMIC == 0 && (sofar == 0 || sofar < len)
  }

  /** What is recorded of a writer that has left. */
  ghost predicate WriterAt(a: At, p: Pid, q: QueueState, t: Table, len: nat) {
    && !a.Read?
    && SofarOk(a.sofar, len)
    && (p in q.wlock.q ==> a.Wlock?)
    && (p in t.tab && t.tab[p].state == Wakeme ==> a == Flow(a.sofar, true))
  }

  ghost predicate ReaderAt(a: At, p: Pid, q: QueueState, t: Table) {
    && a.Read?
    && (p in q.rlock.q ==> !a.slept)
    && (p in t.tab && t.tab[p].state == Wakeme ==> a.slept)
  }

  /** What was so far, and then more. */
  lemma Onward(k: Qk, p: Pid, c: Ctx, c1: Ctx, c2: Ctx, rm: set<Pid>, wm: set<Pid>)
    requires SoFar(k, p, c, c1, rm, wm) && SoFar(k, p, c1, c2, rm, wm)
    ensures SoFar(k, p, c, c2, rm, wm)
  {}

  lemma NextSofar(w: WriteCall, sofar: nat)
    requires sofar <= |w.data| && SofarOk(sofar, |w.data|) && sofar + w.Piece(sofar) < |w.data|
    ensures w.Piece(sofar) == MAXATOMIC && SofarOk(sofar + w.Piece(sofar), |w.data|)
  {}

  /** In line for the writer lock. */
  lemma LineKeeps(k: Qk, p: Pid, c: Ctx, c2: Ctx, sofar: nat, len: nat, rm: set<Pid>, wm: set<Pid>, hr: Option<Pid>, hw: Option<Pid>)
    requires SoFar(k, p, c, c2, rm, wm) && Core(k, c2.q, c2.t, rm, wm, hr, hw)
    requires c2.t.Left(p) && p in c2.q.wlock.q && SofarOk(sofar, len)
    ensures var c' := c2.Put(p, Wlock(sofar));
            Entered(k, p, c, c', rm, wm, hr, hw) && WriterAt(c'.at[p], p, c'.q, c'.t, len)
  {}

  /** `WriteNext`, from the moment the lock was let go. */
  lemma WriteNextKeeps(k: Qk, c: Ctx, c1: Ctx, w: WriteCall, sofar: nat, rm: set<Pid>, wm: set<Pid>, hr: Option<Pid>, hw: Option<Pid>)
    returns (hr': Option<Pid>, hw': Option<Pid>)
    requires Entered(k, w.pid, c, c1, rm, wm, hr, hw) && w.pid !in c1.at && w.pid in wm && w.pid !in rm
    requires k == Qk(w.devno, w.which) && sofar <= |w.data| && SofarOk(sofar, |w.data|)
    ensures var c' := WriteNext(c1, w, sofar).0;
            && Entered(k, w.pid, c, c', rm, wm, hr', hw')
            && (w.pid in c'.at ==> WriterAt(c'.at[w.pid], w.pid, c'.q, c'.t, |w.data|))
    decreases |w.data| - sofar, 0
  {
    hr', hw' := hr, hw;
    if sofar + w.Piece(sofar) < |w.data| {
      NextSofar(w, sofar);
      assert rm - {w.pid} == rm;
      hr', hw' := WriteLockKeeps(k, c, c1, w, sofar + w.Piece(sofar), rm, wm, hr, hw);
    }
  }

  lemma WriteLockKeeps(k: Qk, c: Ctx, c1: Ctx, w: WriteCall, sofar: nat, rm: set<Pid>, wm: set<Pid>, hr: Option<Pid>, hw: Option<Pid>)
    returns (hr': Option<Pid>, hw': Option<Pid>)
    requires SoFar(k, w.pid, c, c1, rm, wm) && Core(k, c1.q, c1.t, rm, wm - {w.pid}, hr, hw)
    requires Running(w.pid, c1) && w.pid in wm && w.pid !in rm
    requires k == Qk(w.devno, w.which) && sofar <= |w.data| && SofarOk(sofar, |w.data|)
    ensures var c' := WriteLock(c1, w, sofar).0;
            && Entered(k, w.pid, c, c', rm, wm, hr', hw')
            && (w.pid in c'.at ==> WriterAt(c'.at[w.pid], w.pid, c'.q, c'.t, |w.data|))
    decreases |w.data| - sofar, 3
  {
    hr' := hr;
    hw' := LockKeeps(k, w.pid, c1, rm, wm, hr, hw);
    var (t, l, ok) := c1.t.Qlock(c1.q.wlock, w.pid);
    var c2 := c1.(t := t, q := c1.q.(wlock := l));
    Onward(k, w.pid, c, c1, c2, rm, wm);
    if ok {
      hr', hw' := WriteHeldKeeps(k, c2, w, sofar, rm, wm, hr);
      Compose(k, w.pid, c, c2, WriteHeld(c2, w, sofar).0, rm, wm, hr', hw');
    } else {
      LineKeeps(k, w.pid, c, c2, sofar, |w.data|, rm, wm, hr, hw');
    }
  }

  lemma WriteFlowKeeps(k: Qk, c: Ctx, w: WriteCall, sofar: nat, rm: set<Pid>, wm: set<Pid>, hr: Option<Pid>)
    returns (hr': Option<Pid>, hw': Option<Pid>)
    requires Core(k, c.q, c.t, rm, wm, hr, Some(w.pid)) && Running(w.pid, c)
    requires k == Qk(w.devno, w.which) && sofar <= |w.data| && SofarOk(sofar, |w.data|)
    ensures var c' := WriteFlow(c, w, sofar).0;
            && Entered(k, w.pid, c, c', rm, wm, hr', hw')
            && (w.pid in c'.at ==> WriterAt(c'.at[w.pid], w.pid, c'.q, c'.t, |w.data|))
    decreases |w.data| - sofar, 1
  {
    var (c1, o) := FlowControl(c, w, sofar);
    hr' := hr;
    hw' := FlowControlKeeps(k, c, w, sofar, rm, wm, hr);
    if o == ToNext {
      hr', hw' := WriteNextKeeps(k, c, c1, w, sofar, rm, wm, hr, hw');
    }
  }

  lemma WriteHeldKeeps(k: Qk, c: Ctx, w: WriteCall, sofar: nat, rm: set<Pid>, wm: set<Pid>, hr: Option<Pid>)
    returns (hr': Option<Pid>, hw': Option<Pid>)
    requires Core(k, c.q, c.t, rm, wm, hr, Some(w.pid)) && Running(w.pid, c)
    requires k == Qk(w.devno, w.which) && sofar <= |w.data| && SofarOk(sofar, |w.data|)
    ensures var c' := WriteHeld(c, w, sofar).0;
            && Entered(k, w.pid, c, c', rm, wm, hr', hw')
            && (w.pid in c'.at ==> WriterAt(c'.at[w.pid], w.pid, c'.q, c'.t, |w.data|))
    decreases |w.data| - sofar, 2
  {
    var (c1, o) := QueuePiece(c, w, sofar);
    hr' := hr;
    hw' := QueuePieceKeeps(k, c, w, sofar, rm, wm, hr);
    if o == ToFlow {
      hr', hw' := WriteFlowKeeps(k, c1, w, sofar, rm, wm, hr);
      Compose(k, w.pid, c, c1, WriteFlow(c1, w, sofar).0, rm, wm, hr', hw');
    }
  }

  /** A process entered again that is on a side and runnable is the side's holder. */
  lemma ResumedHolds(p: Pid, h: Option<Pid>, l: QLock, members: set<Pid>, rid: Rid, t: Table)
    requires Side(h, l, members, rid, t) && p in members && t.tab[p].state == Runnable
    ensures h == Some(p)
  {}

  lemma TakeNoteKeeps(k: Qk, p: Pid, c: Ctx, rm: set<Pid>, wm: set<Pid>, hr: Option<Pid>, hw: Option<Pid>)
    requires Core(k, c.q, c.t, rm, wm, hr, hw) && Running(p, c)
    ensures var c1 := c.(t := c.t.Interrupted(p).0);
            Core(k, c1.q, c1.t, rm, wm, hr, hw) && Running(p, c1) && SoFar(k, p, c, c1, rm, wm)
  {
    var rec := c.t.tab[p].(notepending := false);
    SideTouch(p, rec, hr, c.q.rlock, rm, k.R(), c.t);
    SideTouch(p, rec, hw, c.q.wlock, wm, k.W(), c.t);
  }

  lemma ReadAgainKeeps(k: Qk, c: Ctx, c1: Ctx, r: ReadCall, rm: set<Pid>, wm: set<Pid>, hw: Option<Pid>) returns (hr: Option<Pid>)
    requires SoFar(k, r.pid, c, c1, rm, wm)
    requires Core(k, c1.q, c1.t, rm, wm, Some(r.pid), hw) && Running(r.pid, c1) && k == Qk(r.devno, r.which)
    ensures var c' := ReadAgain(c1, r).0;
            && Entered(k, r.pid, c, c', rm, wm, hr, hw)
            && (r.pid in c'.at ==> ReaderAt(c'.at[r.pid], r.pid, c'.q, c'.t))
  {
    if c1.q.blocks == [] {
      hr := ReadEmptyKeeps(k, c1, r, rm, wm, hw);
    } else {
      hr := ReadTakeKeeps(k, c1, r, rm, wm, hw);
    }
    Compose(k, r.pid, c, c1, ReadAgain(c1, r).0, rm, wm, hr, hw);
  }

  /** Off both sides, `p` asks for the reader lock. */
  lemma ReadLockKeeps(k: Qk, p: Pid, c: Ctx, rm: set<Pid>, wm: set<Pid>, hr: Option<Pid>, hw: Option<Pid>) returns (hr': Option<Pid>)
    requires Core(k, c.q, c.t, rm - {p}, wm, hr, hw) && Running(p, c) && p in rm && p !in wm
    ensures var (t, l, ok) := c.t.Qlock(c.q.rlock, p);
            var c1 := c.(t := t, q := c.q.(rlock := l));
            && Core(k, c1.q, c1.t, rm, wm, hr', hw)
            && SoFar(k, p, c, c1, rm, wm)
            && (if ok then hr' == Some(p) && Running(p, c1) else c1.t.Left(p) && p in l.q)
  {
    hr' := SideLock(p, hr, c.q.rlock, rm - {p}, k.R(), c.t);
    SideFrame(hw, c.q.wlock, wm, k.W(), c.t, c.t.Qlock(c.q.rlock, p).0, {p}, {});
    assert rm - {p} + {p} == rm;
  }

  /** One entry of a read, begun or resumed, from a state in which nobody is wrongly asleep. */
  lemma QreadKeeps(k: Qk, c: Ctx, r: ReadCall, rm: set<Pid>, wm: set<Pid>, hr: Option<Pid>, hw: Option<Pid>) returns (hr': Option<Pid>)
    requires r.pid in rm && r.pid !in wm && k == Qk(r.devno, r.which)
    requires Running(r.pid, c.(at := Without(c.at, r.pid)))
    requires Core(k, c.q, c.t, if r.pid in c.at then rm else rm - {r.pid}, wm, hr, hw)
    ensures var (c0, c') := (c.(at := Without(c.at, r.pid)), QreadSpec(c, r).0);
            && Entered(k, r.pid, c0, c', rm, wm, hr', hw)
            && (r.pid in c'.at ==> ReaderAt(c'.at[r.pid], r.pid, c'.q, c'.t))
  {
    var c0 := c.(at := Without(c.at, r.pid));
    if r.pid in c.at {
      ResumedHolds(r.pid, hr, c.q.rlock, rm, k.R(), c.t);
      if c.at[r.pid] == Read(true) {
        TakeNoteKeeps(k, r.pid, c0, rm, wm, hr, hw);
        var c1 := c0.(t := c0.t.Interrupted(r.pid).0);
        if c0.t.Interrupted(r.pid).1 {
          hr' := ReadUnlockKeeps(k, r.pid, c1, rm, wm, hw);
          Compose(k, r.pid, c0, c1, c1.RUnlock(), rm, wm, hr', hw);
        } else {
          hr' := ReadAgainKeeps(k, c0, c1, r, rm, wm, hw);
        }
      } else {
        hr' := ReadAgainKeeps(k, c0, c0, r, rm, wm, hw);
      }
    } else {
      hr' := ReadLockKeeps(k, r.pid, c0, rm, wm, hr, hw);
      var (t, l, ok) := c0.t.Qlock(c0.q.rlock, r.pid);
      var c1 := c0.(t := t, q := c0.q.(rlock := l));
      if ok {
        hr' := ReadAgainKeeps(k, c0, c1, r, rm, wm, hw);
      } else {
        ReadLineKeeps(k, r.pid, c0, c1, rm, wm, hr', hw);
      }
    }
  }

  /** In line for the reader lock. */
  lemma ReadLineKeeps(k: Qk, p: Pid, c: Ctx, c2: Ctx, rm: set<Pid>, wm: set<Pid>, hr: Option<Pid>, hw: Option<Pid>)
    requires SoFar(k, p, c, c2, rm, wm) && Core(k, c2.q, c2.t, rm, wm, hr, hw)
    requires c2.t.Left(p) && p in c2.q.rlock.q
    ensures var c' := c2.Put(p, Read(false));
            Entered(k, p, c, c', rm, wm, hr, hw) && ReaderAt(c'.at[p], p, c'.q, c'.t)
  {}

  /** One entry of a write, begun or resumed, likewise. */
  lemma QwriteKeeps(k: Qk, c: Ctx, w: WriteCall, rm: set<Pid>, wm: set<Pid>, hr: Option<Pid>, hw: Option<Pid>)
    returns (hr': Option<Pid>, hw': Option<Pid>)
    requires w.pid in wm && w.pid !in rm && k == Qk(w.devno, w.which)
    requires Running(w.pid, c.(at := Without(c.at, w.pid)))
    requires Core(k, c.q, c.t, rm, if w.pid in c.at then wm else wm - {w.pid}, hr, hw)
    requires w.pid in c.at ==> !c.at[w.pid].Read? && c.at[w.pid].sofar <= |w.data| && SofarOk(c.at[w.pid].sofar, |w.data|)
    ensures var (c0, c') := (c.(at := Without(c.at, w.pid)), QwriteSpec(c, w).0);
            && Entered(k, w.pid, c0, c', rm, wm, hr', hw')
            && (w.pid in c'.at ==> WriterAt(c'.at[w.pid], w.pid, c'.q, c'.t, |w.data|))
  {
    var c0 := c.(at := Without(c.at, w.pid));
    if w.pid in c.at {
      var sofar := c.at[w.pid].sofar;
      ResumedHolds(w.pid, hw, c.q.wlock, wm, k.W(), c.t);
      if c.at[w.pid].Wlock? {
        hr', hw' := WriteHeldKeeps(k, c0, w, sofar, rm, wm, hr);
      } else if c.at[w.pid].slept {
        TakeNoteKeeps(k, w.pid, c0, rm, wm, hr, hw);
        var c1 := c0.(t := c0.t.Interrupted(w.pid).0);
        if c0.t.Interrupted(w.pid).1 {
          hr' := hr;
          hw' := WriteFailKeeps(k, c1, w, EINTR, rm, wm, hr);
        } else {
          hr', hw' := WriteFlowKeeps(k, c1, w, sofar, rm, wm, hr);
        }
        Compose(k, w.pid, c0, c1, QwriteSpec(c, w).0, rm, wm, hr', hw');
      } else {
        hr', hw' := WriteFlowKeeps(k, c0, w, sofar, rm, wm, hr);
      }
    } else {
      hr', hw' := WriteLockKeeps(k, c0, c0, w, 0, rm, wm, hr, hw);
    }
  }
}
