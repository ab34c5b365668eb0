/** How long a pipe's queue may grow. */
module PipeLimits {
  import opened Bytes
  import opened ProcTable
  import opened Qio
  import opened QueueWakeup
  import opened QueueStream
  import opened PipeSystem
  import opened PipeStream
  import opened QueueAnswers
  import opened PipeAnswers
  import opened PipeHangup

  predicate Room(q: QueueState) {
    q.closed || q.len < q.limit
  }

  predicate Bounded(q: QueueState) {
    q.len < q.limit + Balloc(MAXATOMIC)
  }

  /** What a write leaves: room, or itself waiting for some; unless a note ended the wait. */
  ghost predicate LeavesRoom(w: WriteCall, q: QueueState, out: (Ctx, Result<nat>)) {
    && Bounded(out.0.q) && out.0.q.limit == q.limit && out.0.q.closed == q.closed
    && (|| (out.1 == Err(EINTR) && w.pid !in out.0.at)
        || Room(out.0.q)
        || (w.pid in out.0.at && out.0.at[w.pid].Flow?))
  }

  lemma BallocUp(n: nat)
    requires n <= MAXATOMIC
    ensures Balloc(n) <= Balloc(MAXATOMIC)
  {}

  lemma HeldLeavesRoom(c: Ctx, w: WriteCall, sofar: nat)
    requires w.pid !in c.at && !c.q.noblock && sofar <= |w.data| && Room(c.q) && Bounded(c.q)
    ensures LeavesRoom(w, c.q, WriteHeld(c, w, sofar))
    decreases |w.data| - sofar, 2
  {
    hide ProcTable.Table.Wakeup, ProcTable.Table.Postnote, ProcTable.Table.Qunlock, ProcTable.Table.SetLabel, WriteFlow, Balloc;
    BallocUp(w.Piece(sofar));
    if !c.q.closed && QueuePiece(c, w, sofar).1 == ToFlow {
      FlowLeavesRoom(QueuePiece(c, w, sofar).0, w, sofar);
    }
  }

  lemma FlowLeavesRoom(c: Ctx, w: WriteCall, sofar: nat)
    requires w.pid !in c.at && !c.q.noblock && sofar <= |w.data| && Bounded(c.q)
    ensures LeavesRoom(w, c.q, WriteFlow(c, w, sofar))
    decreases |w.data| - sofar, 1
  {
    hide ProcTable.Table.Sleep, ProcTable.Table.Postnote, ProcTable.Table.Qunlock, ProcTable.Table.Interrupted, WriteLock, Balloc;
    var (c1, o) := FlowControl(c, w, sofar);
    if o == ToNext && sofar + w.Piece(sofar) < |w.data| {
      LockLeavesRoom(c1, w, sofar + w.Piece(sofar));
    }
  }

  lemma LockLeavesRoom(c: Ctx, w: WriteCall, sofar: nat)
    requires w.pid !in c.at && !c.q.noblock && sofar <= |w.data| && Room(c.q) && Bounded(c.q)
    ensures LeavesRoom(w, c.q, WriteLock(c, w, sofar))
    decreases |w.data| - sofar, 3
  {
    hide ProcTable.Table.Qlock, WriteHeld, Balloc;
    var (t, l, ok) := c.t.Qlock(c.q.wlock, w.pid);
    if ok {
      HeldLeavesRoom(c.(t := t, q := c.q.(wlock := l)), w, sofar);
    }
  }

  /** One entry of a write: from room if it has yet to queue a piece, and in any case from within bounds. */
  lemma QwriteLeavesRoom(c: Ctx, w: WriteCall)
    requires !c.q.noblock && Bounded(c.q)
    requires w.pid in c.at ==> !c.at[w.pid].Read? && c.at[w.pid].sofar <= |w.data|
    requires (w.pid in c.at && c.at[w.pid].Flow?) || Room(c.q) || (w.pid !in c.at && c.q.wlock.locked)
    ensures LeavesRoom(w, c.q, QwriteSpec(c, w))
            || (w.pid !in c.at && c.q.wlock.locked && QwriteSpec(c, w).0.q == c.q.(wlock := QwriteSpec(c, w).0.q.wlock))
  {
    hide ProcTable.Table.Postnote, ProcTable.Table.Qunlock, ProcTable.Table.Interrupted, WriteHeld, WriteFlow, Balloc;
    var c0 := c.(at := Without(c.at, w.pid));
    if w.pid in c.at {
      var sofar := c.at[w.pid].sofar;
      if c.at[w.pid].Wlock? {
        HeldLeavesRoom(c0, w, sofar);
      } else {
        FlowLeavesRoom(c0, w, sofar);
        FlowLeavesRoom(c0.(t := c0.t.Interrupted(w.pid).0), w, sofar);
      }
    } else if Room(c.q) {
      LockLeavesRoom(c0, w, 0);
    }
  }

  /** Some writer has queued its piece on `k` and is still in flow control. */
  ghost predicate Flowing(at: map<Pid, At>, calls: map<Pid, Call>, k: Qk) {
    exists p :: p in calls && p in at && calls[p].Writing? && calls[p].k == k && at[p].Flow?
  }

  ghost predicate BoundInv(s: Sys, k: Qk) {
    k in s.qs && Bounded(s.qs[k]) && (Room(s.qs[k]) || Flowing(s.at, s.calls, k))
  }

  /** A writer in flow control holds the lock, so nobody else is about to queue a piece. */
  lemma FlowingHolds(k: Qk, q: QueueState, t: Table, at: map<Pid, At>, calls: map<Pid, Call>, pid: Pid)
    requires QueueInv(k, q, t, calls) && Flowing(at, calls, k)
    requires forall p :: p in calls && p in at && calls[p].k == k ==> CallInv(p, at[p], calls[p], q, t)
    ensures q.wlock.locked
    ensures pid in calls && calls[pid].Writing? && calls[pid].k == k && pid in t.tab && t.tab[pid].state == Runnable && pid in at ==> at[pid].Flow?
  {
    var hr, hw :| Core(k, q, t, Readers(calls, k), Writers(calls, k), hr, hw);
    var p :| p in calls && p in at && calls[p].Writing? && calls[p].k == k && at[p].Flow?;
    assert p in Writers(calls, k) && CallInv(p, at[p], calls[p], q, t);
    if pid in calls && calls[pid].Writing? && calls[pid].k == k && t.tab[pid].state == Runnable {
      assert pid in Writers(calls, k);
    }
  }

  lemma FlowingIn(s: Sys, k: Qk, pid: Pid)
    requires Inv(s) && k in s.qs && Flowing(s.at, s.calls, k)
    ensures s.qs[k].wlock.locked
    ensures pid in s.calls && s.calls[pid].Writing? && s.calls[pid].k == k && pid in s.t.tab && s.t.tab[pid].state == Runnable && pid in s.at ==> s.at[pid].Flow?
  {
    hide QueueInv, CallInv, ProcsInv, Flowing;
    FlowingHolds(k, s.qs[k], s.t, s.at, s.calls, pid);
  }

  /** Somebody else in flow control on `k` still is after an entry of `pid`. */
  lemma FlowingStays(s: Sys, pid: Pid, call: Call, s': Sys, reply: Reply, k: Qk)
    requires EntrySeen(s, pid, call, s', reply) && WritersRecorded(s) && Flowing(s.at, s.calls, k)
    requires pid in s.at ==> !s.at[pid].Flow? || k != call.k
    requires pid in s.calls ==> s.calls[pid] == call
    ensures Flowing(s'.at, s'.calls, k)
  {
    var p :| p in s.calls && p in s.at && s.calls[p].Writing? && s.calls[p].k == k && s.at[p].Flow?;
    assert p != pid;
    assert p in s'.calls && p in s'.at && s'.calls[p].Writing? && s'.calls[p].k == k && s'.at[p].Flow?;
  }

  lemma EntryBounds(s: Sys, pid: Pid, call: Call, outranks: bool)
    requires Inv(s) && Calling(s, pid, call) && BoundInv(s, call.k)
    ensures var (s', reply) := Enter(s, pid, call, outranks);
            BoundInv(s', call.k) || reply == GotWrite(Err(EINTR))
  {
    hide QueueInv, CallInv, Enter, Inv, QreadSpec, QwriteSpec, Takes, Noted, Asleep, Facing, Flowing, Calling;
    CallingIs(s, pid, call);
    CallingMine(s, pid, call);
    CallingRuns(s, pid, call);
    InvRecorded(s);
    EntryIsSeen(s, pid, call, outranks);
    DeviceReply(s, pid, call, outranks);
    InvEnd(s, call.k);
    var (s', reply) := Enter(s, pid, call, outranks);
    var k := call.k;
    var c := Ctx(s.qs[k], s.at, s.t);
    if call.Reading? {
      var r := ReadCall(pid, k.devno, k.which, call.n);
      QreadEnds(c, r);
    } else {
      var w := WriteCall(pid, k.devno, k.which, call.data, !call.mounted, outranks);
      if Flowing(s.at, s.calls, k) {
        FlowingIn(s, k, pid);
      }
      QwriteLeavesRoom(c, w);
      FlowOf(s', pid, call);
    }
    if Flowing(s.at, s.calls, k) && (pid in s.at ==> !s.at[pid].Flow?) {
      FlowingStays(s, pid, call, s', reply, k);
    }
  }

  lemma FlowOf(s: Sys, pid: Pid, call: Call)
    ensures pid in s.calls && s.calls[pid] == call && call.Writing? && pid in s.at && s.at[pid].Flow? ==> Flowing(s.at, s.calls, call.k)
  {}

  /** The queue on which an event leaves a writer's piece with no writer: one whose wait for room a note ended. */
  function Spoils(s: Sys, e: Event, reply: Reply): set<Qk> {
    if reply == GotWrite(Err(EINTR)) && Entering(s, e).Some? then {Entering(s, e).value.1.k} else {}
  }

  lemma OtherBounds(s: Sys, pid: Pid, call: Call, outranks: bool, k: Qk)
    requires Inv(s) && Calling(s, pid, call) && BoundInv(s, k) && k != call.k
    ensures BoundInv(Enter(s, pid, call, outranks).0, k)
  {
    hide Enter, Inv, Flowing, Calling;
    CallingIs(s, pid, call);
    CallingMine(s, pid, call);
    InvRecorded(s);
    EntryIsSeen(s, pid, call, outranks);
    if Flowing(s.at, s.calls, k) {
      FlowingStays(s, pid, call, Enter(s, pid, call, outranks).0, Enter(s, pid, call, outranks).1, k);
    }
  }

  /** A close keeps a queue within bounds: one reopened with data in it was not closed. */
  lemma CloseBounds(open: set<Qk>, s: Sys, end: Qk, k: Qk)
    requires Inv(s) && Enabled(s, Close(end)) && Fit(s, Close(end)) && BoundInv(s, k) && OpenedInv(open, s)
    ensures BoundInv(CloseStep(s, end), k)
  {
    hide Inv, WakeBoth, Flowing;
    InvEnd(s, k);
  }

  /** Every step keeps a queue it does not spoil within bounds. */
  lemma BoundKeeps(open: set<Qk>, s: Sys, e: Event, k: Qk)
    requires Inv(s) && Enabled(s, e) && Fit(s, e) && OpenedInv(open, s) && k in Apply(s, e).0.qs
    requires k in s.qs ==> BoundInv(s, k)
    requires k !in Spoils(s, e, Apply(s, e).1)
    ensures BoundInv(Apply(s, e).0, k)
  {
    hide Inv, Enter, CloseStep, Calling, Flowing, OpenedInv;
    match e
    case Attach => InvSize(s);
    case Open(end) =>
    case Close(end) =>
      InvEnd(s, end);
      ClosedOk(s, end);
      CloseBounds(open, s, end, k);
    case StartRead(pid, end, n) => EntryBound(s, s, pid, Reading(end, n), false, k);
    case StartWrite(pid, end, data, mounted, outranks) =>
      InvMore(s);
      EntryBound(s, s.(nextid := s.nextid + 1), pid, Writing(Peer(end), data, mounted, s.nextid), outranks, k);
    case Resume(pid, outranks) => EntryBound(s, s, pid, s.calls[pid], outranks, k);
    case Note(pid) =>
    case Elsewhere(pid, rec) =>
  }

  lemma InvSize(s: Sys)
    requires Inv(s)
    ensures s.qsize >= 2
  {
    hide QueuesInv, CallsInv;
  }

  lemma EntryBound(s: Sys, s1: Sys, pid: Pid, call: Call, outranks: bool, k: Qk)
    requires Inv(s1) && s1 == s.(nextid := s1.nextid) && pid in s.t.tab && s.t.tab[pid].state == Runnable
    requires if pid in s.calls then call == s.calls[pid] else call.k in s.qs
    requires Enterable(s1, pid, call)
    requires k in Enter(s1, pid, call, outranks).0.qs && (k in s.qs ==> BoundInv(s, k))
    requires Enter(s1, pid, call, outranks).1 == GotWrite(Err(EINTR)) ==> k != call.k
    ensures BoundInv(Enter(s1, pid, call, outranks).0, k)
  {
    hide Inv, Enter, Calling, Flowing;
    CallingOf(s1, pid, call);
    EntryIsSeen(s1, pid, call, outranks);
    if k == call.k {
      EntryBounds(s1, pid, call, outranks);
    } else {
      OtherBounds(s1, pid, call, outranks, k);
    }
  }

  /** The queues a run has spoilt. */
  ghost function Spoilt(qsize: nat, es: seq<Event>): set<Qk>
    requires qsize >= 2 && Exec(qsize, es).Some?
  {
    if es == [] then
      {}
    else
      var (front, e) := (es[..|es| - 1], es[|es| - 1]);
      var s := Exec(qsize, front).value;
      InvFit(s, e);
      Spoilt(qsize, front) + Spoils(s, e, Apply(s, e).1)
  }

  /**
    In every run, a queue on which no note ended a writer's wait for room stays
    below its limit and the allocation of one largest block.
   */
  lemma {:induction false} LengthBound(qsize: nat, es: seq<Event>, k: Qk)
    requires qsize >= 2 && Exec(qsize, es).Some? && k in Exec(qsize, es).value.qs && k !in Spoilt(qsize, es)
    ensures BoundInv(Exec(qsize, es).value, k)
    ensures Exec(qsize, es).value.qs[k].len < Exec(qsize, es).value.qs[k].limit + Balloc(MAXATOMIC)
  {
    hide Inv, Apply, Flowing, Fit, Enabled, Spoils, Opened, OpenedInv;
    if es != [] {
      var (front, e) := (es[..|es| - 1], es[|es| - 1]);
      var s := Exec(qsize, front).value;
      InvFit(s, e);
      if k in s.qs {
        LengthBound(qsize, front, k);
      }
      OpenedHolds(qsize, front);
      BoundKeeps(Opened(qsize, front), s, e, k);
    }
  }
}
