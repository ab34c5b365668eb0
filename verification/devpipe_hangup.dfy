/**
  What readers and writers find once an end of a pipe has gone, from its last
  close until the pipe is quiet and may be used again.
 */
module PipeHangup {
  import opened Bytes
  import opened ProcTable
  import opened Qio
  import opened QueueWakeup
  import opened QueueStream
  import opened PipeSystem
  import opened PipeStream
  import opened QueueAnswers
  import opened PipeAnswers

  // ---- one entry, of a queue hung up ----

  /**
    How an entry of a write ends that finds its queue hung up, whoever has the
    lock: in line for it, or failed, or over because its last piece had been
    queued before.
   */
  ghost predicate WriteFails(c: Ctx, w: WriteCall, out: (Ctx, Result<nat>)) {
    || (w.pid in out.0.at && out.0.at[w.pid].Wlock?)
    || (w.pid !in out.0.at && out.1 == Err(c.q.err))
    || (w.pid !in out.0.at && out.1 == Err(EINTR) && w.pid in c.at && c.at[w.pid].Flow? && c.at[w.pid].slept)
    || (w.pid !in out.0.at && out.1 == Ok(|w.data|) && !HasPiece(c.at, w.pid, w.data))
  }

  /** Whether a write has a piece it has not queued. */
  predicate HasPiece(at: map<Pid, At>, pid: Pid, data: bytes) {
    pid in at && at[pid].Flow? ==> at[pid].sofar + MAXATOMIC < |data|
  }

  lemma HeldClosed(c: Ctx, w: WriteCall, sofar: nat)
    requires c.q.closed && sofar <= |w.data| && w.pid !in c.at
    ensures var (c', res) := WriteHeld(c, w, sofar); c'.q.blocks == c.q.blocks && w.pid !in c'.at && res == Err(c.q.err)
  {
    hide ProcTable.Table.Qunlock, ProcTable.Table.Postnote;
    assert WriteHeld(c, w, sofar) == WriteFail(c, w, c.q.err);
  }

  lemma LockClosed(c: Ctx, w: WriteCall, sofar: nat)
    requires c.q.closed && sofar <= |w.data| && w.pid !in c.at
    ensures var (c', res) := WriteLock(c, w, sofar);
            c'.q.blocks == c.q.blocks && if w.pid in c'.at then c'.at[w.pid].Wlock? else res == Err(c.q.err)
  {
    hide ProcTable.Table.Qlock, WriteHeld;
    var (t, l, ok) := c.t.Qlock(c.q.wlock, w.pid);
    HeldClosed(c.(t := t, q := c.q.(wlock := l)), w, sofar);
  }

  lemma FlowClosed(c: Ctx, w: WriteCall, sofar: nat)
    requires c.q.closed && sofar <= |w.data| && w.pid !in c.at
    ensures var (c', res) := WriteFlow(c, w, sofar);
            && c'.q.blocks == c.q.blocks
            && if w.pid in c'.at then c'.at[w.pid].Wlock?
               else res == Err(c.q.err) || (res == Ok(|w.data|) && sofar + MAXATOMIC >= |w.data|)
  {
    hide ProcTable.Table.Qunlock, WriteLock;
    var c1 := c.WUnlock();
    assert WriteFlow(c, w, sofar) == WriteNext(c1, w, sofar);
    if sofar + w.Piece(sofar) < |w.data| {
      LockClosed(c1, w, sofar + w.Piece(sofar));
    }
  }

  /** An entry of a write, from wherever it was, adds nothing to a queue hung up. */
  lemma WriteHungUp(c: Ctx, w: WriteCall)
    requires c.q.closed && (w.pid in c.at ==> !c.at[w.pid].Read? && c.at[w.pid].sofar <= |w.data|)
    ensures QwriteSpec(c, w).0.q.blocks == c.q.blocks && WriteFails(c, w, QwriteSpec(c, w))
  {
    hide ProcTable.Table.Qunlock, ProcTable.Table.Postnote, ProcTable.Table.Interrupted, WriteFlow, WriteHeld, WriteLock;
    var c0 := c.(at := Without(c.at, w.pid));
    if w.pid !in c.at {
      LockClosed(c0, w, 0);
    } else if c.at[w.pid].Wlock? {
      HeldClosed(c0, w, c.at[w.pid].sofar);
    } else {
      FlowClosed(c0, w, c.at[w.pid].sofar);
      FlowClosed(c0.(t := c0.t.Interrupted(w.pid).0), w, c.at[w.pid].sofar);
    }
  }

  // ---- every run ----

  /** A pipe's last close reopens both its queues. */
  predicate Reopens(s: Sys, end: Qk) {
    end in s.qref && Peer(end) in s.qref && s.qref[end] <= 1 && s.qref[Peer(end)] == 0
  }

  /** What a read of a queue hung up answers: nothing yet, or a note's error; the front of what is queued; or that there is nothing. */
  ghost predicate ReadReply(q: QueueState, q': QueueState, reply: Reply) {
    if reply == Pending || reply == GotRead(Err(EINTR)) then
      q'.blocks == q.blocks && q'.eof == q.eof
    else if q.blocks != [] then
      reply.GotRead? && reply.read.Ok? && reply.read.value + Flat(q'.blocks) == Flat(q.blocks) && q'.eof == q.eof
    else
      q'.blocks == [] && q'.eof == q.eof + 1 && reply == GotRead(if q.eof < 3 then Ok([]) else Err(EHUNGUP))
  }

  lemma AnsweredReply(s: Sys, s': Sys, pid: Pid, call: Call, outranks: bool, reply: Reply)
    requires Answered(s, s', pid, call, outranks, reply) && call.Reading? && QueueOk(s.qs[call.k]) && s.qs[call.k].closed
    ensures ReadReply(s.qs[call.k], s'.qs[call.k], reply)
  {
    hide Flat, Takes, Noted, Asleep, SumAlloc;
    if s.qs[call.k].blocks != [] && reply.GotRead? && reply.read.Ok? {
      TakesFlat(s.qs[call.k].blocks, call.n, reply.read.value, s'.qs[call.k].blocks);
    }
  }

  lemma AnsweredKept(s: Sys, s': Sys, pid: Pid, call: Call, outranks: bool, reply: Reply)
    requires Answered(s, s', pid, call, outranks, reply)
    ensures Kept(s.qs[call.k], s'.qs[call.k]) && (call.Writing? ==> s'.qs[call.k].eof == s.qs[call.k].eof)
  {}

  /** A write that finds its queue hung up. */
  lemma EntryWrites(s: Sys, pid: Pid, call: Call, outranks: bool)
    requires Inv(s) && Calling(s, pid, call) && call.Writing? && s.qs[call.k].closed
    ensures var (s', reply) := Enter(s, pid, call, outranks);
            && call.k in s'.qs && s'.qs[call.k].blocks == s.qs[call.k].blocks
            && (HasPiece(s.at, pid, call.data) ==> reply in {Pending, GotWrite(Err(EHUNGUP)), GotWrite(Err(EINTR))})
  {
    hide QueueInv, CallInv, Enter, Inv, QwriteSpec, Calling;
    CallingIs(s, pid, call);
    CallingRuns(s, pid, call);
    EntryIsSeen(s, pid, call, outranks);
    DeviceReply(s, pid, call, outranks);
    InvEnd(s, call.k);
    WriteHungUp(On(s, call.k), WriteCall(pid, call.k.devno, call.k.which, call.data, !call.mounted, outranks));
    EnterLeft(s, pid, call, outranks);
  }

  lemma EventWrites(s: Sys, e: Event)
    requires Inv(s) && Enabled(s, e) && Fit(s, e) && Entering(s, e).Some?
    ensures var (s', reply) := Apply(s, e);
            var (pid, call) := Entering(s, e).value;
            call.k in s.qs && (call.Writing? && s.qs[call.k].closed ==>
              && call.k in s'.qs && s'.qs[call.k].blocks == s.qs[call.k].blocks
              && (HasPiece(s.at, pid, call.data) ==> reply in {Pending, GotWrite(Err(EHUNGUP)), GotWrite(Err(EINTR))}))
  {
    hide Inv, Enter, HasPiece, Calling, CallInv;
    EntryQueue(s, e);
    var (pid, call) := Entering(s, e).value;
    if call.Writing? && s.qs[call.k].closed {
      InvMore(s);
      var s1 := if e.StartWrite? then s.(nextid := s.nextid + 1) else s;
      CallingOf(s1, pid, call);
      EntryWrites(s1, pid, call, Outranked(e));
    }
  }

  lemma EntryQueue(s: Sys, e: Event)
    requires Inv(s) && Enabled(s, e) && Fit(s, e) && Entering(s, e).Some?
    ensures Entering(s, e).value.1.k in s.qs
  {
    hide Apply, Inv;
    EventAnswers(s, e);
  }

  /** An event that enters a call, and the queue `k`. */
  lemma EventOn(s: Sys, e: Event, k: Qk)
    requires Inv(s) && Enabled(s, e) && Fit(s, e) && k in s.qs && Entering(s, e).Some?
    ensures var (s', reply) := Apply(s, e);
            var (pid, call) := Entering(s, e).value;
            && s'.qs.Keys == s.qs.Keys && s'.qref == s.qref
            && (k != call.k ==> s'.qs[k] == s.qs[k])
            && s'.qs[k].closed == s.qs[k].closed
            && (k == call.k && call.Reading? && s.qs[k].closed ==> ReadReply(s.qs[k], s'.qs[k], reply))
            && (k == call.k && call.Writing? ==> s'.qs[k].eof == s.qs[k].eof)
            && (k == call.k && call.Writing? && s.qs[k].closed ==>
                  && s'.qs[k].blocks == s.qs[k].blocks
                  && (HasPiece(s.at, pid, call.data) ==> reply in {Pending, GotWrite(Err(EHUNGUP)), GotWrite(Err(EINTR))}))
  {
    hide Inv, Apply, ReadReply, HasPiece, Answered, Enabled, Fit, Entering, QueueOk;
    var (s', reply) := Apply(s, e);
    var (pid, call) := Entering(s, e).value;
    EventAnswers(s, e);
    EventWrites(s, e);
    InvEnd(s, call.k);
    AnsweredKept(s, s', pid, call, Outranked(e), reply);
    if call.Reading? && s.qs[call.k].closed {
      AnsweredReply(s, s', pid, call, Outranked(e), reply);
    }
  }

  /** In every run, a read entered of a queue hung up, by anybody, answers as it should. */
  lemma ReadsAfterHangup(qsize: nat, es: seq<Event>, e: Event)
    requires qsize >= 2 && Exec(qsize, es).Some? && Enabled(Exec(qsize, es).value, e)
    requires var s := Exec(qsize, es).value;
             Entering(s, e).Some? && var call := Entering(s, e).value.1; call.Reading? && call.k in s.qs && s.qs[call.k].closed
    ensures var s := Exec(qsize, es).value;
            && Fit(s, e)
            && var (s', reply) := Apply(s, e);
               var k := Entering(s, e).value.1.k;
               k in s'.qs && ReadReply(s.qs[k], s'.qs[k], reply)
  {
    hide Inv, Exec, Apply, ReadReply, Enabled;
    var s := Exec(qsize, es).value;
    InvFit(s, e);
    EventOn(s, e, Entering(s, e).value.1.k);
  }

  /** In every run, a write entered of a queue hung up, by anybody, adds nothing, and fails if it has anything left to add. */
  lemma WritesAfterHangup(qsize: nat, es: seq<Event>, e: Event)
    requires qsize >= 2 && Exec(qsize, es).Some? && Enabled(Exec(qsize, es).value, e)
    requires var s := Exec(qsize, es).value;
             Entering(s, e).Some? && var call := Entering(s, e).value.1; call.Writing? && call.k in s.qs && s.qs[call.k].closed
    ensures var s := Exec(qsize, es).value;
            && Fit(s, e)
            && var (s', reply) := Apply(s, e);
               var (pid, call) := Entering(s, e).value;
               && call.k in s'.qs && s'.qs[call.k].blocks == s.qs[call.k].blocks
               && (HasPiece(s.at, pid, call.data) ==> reply in {Pending, GotWrite(Err(EHUNGUP)), GotWrite(Err(EINTR))})
  {
    hide Inv, Exec, Apply, ReadReply, Enabled, HasPiece;
    var s := Exec(qsize, es).value;
    InvFit(s, e);
    EventOn(s, e, Entering(s, e).value.1.k);
  }

  /**
    Of a queue since a last close of either end hung it up: what was queued then;
    what reads have answered, in order, by whomever; what its own end's last close
    threw away; and the answers that there was nothing.
   */
  datatype Hung = Hung(had: bytes, given: bytes, lost: bytes, empty: seq<Result<bytes>>)

  function HungStep(h: Option<Hung>, s: Sys, e: Event, reply: Reply, k: Qk): Option<Hung>
    requires k in s.qs
  {
    if e.Close? && k in {e.end, Peer(e.end)} && e.end in s.qref && s.qref[e.end] <= 1 then
      if Reopens(s, e.end) then
        None
      else
        var left := Flat(s.qs[k].blocks);
        var h := if h.Some? then h.value else Hung(left, [], [], []);
        Some(if k == e.end then h.(lost := left + h.lost) else h)
    else if h.Some? && Entering(s, e).Some? && Entering(s, e).value.1.Reading? && Entering(s, e).value.1.k == k
            && reply.GotRead? && reply.read != Err(EINTR) then
      if s.qs[k].blocks != [] then
        Some(h.value.(given := h.value.given + if reply.read.Ok? then reply.read.value else []))
      else
        Some(h.value.(empty := h.value.empty + [reply.read]))
    else
      h
  }

  /** The history of queue `k` since it was last hung up; `None` if it has not been, or its pipe has reopened. */
  ghost function Since(qsize: nat, es: seq<Event>, k: Qk): Option<Hung>
    requires qsize >= 2 && Exec(qsize, es).Some?
  {
    if es == [] then
      None
    else
      var (front, e) := (es[..|es| - 1], es[|es| - 1]);
      var s := Exec(qsize, front).value;
      InvFit(s, e);
      if k in s.qs then HungStep(Since(qsize, front, k), s, e, Apply(s, e).1, k) else None
  }

  ghost predicate HungInv(h: Option<Hung>, q: QueueState) {
    && (h.Some? <==> q.closed)
    && (h.Some? ==> Drained(h.value, q))
  }

  ghost predicate Drained(h: Hung, q: QueueState) {
    && h.given + Flat(q.blocks) + h.lost == h.had
    && |h.empty| == q.eof
    && forall i :: 0 <= i < |h.empty| ==> h.empty[i] == if i < 3 then Ok([]) else Err(EHUNGUP)
  }

  /** What a last close does to a queue of its pipe. */
  lemma HungClose(h: Option<Hung>, s: Sys, end: Qk, k: Qk)
    requires Inv(s) && Enabled(s, Close(end)) && Fit(s, Close(end)) && k in s.qs && HungInv(h, s.qs[k])
    ensures k in CloseStep(s, end).qs && HungInv(HungStep(h, s, Close(end), NoReply, k), CloseStep(s, end).qs[k])
  {
    hide Inv, WakeBoth, Flat;
    InvEnd(s, end);
    InvEof(s, k);
    FlatNothing();
    if k == end && s.qref[end] <= 1 && !Reopens(s, end) {
      var left := Flat(s.qs[k].blocks);
      assert forall g, l: bytes :: g + [] + (left + l) == g + left + l;
    }
  }

  lemma FlatNothing()
    ensures Flat([]) == []
  {}

  lemma HungRead(h: Hung, q: QueueState, q': QueueState, reply: Reply)
    requires Drained(h, q) && ReadReply(q, q', reply)
    ensures var h' := if reply.GotRead? && reply.read != Err(EINTR) then
                        if q.blocks != [] then h.(given := h.given + if reply.read.Ok? then reply.read.value else [])
                        else h.(empty := h.empty + [reply.read])
                      else h;
            Drained(h', q')
  {
    hide Flat;
    FlatNothing();
    if reply.GotRead? && reply.read.Ok? && q.blocks != [] {
      Regroup(h.given, reply.read.value, Flat(q'.blocks), h.lost);
    }
  }

  lemma Regroup(a: bytes, b: bytes, c: bytes, d: bytes)
    ensures a + b + c + d == a + (b + c) + d
  {}

  lemma HungKeeps(h: Option<Hung>, s: Sys, e: Event, k: Qk)
    requires Inv(s) && Enabled(s, e) && Fit(s, e) && k in s.qs && HungInv(h, s.qs[k])
    ensures k in Apply(s, e).0.qs && HungInv(HungStep(h, s, e, Apply(s, e).1, k), Apply(s, e).0.qs[k])
  {
    hide Inv, Drained, CloseStep, Enter, ReadReply, HasPiece;
    if Entering(s, e).Some? {
      hide Apply;
      EventOn(s, e, k);
      var call := Entering(s, e).value.1;
      if h.Some? && call.k == k {
        if call.Reading? {
          HungRead(h.value, s.qs[k], Apply(s, e).0.qs[k], Apply(s, e).1);
        } else {
          SameDrained(h.value, s.qs[k], Apply(s, e).0.qs[k]);
        }
      }
    } else if e.Close? {
      HungClose(h, s, e.end, k);
    } else if e.Attach? {
      InvNew(s);
    }
  }

  lemma SameDrained(h: Hung, q: QueueState, q': QueueState)
    requires Drained(h, q) && q'.blocks == q.blocks && q'.eof == q.eof
    ensures Drained(h, q')
  {}

  /** A queue just attached is open. */
  lemma NewOpen(s: Sys, e: Event, k: Qk)
    requires Inv(s) && Enabled(s, e) && Fit(s, e) && k !in s.qs && k in Apply(s, e).0.qs
    ensures !Apply(s, e).0.qs[k].closed
  {
    hide Inv, Enter, CloseStep;
    if Entering(s, e).Some? {
      EntryKeys(s, e);
    } else if e.Close? {
      InvEnd(s, e.end);
      ClosedOk(s, e.end);
    }
  }

  lemma EntryKeys(s: Sys, e: Event)
    requires Inv(s) && Enabled(s, e) && Fit(s, e) && Entering(s, e).Some?
    ensures Apply(s, e).0.qs.Keys == s.qs.Keys && Apply(s, e).0.qref == s.qref
  {
    hide Inv, Apply;
    InvFit(s, e);
    EventOn(s, e, Entering(s, e).value.1.k);
  }

  /**
    In every run, of a queue hung up, from that close until the pipe reopens: what
    reads by whomever have answered, and what is still queued, and what its own
    end's close threw away, are what was queued then; and of the answers that
    there was nothing the first three are end of file and the rest the error.
   */
  lemma {:induction false} DrainThenEof(qsize: nat, es: seq<Event>, k: Qk)
    requires qsize >= 2 && Exec(qsize, es).Some? && k in Exec(qsize, es).value.qs
    ensures var (h, q) := (Since(qsize, es, k), Exec(qsize, es).value.qs[k]);
            && (h.Some? <==> q.closed)
            && (h.Some? ==>
                  && h.value.given + Flat(q.blocks) + h.value.lost == h.value.had
                  && forall i :: 0 <= i < |h.value.empty| ==> h.value.empty[i] == if i < 3 then Ok([]) else Err(EHUNGUP))
    ensures HungInv(Since(qsize, es, k), Exec(qsize, es).value.qs[k])
  {
    hide Inv, Apply, Fit, Enabled, HungStep, Flat;
    if es != [] {
      var (front, e) := (es[..|es| - 1], es[|es| - 1]);
      var s := Exec(qsize, front).value;
      InvFit(s, e);
      if k in s.qs {
        DrainThenEof(qsize, front, k);
        HungKeeps(Since(qsize, front, k), s, e, k);
      } else {
        NewOpen(s, e, k);
      }
    }
  }

  /**
    The last close of an end while its peer is open: its peer's queue keeps what
    was in it and is hung up, with no empty read counted yet if it was open; its
    own is closed and empty. Nobody is left asleep on either.
   */
  lemma LastClose(s: Sys, end: Qk)
    requires Inv(s) && Enabled(s, Close(end)) && Fit(s, Close(end)) && s.qref[end] == 1 && s.qref[Peer(end)] > 0
    ensures var s' := CloseStep(s, end);
            var (own, other) := (s'.qs[end], s'.qs[Peer(end)]);
            && other.closed && other.err == EHUNGUP && other.blocks == s.qs[Peer(end)].blocks
            && (!s.qs[Peer(end)].closed ==> other.eof == 0)
            && own.closed && own.err == EHUNGUP && own.blocks == []
            && (forall p :: p in s'.calls && s'.calls[p].k in {end, Peer(end)} ==> p in s'.t.tab && s'.t.tab[p].state != Wakeme)
  {
    hide Inv, QueueInv, WakeBoth, QueueOk;
    InvEnd(s, end);
    InvEof(s, Peer(end));
    var s' := CloseStep(s, end);
    CloseKeeps(s, end);
    forall p | p in s'.calls && s'.calls[p].k in {end, Peer(end)} ensures p in s'.t.tab && s'.t.tab[p].state != Wakeme {
      InvAt(s', s'.calls[p].k);
      QueueSafety(s'.calls[p].k, s'.qs[s'.calls[p].k], s'.t, s'.calls, p);
    }
  }

  lemma InvEof(s: Sys, k: Qk)
    requires Inv(s) && k in s.qs
    ensures !s.qs[k].closed ==> s.qs[k].eof == 0
  {
    hide QueueInv, CallInv;
    InvQueue(s, k);
  }

  lemma InvAt(s: Sys, k: Qk)
    requires Inv(s) && k in s.qs
    ensures QueueInv(k, s.qs[k], s.t, s.calls)
  {
    hide QueueInv, CallInv;
  }

  // ---- a pipe used again ----

  /** The last close of all reopens both queues; its own is empty, and its peer's holds what it held. */
  lemma Reopening(s: Sys, end: Qk)
    requires Inv(s) && Fit(s, Close(end)) && Reopens(s, end)
    ensures var s' := CloseStep(s, end);
            && (forall k :: k in {end, Peer(end)} ==>
                  var q := s'.qs[k];
                  !q.closed && q.starve && q.eof == 0 && q.limit == q.inilim == s.qs[k].inilim)
            && s'.qs[end].blocks == []
            && s'.qs[Peer(end)].blocks == s.qs[Peer(end)].blocks
  {
    hide Inv, WakeBoth;
    InvEnd(s, end);
  }

  /** The ends opened since their pipe was attached or last reopened. */
  ghost function Opened(qsize: nat, es: seq<Event>): set<Qk>
    requires qsize >= 2 && Exec(qsize, es).Some?
  {
    if es == [] then
      {}
    else
      var (front, e) := (es[..|es| - 1], es[|es| - 1]);
      OpenedStep(Opened(qsize, front), Exec(qsize, front).value, e)
  }

  function OpenedStep(open: set<Qk>, s: Sys, e: Event): set<Qk> {
    if e.Open? then
      open + {e.end}
    else if e.Close? && Reopens(s, e.end) then
      open - {e.end, Peer(e.end)}
    else
      open
  }

  /** An end that was opened, and is not open, has an empty, closed queue; and no end that was not has a closed one. */
  ghost predicate Opens(open: set<Qk>, qs: map<Qk, QueueState>, qref: map<Qk, nat>) {
    && qref.Keys == qs.Keys && open <= qs.Keys
    && (forall k :: k in qs && qref[k] > 0 ==> k in open)
    && (forall k :: k in qs && k in open && qref[k] == 0 ==> qs[k].closed && qs[k].blocks == [])
    && (forall k :: k in qs && qs[k].closed ==> k in open)
  }

  ghost predicate OpenedInv(open: set<Qk>, s: Sys) {
    Opens(open, s.qs, s.qref)
  }

  lemma EntryOpened(open: set<Qk>, s: Sys, e: Event)
    requires Inv(s) && Enabled(s, e) && Fit(s, e) && OpenedInv(open, s) && Entering(s, e).Some?
    ensures OpenedInv(open, Apply(s, e).0)
  {
    hide Inv, Apply, ReadReply, HasPiece, Entering;
    EntryKeys(s, e);
    var s' := Apply(s, e).0;
    forall k | k in s.qs
      ensures s'.qs[k].closed == s.qs[k].closed
      ensures s.qs[k].closed && s.qs[k].blocks == [] ==> s'.qs[k].blocks == []
    {
      EventOn(s, e, k);
      ReadsNothing(s.qs[k], s'.qs[k], Apply(s, e).1);
    }
  }

  lemma ReadsNothing(q: QueueState, q': QueueState, reply: Reply)
    ensures ReadReply(q, q', reply) && q.blocks == [] ==> q'.blocks == []
  {}

  lemma OpenedKeeps(open: set<Qk>, s: Sys, e: Event)
    requires Inv(s) && Enabled(s, e) && Fit(s, e) && OpenedInv(open, s)
    ensures OpenedInv(OpenedStep(open, s, e), Apply(s, e).0)
  {
    hide Inv, Enter, WakeBoth;
    if Entering(s, e).Some? {
      EntryOpened(open, s, e);
    } else if e.Attach? {
      OpenedAttach(open, s);
    } else if e.Close? {
      OpenedClose(open, s, e.end);
    }
  }

  lemma OpenedAttach(open: set<Qk>, s: Sys)
    requires Inv(s) && OpenedInv(open, s)
    ensures OpenedInv(open, AttachStep(s))
  {
    hide Inv;
    InvNew(s);
  }

  /** What a close comes to, for each queue. */
  lemma CloseOn(s: Sys, end: Qk)
    requires Inv(s) && Enabled(s, Close(end)) && Fit(s, Close(end))
    ensures var s' := CloseStep(s, end);
            && s'.qs.Keys == s.qs.Keys && s'.qref == s.qref[end := s.qref[end] - 1] && end != Peer(end) && Peer(Peer(end)) == end
            && (forall k :: k in s.qs && k != end && k != Peer(end) ==> s'.qs[k] == s.qs[k])
            && (s.qref[end] > 1 ==> s'.qs == s.qs)
            && (s.qref[end] == 1 ==>
                  && s'.qs[end].blocks == []
                  && s'.qs[end].closed == s'.qs[Peer(end)].closed == (s.qref[Peer(end)] > 0))
  {
    hide Inv, WakeBoth, QueueOk;
    InvEnd(s, end);
    ClosedOk(s, end);
  }

  lemma OpenedClose(open: set<Qk>, s: Sys, end: Qk)
    requires Inv(s) && Enabled(s, Close(end)) && Fit(s, Close(end)) && OpenedInv(open, s)
    ensures OpenedInv(OpenedStep(open, s, Close(end)), CloseStep(s, end))
  {
    assert s.qref[end] > 0;
    hide Inv, CloseStep, Enabled;
    CloseOn(s, end);
    var (s', p) := (CloseStep(s, end), Peer(end));
    OpenedAfter(open, s.qs, s.qref, s'.qs, s'.qref, end, p);
  }

  lemma OpenedAfter(open: set<Qk>, qs: map<Qk, QueueState>, qref: map<Qk, nat>, qs': map<Qk, QueueState>, qref': map<Qk, nat>, end: Qk, p: Qk)
    requires Opens(open, qs, qref) && end in qs && p in qs && end != p && qref[end] > 0
    requires qs'.Keys == qs.Keys && qref' == qref[end := qref[end] - 1]
    requires forall k :: k in qs && k != end && k != p ==> qs'[k] == qs[k]
    requires qref[end] > 1 ==> qs' == qs
    requires qref[end] == 1 ==> qs'[end].blocks == [] && qs'[end].closed == qs'[p].closed == (qref[p] > 0)
    ensures Opens(if qref[end] <= 1 && qref[p] == 0 then open - {end, p} else open, qs', qref')
  {
    var open' := if qref[end] <= 1 && qref[p] == 0 then open - {end, p} else open;
    forall k | k in qs
      ensures qref'[k] > 0 || qs'[k].closed ==> k in open'
      ensures k in open' && qref'[k] == 0 ==> qs'[k].closed && qs'[k].blocks == []
    {
      if k == p {
        assert qref'[p] == qref[p];
        assert qref[end] > 1 ==> qs'[p] == qs[p];
      } else if k != end {
        assert qs'[k] == qs[k] && qref'[k] == qref[k];
      }
    }
  }

  lemma InvNew(s: Sys)
    requires Inv(s)
    ensures forall k :: k in s.qs ==> k.devno < s.npipes
  {
    hide QueuesInv, CallsInv;
  }

  lemma {:induction false} OpenedHolds(qsize: nat, es: seq<Event>)
    requires qsize >= 2 && Exec(qsize, es).Some?
    ensures OpenedInv(Opened(qsize, es), Exec(qsize, es).value)
    decreases |es|
  {
    hide Inv, Apply, Fit, Enabled, OpenedInv, OpenedStep;
    if es == [] {
      OpenedAtFirst(qsize);
    } else {
      var (front, e) := (es[..|es| - 1], es[|es| - 1]);
      var s := Exec(qsize, front).value;
      OpenedHolds(qsize, front);
      InvFit(s, e);
      OpenedKeeps(Opened(qsize, front), s, e);
    }
  }

  lemma OpenedAtFirst(qsize: nat)
    ensures OpenedInv({}, Init(qsize))
  {}

  /**
    In every run: when the last close of all comes to a pipe both of whose ends
    were opened since it was last quiet, both queues are empty, open, starving
    and at their original limit, ready to be used again.
   */
  lemma PipeReuse(qsize: nat, es: seq<Event>, end: Qk)
    requires qsize >= 2 && Exec(qsize, es).Some?
    requires var s := Exec(qsize, es).value; Enabled(s, Close(end)) && Fit(s, Close(end)) && Reopens(s, end)
    requires Peer(end) in Opened(qsize, es)
    ensures var s' := CloseStep(Exec(qsize, es).value, end);
            forall k :: k in {end, Peer(end)} ==>
              var q := s'.qs[k];
              q.blocks == [] && !q.closed && q.starve && q.eof == 0 && q.limit == q.inilim
  {
    hide Inv, Exec, Opened, CloseStep, Enabled;
    OpenedHolds(qsize, es);
    Reopening(Exec(qsize, es).value, end);
  }

  /**
    In every run, when the last close of all comes, the pipe is ready to be used
    again if and only if its peer was opened since it was last quiet, or every
    piece ever put in the queue that its peer reads has left it.
   */
  lemma ReopenedWithData(qsize: nat, es: seq<Event>, end: Qk)
    requires qsize >= 2 && Exec(qsize, es).Some?
    requires var s := Exec(qsize, es).value; Enabled(s, Close(end)) && Fit(s, Close(end)) && Reopens(s, end)
    ensures var s := Exec(qsize, es).value;
            var (s', l) := (CloseStep(s, end), Trace(qsize, es));
            && Peer(end) in l.hs
            && ((s'.qs[end].blocks == [] && s'.qs[Peer(end)].blocks == []) <==>
                  Peer(end) in Opened(qsize, es) || l.hs[Peer(end)].head == |l.hs[Peer(end)].queued|)
  {
    hide Inv, Exec, Opened, Trace, CloseStep, Enabled, WritesInv, OverInv, Passed, Inside;
    var s, l := Exec(qsize, es).value, Trace(qsize, es);
    OpenedHolds(qsize, es);
    Reopening(s, end);
    assert HistInv(l.hs[Peer(end)], s.qs[Peer(end)].blocks, s.nextid);
  }

  /**
    A run in which neither is so: an end is opened, a byte written through it, and
    the end closed. Both ends are closed, and the byte is there.
   */
  const Alone := Qk(0, 0)

  /** The run, up to its last close. */
  const LoneWrite: seq<Event> :=
    [Attach] + [Elsewhere(1, Proc(Runnable, None, false, false))] + [Open(Alone)] + [StartWrite(1, Alone, [7], false, false)]

  lemma ExecStep(qsize: nat, es: seq<Event>, e: Event)
    requires qsize >= 2 && Exec(qsize, es).Some? && Enabled(Exec(qsize, es).value, e)
    ensures Fit(Exec(qsize, es).value, e) && Exec(qsize, es + [e]) == Some(Apply(Exec(qsize, es).value, e).0)
  {
    hide Inv, Apply;
    InvFit(Exec(qsize, es).value, e);
    assert (es + [e])[..|es|] == es;
  }

  lemma LoneWriteLeavesData()
    ensures Exec(100, LoneWrite).Some?
    ensures var s := Exec(100, LoneWrite).value;
            && Enabled(s, Close(Alone)) && Fit(s, Close(Alone)) && Reopens(s, Alone)
            && CloseStep(s, Alone).qs[Peer(Alone)].blocks != []
  {
    hide Inv, Enter;
    var es := [Attach];
    assert [] + es == es;
    ExecStep(100, [], Attach);
    ExecStep(100, es, Elsewhere(1, Proc(Runnable, None, false, false)));
    es := es + [Elsewhere(1, Proc(Runnable, None, false, false))];
    ExecStep(100, es, Open(Alone));
    es := es + [Open(Alone)];
    var s := Exec(100, es).value;
    ExecStep(100, es, StartWrite(1, Alone, [7], false, false));
    LoneEntry(s.(nextid := 1), Writing(Peer(Alone), [7], false, 0));
  }

  /** Alone, a write into a queue with room is over at once, with its piece queued. */
  lemma LoneEntry(s: Sys, call: Call)
    requires call.Writing? && 0 < |call.data| <= MAXATOMIC && Enterable(s, 1, call) && 1 !in s.at
    requires s.qs[call.k] == NewQueue(100) && |call.data| <= 8 && s.t.rr == map[]
    requires s.t.tab == map[1 := Proc(Runnable, None, false, false)]
    ensures var s' := Enter(s, 1, call, false).0;
            s'.qref == s.qref && s'.qs.Keys == s.qs.Keys && s'.qs[call.k].blocks != []
  {
    var w := WriteCall(1, call.k.devno, call.k.which, call.data, !call.mounted, false);
    var c := Ctx(s.qs[call.k], Without(s.at, 1), s.t);
    var c1 := c.(q := c.q.(wlock := QLock(true, [])));
    var c2 := c1.(q := c1.q.Push(call.data).(starve := false));
    assert call.data[0..|call.data|] == call.data;
    assert WriteLock(c, w, 0) == WriteHeld(c1, w, 0);
    assert QueuePiece(c1, w, 0) == (c2, ToFlow);
    assert WriteHeld(c1, w, 0) == WriteFlow(c2, w, 0);
    assert WriteFlow(c2, w, 0) == WriteNext(c2.WUnlock(), w, 0);
  }
}
