module Bytes {
  type byte = n: nat | n < 256

  type bytes = seq<byte>
}

/**
  Queues (kernel/src/qio.rs): one implementation for every device that streams.

  `QueueState` is a queue as a value. `Queue` is the mutable object; `Qread` and
  `Qwrite` are the two entries, which keep where a process was in `AtTable` when
  it leaves in the middle. Each is proved to be the function of the same name
  with `Spec` appended, over which devpipe_runs.dfy reasons.
 */
module Qio {
  import opened Bytes
  import opened ProcTable

  const MAXATOMIC: nat := 64 * 1024

  const EHUNGUP := "i/o on hungup channel"

  /** A block's allocation: header room, and the data rounded up to 8. */
  function Balloc(n: nat): nat {
    64 + (n + 7) / 8 * 8
  }

  datatype Block = Block(data: bytes, alloc: nat)

  function SumAlloc(bs: seq<Block>): nat {
    if bs == [] then 0 else bs[0].alloc + SumAlloc(bs[1..])
  }

  /** The bytes queued, in order. */
  function Flat(bs: seq<Block>): bytes {
    if bs == [] then [] else bs[0].data + Flat(bs[1..])
  }

  datatype QueueState = QueueState(
    blocks: seq<Block>, len: nat, limit: nat, inilim: nat,
    closed: bool, starve: bool, flow: bool, coalesce: bool, noblock: bool,
    eof: nat, err: string, rlock: QLock, wlock: QLock)
  {
    /** What every operation keeps: `len` counts the blocks' allocations. */
    ghost predicate Valid() {
      && len == SumAlloc(blocks)
      && forall b :: b in blocks ==> b.alloc >= 64
    }

    function Hangup(): QueueState {
      this.(closed := true, err := EHUNGUP)
    }

    function Close(): QueueState {
      Hangup().(flow := false, starve := false, noblock := false, blocks := [], len := 0)
    }

    function Reopen(): QueueState {
      this.(closed := false, starve := true, eof := 0, limit := inilim)
    }

    function Push(data: bytes): QueueState {
      this.(blocks := blocks + [Block(data, Balloc(|data|))], len := len + Balloc(|data|))
    }
  }

  function NewQueue(limit: nat): QueueState {
    QueueState([], 0, limit, limit, false, true, false, false, false, 0, "", Unlocked, Unlocked)
  }

  /** `produce`: `None` is refused; otherwise whether there was a reader starving. */
  function ProduceSpec(q: QueueState, data: bytes): (QueueState, Option<bool>) {
    if q.len >= q.limit then
      (q.(flow := true), None)
    else
      var q' := q.Push(data).(starve := false);
      (if q'.len >= q'.limit then q'.(flow := true) else q', Some(q.starve))
  }

  /** Empty blocks at the front, freed. */
  function SkipEmpty(q: QueueState): (r: QueueState)
    requires q.Valid()
    ensures r.Valid()
    ensures Flat(r.blocks) == Flat(q.blocks)
    ensures r.blocks != [] ==> r.blocks[0].data != []
    decreases |q.blocks|
  {
    if q.blocks != [] && q.blocks[0].data == [] then
      SkipEmpty(q.(blocks := q.blocks[1..], len := q.len - q.blocks[0].alloc))
    else
      q
  }

  /** `consume`: up to `n` bytes of the first block that has any, and whether to wake the writer. */
  function ConsumeSpec(q: QueueState, n: nat): (QueueState, Option<bytes>, bool)
    requires q.Valid()
  {
    var q := SkipEmpty(q);
    if q.blocks == [] then
      (q.(starve := true), None, false)
    else
      var (b, q) := TakeFirst(q, n);
      var wake := q.flow && q.len < q.limit / 2;
      (if wake then q.(flow := false) else q, Some(b), wake)
  }

  /** The front of the first block that fits in `n`; the rest goes back, counted whole. */
  function TakeFirst(q: QueueState, n: nat): (r: (bytes, QueueState))
    requires q.Valid() && q.blocks != []
    ensures r.1.Valid()
    ensures r.0 + Flat(r.1.blocks) == Flat(q.blocks)
    ensures r.0 <= q.blocks[0].data && |r.0| <= n
    ensures r.1.len <= q.len
  {
    var b := q.blocks[0];
    if |b.data| > n then
      var rest := [Block(b.data[n..], b.alloc)] + q.blocks[1..];
      PutBack(q, rest, n);
      (b.data[..n], q.(blocks := rest))
    else
      (b.data, q.(blocks := q.blocks[1..], len := q.len - b.alloc))
  }

  /** What is put back counts as it did, and is the rest of what was there. */
  lemma PutBack(q: QueueState, rest: seq<Block>, n: nat)
    requires q.Valid() && q.blocks != [] && n < |q.blocks[0].data|
    requires rest == [Block(q.blocks[0].data[n..], q.blocks[0].alloc)] + q.blocks[1..]
    ensures q.(blocks := rest).Valid() && q.blocks[0].data[..n] + Flat(rest) == Flat(q.blocks)
  {
    var b := q.blocks[0];
    assert rest[1..] == q.blocks[1..];
    assert forall x :: x in rest ==> x == rest[0] || x in q.blocks;
    assert b.data == b.data[..n] + b.data[n..];
    assert b.data[..n] + (b.data[n..] + Flat(q.blocks[1..])) == b.data + Flat(q.blocks[1..]);
  }

  /** What one read takes: the first block, or, coalescing, as many whole blocks as follow and fit. */
  function TakeSpec(q: QueueState, n: nat, got: bytes): (r: (bytes, QueueState))
    requires q.Valid() && q.blocks != [] && |got| <= n
    ensures r.1.Valid()
    ensures r.0 + Flat(r.1.blocks) == got + Flat(q.blocks)
    ensures |r.0| <= n
    ensures r.1.len <= q.len
    ensures r.1 == q.(blocks := r.1.blocks, len := r.1.len)
    decreases |q.blocks|
  {
    var (b, q') := TakeFirst(q, n - |got|);
    var got' := got + b;
    if |b| < |q.blocks[0].data| || !q.coalesce || q'.blocks == [] || |got'| + |q'.blocks[0].data| > n then
      (got', q')
    else
      TakeSpec(q', n, got')
  }

  /** How far a call had got when its process left. */
  datatype At =
    | Read(slept: bool)
    | Wlock(sofar: nat)
    | Flow(sofar: nat, slept: bool)

  datatype Ctx = Ctx(q: QueueState, at: map<Pid, At>, t: Table)
  {
    function Put(pid: Pid, a: At): Ctx {
      this.(at := at[pid := a])
    }

    function RUnlock(): Ctx {
      var (t, l) := t.Qunlock(q.rlock);
      this.(t := t, q := q.(rlock := l))
    }

    function WUnlock(): Ctx {
      var (t, l) := t.Qunlock(q.wlock);
      this.(t := t, q := q.(wlock := l))
    }
  }

  function Without(at: map<Pid, At>, pid: Pid): map<Pid, At> {
    map x | x in at && x != pid :: at[x]
  }

  /** A read: who, on which queue, and how much. */
  datatype ReadCall = ReadCall(pid: Pid, devno: nat, which: nat, n: nat)

  /**
    A write. `failnote` is whether a failure posts the device's note; `outranks`
    is the scheduler's word on whether the reader woken outranks the writer.
   */
  datatype WriteCall = WriteCall(pid: Pid, devno: nat, which: nat, data: bytes, failnote: bool, outranks: bool)
  {
    function Piece(sofar: nat): nat
      requires sofar <= |data|
    {
      if |data| - sofar < MAXATOMIC then |data| - sofar else MAXATOMIC
    }
  }

  function QreadSpec(c: Ctx, r: ReadCall): (Ctx, Result<bytes>)
    requires c.q.Valid()
  {
    var was := c.at;
    var c := c.(at := Without(c.at, r.pid));
    if r.pid in was then
      var (t, noted) := c.t.Interrupted(r.pid);
      if was[r.pid] == Read(true) && noted then
        (c.(t := t).RUnlock(), Err(EINTR))
      else
        ReadAgain(if was[r.pid] == Read(true) then c.(t := t) else c, r)
    else
      var (t, l, ok) := c.t.Qlock(c.q.rlock, r.pid);
      var c := c.(t := t, q := c.q.(rlock := l));
      if ok then ReadAgain(c, r) else (c.Put(r.pid, Read(false)), Ok([]))
  }

  /** From `again:`, holding the reader lock. */
  function ReadAgain(c: Ctx, r: ReadCall): (Ctx, Result<bytes>)
    requires c.q.Valid()
  {
    var c := if c.q.coalesce then c.(q := SkipEmpty(c.q)) else c;
    if c.q.blocks == [] then ReadEmpty(c, r) else ReadTake(c, r)
  }

  /** Nothing queued: end of file if the queue is closed, and otherwise a sleep. */
  function ReadEmpty(c: Ctx, r: ReadCall): (Ctx, Result<bytes>) {
    if c.q.closed then
      var c := c.(q := c.q.(eof := c.q.eof + 1));
      (c.RUnlock(), if c.q.eof > 3 || c.q.err != EHUNGUP then Err(c.q.err) else Ok([]))
    else
      var c := c.(q := c.q.(starve := true));
      var (t, slept) := c.t.Sleep(r.pid, Rr(r.devno, r.which), false);
      if !slept then
        (c.(t := t.Interrupted(r.pid).0).RUnlock(), Err(EINTR))
      else
        (c.(t := t).Put(r.pid, Read(true)), Ok([]))
  }

  /** Answer from what is queued; a writer waiting for room is woken at half the limit. */
  function ReadTake(c: Ctx, r: ReadCall): (Ctx, Result<bytes>)
    requires c.q.Valid() && c.q.blocks != []
  {
    var (b, q) := TakeSpec(c.q, r.n, []);
    var c := c.(q := q);
    var c := if q.flow && q.len < q.limit / 2
             then c.(q := q.(flow := false), t := c.t.Wakeup(Wr(r.devno, r.which)).0)
             else c;
    (c.RUnlock(), Ok(b))
  }

  /** How a stretch of `qwrite` ends: the call is over or has left, or goes on. */
  datatype Outcome = Over(res: Result<nat>) | ToFlow | ToNext

  function QwriteSpec(c: Ctx, w: WriteCall): (Ctx, Result<nat>)
    requires w.pid in c.at ==> c.at[w.pid].Read? || c.at[w.pid].sofar <= |w.data|
  {
    var was := c.at;
    var c := c.(at := Without(c.at, w.pid));
    if w.pid in was && was[w.pid].Wlock? then
      WriteHeld(c, w, was[w.pid].sofar)
    else if w.pid in was && was[w.pid].Flow? then
      var (t, noted) := c.t.Interrupted(w.pid);
      if was[w.pid].slept && noted then
        WriteFail(c.(t := t), w, EINTR)
      else
        WriteFlow(if was[w.pid].slept then c.(t := t) else c, w, was[w.pid].sofar)
    else
      WriteLock(c, w, 0)
  }

  /** A write that fails holding the lock: let it go, and post the device's note. */
  function WriteFail(c: Ctx, w: WriteCall, e: string): (Ctx, Result<nat>) {
    var c := c.WUnlock();
    (if w.failnote then c.(t := c.t.Postnote(w.pid)) else c, Err(e))
  }

  /** About to take the writer lock for the piece at `sofar`. */
  function WriteLock(c: Ctx, w: WriteCall, sofar: nat): (Ctx, Result<nat>)
    requires sofar <= |w.data|
    decreases |w.data| - sofar, 2
  {
    var (t, l, ok) := c.t.Qlock(c.q.wlock, w.pid);
    var c := c.(t := t, q := c.q.(wlock := l));
    if ok then WriteHeld(c, w, sofar) else (c.Put(w.pid, Wlock(sofar)), Ok(0))
  }

  /** Holding the writer lock, with the piece at `sofar` not queued yet. */
  function WriteHeld(c: Ctx, w: WriteCall, sofar: nat): (Ctx, Result<nat>)
    requires sofar <= |w.data|
    decreases |w.data| - sofar, 1
  {
    var (c, o) := QueuePiece(c, w, sofar);
    match o
    case Over(res) => (c, res)
    case ToFlow => WriteFlow(c, w, sofar)
    case ToNext => WriteNext(c, w, sofar)
  }

  function QueuePiece(c: Ctx, w: WriteCall, sofar: nat): (Ctx, Outcome)
    requires sofar <= |w.data|
  {
    if c.q.closed then
      var (c, res) := WriteFail(c, w, c.q.err);
      (c, Over(res))
    else if c.q.len >= c.q.limit && c.q.noblock then
      (c.WUnlock(), ToNext)
    else
      var starved := c.q.starve;
      var c := c.(q := c.q.Push(w.data[sofar..sofar + w.Piece(sofar)]).(starve := false));
      var (t, woke) := c.t.Wakeup(Rr(w.devno, w.which));
      var c := if starved then c.(t := t) else c;
      if starved && woke.Some? && w.outranks then
        (c.(t := c.t.SetLabel(w.pid)).Put(w.pid, Flow(sofar, false)), Over(Ok(0)))
      else
        (c, ToFlow)
  }

  /** The piece at `sofar` is queued: in the flow-control loop. */
  function WriteFlow(c: Ctx, w: WriteCall, sofar: nat): (Ctx, Result<nat>)
    requires sofar <= |w.data|
    decreases |w.data| - sofar, 0
  {
    var (c, o) := FlowControl(c, w, sofar);
    if o.Over? then (c, o.res) else WriteNext(c, w, sofar)
  }

  function FlowControl(c: Ctx, w: WriteCall, sofar: nat): (Ctx, Outcome)
    requires sofar <= |w.data|
  {
    if !(c.q.noblock || c.q.len < c.q.limit || c.q.closed) then
      var (t, slept) := c.t.Sleep(w.pid, Wr(w.devno, w.which), false);
      var c := c.(q := c.q.(flow := true), t := t);
      if !slept then
        var (c, res) := WriteFail(c.(t := c.t.Interrupted(w.pid).0), w, EINTR);
        (c, Over(res))
      else
        (c.Put(w.pid, Flow(sofar, true)), Over(Ok(0)))
    else
      (c.WUnlock(), ToNext)
  }

  /** The piece at `sofar` is dealt with and the lock let go. */
  function WriteNext(c: Ctx, w: WriteCall, sofar: nat): (Ctx, Result<nat>)
    requires sofar <= |w.data|
    decreases |w.data| - sofar, -1
  {
    var sofar' := sofar + w.Piece(sofar);
    if sofar' >= |w.data| then (c, Ok(|w.data|)) else WriteLock(c, w, sofar')
  }

  /** A queue without its first block still counts its blocks. */
  lemma DropValid(q: QueueState)
    requires q.Valid() && q.blocks != []
    ensures q.len >= q.blocks[0].alloc && q.(blocks := q.blocks[1..], len := q.len - q.blocks[0].alloc).Valid()
  {
  }

  lemma SkipOne(q: QueueState)
    requires q.Valid() && q.blocks != [] && q.blocks[0].data == []
    requires q.len >= q.blocks[0].alloc && q.(blocks := q.blocks[1..], len := q.len - q.blocks[0].alloc).Valid()
    ensures SkipEmpty(q) == SkipEmpty(q.(blocks := q.blocks[1..], len := q.len - q.blocks[0].alloc))
  {
    hide SumAlloc, Flat;
  }

  lemma SkipNone(q: QueueState)
    requires q.Valid() && (q.blocks == [] || q.blocks[0].data != [])
    ensures SkipEmpty(q) == q
  {
  }

  class Queue {
    var blocks: seq<Block>
    var len: nat
    var limit: nat
    var inilim: nat
    var closed: bool
    var starve: bool
    var flow: bool
    var coalesce: bool
    var noblock: bool
    var eof: nat
    var err: string
    var rlock: QLock
    var wlock: QLock

    function State(): QueueState
      reads this
    {
      QueueState(blocks, len, limit, inilim, closed, starve, flow, coalesce, noblock, eof, err, rlock, wlock)
    }

    constructor (limit: nat)
      ensures State() == NewQueue(limit)
    {
      blocks, len, this.limit, inilim := [], 0, limit, limit;
      closed, starve, flow, coalesce, noblock := false, true, false, false, false;
      eof, err, rlock, wlock := 0, "", Unlocked, Unlocked;
    }

    method Hangup()
      modifies this
      ensures State() == old(State()).Hangup()
    {
      closed := true;
      err := EHUNGUP;
    }

    method Close()
      modifies this
      ensures State() == old(State()).Close()
    {
      Hangup();
      flow, starve, noblock := false, false, false;
      blocks, len := [], 0;
    }

    method Reopen()
      modifies this
      ensures State() == old(State()).Reopen()
    {
      closed, starve, eof, limit := false, true, 0, inilim;
    }

    /** One more block at the end. */
    method Append(data: bytes)
      modifies this
      ensures State() == old(State()).Push(data)
    {
      var alloc := Balloc(|data|);
      blocks := blocks + [Block(data, alloc)];
      len := len + alloc;
    }

    method Produce(data: bytes) returns (wake: Option<bool>)
      requires State().Valid()
      modifies this
      ensures (State(), wake) == ProduceSpec(old(State()), data)
    {
      if len >= limit {
        flow := true;
        return None;
      }
      Append(data);
      wake := Some(starve);
      starve := false;
      if len >= limit {
        flow := true;
      }
    }

    /** Drop the empty blocks at the front. */
    method FreeEmpty()
      requires State().Valid()
      modifies this
      ensures State() == SkipEmpty(old(State()))
    {
      hide SkipEmpty, SumAlloc, Flat;
      while blocks != [] && blocks[0].data == []
        invariant State().Valid()
        invariant SkipEmpty(State()) == SkipEmpty(old(State()))
        decreases |blocks|
      {
        DropValid(State());
        SkipOne(State());
        var alloc := blocks[0].alloc;
        blocks := blocks[1..];
        len := len - alloc;
      }
      SkipNone(State());
    }

    /** The front of the first block; what is left of it goes back. */
    method Front(n: nat) returns (b: bytes)
      requires State().Valid() && blocks != []
      modifies this
      ensures (b, State()) == TakeFirst(old(State()), n)
    {
      hide SumAlloc, Flat;
      DropValid(State());
      var first := blocks[0];
      blocks := blocks[1..];
      if |first.data| > n {
        blocks := [Block(first.data[n..], first.alloc)] + blocks;
        return first.data[..n];
      }
      len := len - first.alloc;
      return first.data;
    }

    method Consume(n: nat) returns (got: Option<bytes>, wake: bool)
      requires State().Valid()
      modifies this
      ensures (State(), got, wake) == ConsumeSpec(old(State()), n)
    {
      FreeEmpty();
      if blocks == [] {
        starve := true;
        return None, false;
      }
      hide SkipEmpty, SumAlloc, Flat;
      var b := Front(n);
      wake := flow && len < limit / 2;
      if wake {
        flow := false;
      }
      got := Some(b);
    }

    /** The loop of `qread` that fills the answer. */
    method Take(n: nat) returns (b: bytes)
      requires State().Valid() && blocks != []
      modifies this
      ensures (b, State()) == TakeSpec(old(State()), n, [])
    {
      hide Flat, SumAlloc;
      b := [];
      while true
        invariant |b| <= n && State().Valid() && blocks != []
        invariant TakeSpec(State(), n, b) == TakeSpec(old(State()), n, [])
        decreases |blocks|
      {
        DropValid(State());
        var next := blocks[0];
        blocks := blocks[1..];
        var room := n - |b|;
        if |next.data| > room {
          blocks := [Block(next.data[room..], next.alloc)] + blocks;
          b := b + next.data[..room];
          return;
        }
        len := len - next.alloc;
        b := b + next.data;
        if !coalesce || blocks == [] || |b| + |blocks[0].data| > n {
          return;
        }
      }
    }
  }

  /** A device's record of the processes in the middle of a call. */
  class AtTable {
    var at: map<Pid, At>

    constructor ()
      ensures at == map[]
    {
      at := map[];
    }

    method Remove(pid: Pid) returns (was: Option<At>)
      modifies this
      ensures at == Without(old(at), pid)
      ensures was == if pid in old(at) then Some(old(at)[pid]) else None
    {
      was := if pid in at then Some(at[pid]) else None;
      at := Without(at, pid);
    }

    method Insert(pid: Pid, a: At)
      modifies this
      ensures at == old(at)[pid := a]
    {
      at := at[pid := a];
    }
  }

  ghost function Now(q: Queue, at: AtTable, procs: Procs): Ctx
    reads q, at, procs
  {
    Ctx(q.State(), at.at, procs.State())
  }

  method Qread(q: Queue, at: AtTable, procs: Procs, r: ReadCall) returns (res: Result<bytes>)
    requires q.State().Valid()
    modifies q, at, procs
    ensures (Now(q, at, procs), res) == QreadSpec(old(Now(q, at, procs)), r)
  {
    var was := at.Remove(r.pid);
    if was == Some(Read(true)) {
      var noted := procs.Interrupted(r.pid);
      if noted {
        q.rlock := procs.Qunlock(q.rlock);
        return Err(EINTR);
      }
    }
    if was.None? {
      var l, ok := procs.Qlock(q.rlock, r.pid);
      q.rlock := l;
      if !ok {
        at.Insert(r.pid, Read(false));
        return Ok([]);
      }
    }
    res := Again(q, at, procs, r);
  }

  /** `qread` from `again:`. */
  method Again(q: Queue, at: AtTable, procs: Procs, r: ReadCall) returns (res: Result<bytes>)
    requires q.State().Valid()
    modifies q, at, procs
    ensures (Now(q, at, procs), res) == ReadAgain(old(Now(q, at, procs)), r)
  {
    if q.coalesce {
      q.FreeEmpty();
    }
    if q.blocks == [] {
      res := Wait(q, at, procs, r);
    } else {
      res := Deliver(q, at, procs, r);
    }
  }

  /** `qwait`. */
  method Wait(q: Queue, at: AtTable, procs: Procs, r: ReadCall) returns (res: Result<bytes>)
    modifies q, at, procs
    ensures (Now(q, at, procs), res) == ReadEmpty(old(Now(q, at, procs)), r)
  {
    if q.closed {
      q.eof := q.eof + 1;
      res := if q.eof > 3 || q.err != EHUNGUP then Err(q.err) else Ok([]);
      q.rlock := procs.Qunlock(q.rlock);
      return;
    }
    q.starve := true;
    var slept := procs.Sleep(r.pid, Rr(r.devno, r.which), false);
    if !slept {
      var _ := procs.Interrupted(r.pid);
      q.rlock := procs.Qunlock(q.rlock);
      return Err(EINTR);
    }
    at.Insert(r.pid, Read(true));
    return Ok([]);
  }

  method Deliver(q: Queue, at: AtTable, procs: Procs, r: ReadCall) returns (res: Result<bytes>)
    requires q.State().Valid() && q.blocks != []
    modifies q, procs
    ensures (Now(q, at, procs), res) == ReadTake(old(Now(q, at, procs)), r)
  {
    var b := q.Take(r.n);
    if q.flow && q.len < q.limit / 2 {
      q.flow := false;
      var _ := procs.Wakeup(Wr(r.devno, r.which));
    }
    q.rlock := procs.Qunlock(q.rlock);
    return Ok(b);
  }

  method Fail(q: Queue, at: AtTable, procs: Procs, w: WriteCall, e: string) returns (res: Result<nat>)
    modifies q, procs
    ensures (Now(q, at, procs), res) == WriteFail(old(Now(q, at, procs)), w, e)
  {
    q.wlock := procs.Qunlock(q.wlock);
    if w.failnote {
      procs.Postnote(w.pid);
    }
    return Err(e);
  }

  /** The body of `qwrite`'s loop that queues the piece at `sofar`. */
  method Enqueue(q: Queue, at: AtTable, procs: Procs, w: WriteCall, sofar: nat) returns (o: Outcome)
    requires sofar <= |w.data|
    modifies q, at, procs
    ensures (Now(q, at, procs), o) == QueuePiece(old(Now(q, at, procs)), w, sofar)
  {
    if q.closed {
      var res := Fail(q, at, procs, w, q.err);
      return Over(res);
    }
    if q.len >= q.limit && q.noblock {
      q.wlock := procs.Qunlock(q.wlock);
      return ToNext;
    }
    q.Append(w.data[sofar..sofar + w.Piece(sofar)]);
    if q.starve {
      q.starve := false;
      var woke := procs.Wakeup(Rr(w.devno, w.which));
      if woke.Some? && w.outranks {
        procs.SetLabel(w.pid);
        at.Insert(w.pid, Flow(sofar, false));
        return Over(Ok(0));
      }
    }
    return ToFlow;
  }

  /** The body of `qwrite`'s loop that waits for the queue to get below the limit. */
  method Throttle(q: Queue, at: AtTable, procs: Procs, w: WriteCall, sofar: nat) returns (o: Outcome)
    requires sofar <= |w.data|
    modifies q, at, procs
    ensures (Now(q, at, procs), o) == FlowControl(old(Now(q, at, procs)), w, sofar)
  {
    if !(q.noblock || q.len < q.limit || q.closed) {
      q.flow := true;
      var slept := procs.Sleep(w.pid, Wr(w.devno, w.which), false);
      if !slept {
        var _ := procs.Interrupted(w.pid);
        var res := Fail(q, at, procs, w, EINTR);
        return Over(res);
      }
      at.Insert(w.pid, Flow(sofar, true));
      return Over(Ok(0));
    }
    q.wlock := procs.Qunlock(q.wlock);
    return ToNext;
  }

  /** Where the loop of `qwrite` is: about to lock, locked, or locked with the piece queued. */
  ghost function Rest(c: Ctx, w: WriteCall, sofar: nat, resumed: Option<bool>): (Ctx, Result<nat>)
    requires sofar <= |w.data|
  {
    match resumed
    case None => WriteLock(c, w, sofar)
    case Some(false) => WriteHeld(c, w, sofar)
    case Some(true) => WriteFlow(c, w, sofar)
  }

  method Qwrite(q: Queue, at: AtTable, procs: Procs, w: WriteCall) returns (res: Result<nat>)
    requires w.pid in at.at ==> at.at[w.pid].Read? || at.at[w.pid].sofar <= |w.data|
    modifies q, at, procs
    ensures (Now(q, at, procs), res) == QwriteSpec(old(Now(q, at, procs)), w)
  {
    var sofar := 0;
    var resumed: Option<bool> := None;
    var was := at.Remove(w.pid);
    if was.Some? && was.value.Wlock? {
      sofar, resumed := was.value.sofar, Some(false);
    } else if was.Some? && was.value.Flow? {
      if was.value.slept {
        var noted := procs.Interrupted(w.pid);
        if noted {
          res := Fail(q, at, procs, w, EINTR);
          return;
        }
      }
      sofar, resumed := was.value.sofar, Some(true);
    }
    res := Pieces(q, at, procs, w, sofar, resumed);
  }

  /** The loop of `qwrite`. */
  method Pieces(q: Queue, at: AtTable, procs: Procs, w: WriteCall, from: nat, was: Option<bool>)
    returns (res: Result<nat>)
    requires from <= |w.data|
    modifies q, at, procs
    ensures (Now(q, at, procs), res) == Rest(old(Now(q, at, procs)), w, from, was)
  {
    var sofar, resumed := from, was;
    while true
      invariant sofar <= |w.data|
      invariant Rest(Now(q, at, procs), w, sofar, resumed) == Rest(old(Now(q, at, procs)), w, from, was)
      decreases |w.data| - sofar
    {
      if resumed.None? {
        var l, ok := procs.Qlock(q.wlock, w.pid);
        q.wlock := l;
        if !ok {
          at.Insert(w.pid, Wlock(sofar));
          return Ok(0);
        }
      }
      var o := ToFlow;
      if resumed != Some(true) {
        assert WriteHeld(Now(q, at, procs), w, sofar) == Rest(old(Now(q, at, procs)), w, from, was);
        o := Enqueue(q, at, procs, w, sofar);
      }
      if o == ToFlow {
        assert WriteFlow(Now(q, at, procs), w, sofar) == Rest(old(Now(q, at, procs)), w, from, was);
        o := Throttle(q, at, procs, w, sofar);
      }
      if o.Over? {
        return o.res;
      }
      assert WriteNext(Now(q, at, procs), w, sofar) == Rest(old(Now(q, at, procs)), w, from, was);
      sofar, resumed := sofar + w.Piece(sofar), None;
      if sofar >= |w.data| {
        return Ok(|w.data|);
      }
    }
  }
}
