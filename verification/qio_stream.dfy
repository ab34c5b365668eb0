/**
  What the entries of a read and of a write do to the stream a queue carries:
  a write puts the consecutive pieces of its data on the end, each once and in
  order, whatever waits come between. What a read takes is in qio_answers.dfy.
 */
module QueueStream {
  import opened Bytes
  import opened ProcTable
  import opened Qio

  /** A write's data in pieces of at most `MAXATOMIC`; even of nothing there is one. */
  function Chunks(data: bytes): (r: seq<bytes>)
    ensures |r| >= 1
  {
    if |data| <= MAXATOMIC then [data] else [data[..MAXATOMIC]] + Chunks(data[MAXATOMIC..])
  }

  function Concat(parts: seq<bytes>): bytes {
    if parts == [] then [] else parts[0] + Concat(parts[1..])
  }

  lemma ConcatAppend(a: seq<bytes>, b: seq<bytes>)
    ensures Concat(a + b) == Concat(a) + Concat(b)
  {
    if a == [] {
      assert a + b == b;
    } else {
      assert (a + b)[1..] == a[1..] + b;
    }
  }

  /** The pieces are the data... */
  lemma {:induction false} ChunksConcat(data: bytes)
    ensures Concat(Chunks(data)) == data
  {
    if |data| <= MAXATOMIC {
      assert Concat([data]) == data + Concat([]);
    } else {
      ChunksConcat(data[MAXATOMIC..]);
      assert Chunks(data)[1..] == Chunks(data[MAXATOMIC..]);
    }
  }

  function Min(a: nat, b: nat): nat {
    if a < b then a else b
  }

  lemma SliceOfRest(data: bytes, m: nat, lo: nat, hi: nat)
    requires m <= |data| && lo <= hi <= |data| - m
    ensures data[m..][lo..hi] == data[m + lo..m + hi]
  {}

  lemma ChunksHead(data: bytes, i: nat)
    ensures Chunks(data)[0] == data[..Min(|data|, MAXATOMIC)]
    ensures |data| <= MAXATOMIC ==> |Chunks(data)| == 1
    ensures |data| > MAXATOMIC ==> |Chunks(data)| == 1 + |Chunks(data[MAXATOMIC..])|
    ensures |data| > MAXATOMIC && 0 < i < |Chunks(data)| ==> Chunks(data)[i] == Chunks(data[MAXATOMIC..])[i - 1]
  {}

  /** ...cut at every multiple of `MAXATOMIC`. */
  lemma {:induction false} ChunkAt(data: bytes, i: nat)
    ensures i < |Chunks(data)| <==> i == 0 || i * MAXATOMIC < |data|
    ensures i < |Chunks(data)| ==> Chunks(data)[i] == data[i * MAXATOMIC..Min(|data|, i * MAXATOMIC + MAXATOMIC)]
  {
    hide Chunks;
    ChunksHead(data, i);
    if |data| > MAXATOMIC && i > 0 {
      ChunkAt(data[MAXATOMIC..], i - 1);
      if i < |Chunks(data)| {
        var lo := (i - 1) * MAXATOMIC;
        SliceOfRest(data, MAXATOMIC, lo, Min(|data| - MAXATOMIC, lo + MAXATOMIC));
      }
    }
  }

  /** How many pieces a writer that left at `a` has queued. */
  function Queued(a: At): nat
    requires !a.Read?
  {
    a.sofar / MAXATOMIC + if a.Flow? then 1 else 0
  }

  function AsBlocks(parts: seq<bytes>): (r: seq<Block>)
    ensures |r| == |parts|
    ensures forall i :: 0 <= i < |r| ==> r[i] == Block(parts[i], Balloc(|parts[i]|))
  {
    seq(|parts|, i requires 0 <= i < |parts| => Block(parts[i], Balloc(|parts[i]|)))
  }

  /** `q'` is `q` with the pieces of `data` from number `i` up to `j` on its end. */
  ghost predicate Appended(q: QueueState, q': QueueState, data: bytes, i: nat, j: nat) {
    i <= j <= |Chunks(data)| && q'.blocks == q.blocks + AsBlocks(Chunks(data)[i..j])
  }

  lemma AsBlocksAppend(a: seq<bytes>, b: seq<bytes>)
    ensures AsBlocks(a + b) == AsBlocks(a) + AsBlocks(b)
  {}

  lemma BlocksTogether(a: seq<Block>, b: seq<Block>, c: seq<Block>)
    ensures a + b + c == a + (b + c)
  {}

  lemma AppendedMore(q: QueueState, q1: QueueState, q2: QueueState, data: bytes, i: nat, j: nat, k: nat)
    requires Appended(q, q1, data, i, j) && Appended(q1, q2, data, j, k)
    ensures Appended(q, q2, data, i, k)
  {
    hide Chunks, AsBlocks;
    var cs := Chunks(data);
    assert cs[i..k] == cs[i..j] + cs[j..k];
    AsBlocksAppend(cs[i..j], cs[j..k]);
    BlocksTogether(q.blocks, AsBlocks(cs[i..j]), AsBlocks(cs[j..k]));
  }

  /** A nonblocking queue at its limit: pieces are counted as written, and not queued. */
  predicate Dropping(q: QueueState) {
    q.noblock && q.len >= q.limit
  }

  /** The end of an entry of a write, with `j` pieces queued in all; those after them were dropped, if any were. */
  ghost predicate Wrote(w: WriteCall, out: (Ctx, Result<nat>), j: nat) {
    var q := out.0.q;
    if w.pid in out.0.at then
      !out.0.at[w.pid].Read? && (j == Queued(out.0.at[w.pid]) || (Dropping(q) && j < Queued(out.0.at[w.pid])))
    else
      out.1.Ok? ==> out.1 == Ok(|w.data|) && (j == |Chunks(w.data)| || (Dropping(q) && j < |Chunks(w.data)|))
  }

  /** An entry that drops everything. */
  ghost predicate Drops(q: QueueState, q': QueueState) {
    Dropping(q) ==> q'.blocks == q.blocks && q'.len == q.len && q'.limit == q.limit && q'.noblock
  }

  /** `sofar` is where piece number `i` of the data begins. */
  predicate Begins(data: bytes, sofar: nat, i: nat) {
    sofar == i * MAXATOMIC && (i == 0 || sofar < |data|)
  }

  lemma BeginsAt(data: bytes, sofar: nat)
    requires sofar % MAXATOMIC == 0 && (sofar == 0 || sofar < |data|)
    ensures Begins(data, sofar, sofar / MAXATOMIC)
  {}

  lemma PieceNumber(w: WriteCall, sofar: nat, i: nat)
    requires Begins(w.data, sofar, i)
    ensures sofar <= |w.data| && sofar / MAXATOMIC == i
    ensures i < |Chunks(w.data)| && Chunks(w.data)[i] == w.data[sofar..sofar + w.Piece(sofar)]
    ensures if sofar + w.Piece(sofar) >= |w.data| then i + 1 == |Chunks(w.data)|
            else Begins(w.data, sofar + w.Piece(sofar), i + 1)
  {
    ChunkAt(w.data, i);
    ChunkAt(w.data, i + 1);
  }

  lemma PushOne(q: QueueState, w: WriteCall, sofar: nat, i: nat)
    requires Begins(w.data, sofar, i)
    ensures Appended(q, q.Push(w.data[sofar..sofar + w.Piece(sofar)]), w.data, i, i + 1)
  {
    PieceNumber(w, sofar, i);
    assert Chunks(w.data)[i..i + 1] == [Chunks(w.data)[i]];
  }

  lemma WriteHeldAppends(c: Ctx, w: WriteCall, sofar: nat, i: nat) returns (j: nat)
    requires w.pid !in c.at && Begins(w.data, sofar, i)
    ensures Appended(c.q, WriteHeld(c, w, sofar).0.q, w.data, i, j)
    ensures Wrote(w, WriteHeld(c, w, sofar), j) && Drops(c.q, WriteHeld(c, w, sofar).0.q)
    decreases |w.data| - sofar, 2
  {
    hide ProcTable.Table.Wakeup, ProcTable.Table.Postnote, ProcTable.Table.Qunlock, ProcTable.Table.SetLabel, Begins, WriteFlow, WriteNext, Balloc;
    PieceNumber(w, sofar, i);
    var (c1, o) := QueuePiece(c, w, sofar);
    j := i;
    if !c.q.closed {
      if o == ToNext {
        var j' := WriteNextAppends(c1, w, sofar, i);
      } else {
        PushOne(c.q, w, sofar, i);
        j := i + 1;
        if o == ToFlow {
          j := WriteFlowAppends(c1, w, sofar, i);
          AppendedMore(c.q, c1.q, WriteFlow(c1, w, sofar).0.q, w.data, i, i + 1, j);
        }
      }
    }
  }

  lemma WriteFlowAppends(c: Ctx, w: WriteCall, sofar: nat, i: nat) returns (j: nat)
    requires w.pid !in c.at && Begins(w.data, sofar, i)
    ensures Appended(c.q, WriteFlow(c, w, sofar).0.q, w.data, i + 1, j)
    ensures Wrote(w, WriteFlow(c, w, sofar), j) && Drops(c.q, WriteFlow(c, w, sofar).0.q)
    decreases |w.data| - sofar, 1
  {
    hide ProcTable.Table.Sleep, ProcTable.Table.Postnote, ProcTable.Table.Qunlock, ProcTable.Table.Interrupted, WriteNext, Begins;
    PieceNumber(w, sofar, i);
    var (c1, o) := FlowControl(c, w, sofar);
    j := i + 1;
    if o == ToNext {
      j := WriteNextAppends(c1, w, sofar, i);
    }
  }

  lemma WriteNextAppends(c: Ctx, w: WriteCall, sofar: nat, i: nat) returns (j: nat)
    requires w.pid !in c.at && Begins(w.data, sofar, i)
    ensures sofar <= |w.data| && Appended(c.q, WriteNext(c, w, sofar).0.q, w.data, i + 1, j)
    ensures Wrote(w, WriteNext(c, w, sofar), j) && Drops(c.q, WriteNext(c, w, sofar).0.q)
    decreases |w.data| - sofar, 0
  {
    hide WriteLock, Begins;
    PieceNumber(w, sofar, i);
    j := i + 1;
    if sofar + w.Piece(sofar) < |w.data| {
      j := WriteLockAppends(c, w, sofar + w.Piece(sofar), i + 1);
    }
  }

  lemma WriteLockAppends(c: Ctx, w: WriteCall, sofar: nat, i: nat) returns (j: nat)
    requires w.pid !in c.at && Begins(w.data, sofar, i)
    ensures sofar <= |w.data| && Appended(c.q, WriteLock(c, w, sofar).0.q, w.data, i, j)
    ensures Wrote(w, WriteLock(c, w, sofar), j) && Drops(c.q, WriteLock(c, w, sofar).0.q)
    decreases |w.data| - sofar, 3
  {
    hide ProcTable.Table.Qlock, WriteHeld, Begins;
    PieceNumber(w, sofar, i);
    j := i;
    var (t, l, ok) := c.t.Qlock(c.q.wlock, w.pid);
    if ok {
      j := WriteHeldAppends(c.(t := t, q := c.q.(wlock := l)), w, sofar, i);
    }
  }

  /** How many pieces a write has queued before the entry it is about to make. */
  function Before(at: map<Pid, At>, pid: Pid): nat {
    if pid in at && !at[pid].Read? then Queued(at[pid]) else 0
  }

  /**
    One entry of a write queues its pieces from the one it had come to, and no
    others; all it passes, but those that a nonblocking queue at its limit drops.
   */
  lemma QwriteAppends(c: Ctx, w: WriteCall) returns (j: nat)
    requires w.pid in c.at ==> !c.at[w.pid].Read? && c.at[w.pid].sofar % MAXATOMIC == 0
                               && (c.at[w.pid].sofar == 0 || c.at[w.pid].sofar < |w.data|)
    ensures Appended(c.q, QwriteSpec(c, w).0.q, w.data, Before(c.at, w.pid), j)
    ensures Wrote(w, QwriteSpec(c, w), j) && Drops(c.q, QwriteSpec(c, w).0.q)
  {
    var c0 := c.(at := Without(c.at, w.pid));
    if w.pid in c.at {
      var sofar := c.at[w.pid].sofar;
      var i := sofar / MAXATOMIC;
      BeginsAt(w.data, sofar);
      PieceNumber(w, sofar, i);
      if c.at[w.pid].Flow? && c.at[w.pid].slept && c.t.Interrupted(w.pid).1 {
        j := i + 1;
        NotedAppends(c, w, j);
      } else {
        hide ProcTable.Table.Interrupted, WriteHeld, WriteFlow, WriteLock, WriteFail, Appended, Wrote, Drops, Begins, Chunks;
        if c.at[w.pid].Wlock? {
          j := WriteHeldAppends(c0, w, sofar, i);
        } else {
          j := WriteFlowAppends(if c.at[w.pid].slept then c0.(t := c0.t.Interrupted(w.pid).0) else c0, w, sofar, i);
        }
      }
    } else {
      hide ProcTable.Table.Interrupted, WriteHeld, WriteFlow, WriteLock, WriteFail, Appended, Wrote, Drops, Chunks;
      j := WriteLockAppends(c0, w, 0, 0);
    }
  }

  lemma NotedAppends(c: Ctx, w: WriteCall, j: nat)
    requires w.pid in c.at && c.at[w.pid].Flow? && c.at[w.pid].slept && c.t.Interrupted(w.pid).1 && j <= |Chunks(w.data)|
    requires c.at[w.pid].sofar <= |w.data|
    ensures Appended(c.q, QwriteSpec(c, w).0.q, w.data, j, j)
    ensures Wrote(w, QwriteSpec(c, w), j) && Drops(c.q, QwriteSpec(c, w).0.q)
  {
    hide ProcTable.Table.Interrupted, ProcTable.Table.Postnote, ProcTable.Table.Qunlock, WriteFlow, Chunks;
  }
}
