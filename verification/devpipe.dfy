/**
  The pipe device (kernel/src/devpipe.rs): a pipe is two queues, each end
  reading one and writing the other, and a count of opens for each end. Each operation is proved to be the step of
  the same name in devpipe_runs.dfy, over which the runs are.
 */
module PipeDevice {
  import opened Bytes
  import opened ProcTable
  import opened Qio
  import opened QueueWakeup
  import opened PipeSystem

  const PIPEQSIZE: nat := 32 * 1024

  const QDATA0: nat := 1
  const QDATA1: nat := 2

  /** The queue a data file is read from, and the one it is written to. */
  function Ends(qid: nat): Option<(nat, nat)> {
    if qid == QDATA0 then Some((0, 1)) else if qid == QDATA1 then Some((1, 0)) else None
  }

  /** A file's write queue is the one its peer reads. */
  lemma EndsCross(qid: nat, devno: nat)
    requires Ends(qid).Some?
    ensures Qk(devno, Ends(qid).value.1) == Peer(Qk(devno, Ends(qid).value.0))
    ensures exists other :: Ends(other) == Some((Ends(qid).value.1, Ends(qid).value.0))
  {
    assert Ends(if qid == QDATA0 then QDATA1 else QDATA0) == Some((Ends(qid).value.1, Ends(qid).value.0));
  }

  class Pipe {
    const q: seq<Queue>
    var qref: seq<nat>

    ghost predicate Valid()
      reads this
    {
      |q| == 2 && q[0] != q[1] && |qref| == 2
    }

    constructor ()
      ensures Valid() && fresh(q[0]) && fresh(q[1])
      ensures qref == [0, 0] && q[0].State() == NewQueue(PIPEQSIZE) && q[1].State() == NewQueue(PIPEQSIZE)
    {
      var q0 := new Queue(PIPEQSIZE);
      var q1 := new Queue(PIPEQSIZE);
      q, qref := [q0, q1], [0, 0];
    }

    /** One open of `end` goes; whether it was the last. */
    method Drop(end: nat, other: nat) returns (hungup: bool)
      requires Valid() && end < 2 && other == 1 - end
      modifies this, q[0], q[1]
      ensures Valid()
      ensures var was := old(qref);
              var n := if was[end] == 0 then 0 else was[end] - 1;
              && hungup == (n == 0)
              && qref == was[end := n]
              && (q[end].State(), q[other].State()) ==
                   ClosedPair(old(q[end].State()), old(q[other].State()), n, was[other])
    {
      qref := qref[end := if qref[end] == 0 then 0 else qref[end] - 1];
      hungup := qref[end] == 0;
      if hungup {
        q[other].Hangup();
        q[end].Close();
      }
      if qref[0] == 0 && qref[1] == 0 {
        q[0].Reopen();
        q[1].Reopen();
      }
    }
  }

  class PipeDev {
    var pipes: seq<Pipe>
    const at: AtTable
    const procs: Procs

    constructor (procs: Procs)
      ensures pipes == [] && at.at == map[] && this.procs == procs
    {
      pipes, this.procs := [], procs;
      at := new AtTable();
    }

    ghost predicate Valid()
      reads this, pipes
    {
      forall i :: 0 <= i < |pipes| ==> pipes[i].Valid()
    }

    /** An attach mints a pipe. */
    method Attach() returns (devno: nat)
      requires Valid()
      modifies this
      ensures Valid() && devno == |old(pipes)| && |pipes| == devno + 1 && pipes[..devno] == old(pipes)
      ensures fresh(pipes[devno]) && fresh(pipes[devno].q[0]) && fresh(pipes[devno].q[1])
      ensures pipes[devno].qref == [0, 0]
      ensures forall i :: 0 <= i < 2 ==> pipes[devno].q[i].State() == NewQueue(PIPEQSIZE)
    {
      var p := new Pipe();
      devno := |pipes|;
      pipes := pipes + [p];
    }

    /** One more open of the end that the file belongs to. */
    method Open(devno: nat, qid: nat) returns (res: Result<()>)
      requires Valid()
      modifies pipes
      ensures Valid()
      ensures Ends(qid).Some? ==> (res.Ok? <==> devno < |pipes|)
      ensures Ends(qid).Some? && res.Ok? ==>
                pipes[devno].qref == old(pipes[devno].qref)[Ends(qid).value.0 := old(pipes[devno].qref)[Ends(qid).value.0] + 1]
      ensures forall p :: p in pipes && (Ends(qid).None? || res.Err? || p != pipes[devno]) ==> p.qref == old(p.qref)
    {
      var e := Ends(qid);
      if e.Some? {
        if devno >= |pipes| {
          return Err("no such pipe");
        }
        var p := pipes[devno];
        p.qref := p.qref[e.value.0 := p.qref[e.value.0] + 1];
      }
      return Ok(());
    }

    /** A read draws from the end's own queue. */
    method Read(pid: Pid, devno: nat, qid: nat, n: nat) returns (res: Result<bytes>)
      requires Valid() && (devno < |pipes| ==> forall i :: 0 <= i < 2 ==> pipes[devno].q[i].State().Valid())
      modifies if devno < |pipes| && Ends(qid).Some? then {pipes[devno].q[Ends(qid).value.0]} else {}, at, procs
      ensures if Ends(qid).Some? && devno < |pipes| then
                var from := Ends(qid).value.0;
                var q := pipes[devno].q[from];
                (Now(q, at, procs), res) == QreadSpec(old(Now(q, at, procs)), ReadCall(pid, devno, from, n))
              else
                res.Err? && at.at == old(at.at) && procs.State() == old(procs.State())
    {
      var e := Ends(qid);
      if e.None? {
        return Err("cannot read that");
      }
      if devno >= |pipes| {
        return Err("no such pipe");
      }
      res := Qread(pipes[devno].q[e.value.0], at, procs, ReadCall(pid, devno, e.value.0, n));
    }

    /** A write fills the queue its peer reads; the device's note is not posted on a mount's channel. */
    method Write(pid: Pid, devno: nat, qid: nat, data: bytes, mounted: bool, outranks: bool) returns (res: Result<nat>)
      requires Valid() && (pid in at.at ==> at.at[pid].Read? || at.at[pid].sofar <= |data|)
      modifies if devno < |pipes| && Ends(qid).Some? then {pipes[devno].q[Ends(qid).value.1]} else {}, at, procs
      ensures if Ends(qid).Some? && devno < |pipes| then
                var to := Ends(qid).value.1;
                var q := pipes[devno].q[to];
                (Now(q, at, procs), res) == QwriteSpec(old(Now(q, at, procs)), WriteCall(pid, devno, to, data, !mounted, outranks))
              else
                res.Err? && at.at == old(at.at) && procs.State() == old(procs.State())
    {
      var e := Ends(qid);
      if e.None? {
        return Err("cannot write that");
      }
      if devno >= |pipes| {
        return Err("no such pipe");
      }
      res := Qwrite(pipes[devno].q[e.value.1], at, procs, WriteCall(pid, devno, e.value.1, data, !mounted, outranks));
    }

    method Wakeboth(k: Qk)
      modifies procs
      ensures procs.State() == WakeBoth(old(procs.State()), k)
    {
      var _ := procs.Wakeup(k.R());
      var _ := procs.Wakeup(k.W());
    }

    /** An end's last close hangs up; the last of both reopens the queues. */
    method Close(devno: nat, qid: nat, copen: bool)
      requires Valid()
      modifies pipes, if devno < |pipes| then {pipes[devno].q[0], pipes[devno].q[1]} else {}, procs
      ensures Valid()
      ensures if copen && Ends(qid).Some? && devno < |pipes| then
                var (end, other) := Ends(qid).value;
                var p := pipes[devno];
                var was := old(p.qref);
                var n := if was[end] == 0 then 0 else was[end] - 1;
                && p.qref == was[end := n]
                && (p.q[end].State(), p.q[other].State()) ==
                     ClosedPair(old(p.q[end].State()), old(p.q[other].State()), n, was[other])
                && procs.State() == if n == 0 then WakeBoth(WakeBoth(old(procs.State()), Qk(devno, other)), Qk(devno, end))
                                    else old(procs.State())
              else
                procs.State() == old(procs.State())
      ensures forall p :: p in pipes && (!copen || Ends(qid).None? || devno >= |pipes| || p != pipes[devno]) ==> p.qref == old(p.qref)
    {
      var e := Ends(qid);
      if !copen || e.None? || devno >= |pipes| {
        return;
      }
      var (end, other) := e.value;
      var hungup := pipes[devno].Drop(end, other);
      if hungup {
        Wakeboth(Qk(devno, other));
        Wakeboth(Qk(devno, end));
      }
    }
  }
}
