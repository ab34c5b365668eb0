/**
  The part of the process table that queues, semaphores and closes rest on
  (kernel/src/proc.rs): `sleep` and `wakeup` on a rendez, the hand-over lock
  `QLock`, and notes.

  `Table` is the table as a value, with one function per operation; `Procs` is
  the mutable object, each of whose methods is proved to be that function. A
  process that is ready, being scheduled or running is `Runnable`: which of the
  three is the scheduler's business, and the scheduler is not modelled.
 */
module ProcTable {

  type Pid = nat

  datatype Option<+T> = None | Some(value: T)

  datatype Result<+T> = Ok(value: T) | Err(error: string)

  const EINTR := "interrupted"

  /** Where a rendez lives: a queue's reader, a queue's writer, or a process's semaphore. */
  datatype Rid = Rr(devno: nat, which: nat) | Wr(devno: nat, which: nat) | Sema(pid: Pid)

  datatype PState = Runnable | Queueing | Wakeme

  datatype Proc = Proc(state: PState, r: Option<Rid>, notepending: bool, setlabel: bool)

  /** A lock that is handed over in FIFO order. */
  datatype QLock = QLock(locked: bool, q: seq<Pid>)

  const Unlocked := QLock(false, [])

  /** `rr` holds the rendez somebody is waiting at, and who. */
  datatype Table = Table(tab: map<Pid, Proc>, rr: map<Rid, Pid>, doublesleep: nat)
  {
    function Set(pid: Pid, p: Proc): Table {
      this.(tab := tab[pid := p])
    }

    function Vacate(r: Rid): Table {
      this.(rr := map x | x in rr && x != r :: rr[x])
    }

    function Ready(pid: Pid): Table {
      if pid in tab then Set(pid, tab[pid].(state := Runnable)) else this
    }

    function SetLabel(pid: Pid): Table {
      if pid in tab then Set(pid, tab[pid].(setlabel := true)) else this
    }

    predicate Left(pid: Pid) {
      pid in tab && tab[pid].setlabel
    }

    function TakeLabel(pid: Pid): Table {
      if pid in tab then Set(pid, tab[pid].(setlabel := false)) else this
    }

    /** `sleep`: commits, unless the condition has happened or a note is pending. */
    function Sleep(pid: Pid, r: Rid, happened: bool): (Table, bool) {
      var t := if r in rr && rr[r] != pid then this.(doublesleep := doublesleep + 1) else this;
      if happened || (pid in tab && tab[pid].notepending) then
        (t.Vacate(r), false)
      else
        var t := t.(rr := t.rr[r := pid]);
        var t := if pid in tab then t.Set(pid, tab[pid].(state := Wakeme, r := Some(r))) else t;
        (t.SetLabel(pid), true)
    }

    /** `wakeup`: readies the sleeper on `r`, and names it. */
    function Wakeup(r: Rid): (Table, Option<Pid>) {
      if r in rr && rr[r] in tab && tab[rr[r]].state == Wakeme && tab[rr[r]].r == Some(r) then
        var p := rr[r];
        (Vacate(r).Set(p, tab[p].(r := None)).Ready(p), Some(p))
      else
        (this, None)
    }

    /** `qlock`: `true` is holding it; `false` is queued for it, and leaving. */
    function Qlock(l: QLock, pid: Pid): (Table, QLock, bool) {
      if !l.locked then
        (this, l.(locked := true), true)
      else
        var t := if pid in tab then Set(pid, tab[pid].(state := Queueing)) else this;
        (t.SetLabel(pid), l.(q := l.q + [pid]), false)
    }

    /** `qunlock`: the next in line holds the lock and is runnable; with nobody in line it is free. */
    function Qunlock(l: QLock): (Table, QLock) {
      if l.q != [] then
        (Ready(l.q[0]), l.(q := l.q[1..]))
      else
        (this, l.(locked := false))
    }

    /** `postnote`: a sleeper is taken off its rendez and readied. */
    function Postnote(pid: Pid): Table {
      if pid !in tab then
        this
      else
        var p := tab[pid].(notepending := true);
        if p.state == Wakeme && p.r.Some? then
          Vacate(p.r.value).Set(pid, p.(r := None)).Ready(pid)
        else
          Set(pid, p)
    }

    /** `interrupted`: whether a note ended the sleep; takes it. */
    function Interrupted(pid: Pid): (Table, bool) {
      if pid in tab then
        (Set(pid, tab[pid].(notepending := false)), tab[pid].notepending)
      else
        (this, false)
    }
  }

  class Procs {
    var tab: map<Pid, Proc>
    var rr: map<Rid, Pid>
    var doublesleep: nat

    function State(): Table
      reads this
    {
      Table(tab, rr, doublesleep)
    }

    constructor ()
      ensures State() == Table(map[], map[], 0)
    {
      tab, rr, doublesleep := map[], map[], 0;
    }

    method Ready(pid: Pid)
      modifies this
      ensures State() == old(State()).Ready(pid)
    {
      if pid in tab {
        tab := tab[pid := tab[pid].(state := Runnable)];
      }
    }

    method SetLabel(pid: Pid)
      modifies this
      ensures State() == old(State()).SetLabel(pid)
    {
      if pid in tab {
        tab := tab[pid := tab[pid].(setlabel := true)];
      }
    }

    method Sleep(pid: Pid, r: Rid, happened: bool) returns (slept: bool)
      modifies this
      ensures (State(), slept) == old(State()).Sleep(pid, r, happened)
    {
      if r in rr && rr[r] != pid {
        doublesleep := doublesleep + 1;
      }
      if happened || (pid in tab && tab[pid].notepending) {
        rr := map x | x in rr && x != r :: rr[x];
        return false;
      }
      rr := rr[r := pid];
      if pid in tab {
        tab := tab[pid := tab[pid].(state := Wakeme, r := Some(r))];
      }
      SetLabel(pid);
      return true;
    }

    method Wakeup(r: Rid) returns (woke: Option<Pid>)
      modifies this
      ensures (State(), woke) == old(State()).Wakeup(r)
    {
      if r !in rr {
        return None;
      }
      var p := rr[r];
      if !(p in tab && tab[p].state == Wakeme && tab[p].r == Some(r)) {
        return None;
      }
      rr := map x | x in rr && x != r :: rr[x];
      tab := tab[p := tab[p].(r := None)];
      Ready(p);
      return Some(p);
    }

    method Qlock(l: QLock, pid: Pid) returns (l': QLock, ok: bool)
      modifies this
      ensures (State(), l', ok) == old(State()).Qlock(l, pid)
    {
      if !l.locked {
        return l.(locked := true), true;
      }
      if pid in tab {
        tab := tab[pid := tab[pid].(state := Queueing)];
      }
      SetLabel(pid);
      return l.(q := l.q + [pid]), false;
    }

    method Qunlock(l: QLock) returns (l': QLock)
      modifies this
      ensures (State(), l') == old(State()).Qunlock(l)
    {
      if l.q != [] {
        Ready(l.q[0]);
        return l.(q := l.q[1..]);
      }
      return l.(locked := false);
    }

    method Postnote(pid: Pid)
      modifies this
      ensures State() == old(State()).Postnote(pid)
    {
      if pid in tab {
        tab := tab[pid := tab[pid].(notepending := true)];
        if tab[pid].state == Wakeme && tab[pid].r.Some? {
          var r := tab[pid].r.value;
          tab := tab[pid := tab[pid].(r := None)];
          rr := map x | x in rr && x != r :: rr[x];
          Ready(pid);
        }
      }
    }

    method Interrupted(pid: Pid) returns (was: bool)
      modifies this
      ensures (State(), was) == old(State()).Interrupted(pid)
    {
      if pid in tab {
        was := tab[pid].notepending;
        tab := tab[pid := tab[pid].(notepending := false)];
      } else {
        was := false;
      }
    }
  }
}
