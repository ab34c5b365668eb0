/**
  Semaphores (kernel/src/lib.rs): a count in the memory processes share, and the
  list of those waiting for it to be positive.

  `Sys` is one segment as a value, with a function for each of the kernel's
  routines; `Kernel` is the mutable object, each of whose methods is proved to be
  that function.
 */
module Semaphores {
  import opened ProcTable

  const EBADARG := "bad arg in system call"
  const EFAULT := "no such memory"
  const ENOPROC := "no such process"

  /** Milliseconds in a tick. */
  const TICKMS: nat := 1000 / 100

  const WORD: int := 0x1_0000_0000
  const MAXLONG: int := 0x7fff_ffff

  predicate IsLong(x: int) {
    -MAXLONG - 1 <= x <= MAXLONG
  }

  /** A sum as a 32-bit `long` holds it. */
  function Wrap(x: int): (r: int)
    ensures IsLong(r) && (IsLong(x) ==> r == x)
  {
    (x + MAXLONG + 1) % WORD - MAXLONG - 1
  }

  type Addr = nat

  /** One process waiting; `waiting` is cleared by whoever wakes it. */
  datatype Waiter = Waiter(addr: Addr, waiting: bool, p: Pid)

  /** How an acquire goes on when its process is entered again. */
  datatype Label = Label(addr: Addr, ms: Option<nat>, since: nat)

  /** A call answers a number, or has left and will be entered again. */
  datatype Ret = N(n: int) | Left

  datatype Sys = Sys(mem: map<Addr, int>, sema: seq<Waiter>, labels: map<Pid, Label>, t: Table)

  // ---- the list of waiters

  function Entry(l: seq<Waiter>, p: Pid): (r: Option<Waiter>)
    ensures r.Some? ==> r.value.p == p
  {
    if l == [] then None else if l[0].p == p then Some(l[0]) else Entry(l[1..], p)
  }

  function SetWaiting(l: seq<Waiter>, p: Pid, waiting: bool): seq<Waiter> {
    if l == [] then []
    else if l[0].p == p then [l[0].(waiting := waiting)] + l[1..]
    else [l[0]] + SetWaiting(l[1..], p, waiting)
  }

  function Dequeue(l: seq<Waiter>, p: Pid): seq<Waiter> {
    if l == [] then [] else if l[0].p == p then l[1..] else [l[0]] + Dequeue(l[1..], p)
  }

  /** Clear `waiting` of the first `n` that wait for `a`; who they are. */
  function MarkWoken(l: seq<Waiter>, a: Addr, n: nat): (seq<Waiter>, seq<Pid>) {
    if l == [] || n == 0 then
      (l, [])
    else if l[0].addr == a && l[0].waiting then
      var (rest, woken) := MarkWoken(l[1..], a, n - 1);
      ([l[0].(waiting := false)] + rest, [l[0].p] + woken)
    else
      var (rest, woken) := MarkWoken(l[1..], a, n);
      ([l[0]] + rest, woken)
  }

  function WakeAll(t: Table, ps: seq<Pid>): Table
    decreases |ps|
  {
    if ps == [] then t else WakeAll(t.Wakeup(Sema(ps[0])).0, ps[1..])
  }

  // ---- the routines

  /** Take one if there is one. No other store comes between the load and the swap. */
  function Canacquire(mem: map<Addr, int>, a: Addr): (map<Addr, int>, Result<bool>) {
    if a !in mem then (mem, Err(EFAULT))
    else if mem[a] <= 0 then (mem, Ok(false))
    else (mem[a := mem[a] - 1], Ok(true))
  }

  function Semwakeup(s: Sys, a: Addr, n: nat): Sys {
    var (l, woken) := MarkWoken(s.sema, a, n);
    s.(sema := l, t := WakeAll(s.t, woken))
  }

  function Semrelease(s: Sys, p: Pid, a: Addr, delta: int): (Sys, Result<Ret>) {
    if delta < 0 then (s, Err(EBADARG))
    else if a !in s.mem then (s, Err(EFAULT))
    else if s.mem[a] < 0 then (s, Err(EBADARG))
    else
      var value := Wrap(s.mem[a] + delta);
      var s := s.(mem := s.mem[a := value]);
      if p !in s.t.tab then (s, Err(ENOPROC)) else (Semwakeup(s, a, delta), Ok(N(value)))
  }

  /** Off the list; one woken that did not take the semaphore passes the wake-up on. */
  function Semdone(s: Sys, p: Pid, a: Addr): Sys {
    if p !in s.t.tab then
      s
    else
      var e := Entry(s.sema, p);
      var s := s.(sema := Dequeue(s.sema, p));
      if e.Some? && !e.value.waiting then Semwakeup(s, a, 1) else s
  }

  /** From the top of the loop. */
  function Semwait(s: Sys, p: Pid, a: Addr, ms: Option<nat>, now: nat): (Sys, Result<Ret>) {
    var s := if p in s.t.tab then s.(sema := SetWaiting(s.sema, p, true)) else s;
    var (mem, got) := Canacquire(s.mem, a);
    if got.Err? then
      (Semdone(s, p, a), Err(got.error))
    else if got.value then
      (Semdone(s.(mem := mem), p, a), Ok(N(1)))
    else
      var (t, slept) := s.t.Sleep(p, Sema(p), false);
      if slept then
        (s.(t := t, labels := s.labels[p := Label(a, ms, now)]), Ok(Left))
      else
        (Semdone(s.(t := t.Interrupted(p).0), p, a), Err(EINTR))
  }

  /** `ms` is how long to wait: no limit if `None`, and not at all if 0. */
  function Semacquire(s: Sys, p: Pid, a: Addr, ms: Option<nat>, now: nat): (Sys, Result<Ret>) {
    if a in s.mem && s.mem[a] < 0 then
      (s, Err(EBADARG))
    else
      var (mem, got) := Canacquire(s.mem, a);
      if got.Err? then (s, Err(got.error))
      else if got.value then (s.(mem := mem), Ok(N(1)))
      else if ms == Some(0) then (s, Ok(N(0)))
      else if p !in s.t.tab then (s, Err(ENOPROC))
      else Semwait(s.(sema := s.sema + [Waiter(a, false, p)]), p, a, ms, now)
  }

  function Forget(labels: map<Pid, Label>, p: Pid): map<Pid, Label> {
    map x | x in labels && x != p :: labels[x]
  }

  /** What follows the sleep. */
  function Rest(s: Sys, p: Pid, now: nat): (Sys, Result<Ret>)
    requires p in s.labels
  {
    var rest := s.labels[p];
    var (t, noted) := s.t.Interrupted(p);
    var s := s.(labels := Forget(s.labels, p), t := t);
    if noted then
      (Semdone(s, p, rest.addr), Err(EINTR))
    else if rest.ms.None? then
      Semwait(s, p, rest.addr, None, now)
    else
      var elms := (if now > rest.since then now - rest.since else 0) * TICKMS;
      if elms >= rest.ms.value then
        (Semdone(s, p, rest.addr), Ok(N(0)))
      else
        Semwait(s, p, rest.addr, Some(rest.ms.value - elms), now)
  }

  lemma MarkStep(l: seq<Waiter>, i: nat, a: Addr, n: nat)
    requires i < |l| && n > 0
    ensures var x := l[i];
            var hit := x.addr == a && x.waiting;
            var (rest, woken) := MarkWoken(l[i + 1..], a, if hit then n - 1 else n);
            MarkWoken(l[i..], a, n) ==
              ([if hit then x.(waiting := false) else x] + rest, (if hit then [x.p] else []) + woken)
  {
    assert l[i..][1..] == l[i + 1..];
    var woken := MarkWoken(l[i + 1..], a, n).1;
    assert [] + woken == woken;
  }

  lemma MarkOver(l: seq<Waiter>, i: nat, a: Addr, n: nat)
    requires i <= |l| && (i == |l| || n == 0)
    ensures MarkWoken(l[i..], a, n) == (l[i..], [])
  {
  }

  class Kernel {
    var mem: map<Addr, int>
    var sema: seq<Waiter>
    var labels: map<Pid, Label>
    const procs: Procs

    constructor (mem: map<Addr, int>, procs: Procs)
      ensures State() == Sys(mem, [], map[], procs.State()) && this.procs == procs
    {
      this.mem, sema, labels, this.procs := mem, [], map[], procs;
    }

    function State(): Sys
      reads this, procs
    {
      Sys(mem, sema, labels, procs.State())
    }

    /** One pass over the list, clearing `waiting` of the oldest `n`. */
    method Mark(a: Addr, n: nat) returns (woken: seq<Pid>)
      modifies this`sema
      ensures (sema, woken) == MarkWoken(old(sema), a, n)
    {
      hide MarkWoken;
      woken := [];
      var left, i := n, 0;
      assert sema[0..] == sema;
      ghost var want, rest := MarkWoken(sema, a, n), MarkWoken(sema, a, n);
      while i < |sema|
        invariant 0 <= i <= |sema| == |old(sema)|
        invariant forall k :: i <= k < |sema| ==> sema[k] == old(sema)[k]
        invariant rest == MarkWoken(old(sema)[i..], a, left)
        invariant want.0 == sema[..i] + rest.0
        invariant want.1 == woken + rest.1
      {
        if left == 0 {
          break;
        }
        MarkStep(old(sema), i, a, left);
        ghost var was := sema;
        if sema[i].addr == a && sema[i].waiting {
          woken, left := woken + [sema[i].p], left - 1;
          sema := sema[i := sema[i].(waiting := false)];
        }
        rest := MarkWoken(old(sema)[i + 1..], a, left);
        assert sema[..i + 1] == was[..i] + [sema[i]];
        i := i + 1;
      }
      MarkOver(old(sema), i, a, left);
      assert rest.1 == [] && rest.0 == sema[i..];
      assert want.0 == sema && want.1 == woken;
    }

    method SemWakeup(a: Addr, n: nat)
      modifies this`sema, procs
      ensures State() == Semwakeup(old(State()), a, n)
    {
      var woken := Mark(a, n);
      var j := 0;
      assert woken[0..] == woken;
      while j < |woken|
        invariant 0 <= j <= |woken|
        invariant WakeAll(procs.State(), woken[j..]) == WakeAll(old(procs.State()), woken)
        invariant (sema, woken) == MarkWoken(old(sema), a, n)
      {
        assert woken[j..][1..] == woken[j + 1..];
        var _ := procs.Wakeup(Sema(woken[j]));
        j := j + 1;
      }
    }

    method SemRelease(p: Pid, a: Addr, delta: int) returns (res: Result<Ret>)
      modifies this, procs
      ensures (State(), res) == Semrelease(old(State()), p, a, delta)
    {
      if delta < 0 {
        return Err(EBADARG);
      }
      if a !in mem {
        return Err(EFAULT);
      }
      if mem[a] < 0 {
        return Err(EBADARG);
      }
      var value := Wrap(mem[a] + delta);
      mem := mem[a := value];
      if p !in procs.tab {
        return Err(ENOPROC);
      }
      SemWakeup(a, delta);
      return Ok(N(value));
    }

    method TryAcquire(a: Addr) returns (got: Result<bool>)
      modifies this
      ensures (mem, got) == Canacquire(old(mem), a)
      ensures sema == old(sema) && labels == old(labels)
    {
      if a !in mem {
        return Err(EFAULT);
      }
      if mem[a] <= 0 {
        return Ok(false);
      }
      mem := mem[a := mem[a] - 1];
      return Ok(true);
    }

    /** Where the process is on the list. */
    method Position(p: Pid) returns (i: nat)
      ensures i <= |sema|
      ensures Entry(sema, p) == if i < |sema| then Some(sema[i]) else None
      ensures i < |sema| ==> Dequeue(sema, p) == sema[..i] + sema[i + 1..]
      ensures i == |sema| ==> Dequeue(sema, p) == sema
      ensures forall w :: SetWaiting(sema, p, w) == if i < |sema| then sema[i := sema[i].(waiting := w)] else sema
    {
      i := 0;
      while i < |sema| && sema[i].p != p
        invariant 0 <= i <= |sema|
        invariant forall k :: 0 <= k < i ==> sema[k].p != p
      {
        i := i + 1;
      }
      ListAt(sema, p, i);
    }

    method SemDone(p: Pid, a: Addr)
      modifies this, procs
      ensures State() == Semdone(old(State()), p, a)
    {
      if p !in procs.tab {
        return;
      }
      var i := Position(p);
      if i < |sema| {
        var phore := sema[i];
        sema := sema[..i] + sema[i + 1..];
        if !phore.waiting {
          SemWakeup(a, 1);
        }
      }
    }

    method SemWait(p: Pid, a: Addr, ms: Option<nat>, now: nat) returns (res: Result<Ret>)
      modifies this, procs
      ensures (State(), res) == Semwait(old(State()), p, a, ms, now)
    {
      if p in procs.tab {
        var i := Position(p);
        if i < |sema| {
          sema := sema[i := sema[i].(waiting := true)];
        }
      }
      var got := TryAcquire(a);
      if got.Err? {
        SemDone(p, a);
        return Err(got.error);
      }
      if got.value {
        SemDone(p, a);
        return Ok(N(1));
      }
      var slept := procs.Sleep(p, Sema(p), false);
      if !slept {
        var _ := procs.Interrupted(p);
        SemDone(p, a);
        return Err(EINTR);
      }
      labels := labels[p := Label(a, ms, now)];
      return Ok(Left);
    }

    method SemAcquire(p: Pid, a: Addr, ms: Option<nat>, now: nat) returns (res: Result<Ret>)
      modifies this, procs
      ensures (State(), res) == Semacquire(old(State()), p, a, ms, now)
    {
      if a in mem && mem[a] < 0 {
        return Err(EBADARG);
      }
      var got := TryAcquire(a);
      if got.Err? {
        return Err(got.error);
      }
      if got.value {
        return Ok(N(1));
      }
      if ms == Some(0) {
        return Ok(N(0));
      }
      if p !in procs.tab {
        return Err(ENOPROC);
      }
      sema := sema + [Waiter(a, false, p)];
      res := SemWait(p, a, ms, now);
    }

    method Resume(p: Pid, now: nat) returns (res: Result<Ret>)
      requires p in labels
      modifies this, procs
      ensures (State(), res) == Rest(old(State()), p, now)
    {
      var rest := labels[p];
      labels := map x | x in labels && x != p :: labels[x];
      var noted := procs.Interrupted(p);
      if noted {
        SemDone(p, rest.addr);
        return Err(EINTR);
      }
      if rest.ms.None? {
        res := SemWait(p, rest.addr, None, now);
        return;
      }
      var elms := (if now > rest.since then now - rest.since else 0) * TICKMS;
      if elms >= rest.ms.value {
        SemDone(p, rest.addr);
        return Ok(N(0));
      }
      res := SemWait(p, rest.addr, Some(rest.ms.value - elms), now);
    }
  }

  /** The list functions act at the first entry of the process. */
  lemma {:induction false} ListAt(l: seq<Waiter>, p: Pid, i: nat)
    requires i <= |l| && (forall k :: 0 <= k < i ==> l[k].p != p) && (i < |l| ==> l[i].p == p)
    ensures Entry(l, p) == if i < |l| then Some(l[i]) else None
    ensures i < |l| ==> Dequeue(l, p) == l[..i] + l[i + 1..]
    ensures i == |l| ==> Dequeue(l, p) == l
    ensures forall w :: SetWaiting(l, p, w) == if i < |l| then l[i := l[i].(waiting := w)] else l
  {
    if i > 0 {
      ListAt(l[1..], p, i - 1);
      assert l == [l[0]] + l[1..];
      if i < |l| {
        assert l[1..][..i - 1] == l[1..i];
        assert [l[0]] + l[1..i] == l[..i];
      }
    }
  }
}
