/**
  Every run of the semaphores of one segment: no wake-up is lost, and the count
  is what was released less what was acquired.
 */
module SemaphoreRuns {
  import opened ProcTable
  import opened Semaphores

  function Min(a: int, b: int): int {
    if a < b then a else b
  }

  // ---- what the list functions do to what is counted

  /** At most one entry for a process. */
  predicate Distinct(l: seq<Waiter>) {
    l == [] || (Entry(l[1..], l[0].p).None? && Distinct(l[1..]))
  }

  function Queued(l: seq<Waiter>, a: Addr): nat {
    if l == [] then 0 else (if l[0].addr == a then 1 else 0) + Queued(l[1..], a)
  }

  /** Those queued that have been woken and have not run since. */
  function Woken(l: seq<Waiter>, a: Addr): nat {
    if l == [] then 0 else (if l[0].addr == a && !l[0].waiting then 1 else 0) + Woken(l[1..], a)
  }

  /** Those not woken, oldest first. */
  function Waiting(l: seq<Waiter>, a: Addr): seq<Pid> {
    if l == [] then [] else (if l[0].addr == a && l[0].waiting then [l[0].p] else []) + Waiting(l[1..], a)
  }

  lemma {:induction false} SetEntry(l: seq<Waiter>, p: Pid, w: bool, x: Pid)
    ensures Entry(SetWaiting(l, p, w), x) ==
            if x == p && Entry(l, p).Some? then Some(Entry(l, p).value.(waiting := w)) else Entry(l, x)
  {
    if l != [] {
      SetEntry(l[1..], p, w, x);
    }
  }

  lemma {:induction false} SetDistinct(l: seq<Waiter>, p: Pid, w: bool)
    requires Distinct(l)
    ensures Distinct(SetWaiting(l, p, w))
  {
    if l != [] {
      SetDistinct(l[1..], p, w);
      SetEntry(l[1..], p, w, l[0].p);
    }
  }

  lemma {:induction false} SetCounts(l: seq<Waiter>, p: Pid, a: Addr)
    ensures Queued(SetWaiting(l, p, true), a) == Queued(l, a)
    ensures var e := Entry(l, p);
            Woken(SetWaiting(l, p, true), a) == Woken(l, a) - if e.Some? && e.value.addr == a && !e.value.waiting then 1 else 0
  {
    if l != [] {
      SetCounts(l[1..], p, a);
    }
  }

  lemma {:induction false} DequeueEntry(l: seq<Waiter>, p: Pid, x: Pid)
    requires Distinct(l)
    ensures Entry(Dequeue(l, p), x) == if x == p then None else Entry(l, x)
  {
    if l != [] {
      DequeueEntry(l[1..], p, x);
    }
  }

  lemma {:induction false} DequeueDistinct(l: seq<Waiter>, p: Pid)
    requires Distinct(l)
    ensures Distinct(Dequeue(l, p))
  {
    if l != [] {
      DequeueDistinct(l[1..], p);
      DequeueEntry(l[1..], p, l[0].p);
    }
  }

  lemma {:induction false} DequeueCounts(l: seq<Waiter>, p: Pid, a: Addr)
    ensures var e := Entry(l, p);
            && Queued(Dequeue(l, p), a) == Queued(l, a) - (if e.Some? && e.value.addr == a then 1 else 0)
            && Woken(Dequeue(l, p), a) == Woken(l, a) - if e.Some? && e.value.addr == a && !e.value.waiting then 1 else 0
  {
    if l != [] {
      DequeueCounts(l[1..], p, a);
    }
  }

  lemma {:induction false} AppendEntry(l: seq<Waiter>, w: Waiter, x: Pid)
    ensures Entry(l + [w], x) == if Entry(l, x).None? && x == w.p then Some(w) else Entry(l, x)
    ensures Distinct(l) && Entry(l, w.p).None? ==> Distinct(l + [w])
  {
    if l != [] {
      assert (l + [w])[1..] == l[1..] + [w];
      AppendEntry(l[1..], w, x);
      AppendEntry(l[1..], w, l[0].p);
    }
  }

  lemma {:induction false} AppendCounts(l: seq<Waiter>, w: Waiter, a: Addr)
    ensures Queued(l + [w], a) == Queued(l, a) + if w.addr == a then 1 else 0
    ensures Woken(l + [w], a) == Woken(l, a) + if w.addr == a && !w.waiting then 1 else 0
  {
    if l != [] {
      assert (l + [w])[1..] == l[1..] + [w];
      AppendCounts(l[1..], w, a);
    } else {
      assert (l + [w])[1..] == [];
    }
  }

  lemma {:induction false} MarkEntry(l: seq<Waiter>, a: Addr, n: nat, x: Pid)
    requires Distinct(l)
    ensures var (l', woken) := MarkWoken(l, a, n);
            && (x in woken ==> Entry(l, x).Some? && Entry(l', x) == Some(Entry(l, x).value.(waiting := false)))
            && (x !in woken ==> Entry(l', x) == Entry(l, x))
  {
    if l != [] && n > 0 {
      MarkEntry(l[1..], a, if l[0].addr == a && l[0].waiting then n - 1 else n, x);
    }
  }

  lemma {:induction false} MarkDistinct(l: seq<Waiter>, a: Addr, n: nat)
    requires Distinct(l)
    ensures Distinct(MarkWoken(l, a, n).0)
  {
    if l != [] && n > 0 {
      var m := if l[0].addr == a && l[0].waiting then n - 1 else n;
      MarkDistinct(l[1..], a, m);
      MarkEntry(l[1..], a, m, l[0].p);
    }
  }

  lemma {:induction false} MarkCounts(l: seq<Waiter>, a: Addr, n: nat, b: Addr)
    ensures Queued(MarkWoken(l, a, n).0, b) == Queued(l, b)
    ensures Woken(l, b) <= Queued(l, b)
    ensures Woken(MarkWoken(l, a, n).0, b) == if a == b then Min(Queued(l, a), Woken(l, a) + n) else Woken(l, b)
  {
    if l != [] {
      MarkCounts(l[1..], a, if n > 0 && l[0].addr == a && l[0].waiting then n - 1 else n, b);
    }
  }

  /** `semwakeup` wakes the oldest that wait, as many as it is asked for, and leaves the rest in their order. */
  lemma {:induction false} WakesOldest(l: seq<Waiter>, a: Addr, n: nat)
    ensures var (l', woken) := MarkWoken(l, a, n);
            var waiting := Waiting(l, a);
            && |woken| == Min(n, |waiting|)
            && woken == waiting[..|woken|]
            && Waiting(l', a) == waiting[|woken|..]
  {
    if l != [] && n > 0 {
      var hit := l[0].addr == a && l[0].waiting;
      var m: nat := if hit then n - 1 else n;
      WakesOldest(l[1..], a, m);
      var (rest, woken) := MarkWoken(l[1..], a, m);
      var later := Waiting(l[1..], a);
      var (l', woken') := MarkWoken(l, a, n);
      assert l'[1..] == rest;
      if hit {
        assert ([l[0].p] + later)[..1 + |woken|] == [l[0].p] + later[..|woken|];
        assert ([l[0].p] + later)[1 + |woken|..] == later[|woken|..];
      } else {
        assert [] + later == later && [] + Waiting(rest, a) == Waiting(rest, a);
      }
    }
  }

  // ---- the invariant

  /** A semaphore's rendez is for the process it is named for. */
  ghost predicate RendezInv(t: Table) {
    && (forall x :: Sema(x) in t.rr ==> t.rr[Sema(x)] == x)
    && (forall p :: p in t.tab && t.tab[p].r.Some? && t.tab[p].r.value.Sema? ==> t.tab[p].r == Some(Sema(p)))
  }

  /** A process on the list is runnable, or asleep at its own rendez and not woken. */
  predicate Placed(w: Waiter, t: Table) {
    && w.p in t.tab
    && (t.tab[w.p].state == Runnable
        || (t.tab[w.p].state == Wakeme && t.tab[w.p].r == Some(Sema(w.p)) && Sema(w.p) in t.rr && w.waiting))
  }

  ghost predicate PlacedInv(l: seq<Waiter>, t: Table, but: Option<Pid>) {
    forall x: Pid :: Entry(l, x).Some? && Some(x) != but ==> Placed(Entry(l, x).value, t)
  }

  /** A process is on the list while it is in the middle of an acquire. */
  ghost predicate LabelsInv(l: seq<Waiter>, labels: map<Pid, Label>, but: Option<Pid>) {
    forall x: Pid :: Some(x) != but ==>
      && (x in labels <==> Entry(l, x).Some?)
      && (x in labels ==> Entry(l, x).value.addr == labels[x].addr)
  }

  /** At every semaphore but `a`: as many are woken as there is to take, or as are queued. */
  ghost predicate WakesBut(l: seq<Waiter>, mem: map<Addr, int>, a: Addr) {
    forall b :: b in mem && b != a ==> Woken(l, b) >= Min(mem[b], Queued(l, b))
  }

  ghost predicate WakeInv(l: seq<Waiter>, mem: map<Addr, int>) {
    forall a :: a in mem ==> Woken(l, a) >= Min(mem[a], Queued(l, a))
  }

  /** All but the wake-ups, and with `but` in the middle of a step. */
  ghost predicate Base(s: Sys, but: Option<Pid>) {
    && Distinct(s.sema)
    && RendezInv(s.t)
    && PlacedInv(s.sema, s.t, but)
    && LabelsInv(s.sema, s.labels, but)
  }

  ghost predicate Inv(s: Sys) {
    Base(s, None) && WakeInv(s.sema, s.mem)
  }

  /** `p` is running the kernel, on `a`. */
  ghost predicate Current(s: Sys, p: Pid, a: Addr) {
    && p in s.t.tab && s.t.tab[p].state == Runnable && p !in s.labels
    && (Entry(s.sema, p).Some? ==> Entry(s.sema, p).value.addr == a)
  }

  lemma WakeOne(t: Table, x: Pid)
    requires RendezInv(t)
    ensures var t' := t.Wakeup(Sema(x)).0;
            && RendezInv(t') && t'.tab.Keys == t.tab.Keys
            && (forall y :: y in t.tab && y != x ==> t'.tab[y] == t.tab[y])
            && (forall y :: y != x ==> (Sema(y) in t'.rr <==> Sema(y) in t.rr))
            && (x in t.tab && t.tab[x].state == Runnable ==> t'.tab[x].state == Runnable)
            && (x in t.tab && t.tab[x].state == Wakeme && t.tab[x].r == Some(Sema(x)) && Sema(x) in t.rr ==>
                  t'.tab[x].state == Runnable)
  {
  }

  lemma {:induction false} WakeEach(t: Table, ps: seq<Pid>)
    requires RendezInv(t)
    ensures var t' := WakeAll(t, ps);
            && RendezInv(t') && t'.tab.Keys == t.tab.Keys
            && (forall y :: y in t.tab && y !in ps ==> t'.tab[y] == t.tab[y])
            && (forall y :: y !in ps ==> (Sema(y) in t'.rr <==> Sema(y) in t.rr))
            && (forall x :: x in t.tab && t.tab[x].state == Runnable ==> t'.tab[x].state == Runnable)
            && (forall x :: x in t.tab && x in ps && t.tab[x].state == Wakeme && t.tab[x].r == Some(Sema(x)) && Sema(x) in t.rr ==>
                  t'.tab[x].state == Runnable)
    decreases |ps|
  {
    if ps != [] {
      WakeOne(t, ps[0]);
      WakeEach(t.Wakeup(Sema(ps[0])).0, ps[1..]);
    }
  }

  /** Waking keeps everything, and makes the oldest `n` of those waiting runnable. */
  lemma SemwakeupKeeps(s: Sys, a: Addr, n: nat)
    requires Base(s, None)
    ensures var s' := Semwakeup(s, a, n);
            && Base(s', None) && s'.mem == s.mem && s'.labels == s.labels
            && s'.t.tab.Keys == s.t.tab.Keys
            && (forall b :: Queued(s'.sema, b) == Queued(s.sema, b))
            && (forall b :: Woken(s'.sema, b) == if a == b then Min(Queued(s.sema, a), Woken(s.sema, a) + n) else Woken(s.sema, b))
  {
    var (l, woken) := MarkWoken(s.sema, a, n);
    MarkDistinct(s.sema, a, n);
    WakeEach(s.t, woken);
    forall b
      ensures Queued(l, b) == Queued(s.sema, b)
      ensures Woken(l, b) == if a == b then Min(Queued(s.sema, a), Woken(s.sema, a) + n) else Woken(s.sema, b)
    {
      MarkCounts(s.sema, a, n, b);
    }
    forall x {:trigger Entry(l, x)}
      ensures x in woken ==> Entry(s.sema, x).Some? && Entry(l, x) == Some(Entry(s.sema, x).value.(waiting := false))
      ensures x !in woken ==> Entry(l, x) == Entry(s.sema, x)
    {
      MarkEntry(s.sema, a, n, x);
    }
  }

  /** Leaving the list keeps everything: one woken that leaves passes the wake-up on. */
  lemma SemdoneKeeps(s: Sys, p: Pid, a: Addr)
    requires Base(s, Some(p)) && Current(s, p, a)
    ensures var s' := Semdone(s, p, a);
            && Base(s', None) && s'.mem == s.mem && s'.labels == s.labels
            && (forall b :: Queued(s'.sema, b) == Queued(s.sema, b) - if b == a && Entry(s.sema, p).Some? then 1 else 0)
            && (forall b :: Woken(s'.sema, b) >= Min(Woken(s.sema, b), Queued(s'.sema, b)))
  {
    var e := Entry(s.sema, p);
    var mid := s.(sema := Dequeue(s.sema, p));
    DequeueDistinct(s.sema, p);
    forall x {:trigger Entry(mid.sema, x)}
      ensures Entry(mid.sema, x) == if x == p then None else Entry(s.sema, x)
    {
      DequeueEntry(s.sema, p, x);
    }
    forall b
      ensures Queued(mid.sema, b) == Queued(s.sema, b) - (if e.Some? && e.value.addr == b then 1 else 0)
      ensures Woken(mid.sema, b) == Woken(s.sema, b) - if e.Some? && e.value.addr == b && !e.value.waiting then 1 else 0
    {
      DequeueCounts(s.sema, p, b);
    }
    if e.Some? && !e.value.waiting {
      SemwakeupKeeps(mid, a, 1);
    }
  }

  /** From the top of the loop, whatever comes of it. */
  lemma SemwaitKeeps(s: Sys, p: Pid, a: Addr, ms: Option<nat>, now: nat)
    requires Base(s, Some(p)) && Current(s, p, a) && Entry(s.sema, p).Some? && a in s.mem
    requires WakeInv(s.sema, s.mem)
    ensures Inv(Semwait(s, p, a, ms, now).0)
  {
    hide RendezInv, PlacedInv, LabelsInv, WakeInv, Base;
    var m := s.(sema := SetWaiting(s.sema, p, true));
    MarkedWaiting(s, p, a, m);
    var (mem, got) := Canacquire(m.mem, a);
    if got.value {
      Acquired(m, mem, p, a);
    } else {
      var (t, slept) := m.t.Sleep(p, Sema(p), false);
      if slept {
        SleepKeeps(m, p, a, t, Label(a, ms, now));
      } else {
        RefusedSleep(m, p, a, t.Interrupted(p).0);
      }
    }
  }

  lemma MarkedWaiting(s: Sys, p: Pid, a: Addr, m: Sys)
    requires Base(s, Some(p)) && Current(s, p, a) && Entry(s.sema, p).Some? && a in s.mem
    requires WakeInv(s.sema, s.mem) && m == s.(sema := SetWaiting(s.sema, p, true))
    ensures Base(m, Some(p)) && Current(m, p, a) && Entry(m.sema, p) == Some(Waiter(a, true, p))
    ensures WakesBut(m.sema, m.mem, a)
    ensures Woken(m.sema, a) + 1 >= Min(s.mem[a], Queued(m.sema, a))
  {
    SetDistinct(s.sema, p, true);
    forall x {:trigger Entry(m.sema, x)}
      ensures Entry(m.sema, x) == if x == p then Some(Waiter(a, true, p)) else Entry(s.sema, x)
    {
      SetEntry(s.sema, p, true, x);
    }
    forall b {:trigger Queued(m.sema, b)} | b in s.mem
      ensures Queued(m.sema, b) == Queued(s.sema, b)
      ensures Woken(m.sema, b) == Woken(s.sema, b) || (b == a && Woken(m.sema, a) + 1 == Woken(s.sema, a))
    {
      SetCounts(s.sema, p, b);
    }
  }

  lemma Acquired(s: Sys, mem: map<Addr, int>, p: Pid, a: Addr)
    requires Base(s, Some(p)) && Current(s, p, a) && Entry(s.sema, p).Some? && a in s.mem
    requires WakesBut(s.sema, s.mem, a) && Woken(s.sema, a) + 1 >= Min(s.mem[a], Queued(s.sema, a))
    requires mem == s.mem[a := s.mem[a] - 1]
    ensures Inv(Semdone(s.(mem := mem), p, a))
  {
    assert Base(s.(mem := mem), Some(p));
    hide RendezInv, PlacedInv, LabelsInv, Base, Semdone;
    SemdoneKeeps(s.(mem := mem), p, a);
  }

  /** A process goes to sleep only when there is nothing to take. */
  lemma SleepKeeps(s: Sys, p: Pid, a: Addr, t: Table, rest: Label)
    requires Base(s, Some(p)) && Current(s, p, a) && Entry(s.sema, p) == Some(Waiter(a, true, p)) && a in s.mem
    requires WakesBut(s.sema, s.mem, a)
    requires s.mem[a] <= 0 && (t, true) == s.t.Sleep(p, Sema(p), false) && rest.addr == a
    ensures Inv(s.(t := t, labels := s.labels[p := rest]))
  {
  }

  lemma RefusedSleep(s: Sys, p: Pid, a: Addr, t: Table)
    requires Base(s, Some(p)) && Current(s, p, a) && Entry(s.sema, p).Some? && a in s.mem
    requires WakesBut(s.sema, s.mem, a)
    requires s.mem[a] <= 0 && s.t.Sleep(p, Sema(p), false).1 == false && t == s.t.Sleep(p, Sema(p), false).0.Interrupted(p).0
    ensures Inv(Semdone(s.(t := t), p, a))
  {
    var mid := s.(t := t);
    assert Base(mid, Some(p));
    hide RendezInv, PlacedInv, LabelsInv, Base, Semdone;
    SemdoneKeeps(mid, p, a);
  }

  // ---- runs

  datatype Event =
    | Release(p: Pid, addr: Addr, delta: int)
    | Acquire(p: Pid, addr: Addr, ms: Option<nat>, now: nat)
    | Resume(p: Pid, now: nat)
    | Note(p: Pid)
    | Timer(p: Pid)
    | Elsewhere(p: Pid, rec: Proc)

  predicate Running(s: Sys, p: Pid) {
    p in s.t.tab && s.t.tab[p].state == Runnable
  }

  /** A call is made by a running process that is in none; a process that is in none may do anything elsewhere. */
  predicate Enabled(s: Sys, e: Event) {
    match e
    case Release(p, a, delta) => Running(s, p) && p !in s.labels && delta <= MAXLONG
    case Acquire(p, a, ms, now) => Running(s, p) && p !in s.labels
    case Resume(p, now) => Running(s, p) && p in s.labels
    case Note(p) => true
    case Timer(p) => true
    case Elsewhere(p, rec) => p !in s.labels && !(rec.r.Some? && rec.r.value.Sema?)
  }

  function Step(s: Sys, e: Event): (Sys, Result<Ret>)
    requires Enabled(s, e)
  {
    match e
    case Release(p, a, delta) => Semrelease(s, p, a, delta)
    case Acquire(p, a, ms, now) => Semacquire(s, p, a, ms, now)
    case Resume(p, now) => Rest(s, p, now)
    case Note(p) => (s.(t := s.t.Postnote(p)), Ok(Left))
    case Timer(p) => (s.(t := s.t.Wakeup(Sema(p)).0), Ok(Left))
    case Elsewhere(p, rec) => (s.(t := s.t.Set(p, rec)), Ok(Left))
  }

  function Init(mem: map<Addr, int>): Sys {
    Sys(mem, [], map[], Table(map[], map[], 0))
  }

  function Exec(mem: map<Addr, int>, es: seq<Event>): Option<Sys> {
    if es == [] then
      Some(Init(mem))
    else
      var s := Exec(mem, es[..|es| - 1]);
      if s.Some? && Enabled(s.value, es[|es| - 1]) then Some(Step(s.value, es[|es| - 1]).0) else None
  }

  lemma ReleaseKeeps(s: Sys, p: Pid, a: Addr, delta: int)
    requires Inv(s) && p in s.t.tab
    ensures Inv(Semrelease(s, p, a, delta).0)
  {
    if delta >= 0 && a in s.mem && s.mem[a] >= 0 {
      SemwakeupKeeps(s.(mem := s.mem[a := Wrap(s.mem[a] + delta)]), a, delta);
      WrapBelow(s.mem[a] + delta);
    }
  }

  lemma WrapBelow(x: int)
    requires x >= 0
    ensures Wrap(x) <= x
  {
  }

  lemma AcquireKeeps(s: Sys, p: Pid, a: Addr, ms: Option<nat>, now: nat)
    requires Inv(s) && Running(s, p) && p !in s.labels
    ensures Inv(Semacquire(s, p, a, ms, now).0)
  {
    if a in s.mem && s.mem[a] == 0 && ms != Some(0) {
      var q := s.(sema := s.sema + [Waiter(a, false, p)]);
      JoinKeeps(s, p, a, q);
      SemwaitKeeps(q, p, a, ms, now);
    }
  }

  lemma JoinKeeps(s: Sys, p: Pid, a: Addr, q: Sys)
    requires Inv(s) && Running(s, p) && p !in s.labels && q == s.(sema := s.sema + [Waiter(a, false, p)])
    ensures Base(q, Some(p)) && Current(q, p, a) && Entry(q.sema, p).Some? && WakeInv(q.sema, q.mem)
  {
    assert Entry(s.sema, p).None?;
    forall x {:trigger Entry(q.sema, x)}
      ensures Entry(q.sema, x) == if x == p then Some(Waiter(a, false, p)) else Entry(s.sema, x)
    {
      AppendEntry(s.sema, Waiter(a, false, p), x);
    }
    AppendEntry(s.sema, Waiter(a, false, p), p);
    forall b {:trigger Queued(q.sema, b)}
      ensures Queued(q.sema, b) - Queued(s.sema, b) == Woken(q.sema, b) - Woken(s.sema, b) == if a == b then 1 else 0
    {
      AppendCounts(s.sema, Waiter(a, false, p), b);
    }
  }

  lemma ResumeKeeps(s: Sys, p: Pid, now: nat)
    requires Inv(s) && Running(s, p) && p in s.labels && s.labels[p].addr in s.mem
    ensures Inv(Rest(s, p, now).0)
  {
    var rest := s.labels[p];
    var q := s.(labels := Forget(s.labels, p), t := s.t.Interrupted(p).0);
    BackIn(s, p, q);
    hide RendezInv, PlacedInv, LabelsInv, Base, Inv, Semdone, Semwait, Current, WakeInv;
    LeaveKeeps(q, p, rest.addr);
    forall ms {
      SemwaitKeeps(q, p, rest.addr, ms, now);
    }
  }

  /** Giving up, noted or out of time. */
  lemma LeaveKeeps(s: Sys, p: Pid, a: Addr)
    requires Base(s, Some(p)) && Current(s, p, a) && WakeInv(s.sema, s.mem)
    ensures Inv(Semdone(s, p, a))
  {
    hide RendezInv, PlacedInv, LabelsInv, Base, Semdone;
    SemdoneKeeps(s, p, a);
  }

  lemma BackIn(s: Sys, p: Pid, q: Sys)
    requires Inv(s) && Running(s, p) && p in s.labels
    requires q == s.(labels := Forget(s.labels, p), t := s.t.Interrupted(p).0)
    ensures Base(q, Some(p)) && Current(q, p, s.labels[p].addr) && Entry(q.sema, p).Some? && WakeInv(q.sema, q.mem)
  {
  }

  lemma NoteKeeps(s: Sys, p: Pid)
    requires Inv(s)
    ensures Inv(s.(t := s.t.Postnote(p)))
  {
  }

  lemma TimerKeeps(s: Sys, p: Pid)
    requires Inv(s)
    ensures Inv(s.(t := s.t.Wakeup(Sema(p)).0))
  {
    WakeOne(s.t, p);
  }

  /** An address waited for is in the segment. */
  ghost predicate AddrInv(s: Sys) {
    forall p :: p in s.labels ==> s.labels[p].addr in s.mem
  }

  /** What an entry for `p` on `a` leaves alone: where memory is, and the other processes' labels. */
  ghost predicate Frame(s: Sys, s': Sys, p: Pid, a: Addr) {
    && s'.mem.Keys == s.mem.Keys
    && forall x :: x in s'.labels ==> (x in s.labels && s'.labels[x] == s.labels[x]) || (x == p && s'.labels[x].addr == a && a in s.mem)
  }

  lemma SemwaitFrame(s: Sys, p: Pid, a: Addr, ms: Option<nat>, now: nat)
    ensures Frame(s, Semwait(s, p, a, ms, now).0, p, a)
  {
    hide MarkWoken, WakeAll, SetWaiting, Dequeue, Entry;
  }

  lemma RestFrame(s: Sys, p: Pid, now: nat)
    requires p in s.labels
    ensures Frame(s, Rest(s, p, now).0, p, s.labels[p].addr)
  {
    hide MarkWoken, WakeAll, SetWaiting, Dequeue, Entry, Semwait;
    var a := s.labels[p].addr;
    var q := s.(labels := Forget(s.labels, p), t := s.t.Interrupted(p).0);
    forall ms { SemwaitFrame(q, p, a, ms, now); }
  }

  lemma AcquireFrame(s: Sys, p: Pid, a: Addr, ms: Option<nat>, now: nat)
    ensures Frame(s, Semacquire(s, p, a, ms, now).0, p, a)
  {
    hide MarkWoken, WakeAll, SetWaiting, Dequeue, Entry, Semwait;
    SemwaitFrame(s.(sema := s.sema + [Waiter(a, false, p)]), p, a, ms, now);
  }

  lemma StepKeeps(s: Sys, e: Event)
    requires Inv(s) && AddrInv(s) && Enabled(s, e)
    ensures Inv(Step(s, e).0) && AddrInv(Step(s, e).0) && Step(s, e).0.mem.Keys == s.mem.Keys
  {
    match e
    case Release(p, a, delta) => {
      hide Inv, MarkWoken, WakeAll;
      ReleaseKeeps(s, p, a, delta);
    }
    case Acquire(p, a, ms, now) => {
      hide Inv, Semacquire;
      AcquireKeeps(s, p, a, ms, now);
      AcquireFrame(s, p, a, ms, now);
    }
    case Resume(p, now) => {
      hide Inv, Rest;
      ResumeKeeps(s, p, now);
      RestFrame(s, p, now);
    }
    case Note(p) => {
      hide Inv;
      NoteKeeps(s, p);
    }
    case Timer(p) => {
      hide Inv;
      TimerKeeps(s, p);
    }
    case Elsewhere(p, rec) =>
      ElsewhereKeeps(s, p, rec);
  }

  lemma ElsewhereKeeps(s: Sys, p: Pid, rec: Proc)
    requires Inv(s) && p !in s.labels && !(rec.r.Some? && rec.r.value.Sema?)
    ensures Inv(s.(t := s.t.Set(p, rec)))
  {
  }

  lemma {:induction false} RunKeeps(mem: map<Addr, int>, es: seq<Event>)
    requires Exec(mem, es).Some?
    ensures var s := Exec(mem, es).value; Inv(s) && AddrInv(s) && s.mem.Keys == mem.Keys
  {
    if es != [] {
      RunKeeps(mem, es[..|es| - 1]);
      StepKeeps(Exec(mem, es[..|es| - 1]).value, es[|es| - 1]);
    } else {
      forall a ensures Queued([], a) == 0 { }
    }
  }

  /**
    No wake-up is lost: in every reachable state there are as many woken waiters
    at a semaphore as there is to take, or as are queued, and whoever is woken
    is runnable.
   */
  lemma NoLostWakeup(mem: map<Addr, int>, es: seq<Event>, a: Addr)
    requires Exec(mem, es).Some? && a in mem
    ensures var s := Exec(mem, es).value;
            && a in s.mem && Woken(s.sema, a) >= Min(s.mem[a], Queued(s.sema, a))
            && (forall p :: Entry(s.sema, p).Some? && !Entry(s.sema, p).value.waiting ==> Running(s, p) && p in s.labels)
  {
    RunKeeps(mem, es);
  }

  lemma {:induction false} SomeWoken(l: seq<Waiter>, a: Addr) returns (p: Pid)
    requires Woken(l, a) > 0 && Distinct(l)
    ensures Entry(l, p).Some? && Entry(l, p).value.addr == a && !Entry(l, p).value.waiting
  {
    if l[0].addr == a && !l[0].waiting {
      p := l[0].p;
    } else {
      p := SomeWoken(l[1..], a);
    }
  }

  /** How long the call has been asleep, if it has a limit, is its limit. */
  predicate OutOfTime(rest: Label, now: nat) {
    rest.ms.Some? && (if now > rest.since then now - rest.since else 0) * TICKMS >= rest.ms.value
  }

  /**
    While there is something to take and somebody queued for it, somebody queued
    for it can run, and will have it unless a note or the clock ends its wait.
   */
  lemma Progress(mem: map<Addr, int>, es: seq<Event>, a: Addr) returns (p: Pid)
    requires Exec(mem, es).Some? && a in mem
    requires var s := Exec(mem, es).value; a in s.mem && s.mem[a] > 0 && Queued(s.sema, a) > 0
    ensures var s := Exec(mem, es).value;
            && p in s.labels && s.labels[p].addr == a
            && forall now: nat ::
                 && Enabled(s, Resume(p, now))
                 && (!s.t.tab[p].notepending && !OutOfTime(s.labels[p], now) ==> Step(s, Resume(p, now)).1 == Ok(N(1)))
                 && (s.t.tab[p].notepending ==> Step(s, Resume(p, now)).1 == Err(EINTR))
  {
    NoLostWakeup(mem, es, a);
    RunKeeps(mem, es);
    p := SomeWoken(Exec(mem, es).value.sema, a);
  }

  // ---- what is counted

  /** What a step added to `a`. */
  function Given(s: Sys, e: Event, a: Addr): nat
    requires Enabled(s, e)
  {
    if e.Release? && e.addr == a && Step(s, e).1.Ok? && e.delta >= 0 then e.delta else 0
  }

  /** Whether a step answered a process that it has acquired `a`. */
  predicate Takes(s: Sys, e: Event, a: Addr)
    requires Enabled(s, e)
  {
    && ((e.Acquire? && e.addr == a) || (e.Resume? && s.labels[e.p].addr == a))
    && Step(s, e).1 == Ok(N(1))
  }

  /** Whether a release took `a` past the largest `long`. */
  predicate Overflows(s: Sys, e: Event, a: Addr)
    requires Enabled(s, e)
  {
    a in s.mem && s.mem[a] + Given(s, e, a) > MAXLONG
  }

  lemma SemwaitCount(s: Sys, p: Pid, a: Addr, ms: Option<nat>, now: nat, b: Addr)
    requires a in s.mem && b in s.mem
    ensures var (s', res) := Semwait(s, p, a, ms, now);
            && b in s'.mem
            && s'.mem[b] == s.mem[b] - (if a == b && res == Ok(N(1)) then 1 else 0)
            && (res == Ok(N(1)) ==> s.mem[a] > 0)
  {
    hide MarkWoken, WakeAll, SetWaiting, Dequeue, Entry;
  }

  lemma StepCount(s: Sys, e: Event, a: Addr)
    requires Enabled(s, e) && AddrInv(s) && a in s.mem && IsLong(s.mem[a])
    ensures var s' := Step(s, e).0;
            && a in s'.mem && IsLong(s'.mem[a])
            && s'.mem[a] == s.mem[a] + Given(s, e, a) - (if Takes(s, e, a) then 1 else 0) - (if Overflows(s, e, a) then WORD else 0)
            && (Takes(s, e, a) ==> s.mem[a] > 0)
            && (Given(s, e, a) > 0 ==> s.mem[a] >= 0)
            && (Overflows(s, e, a) ==> s'.mem[a] < 0)
  {
    hide MarkWoken, WakeAll, SetWaiting, Dequeue, Entry, Semwait;
    match e
    case Release(p, b, delta) =>
    case Acquire(p, b, ms, now) =>
      if b in s.mem {
        SemwaitCount(s.(sema := s.sema + [Waiter(b, false, p)]), p, b, ms, now, a);
      }
    case Resume(p, now) =>
      var q := s.(labels := Forget(s.labels, p), t := s.t.Interrupted(p).0);
      forall ms { SemwaitCount(q, p, s.labels[p].addr, ms, now, a); }
    case Note(p) =>
    case Timer(p) =>
    case Elsewhere(p, rec) =>
  }

  /** Over a run: released, acquired, and whether a release overflowed. */
  datatype Ledger = Ledger(released: nat, acquired: nat, overflowed: bool)

  function Account(mem: map<Addr, int>, es: seq<Event>, a: Addr): Ledger
    requires Exec(mem, es).Some?
  {
    if es == [] then
      Ledger(0, 0, false)
    else
      var s, e := Exec(mem, es[..|es| - 1]).value, es[|es| - 1];
      var l := Account(mem, es[..|es| - 1], a);
      Ledger(l.released + Given(s, e, a), l.acquired + (if Takes(s, e, a) then 1 else 0), l.overflowed || Overflows(s, e, a))
  }

  /**
    In every run the value is the initial one and what was released less what
    was acquired, as long as no release overflowed; it is negative from an
    overflow on and never otherwise, unless it began so, and then it never moves.
   */
  lemma {:induction false} Accounting(mem: map<Addr, int>, es: seq<Event>, a: Addr)
    requires Exec(mem, es).Some? && a in mem && IsLong(mem[a])
    ensures var s, l := Exec(mem, es).value, Account(mem, es, a);
            && a in s.mem && IsLong(s.mem[a])
            && s.mem[a] == mem[a] + l.released - l.acquired - (if l.overflowed then WORD else 0)
            && (mem[a] >= 0 ==> (s.mem[a] < 0 <==> l.overflowed))
            && (mem[a] < 0 ==> l == Ledger(0, 0, false))
  {
    if es != [] {
      var s := Exec(mem, es[..|es| - 1]).value;
      Accounting(mem, es[..|es| - 1], a);
      RunKeeps(mem, es[..|es| - 1]);
      StepCount(s, es[|es| - 1], a);
    }
  }

  /** A run in which a release overflows: the count goes from the largest `long` to the least. */
  lemma OverflowRun()
    ensures var es := [Elsewhere(1, Proc(Runnable, None, false, false)), Release(1, 0, 1)];
            var run := Exec(map[0 := MAXLONG], es);
            run.Some? && run.value.mem == map[0 := -MAXLONG - 1]
  {
    var mem: map<Addr, int> := map[0 := MAXLONG];
    var one := [Elsewhere(1, Proc(Runnable, None, false, false))];
    var es := one + [Release(1, 0, 1)];
    assert one[..0] == [] && es[..1] == one;
    assert Exec(mem, one) == Some(Init(mem).(t := Init(mem).t.Set(1, Proc(Runnable, None, false, false))));
    assert Wrap(MAXLONG + 1) == -MAXLONG - 1;
  }
}
