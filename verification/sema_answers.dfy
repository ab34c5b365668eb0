/**
  What each call on a semaphore comes to: who waits, what is answered, and what
  becomes of the count and of the list.
 */
module SemaphoreAnswers {
  import opened ProcTable
  import opened Semaphores
  import opened SemaphoreRuns

  predicate Noted(t: Table, p: Pid) {
    p in t.tab && t.tab[p].notepending
  }

  /** Who is on the list, and for what, oldest first. */
  function Places(l: seq<Waiter>): (r: seq<(Addr, Pid)>)
    ensures |r| == |l| && forall i :: 0 <= i < |l| ==> r[i] == (l[i].addr, l[i].p)
  {
    seq(|l|, i requires 0 <= i < |l| => (l[i].addr, l[i].p))
  }

  /** And without `p`. */
  function Others(ps: seq<(Addr, Pid)>, p: Pid): seq<(Addr, Pid)> {
    if ps == [] then [] else (if ps[0].1 == p then [] else [ps[0]]) + Others(ps[1..], p)
  }

  /** How long a call that waits has left of its limit. */
  function Remaining(rest: Label, now: nat): Option<nat>
    requires !OutOfTime(rest, now)
  {
    if rest.ms.None? then None else Some(rest.ms.value - (if now > rest.since then now - rest.since else 0) * TICKMS)
  }

  /** `p` is on the list, not woken, asleep at its rendez, and its call will go on from there. */
  ghost predicate Waits(s: Sys, p: Pid, rest: Label) {
    && Entry(s.sema, p) == Some(Waiter(rest.addr, true, p))
    && p in s.labels && s.labels[p] == rest
    && p in s.t.tab && s.t.tab[p].state == Wakeme && s.t.tab[p].r == Some(Sema(p))
    && Sema(p) in s.t.rr && s.t.rr[Sema(p)] == p
  }

  /** `p` is in no call, and off the list; the others are on it as they were. */
  ghost predicate IsOff(s: Sys, s': Sys, p: Pid) {
    && Entry(s'.sema, p).None? && p !in s'.labels
    && Places(s'.sema) == Others(Places(s.sema), p)
  }

  /** An acquire takes one if there is one, answers 0 if it is not to wait, and otherwise waits, last on the list, unless a note is pending. */
  ghost predicate AcquireAnswers(s: Sys, p: Pid, a: Addr, ms: Option<nat>, now: nat, s': Sys, res: Result<Ret>) {
    if a !in s.mem then
      s' == s && res == Err(EFAULT)
    else if s.mem[a] < 0 then
      s' == s && res == Err(EBADARG)
    else if s.mem[a] > 0 then
      s' == s.(mem := s.mem[a := s.mem[a] - 1]) && res == Ok(N(1))
    else if ms == Some(0) then
      s' == s && res == Ok(N(0))
    else if Noted(s.t, p) then
      res == Err(EINTR) && s'.mem == s.mem && s'.sema == s.sema && s'.labels == s.labels && !Noted(s'.t, p)
    else
      && res == Ok(Left) && s'.mem == s.mem && s'.sema == s.sema + [Waiter(a, true, p)]
      && s'.labels == s.labels[p := Label(a, ms, now)] && Waits(s', p, Label(a, ms, now))
  }

  /** A process entered again after waiting: a note, then the clock, then one to take, then waiting again where it was. */
  ghost predicate ResumeAnswers(s: Sys, p: Pid, now: nat, s': Sys, res: Result<Ret>)
    requires p in s.labels
  {
    var rest := s.labels[p];
    && rest.addr in s.mem
    && if Noted(s.t, p) then
         res == Err(EINTR) && s'.mem == s.mem && IsOff(s, s', p) && !Noted(s'.t, p)
       else if OutOfTime(rest, now) then
         res == Ok(N(0)) && s'.mem == s.mem && IsOff(s, s', p)
       else if s.mem[rest.addr] > 0 then
         res == Ok(N(1)) && s'.mem == s.mem[rest.addr := s.mem[rest.addr] - 1] && IsOff(s, s', p)
       else
         && res == Ok(Left) && s'.mem == s.mem && Places(s'.sema) == Places(s.sema)
         && Waits(s', p, rest.(ms := Remaining(rest, now), since := now))
  }

  /** A release answers the new value, which is the sum as 32 bits hold it, and wakes the oldest that wait. */
  ghost predicate ReleaseAnswers(s: Sys, a: Addr, delta: int, s': Sys, res: Result<Ret>) {
    if delta < 0 then
      s' == s && res == Err(EBADARG)
    else if a !in s.mem then
      s' == s && res == Err(EFAULT)
    else if s.mem[a] < 0 then
      s' == s && res == Err(EBADARG)
    else
      && s'.mem.Keys == s.mem.Keys && (forall b :: b in s.mem && b != a ==> s'.mem[b] == s.mem[b])
      && res == Ok(N(s'.mem[a]))
      && s'.mem[a] == s.mem[a] + delta - (if s.mem[a] + delta > MAXLONG then WORD else 0)
      && s'.labels == s.labels && Places(s'.sema) == Places(s.sema)
      && Waiting(s'.sema, a) == Waiting(s.sema, a)[Min(delta, |Waiting(s.sema, a)|)..]
      && (forall b :: b != a ==> Waiting(s'.sema, b) == Waiting(s.sema, b))
      && (forall x :: x in Waiting(s.sema, a)[..Min(delta, |Waiting(s.sema, a)|)] ==> Running(s', x))
  }

  // ---- the list

  lemma {:induction false} SetPlaces(l: seq<Waiter>, p: Pid, w: bool)
    ensures Places(SetWaiting(l, p, w)) == Places(l)
  {
    if l != [] {
      SetPlaces(l[1..], p, w);
      PlacesFirst(l);
      PlacesFirst(SetWaiting(l, p, w));
    }
  }

  lemma PlacesFirst(l: seq<Waiter>)
    requires l != []
    ensures Places(l) == [(l[0].addr, l[0].p)] + Places(l[1..])
  {
  }

  lemma {:induction false} MarkPlaces(l: seq<Waiter>, a: Addr, n: nat)
    ensures Places(MarkWoken(l, a, n).0) == Places(l)
  {
    if l != [] && n > 0 {
      MarkPlaces(l[1..], a, if l[0].addr == a && l[0].waiting then n - 1 else n);
      PlacesFirst(l);
      PlacesFirst(MarkWoken(l, a, n).0);
    }
  }

  lemma {:induction false} NobodyElse(l: seq<Waiter>, p: Pid)
    requires Entry(l, p).None?
    ensures Others(Places(l), p) == Places(l) && Dequeue(l, p) == l
  {
    if l != [] {
      NobodyElse(l[1..], p);
      PlacesFirst(l);
    }
  }

  lemma {:induction false} DequeuePlaces(l: seq<Waiter>, p: Pid)
    requires Distinct(l)
    ensures Places(Dequeue(l, p)) == Others(Places(l), p)
  {
    if l != [] {
      PlacesFirst(l);
      assert Places(l)[1..] == Places(l[1..]);
      if l[0].p == p {
        NobodyElse(l[1..], p);
      } else {
        DequeuePlaces(l[1..], p);
        PlacesFirst(Dequeue(l, p));
        assert Dequeue(l, p)[1..] == Dequeue(l[1..], p);
      }
    }
  }

  lemma {:induction false} SetNew(l: seq<Waiter>, w: Waiter)
    requires Entry(l, w.p).None?
    ensures SetWaiting(l + [w], w.p, true) == l + [w.(waiting := true)]
    ensures Dequeue(l + [w], w.p) == l
    ensures Entry(l + [w], w.p) == Some(w)
  {
    if l == [] {
      assert [w][1..] == [];
    } else {
      assert (l + [w])[1..] == l[1..] + [w];
      SetNew(l[1..], w);
    }
  }

  /** Marking for one semaphore leaves those that wait at another. */
  lemma {:induction false} MarkElsewhere(l: seq<Waiter>, a: Addr, n: nat, b: Addr)
    requires a != b
    ensures Waiting(MarkWoken(l, a, n).0, b) == Waiting(l, b)
  {
    if l != [] && n > 0 {
      MarkElsewhere(l[1..], a, if l[0].addr == a && l[0].waiting then n - 1 else n, b);
    }
  }

  // ---- the calls

  /** Leaving the list. */
  lemma DoneAnswers(s: Sys, p: Pid, a: Addr)
    requires Distinct(s.sema) && p in s.t.tab
    ensures var s' := Semdone(s, p, a);
            && s'.mem == s.mem && s'.labels == s.labels && Entry(s'.sema, p).None? && Places(s'.sema) == Others(Places(s.sema), p)
  {
    var l := Dequeue(s.sema, p);
    DequeuePlaces(s.sema, p);
    DequeueEntry(s.sema, p, p);
    DequeueDistinct(s.sema, p);
    MarkPlaces(l, a, 1);
    MarkEntry(l, a, 1, p);
    hide MarkWoken, WakeAll, Dequeue, Places, Others, Distinct;
  }

  lemma {:induction false} WakeNotes(t: Table, ps: seq<Pid>, p: Pid)
    ensures Noted(WakeAll(t, ps), p) == Noted(t, p)
    decreases |ps|
  {
    if ps != [] {
      WakeNotes(t.Wakeup(Sema(ps[0])).0, ps[1..], p);
    }
  }

  lemma DoneNotes(s: Sys, p: Pid, a: Addr)
    ensures Noted(Semdone(s, p, a).t, p) == Noted(s.t, p)
  {
    WakeNotes(s.t, MarkWoken(Dequeue(s.sema, p), a, 1).1, p);
    hide MarkWoken, WakeAll, Dequeue, Noted;
  }

  /** From the top of the loop, for a process on the list. */
  lemma WaitAnswers(s: Sys, p: Pid, a: Addr, ms: Option<nat>, now: nat)
    requires Distinct(s.sema) && p in s.t.tab && p !in s.labels && Entry(s.sema, p).Some? && Entry(s.sema, p).value.addr == a && a in s.mem
    ensures var (s', res) := Semwait(s, p, a, ms, now);
            if s.mem[a] > 0 then
              res == Ok(N(1)) && s'.mem == s.mem[a := s.mem[a] - 1] && IsOff(s, s', p)
            else if Noted(s.t, p) then
              res == Err(EINTR) && s'.mem == s.mem && IsOff(s, s', p) && !Noted(s'.t, p)
            else
              && res == Ok(Left) && s'.mem == s.mem && s'.sema == SetWaiting(s.sema, p, true) && Places(s'.sema) == Places(s.sema)
              && s'.labels == s.labels[p := Label(a, ms, now)] && Waits(s', p, Label(a, ms, now))
  {
    SetPlaces(s.sema, p, true);
    SetDistinct(s.sema, p, true);
    SetEntry(s.sema, p, true, p);
    hide MarkWoken, WakeAll, Dequeue, SetWaiting, Places, Others, Distinct, Semdone, Entry;
    var m := s.(sema := SetWaiting(s.sema, p, true));
    DoneAnswers(m.(mem := s.mem[a := s.mem[a] - 1]), p, a);
    var t := s.t.Sleep(p, Sema(p), false).0.Interrupted(p).0;
    DoneAnswers(m.(t := t), p, a);
    DoneNotes(m.(t := t), p, a);
  }

  lemma AcquireIs(s: Sys, p: Pid, a: Addr, ms: Option<nat>, now: nat)
    requires Inv(s) && Running(s, p) && p !in s.labels
    ensures AcquireAnswers(s, p, a, ms, now, Semacquire(s, p, a, ms, now).0, Semacquire(s, p, a, ms, now).1)
  {
    assert Entry(s.sema, p).None?;
    assert Distinct(s.sema);
    var w := Waiter(a, false, p);
    var q := s.(sema := s.sema + [w]);
    SetNew(s.sema, w);
    AppendEntry(s.sema, w, p);
    hide Semwait, SetWaiting, Entry, Distinct, Inv, Noted, Waits;
    if a in s.mem && s.mem[a] == 0 && ms != Some(0) {
      WaitAnswers(q, p, a, ms, now);
      if Noted(s.t, p) {
        NotedJoin(s, p, a, ms, now);
      }
    }
  }

  /** With a note pending the process is put on the list and taken off it again. */
  lemma NotedJoin(s: Sys, p: Pid, a: Addr, ms: Option<nat>, now: nat)
    requires a in s.mem && s.mem[a] <= 0 && Noted(s.t, p) && Entry(s.sema, p).None?
    ensures var (s', res) := Semwait(s.(sema := s.sema + [Waiter(a, false, p)]), p, a, ms, now);
            s'.sema == s.sema && s'.labels == s.labels && s'.mem == s.mem
  {
    SetNew(s.sema, Waiter(a, false, p));
    SetNew(s.sema, Waiter(a, true, p));
    hide SetWaiting, Entry, Dequeue, MarkWoken, WakeAll;
  }

  lemma ResumeIs(s: Sys, p: Pid, now: nat)
    requires Inv(s) && AddrInv(s) && Running(s, p) && p in s.labels
    ensures ResumeAnswers(s, p, now, Rest(s, p, now).0, Rest(s, p, now).1)
  {
    var rest := s.labels[p];
    var (t, noted) := s.t.Interrupted(p);
    var q := s.(labels := Forget(s.labels, p), t := t);
    BackIn(s, p, q);
    assert noted == Noted(s.t, p) && !Noted(t, p);
    hide Semwait, Semdone, Inv, Noted, Waits, IsOff, Base, RendezInv, Entry, WakeInv, ProcTable.Table.Interrupted, Forget;
    if noted || OutOfTime(rest, now) {
      GivesUp(s, p, q, rest.addr);
    } else {
      GoesOn(s, p, q, Remaining(rest, now), now);
    }
  }

  /** A note, or the clock. */
  lemma GivesUp(s: Sys, p: Pid, q: Sys, a: Addr)
    requires q.sema == s.sema && q.mem == s.mem && Base(q, Some(p)) && Current(q, p, a)
    ensures var s' := Semdone(q, p, a); s'.mem == s.mem && IsOff(s, s', p) && Noted(s'.t, p) == Noted(q.t, p)
  {
    DoneAnswers(q, p, a);
    DoneNotes(q, p, a);
    hide Semdone, Entry, Noted, Places, Others;
  }

  /** Neither. */
  lemma GoesOn(s: Sys, p: Pid, q: Sys, ms: Option<nat>, now: nat)
    requires p in s.labels && q.sema == s.sema && q.mem == s.mem && Base(q, Some(p)) && Current(q, p, s.labels[p].addr)
    requires Entry(q.sema, p).Some? && s.labels[p].addr in s.mem && !Noted(q.t, p)
    ensures var (s', res) := Semwait(q, p, s.labels[p].addr, ms, now);
            var a := s.labels[p].addr;
            if s.mem[a] > 0 then
              res == Ok(N(1)) && s'.mem == s.mem[a := s.mem[a] - 1] && IsOff(s, s', p)
            else
              res == Ok(Left) && s'.mem == s.mem && Places(s'.sema) == Places(s.sema) && Waits(s', p, Label(a, ms, now))
  {
    WaitAnswers(q, p, s.labels[p].addr, ms, now);
    hide Semwait, Entry, Noted, Waits, Places, Others;
  }

  lemma ReleaseIs(s: Sys, p: Pid, a: Addr, delta: int)
    requires Inv(s) && p in s.t.tab && delta <= MAXLONG && (a in s.mem ==> IsLong(s.mem[a]))
    ensures ReleaseAnswers(s, a, delta, Semrelease(s, p, a, delta).0, Semrelease(s, p, a, delta).1)
  {
    if delta >= 0 && a in s.mem && s.mem[a] >= 0 {
      var s1 := s.(mem := s.mem[a := Wrap(s.mem[a] + delta)]);
      assert Base(s1, None);
      SumWraps(s.mem[a], delta);
      hide Semwakeup, Inv, Base, Wrap, Woken, Queued, Waiting, Places;
      ReleaseWakes(s1, a, delta);
    }
  }

  lemma SumWraps(x: int, delta: int)
    requires 0 <= x <= MAXLONG && 0 <= delta <= MAXLONG
    ensures Wrap(x + delta) == x + delta - if x + delta > MAXLONG then WORD else 0
  {
  }

  lemma ReleaseWakes(s: Sys, a: Addr, n: nat)
    requires Base(s, None)
    ensures var s' := Semwakeup(s, a, n);
            && s'.mem == s.mem && s'.labels == s.labels && Places(s'.sema) == Places(s.sema)
            && Waiting(s'.sema, a) == Waiting(s.sema, a)[Min(n, |Waiting(s.sema, a)|)..]
            && (forall b :: b != a ==> Waiting(s'.sema, b) == Waiting(s.sema, b))
            && (forall x :: x in Waiting(s.sema, a)[..Min(n, |Waiting(s.sema, a)|)] ==> Running(s', x))
  {
    var s' := Semwakeup(s, a, n);
    var woken := MarkWoken(s.sema, a, n).1;
    MarkPlaces(s.sema, a, n);
    WakesOldest(s.sema, a, n);
    forall b | b != a ensures Waiting(s'.sema, b) == Waiting(s.sema, b) {
      MarkElsewhere(s.sema, a, n, b);
    }
    WokenRun(s, a, n);
  }

  lemma WokenRun(s: Sys, a: Addr, n: nat)
    requires Base(s, None)
    ensures forall x :: x in MarkWoken(s.sema, a, n).1 ==> Running(Semwakeup(s, a, n), x)
  {
    SemwakeupKeeps(s, a, n);
    hide MarkWoken, WakeAll, Distinct, RendezInv, LabelsInv, Woken, Queued;
    forall x | x in MarkWoken(s.sema, a, n).1 ensures Running(Semwakeup(s, a, n), x) {
      MarkEntry(s.sema, a, n, x);
    }
  }

  /** What a call comes to. */
  ghost predicate Answers(s: Sys, e: Event, s': Sys, res: Result<Ret>)
    requires Enabled(s, e)
  {
    match e
    case Release(p, a, delta) => ReleaseAnswers(s, a, delta, s', res)
    case Acquire(p, a, ms, now) => AcquireAnswers(s, p, a, ms, now, s', res)
    case Resume(p, now) => ResumeAnswers(s, p, now, s', res)
    case _ => s'.mem == s.mem && s'.sema == s.sema && s'.labels == s.labels
  }

  /** In every run every call comes to what it should. */
  lemma EventsAnswer(mem: map<Addr, int>, es: seq<Event>, e: Event)
    requires Exec(mem, es).Some? && Enabled(Exec(mem, es).value, e)
    requires forall a :: a in mem ==> IsLong(mem[a])
    ensures var s := Exec(mem, es).value; Answers(s, e, Step(s, e).0, Step(s, e).1)
  {
    RunKeeps(mem, es);
    var s := Exec(mem, es).value;
    match e
    case Release(p, a, delta) =>
      if a in mem {
        Accounting(mem, es, a);
      }
      hide Inv, Semrelease;
      ReleaseIs(s, p, a, delta);
    case Acquire(p, a, ms, now) =>
      hide Inv, Semacquire;
      AcquireIs(s, p, a, ms, now);
    case Resume(p, now) =>
      hide Inv, SemaphoreRuns.AddrInv, Semaphores.Rest;
      ResumeIs(s, p, now);
    case Note(p) =>
    case Timer(p) =>
    case Elsewhere(p, rec) =>
  }
}
