/**
  What sleeping, waking, notes and the hand-over lock come to together
  (kernel/src/proc.rs): who is woken by what, and in what order a lock is had.
 */
module ProcOrder {
  import opened ProcTable

  /** Neither another process nor another rendez is touched. */
  ghost predicate Only(t: Table, t': Table, p: Pid, r: Rid) {
    && t'.tab.Keys == t.tab.Keys
    && (forall x :: x in t.tab && x != p ==> t'.tab[x] == t.tab[x])
    && (forall x :: x != r ==> (x in t'.rr <==> x in t.rr))
    && (forall x :: x != r && x in t.rr ==> t'.rr[x] == t.rr[x])
  }

  /** A process that sleeps at a rendez has left, and is the one, once, that is woken there. */
  lemma SleepThenWakeup(t: Table, p: Pid, r: Rid)
    requires p in t.tab && !t.tab[p].notepending
    ensures var (t1, slept) := t.Sleep(p, r, false);
            && slept && t1.Left(p) && t1.tab[p].state == Wakeme && Only(t, t1, p, r)
            && var (t2, woke) := t1.Wakeup(r);
               && woke == Some(p) && t2.tab[p].state == Runnable && t2.tab[p].r == None && r !in t2.rr && Only(t, t2, p, r)
               && t2.Wakeup(r) == (t2, None)
  {
  }

  /** A process does not sleep for what has happened, or with a note pending, and is not there to be woken. */
  lemma NoSleep(t: Table, p: Pid, r: Rid, happened: bool)
    requires happened || (p in t.tab && t.tab[p].notepending)
    ensures var (t1, slept) := t.Sleep(p, r, happened);
            !slept && t1.tab == t.tab && r !in t1.rr && Only(t, t1, p, r) && t1.Wakeup(r) == (t1, None)
  {
  }

  /** A note ends a sleep: the process runs, nobody is left at the rendez, and it is told so once. */
  lemma NoteEndsSleep(t: Table, p: Pid, r: Rid)
    requires p in t.tab && !t.tab[p].notepending
    ensures var t2 := t.Sleep(p, r, false).0.Postnote(p);
            && t2.tab[p].state == Runnable && t2.tab[p].r == None && r !in t2.rr && Only(t, t2, p, r)
            && t2.Wakeup(r) == (t2, None)
            && t2.Interrupted(p).1 && !t2.Interrupted(p).0.Interrupted(p).1
  {
  }

  /** A note to a process in no sleep is pending, ends no wait for a lock, and keeps it from its next sleep. */
  lemma NoteWaits(t: Table, p: Pid, r: Rid, l: QLock)
    requires p in t.tab && t.tab[p].state != Wakeme
    ensures var t1 := t.Postnote(p);
            && t1.rr == t.rr && t1.tab[p] == t.tab[p].(notepending := true) && Only(t, t1, p, r)
            && !t1.Sleep(p, r, false).1
            && (l.locked ==> t1.Qlock(l, p).0.Postnote(p).tab[p].state == Queueing)
  {
  }

  // ---- the lock

  /** A process asks for the lock, or whoever has it lets go. */
  datatype Use = Ask(p: Pid) | LetGo

  /** A run of one lock: who has asked for it and who has had it, in order, and how often it was let go of. */
  datatype Uses = Uses(t: Table, l: QLock, asked: seq<Pid>, had: seq<Pid>, letgo: nat)

  predicate Enabled(u: Uses, e: Use) {
    e.LetGo? ==> u.l.locked
  }

  function Step(u: Uses, e: Use): Uses {
    match e
    case Ask(p) =>
      var (t, l, ok) := u.t.Qlock(u.l, p);
      Uses(t, l, u.asked + [p], if ok then u.had + [p] else u.had, u.letgo)
    case LetGo =>
      var (t, l) := u.t.Qunlock(u.l);
      Uses(t, l, u.asked, if u.l.q == [] then u.had else u.had + [u.l.q[0]], u.letgo + 1)
  }

  function Exec(t: Table, es: seq<Use>): Option<Uses> {
    if es == [] then
      Some(Uses(t, Unlocked, [], [], 0))
    else
      var u := Exec(t, es[..|es| - 1]);
      if u.Some? && Enabled(u.value, es[|es| - 1]) then Some(Step(u.value, es[|es| - 1])) else None
  }

  /**
    In every run those who asked for a lock have it in the order they asked, one at
    a time, nobody passed over; and it is free only when nobody waits for it.
   */
  lemma {:induction false} InTurn(t: Table, es: seq<Use>)
    requires Exec(t, es).Some?
    ensures var u := Exec(t, es).value;
            && u.had + u.l.q == u.asked
            && |u.had| == u.letgo + (if u.l.locked then 1 else 0)
            && (!u.l.locked ==> u.l.q == [])
  {
    if es != [] {
      InTurn(t, es[..|es| - 1]);
      var u, e := Exec(t, es[..|es| - 1]).value, es[|es| - 1];
      if e.LetGo? && u.l.q != [] {
        assert u.l.q == [u.l.q[0]] + u.l.q[1..];
        assert u.had + [u.l.q[0]] + u.l.q[1..] == u.had + u.l.q;
      } else if e.Ask? {
        assert u.had + (u.l.q + [e.p]) == u.had + u.l.q + [e.p];
      }
    }
  }

  /** A lock let go of with somebody waiting is theirs at once, and they run; one that must wait does not. */
  lemma HandedOver(t: Table, l: QLock, p: Pid)
    requires p in t.tab && l.locked && p !in l.q
    ensures var (t1, l1, ok) := t.Qlock(l, p);
            && !ok && l1.locked && t1.Left(p) && t1.tab[p].state == Queueing
            && (l.q == [] ==>
                  var (t2, l2) := t1.Qunlock(l1);
                  l2.locked && l2.q == [] && t2.tab[p].state == Runnable && t2.rr == t.rr)
  {
  }
}
