/**
  Closing a descriptor table (kernel/src/lib.rs): each channel in turn, where a
  close may sleep any number of times, may leave further channels to be closed
  when it is done, and where the process may be killed at any sleep.
 */
module Closing {

  /**
    A channel whose last reference has gone. What its device does with the close
    is its own: sleep `sleeps` times, and then let go of `kids`.
   */
  datatype Chan = Chan(id: nat, sleeps: nat, kids: seq<Chan>)

  /** `cs` is still to be closed, the first of them begun if `begun`; `thens` is how often the rest of the call has run. */
  datatype State = State(cs: seq<Chan>, begun: bool, closed: seq<nat>, clunkq: seq<Chan>, thens: nat)

  /** How much closing there is. */
  function Work(cs: seq<Chan>): nat
    decreases cs
  {
    if cs == [] then 0 else 1 + cs[0].sleeps + Work(cs[0].kids) + Work(cs[1..])
  }

  lemma {:induction false} WorkAppend(a: seq<Chan>, b: seq<Chan>)
    ensures Work(a + b) == Work(a) + Work(b)
  {
    if a == [] {
      assert a + b == b;
    } else {
      assert (a + b)[1..] == a[1..] + b;
      WorkAppend(a[1..], b);
    }
  }

  /** A killed process hands what it has not begun to the close queue. */
  function Drain(s: State): State {
    var n := if s.begun && s.cs != [] then 1 else 0;
    s.(cs := s.cs[..n], clunkq := s.clunkq + s.cs[n..])
  }

  /** A close made: it is over, and what it let go of comes before the rest; or it has left. */
  function Dclose(s: State): (r: State)
    requires s.cs != []
    ensures Work(r.cs) < Work(s.cs)
  {
    var c, rest := s.cs[0], s.cs[1..];
    WorkAppend(c.kids, rest);
    if c.sleeps > 0 then
      assert ([c.(sleeps := c.sleeps - 1)] + rest)[1..] == rest;
      s.(cs := [c.(sleeps := c.sleeps - 1)] + rest, begun := true)
    else
      s.(cs := c.kids + rest, begun := false, closed := s.closed + [c.id])
  }

  /** One entry of the process into its closes, until it sleeps or they are done. */
  function Enter(s: State, killed: bool): State
    decreases Work(s.cs)
  {
    var d := if killed then Drain(s) else s;
    if s.cs == [] || d.cs == [] then
      d.(thens := d.thens + 1)
    else
      var r := Dclose(d);
      if r.begun then
        r
      else
        assert killed ==> Work(d.cs) <= Work(s.cs) by { DrainWork(s); }
        Enter(r, killed)
  }

  lemma DrainWork(s: State)
    ensures Work(Drain(s).cs) <= Work(s.cs)
  {
    var n := if s.begun && s.cs != [] then 1 else 0;
    WorkAppend(s.cs[..n], s.cs[n..]);
    assert s.cs == s.cs[..n] + s.cs[n..];
  }

  function Start(cs: seq<Chan>): State {
    State(cs, false, [], [], 0)
  }

  /** Entered until the closes are done; `kills` says of each entry whether the process has been killed. */
  function Run(cs: seq<Chan>, kills: seq<bool>): State {
    if kills == [] then
      Start(cs)
    else
      var s := Run(cs, kills[..|kills| - 1]);
      if s.thens > 0 then s else Enter(s, kills[|kills| - 1])
  }

  /** The closes of one process, kept where it left them. */
  class Closes {
    var cs: seq<Chan>
    var begun: bool
    var closed: seq<nat>
    var clunkq: seq<Chan>
    var thens: nat

    function Val(): State
      reads this
    {
      State(cs, begun, closed, clunkq, thens)
    }

    /** `deferred` is what the call had already let go of; it comes first. */
    constructor (deferred: seq<Chan>, cs: seq<Chan>)
      ensures Val() == Start(deferred + cs)
    {
      this.cs, begun, closed, clunkq, thens := deferred + cs, false, [], [], 0;
    }

    method Loop(killed: bool)
      modifies this
      ensures Val() == Enter(old(Val()), killed)
    {
      while cs != []
        invariant Enter(Val(), killed) == Enter(old(Val()), killed)
        decreases Work(cs)
      {
        ghost var was := Val();
        DrainWork(was);
        if killed {
          var n := if begun then 1 else 0;
          clunkq := clunkq + cs[n..];
          cs := cs[..n];
          if cs == [] {
            break;
          }
        }
        ghost var mid := Val();
        var c := cs[0];
        if c.sleeps > 0 {
          cs, begun := [c.(sleeps := c.sleeps - 1)] + cs[1..], true;
          return;
        }
        closed := closed + [c.id];
        cs, begun := c.kids + cs[1..], false;
        assert Val() == Dclose(mid);
      }
      thens := thens + 1;
    }
  }

  // ---- what is kept

  /** The order closes are made in: a channel, what it lets go of, and then the next. */
  function Preorder(cs: seq<Chan>): seq<nat>
    decreases cs
  {
    if cs == [] then [] else [cs[0].id] + Preorder(cs[0].kids) + Preorder(cs[1..])
  }

  lemma {:induction false} PreorderAppend(a: seq<Chan>, b: seq<Chan>)
    ensures Preorder(a + b) == Preorder(a) + Preorder(b)
  {
    if a == [] {
      assert a + b == b;
    } else {
      assert (a + b)[1..] == a[1..] + b;
      PreorderAppend(a[1..], b);
    }
  }

  /** What has been closed, then what is still to be, then what was queued: the closes there were to make, in order. */
  ghost predicate Accounts(s: State, all: seq<nat>, queued: seq<Chan>) {
    && all == s.closed + Preorder(s.cs) + Preorder(queued)
    && multiset(queued) == multiset(s.clunkq)
  }

  lemma Regroup(a: seq<nat>, b: seq<nat>, c: seq<nat>, d: seq<nat>)
    ensures a + (b + c) + d == a + b + (c + d)
  {
  }

  /** The close begun, and only that, is not queued: what is queued comes after it. */
  lemma DrainAccounts(s: State, all: seq<nat>, queued: seq<Chan>) returns (queued': seq<Chan>)
    requires Accounts(s, all, queued)
    ensures Accounts(Drain(s), all, queued')
    ensures s.begun && s.cs != [] ==> Drain(s).cs == [s.cs[0]]
  {
    hide Preorder;
    var n := if s.begun && s.cs != [] then 1 else 0;
    queued' := s.cs[n..] + queued;
    assert s.cs == s.cs[..n] + s.cs[n..];
    PreorderAppend(s.cs[..n], s.cs[n..]);
    PreorderAppend(s.cs[n..], queued);
    Regroup(s.closed, Preorder(s.cs[..n]), Preorder(s.cs[n..]), Preorder(queued));
    assert multiset(queued') == multiset(s.cs[n..]) + multiset(queued);
  }

  lemma DcloseAccounts(s: State, all: seq<nat>, queued: seq<Chan>)
    requires Accounts(s, all, queued) && s.cs != []
    ensures Accounts(Dclose(s), all, queued)
  {
    var c, rest := s.cs[0], s.cs[1..];
    if c.sleeps > 0 {
      assert ([c.(sleeps := c.sleeps - 1)] + rest)[1..] == rest;
    } else {
      PreorderAppend(c.kids, rest);
    }
  }

  lemma {:induction false} EnterAccounts(s: State, killed: bool, all: seq<nat>, queued: seq<Chan>) returns (queued': seq<Chan>)
    requires Accounts(s, all, queued)
    ensures var s' := Enter(s, killed);
            && Accounts(s', all, queued')
            && s.closed <= s'.closed
            && (!killed ==> s'.clunkq == s.clunkq)
            && s'.thens == s.thens + (if s'.cs == [] then 1 else 0)
            && (s'.cs != [] ==> s'.begun)
    decreases Work(s.cs)
  {
    var d := if killed then Drain(s) else s;
    queued' := queued;
    if killed {
      queued' := DrainAccounts(s, all, queued);
      DrainWork(s);
    }
    if s.cs != [] && d.cs != [] {
      DcloseAccounts(d, all, queued');
      var r := Dclose(d);
      if !r.begun {
        queued' := EnterAccounts(r, killed, all, queued');
      }
    }
  }

  lemma {:induction false} RunAccounts(cs: seq<Chan>, kills: seq<bool>) returns (queued: seq<Chan>)
    ensures var s := Run(cs, kills);
            && Accounts(s, Preorder(cs), queued)
            && s.thens == (if kills != [] && s.cs == [] then 1 else 0)
            && (kills != [] && s.cs != [] ==> s.begun)
            && ((forall i :: 0 <= i < |kills| ==> !kills[i]) ==> s.clunkq == [])
  {
    queued := [];
    if kills != [] {
      var init := kills[..|kills| - 1];
      queued := RunAccounts(cs, init);
      var s := Run(cs, init);
      if s.thens == 0 {
        queued := EnterAccounts(s, kills[|kills| - 1], Preorder(cs), queued);
      }
    }
  }

  lemma BagMove<T>(a: seq<T>, x: seq<T>, b: seq<T>)
    ensures multiset(a + (x + b)) == multiset(x) + multiset(a + b)
  {
  }

  lemma BagLess<T>(x: multiset<T>, a: multiset<T>, b: multiset<T>)
    requires x + a == x + b
    ensures a == b
  {
    assert x + a - x == a && x + b - x == b;
  }

  lemma WithoutOne(a: seq<Chan>, x: seq<Chan>, b: seq<Chan>)
    ensures multiset(a + (x + b)) == multiset(x) + multiset(a + b)
    ensures multiset(Preorder(a + (x + b))) == multiset(Preorder(x)) + multiset(Preorder(a + b))
  {
    hide *;
    BagMove(a, x, b);
    PreorderAppend(a, x + b);
    PreorderAppend(x, b);
    PreorderAppend(a, b);
    BagMove(Preorder(a), Preorder(x), Preorder(b));
  }

  lemma {:induction false} PreorderBag(a: seq<Chan>, b: seq<Chan>)
    requires multiset(a) == multiset(b)
    ensures multiset(Preorder(a)) == multiset(Preorder(b))
    decreases |a|
  {
    hide Preorder;
    assert |a| == |multiset(a)| == |multiset(b)| == |b|;
    if a == [] {
      assert a == b;
    } else {
      assert a[0] in multiset(b);
      var i :| 0 <= i < |b| && b[i] == a[0];
      var x, a', b' := [a[0]], [] + a[1..], b[..i] + b[i + 1..];
      assert a == [] + (x + a[1..]) && b == b[..i] + (x + b[i + 1..]);
      WithoutOne([], x, a[1..]);
      WithoutOne(b[..i], x, b[i + 1..]);
      BagLess(multiset(x), multiset(a'), multiset(b'));
      PreorderBag(a', b');
    }
  }

  /**
    However the closes sleep, whatever they let go of, and whenever the process is
    killed: what has been closed is so in order; it, what is still to close and
    what is on the close queue are all there was, each once; the rest of the call
    runs once, when nothing is left; and a close that has begun is the next in
    order, and is not queued.
   */
  lemma EachOnce(cs: seq<Chan>, kills: seq<bool>)
    ensures var s, all := Run(cs, kills), Preorder(cs);
            && s.closed <= all
            && multiset(all) == multiset(s.closed) + multiset(Preorder(s.cs)) + multiset(Preorder(s.clunkq))
            && s.thens == (if kills != [] && s.cs == [] then 1 else 0)
            && (kills != [] && s.cs != [] ==> s.begun)
            && (s.cs != [] ==> |s.closed| < |all| && all[|s.closed|] == s.cs[0].id)
  {
    var s := Run(cs, kills);
    var queued := RunAccounts(cs, kills);
    hide Run;
    PreorderBag(queued, s.clunkq);
    if s.cs != [] {
      assert Preorder(s.cs)[0] == s.cs[0].id;
    }
  }

  /** And where no channel is there twice, the one whose close has begun is not among those queued. */
  lemma BegunNotQueued(cs: seq<Chan>, kills: seq<bool>)
    requires Distinct(Preorder(cs))
    ensures var s := Run(cs, kills); s.cs != [] ==> s.cs[0].id !in Preorder(s.clunkq) && s.cs[0].id !in s.closed
  {
    hide Run;
    var s := Run(cs, kills);
    EachOnce(cs, kills);
    if s.cs != [] {
      DistinctBag(Preorder(cs));
      var id := s.cs[0].id;
      assert Preorder(s.cs)[0] == id;
      var a, b, c := multiset(s.closed), multiset(Preorder(s.cs)), multiset(Preorder(s.clunkq));
      assert a[id] + b[id] + c[id] == multiset(Preorder(cs))[id] <= 1;
      assert b[id] >= 1;
    }
  }

  /** Without a kill nothing is queued, and when the closes are done all have been closed, in order. */
  lemma NoKill(cs: seq<Chan>, kills: seq<bool>)
    requires forall i :: 0 <= i < |kills| ==> !kills[i]
    ensures var s := Run(cs, kills); s.clunkq == [] && (s.thens > 0 ==> s.closed == Preorder(cs))
  {
    var queued := RunAccounts(cs, kills);
    assert |queued| == |multiset(queued)|;
  }

  /** What a killed process has come to after `m` entries, with `s` what it had come to before. */
  ghost predicate Freed(s: State, m: nat, s': State)
    requires m > 0
  {
    if s.thens > 0 then
      s' == s
    else if s.cs == [] || !s.begun then
      s' == State([], false, s.closed, s.clunkq + s.cs, 1)
    else
      var c := s.cs[0];
      if m <= c.sleeps then
        s' == State([c.(sleeps := c.sleeps - m)], true, s.closed, s.clunkq + s.cs[1..], 0)
      else
        s' == State([], false, s.closed + [c.id], s.clunkq + s.cs[1..] + c.kids, 1)
  }

  lemma Drained(s: State)
    ensures Drain(s) == if s.begun && s.cs != [] then s.(cs := [s.cs[0]], clunkq := s.clunkq + s.cs[1..])
                        else s.(cs := [], clunkq := s.clunkq + s.cs)
  {
  }

  /** Killed with no close begun, a process closes nothing. */
  lemma KilledIdle(s: State)
    requires s.cs == [] || !s.begun
    ensures Enter(s, true) == s.(cs := [], clunkq := s.clunkq + s.cs, thens := s.thens + 1)
  {
    Drained(s);
  }

  /**
    An entry of a process that has been killed: nothing more is begun. What was
    not begun goes to the close queue as it stands, in order; the close that was
    begun goes on, and what it lets go of goes there too.
   */
  lemma KilledEntry(s: State)
    requires s.thens == 0 && (s.cs == [] ==> !s.begun)
    ensures Freed(s, 1, Enter(s, true))
  {
    if s.cs == [] || !s.begun {
      KilledIdle(s);
    } else {
      KilledBusy(s);
    }
  }

  /** Killed in the middle of a close. */
  lemma KilledBusy(s: State)
    requires s.cs != [] && s.begun
    ensures var c, d := s.cs[0], s.(cs := [], begun := false, clunkq := s.clunkq + s.cs[1..]);
            Enter(s, true) ==
              if c.sleeps > 0 then d.(cs := [c.(sleeps := c.sleeps - 1)], begun := true)
              else d.(closed := s.closed + [c.id], clunkq := d.clunkq + c.kids, thens := s.thens + 1)
  {
    Drained(s);
    var c, d := s.cs[0], s.(cs := [s.cs[0]], clunkq := s.clunkq + s.cs[1..]);
    DrainWork(s);
    CloseOne(d);
    EnterOnce(s, d);
    if c.sleeps == 0 {
      KilledIdle(d.(cs := c.kids, begun := false, closed := s.closed + [c.id]));
    }
  }

  lemma EnterOnce(s: State, d: State)
    requires s.cs != [] && d == Drain(s) && d.cs != [] && Work(d.cs) <= Work(s.cs)
    ensures Enter(s, true) == if Dclose(d).begun then Dclose(d) else Enter(Dclose(d), true)
  {
    hide Work, Drain, Dclose;
  }

  lemma CloseOne(d: State)
    requires |d.cs| == 1
    ensures var c := d.cs[0];
            Dclose(d) == if c.sleeps > 0 then d.(cs := [c.(sleeps := c.sleeps - 1)], begun := true)
                         else d.(cs := c.kids, begun := false, closed := d.closed + [c.id])
  {
    hide Work;
    assert d.cs[1..] == [];
  }

  /**
    Whenever the kill comes, and it does not go away: a process in no close closes
    nothing more, and what it had left is on the close queue; a process in one
    finishes that one, in as many entries as it sleeps, and closes nothing else.
   */
  lemma {:induction false} KilledRun(cs: seq<Chan>, kills: seq<bool>, i: nat)
    requires i < |kills| && forall j :: i <= j < |kills| ==> kills[j]
    ensures Freed(Run(cs, kills[..i]), |kills| - i, Run(cs, kills))
    decreases |kills|
  {
    var init := kills[..|kills| - 1];
    var s := Run(cs, kills[..i]);
    BegunOnly(cs, kills[..i]);
    LastEntry(cs, kills);
    hide Enter, Work, Run;
    if i == |kills| - 1 {
      assert kills[..i] == init;
      if s.thens == 0 {
        KilledEntry(s);
      }
    } else {
      KilledRun(cs, init, i);
      assert init[..i] == kills[..i];
      if Run(cs, init).thens == 0 {
        FreedMore(s, |kills| - i - 1, Run(cs, init));
      }
    }
  }

  lemma LastEntry(cs: seq<Chan>, kills: seq<bool>)
    requires kills != []
    ensures var s := Run(cs, kills[..|kills| - 1]); Run(cs, kills) == if s.thens > 0 then s else Enter(s, kills[|kills| - 1])
  {
  }

  lemma FreedMore(s: State, m: nat, mid: State)
    requires m > 0 && Freed(s, m, mid) && mid.thens == 0
    ensures Freed(s, m + 1, Enter(mid, true))
  {
    hide Enter, Work;
    KilledEntry(mid);
    assert mid.cs[1..] == [] && mid.clunkq + [] == mid.clunkq;
  }

  lemma {:induction false} EnterBegun(s: State, killed: bool)
    requires s.cs == [] ==> !s.begun
    ensures Enter(s, killed).cs == [] ==> !Enter(s, killed).begun
    decreases Work(s.cs)
  {
    DrainWork(s);
    var d := if killed then Drain(s) else s;
    if s.cs != [] && d.cs != [] {
      var r := Dclose(d);
      if !r.begun {
        EnterBegun(r, killed);
      }
    }
  }

  lemma {:induction false} BegunOnly(cs: seq<Chan>, kills: seq<bool>)
    ensures Run(cs, kills).cs == [] ==> !Run(cs, kills).begun
  {
    if kills != [] {
      BegunOnly(cs, kills[..|kills| - 1]);
      EnterBegun(Run(cs, kills[..|kills| - 1]), kills[|kills| - 1]);
    }
  }

  predicate Distinct(s: seq<nat>) {
    forall i, j :: 0 <= i < j < |s| ==> s[i] != s[j]
  }

  lemma {:induction false} DistinctBag(s: seq<nat>)
    requires Distinct(s)
    ensures forall x :: multiset(s)[x] <= 1
  {
    if s != [] {
      var n := |s| - 1;
      assert s == s[..n] + [s[n]];
      DistinctBag(s[..n]);
    }
  }

  lemma {:induction false} EnterWork(s: State, killed: bool)
    ensures var s' := Enter(s, killed); s'.cs == [] || Work(s'.cs) < Work(s.cs)
    decreases Work(s.cs)
  {
    DrainWork(s);
    var d := if killed then Drain(s) else s;
    if s.cs != [] && d.cs != [] {
      var r := Dclose(d);
      if !r.begun {
        EnterWork(r, killed);
      }
    }
  }

  lemma {:induction false} RunWork(cs: seq<Chan>, kills: seq<bool>)
    ensures var s := Run(cs, kills); s.thens > 0 || Work(s.cs) + |kills| <= Work(cs)
  {
    if kills != [] {
      var init := kills[..|kills| - 1];
      RunWork(cs, init);
      var s := Run(cs, init);
      if s.thens == 0 {
        var queued := RunAccounts(cs, kills);
        EnterWork(s, kills[|kills| - 1]);
      }
    }
  }

  /** The closes end: in no more entries than there are closes and sleeps. */
  lemma ClosesEnd(cs: seq<Chan>, kills: seq<bool>)
    requires |kills| > Work(cs)
    ensures Run(cs, kills).thens == 1 && Run(cs, kills).cs == []
  {
    RunWork(cs, kills);
    var queued := RunAccounts(cs, kills);
  }
}
