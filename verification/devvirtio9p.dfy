/**
  The host's 9P servers (kernel/src/devvirtio9p.rs): requests go out whole, and
  replies come back as a stream, no read of which spans two.
 */
module HostServers {
  import opened ProcTable
  import opened Bytes

  const TFLUSH: nat := 108
  const EINUSE := "device or object already in use"
  const EINVAL := "invalid 9P message"

  /** `cur` is a reply partly read and how far; `held` has the tags of requests without a reply. */
  datatype Conv = Conv(inuse: bool, cur: Option<(bytes, nat)>, done: seq<bytes>, held: map<nat, Option<nat>>)

  const Idle := Conv(false, None, [], map[])

  function U16(b: bytes, i: nat): nat
    requires i + 2 <= |b|
  {
    var lo: nat, hi: nat := b[i], b[i + 1];
    lo + 256 * hi
  }

  /** The tag of a message, if it is long enough to have one. */
  function TagOf(m: bytes): Option<nat> {
    if |m| >= 7 then Some(U16(m, 5)) else None
  }

  /** The tag a `Tflush` names. */
  function Flushes(m: bytes): Option<nat> {
    if |m| >= 9 && m[4] == TFLUSH then Some(U16(m, 7)) else None
  }

  function Flush(s: Conv): Conv {
    s.(cur := None, done := [])
  }

  /** A reply with this tag ends that request, and with it any request it flushed. */
  function Answer(held: map<nat, Option<nat>>, tag: nat): map<nat, Option<nat>> {
    if tag !in held then held
    else if held[tag].Some? then held - {tag} - {held[tag].value}
    else held - {tag}
  }

  /** A reply arrives: its request is over, and it waits to be read. */
  function Complete(s: Conv, r: bytes): Conv {
    s.(held := if TagOf(r).Some? then Answer(s.held, TagOf(r).value) else s.held, done := s.done + [r])
  }

  function Harvest(s: Conv, rs: seq<bytes>): Conv
    decreases |rs|
  {
    if rs == [] then s else Harvest(Complete(s, rs[0]), rs[1..])
  }

  function Open(s: Conv): (Conv, Result<()>) {
    if s.inuse then (s, Err(EINUSE)) else (Flush(s).(inuse := true), Ok(()))
  }

  function Close(s: Conv): Conv {
    Flush(s).(inuse := false)
  }

  /** What the host makes of a request: it fails, is answered at once, or is answered later. */
  datatype Submitted = Failed(error: string) | Now(reply: bytes) | Later

  function Write(s: Conv, data: bytes, sub: Submitted): (Conv, Result<nat>) {
    if |data| < 7 then
      (s, Err(EINVAL))
    else
      var tag := U16(data, 5);
      var s := s.(held := s.held[tag := Flushes(data)]);
      match sub
      case Failed(e) => (s.(held := s.held - {tag}), Err(e))
      case Now(r) => (Complete(s, r), Ok(|data|))
      case Later => (s, Ok(|data|))
  }

  /** Bytes of the reply in hand, or of the next; `None` is a reader that waits. `rs` is what the host has completed. */
  function Read(s: Conv, n: nat, rs: seq<bytes>): (Conv, Option<bytes>) {
    if n == 0 then
      (s, Some([]))
    else
      var s := if s.cur.None? && s.done == [] then Harvest(s, rs) else s;
      if s.cur.None? && s.done == [] then
        (s, None)
      else
        var s := if s.cur.None? then s.(cur := Some((s.done[0], 0)), done := s.done[1..]) else s;
        TakeReply(s, n)
  }

  function TakeReply(s: Conv, n: nat): (Conv, Option<bytes>)
    requires s.cur.Some?
  {
    var (reply, rp) := s.cur.value;
    if rp > |reply| then
      (s, Some([]))
    else
      var k := if n < |reply| - rp then n else |reply| - rp;
      (s.(cur := if rp + k >= |reply| then None else Some((reply, rp + k))), Some(reply[rp..rp + k]))
  }

  class Server {
    var inuse: bool
    var cur: Option<(bytes, nat)>
    var done: seq<bytes>
    var held: map<nat, Option<nat>>

    constructor ()
      ensures Val() == Idle
    {
      inuse, cur, done, held := false, None, [], map[];
    }

    function Val(): Conv
      reads this
    {
      Conv(inuse, cur, done, held)
    }

    method Answered(r: bytes)
      modifies this`held
      ensures held == if TagOf(r).Some? then Answer(old(held), TagOf(r).value) else old(held)
    {
      if |r| < 7 {
        return;
      }
      var tag := U16(r, 5);
      if tag in held {
        var flushed := held[tag];
        held := held - {tag};
        if flushed.Some? {
          held := held - {flushed.value};
        }
      }
    }

    method Interrupt(rs: seq<bytes>)
      modifies this
      ensures Val() == Harvest(old(Val()), rs)
    {
      var i := 0;
      assert rs[0..] == rs;
      while i < |rs|
        invariant 0 <= i <= |rs|
        invariant Harvest(Val(), rs[i..]) == Harvest(old(Val()), rs)
      {
        assert rs[i..][1..] == rs[i + 1..];
        Answered(rs[i]);
        done := done + [rs[i]];
        i := i + 1;
      }
    }

    method DoOpen() returns (res: Result<()>)
      modifies this
      ensures (Val(), res) == Open(old(Val()))
    {
      if inuse {
        return Err(EINUSE);
      }
      inuse, cur, done := true, None, [];
      return Ok(());
    }

    method DoClose()
      modifies this
      ensures Val() == Close(old(Val()))
    {
      inuse, cur, done := false, None, [];
    }

    method DoWrite(data: bytes, sub: Submitted) returns (res: Result<nat>)
      modifies this
      ensures (Val(), res) == Write(old(Val()), data, sub)
    {
      if |data| < 7 {
        return Err(EINVAL);
      }
      var tag := U16(data, 5);
      var flushes := if data[4] == TFLUSH && |data| >= 9 then Some(U16(data, 7)) else None;
      held := held[tag := flushes];
      if sub.Failed? {
        held := held - {tag};
        return Err(sub.error);
      }
      if sub.Now? {
        Answered(sub.reply);
        done := done + [sub.reply];
      }
      return Ok(|data|);
    }

    method DoRead(n: nat, rs: seq<bytes>) returns (got: Option<bytes>)
      requires cur.Some? ==> cur.value.1 <= |cur.value.0|
      modifies this
      ensures (Val(), got) == Read(old(Val()), n, rs)
    {
      if n == 0 {
        return Some([]);
      }
      if cur.None? {
        if done == [] {
          HarvestKeepsCur(Val(), rs);
          Interrupt(rs);
        }
        if done == [] {
          return None;
        }
        cur, done := Some((done[0], 0)), done[1..];
      }
      var (reply, rp) := cur.value;
      var k := if n < |reply| - rp then n else |reply| - rp;
      got := Some(reply[rp..rp + k]);
      cur := if rp + k >= |reply| then None else Some((reply, rp + k));
    }
  }

  lemma {:induction false} HarvestKeepsCur(s: Conv, rs: seq<bytes>)
    ensures Harvest(s, rs).cur == s.cur && Harvest(s, rs).inuse == s.inuse && Harvest(s, rs).done == s.done + rs
    decreases |rs|
  {
    if rs != [] {
      HarvestKeepsCur(Complete(s, rs[0]), rs[1..]);
    }
  }

  // ---- the stream of replies

  datatype Event =
    | Opens
    | Closes
    | Writes(data: bytes, sub: Submitted)
    | Interrupts(rs: seq<bytes>)
    | Reads(n: nat, rs: seq<bytes>)

  /** A read: of which reply, from where, and how much it asked for. */
  datatype Got = Got(reply: nat, at: nat, want: nat, data: bytes)

  /** A run: the conversation, and since it was last opened or closed the replies that came and the reads made. */
  datatype Sys = Sys(s: Conv, replies: seq<bytes>, got: seq<Got>)

  function Step(y: Sys, e: Event): Sys {
    match e
    case Opens => if y.s.inuse then y else Sys(Open(y.s).0, [], [])
    case Closes => Sys(Close(y.s), [], [])
    case Writes(data, sub) =>
      var (s, res) := Write(y.s, data, sub);
      Sys(s, if res.Ok? && sub.Now? then y.replies + [sub.reply] else y.replies, y.got)
    case Interrupts(rs) => y.(s := Harvest(y.s, rs), replies := y.replies + rs)
    case Reads(n, rs) =>
      if n == 0 then
        y
      else
        var y := if y.s.cur.None? && y.s.done == [] then y.(s := Harvest(y.s, rs), replies := y.replies + rs) else y;
        if y.s.cur.None? && y.s.done == [] then y else Hand(Next(y), n)
  }

  /** The next reply in hand. */
  function Next(y: Sys): Sys
    requires y.s.cur.Some? || y.s.done != []
  {
    if y.s.cur.Some? then y else y.(s := y.s.(cur := Some((y.s.done[0], 0)), done := y.s.done[1..]))
  }

  function Hand(y: Sys, n: nat): Sys
    requires y.s.cur.Some?
  {
    var (s, r) := TakeReply(y.s, n);
    var i := if |y.s.done| < |y.replies| then |y.replies| - |y.s.done| - 1 else 0;
    if r.Some? then y.(s := s, got := y.got + [Got(i, y.s.cur.value.1, n, r.value)]) else y.(s := s)
  }

  function Exec(es: seq<Event>): Sys {
    if es == [] then Sys(Idle, [], []) else Step(Exec(es[..|es| - 1]), es[|es| - 1])
  }

  /** A read step of a run is a read: what it answers is what it adds to the reads made, and it waits if it adds nothing. */
  lemma StepReads(y: Sys, n: nat, rs: seq<bytes>)
    ensures var y', (s, r) := Step(y, Reads(n, rs)), Read(y.s, n, rs);
            && y'.s == s
            && (n == 0 ==> y' == y && r == Some([]))
            && (n > 0 ==> (r.None? <==> y.s.cur.None? && y.s.done == [] && rs == []))
            && (r.None? ==> y' == y)
            && (n > 0 && r.Some? ==> exists g :: y'.got == y.got + [g] && g.want == n && g.data == r.value)
  {
    HarvestKeepsCur(y.s, rs);
    assert Harvest(y.s, []) == y.s;
    hide Inv, Harvest, TakeReply, Concat, Given, Inside;
    var y' := Step(y, Reads(n, rs));
    if n > 0 {
      var z := if y.s.cur.None? && y.s.done == [] then y.(s := Harvest(y.s, rs), replies := y.replies + rs) else y;
      if z.s.cur.Some? || z.s.done != [] {
        var r := TakeReply(Next(z).s, n).1;
        assert r.Some? by { TakesSome(Next(z).s, n); }
        assert y'.got == y.got + [y'.got[|y.got|]];
      } else {
        assert y.replies + [] == y.replies;
      }
    }
  }

  lemma TakesSome(s: Conv, n: nat)
    requires s.cur.Some?
    ensures TakeReply(s, n).1.Some?
  {
  }

  /**
    What is refused: an open of a conversation in use, a message too short to have a
    tag, and one the host would not take; what is taken is taken whole.
   */
  lemma Refusals(s: Conv, data: bytes, sub: Submitted)
    ensures var (s', res) := Open(s);
            && (res.Err? <==> s.inuse) && (res.Err? ==> s' == s && res == Err(EINUSE))
            && (res.Ok? ==> s'.inuse && s'.cur == None && s'.done == [] && s'.held == s.held)
    ensures var (s', res) := Write(s, data, sub);
            && (res.Ok? <==> |data| >= 7 && !sub.Failed?) && (res.Ok? ==> res.value == |data|)
            && (|data| < 7 ==> s' == s && res == Err(EINVAL))
            && (|data| >= 7 && sub.Failed? ==> res == Err(sub.error) && s' == s.(held := s.held - {U16(data, 5)}))
            && s'.cur == s.cur && s'.inuse == s.inuse
            && s'.done == s.done + (if |data| >= 7 && sub.Now? then [sub.reply] else [])
  {
    if |data| >= 7 {
      assert s.held[U16(data, 5) := Flushes(data)] - {U16(data, 5)} == s.held - {U16(data, 5)};
    }
  }

  function Concat(bs: seq<bytes>): bytes {
    if bs == [] then [] else bs[0] + Concat(bs[1..])
  }

  lemma {:induction false} ConcatAppend(a: seq<bytes>, b: seq<bytes>)
    ensures Concat(a + b) == Concat(a) + Concat(b)
  {
    if a == [] {
      assert a + b == b;
    } else {
      assert (a + b)[1..] == a[1..] + b;
      ConcatAppend(a[1..], b);
    }
  }

  /** Everything read. */
  function Given(got: seq<Got>): bytes {
    if got == [] then [] else Given(got[..|got| - 1]) + got[|got| - 1].data
  }

  /** What is left of the reply in hand. */
  function InHand(s: Conv): bytes {
    if s.cur.Some? && s.cur.value.1 <= |s.cur.value.0| then s.cur.value.0[s.cur.value.1..] else []
  }

  /** A read is of one reply, and is as much of the rest of it as was asked for. */
  ghost predicate Inside(g: Got, replies: seq<bytes>) {
    && g.reply < |replies| && g.at <= |replies[g.reply]|
    && g.data == replies[g.reply][g.at..if g.want < |replies[g.reply]| - g.at then g.at + g.want else |replies[g.reply]|]
  }

  /** The queue is the end of the replies, and the one in hand is the one before it. */
  ghost predicate InOrder(s: Conv, replies: seq<bytes>) {
    && |s.done| <= |replies| && s.done == replies[|replies| - |s.done|..]
    && (s.cur.Some? ==>
          && |s.done| < |replies|
          && s.cur.value.0 == replies[|replies| - |s.done| - 1]
          && s.cur.value.1 <= |s.cur.value.0|)
  }

  ghost predicate Inv(y: Sys) {
    && InOrder(y.s, y.replies)
    && Given(y.got) + InHand(y.s) + Concat(y.s.done) == Concat(y.replies)
    && forall i :: 0 <= i < |y.got| ==> Inside(y.got[i], y.replies)
  }

  /** More replies: at the end. */
  lemma MoreReplies(y: Sys, s: Conv, rs: seq<bytes>)
    requires Inv(y) && s.cur == y.s.cur && s.done == y.s.done + rs
    ensures Inv(Sys(s, y.replies + rs, y.got))
  {
    ConcatAppend(y.s.done, rs);
    ConcatAppend(y.replies, rs);
    hide Concat;
    var all := y.replies + rs;
    assert InOrder(s, all) by { MoreInOrder(y.s, s, y.replies, rs); }
    hide InOrder;
    assert forall i :: 0 <= i < |y.got| ==> Inside(y.got[i], all) by {
      forall i | 0 <= i < |y.got| ensures Inside(y.got[i], all) { assert Inside(y.got[i], y.replies); }
    }
    assert Given(y.got) + InHand(s) + (Concat(y.s.done) + Concat(rs)) == Given(y.got) + InHand(s) + Concat(y.s.done) + Concat(rs);
  }

  lemma MoreInOrder(s: Conv, s': Conv, replies: seq<bytes>, rs: seq<bytes>)
    requires InOrder(s, replies) && s'.cur == s.cur && s'.done == s.done + rs
    ensures InOrder(s', replies + rs)
  {
    var n, all := |replies| - |s.done|, replies + rs;
    assert all[n..] == replies[n..] + rs;
  }

  lemma NextKeeps(y: Sys)
    requires Inv(y) && (y.s.cur.Some? || y.s.done != [])
    ensures Inv(Next(y)) && Next(y).s.cur.Some?
  {
    if y.s.cur.None? {
      var n := |y.replies| - |y.s.done|;
      assert y.s.done[1..] == y.replies[n + 1..];
      assert Concat(y.s.done) == y.s.done[0] + Concat(y.s.done[1..]);
      assert y.s.done[0] == y.replies[n];
      hide Concat, Given, Inside;
      assert InHand(y.s) == [] && InHand(Next(y).s) == y.s.done[0];
      assert Given(y.got) + [] == Given(y.got);
      GivenSplit(Given(y.got), [], y.s.done[0], Concat(y.s.done[1..]));
      assert Given(y.got) + (y.s.done[0] + Concat(y.s.done[1..])) == Given(y.got) + y.s.done[0] + Concat(y.s.done[1..]);
    }
  }

  lemma HandKeeps(y: Sys, n: nat)
    requires Inv(y) && y.s.cur.Some?
    ensures Inv(Hand(y, n))
  {
    HandOrder(y, n);
    HandRest(y, n);
    hide Concat, InOrder, InHand, TakeReply, Inside, Hand;
    var y' := Hand(y, n);
    var r := TakeReply(y.s, n).1;
    assert Given(y'.got) == Given(y.got) + r.value;
    GivenSplit(Given(y.got), r.value, InHand(y'.s), Concat(y.s.done));
  }

  lemma HandRest(y: Sys, n: nat)
    requires InOrder(y.s, y.replies) && y.s.cur.Some?
    ensures TakeReply(y.s, n).1.Some? && TakeReply(y.s, n).1.value + InHand(Hand(y, n).s) == InHand(y.s)
  {
  }

  /** What is handed over is of the reply in hand, and the rest of that stays in hand. */
  lemma HandOrder(y: Sys, n: nat)
    requires InOrder(y.s, y.replies) && y.s.cur.Some?
    ensures var (y', r) := (Hand(y, n), TakeReply(y.s, n).1);
            && r.Some? && InOrder(y'.s, y.replies) && |y'.got| == |y.got| + 1 && y'.got[..|y.got|] == y.got
            && y'.s.done == y.s.done && y'.replies == y.replies
            && y'.got[|y.got|].data == r.value && Inside(y'.got[|y.got|], y.replies)
  {
  }

  lemma GivenSplit(given: bytes, data: bytes, left: bytes, queued: bytes)
    ensures given + (data + left) + queued == given + data + left + queued
  {
  }

  lemma CompleteIs(s: Conv, r: bytes)
    ensures Complete(s, r).cur == s.cur && Complete(s, r).done == s.done + [r]
  {
  }

  lemma FlushKeeps(s: Conv)
    ensures Inv(Sys(s.(cur := None, done := []), [], []))
  {
  }

  lemma WritesKeep(y: Sys, data: bytes, sub: Submitted)
    requires Inv(y)
    ensures Inv(Step(y, Writes(data, sub)))
  {
    hide Inv, Complete;
    if |data| >= 7 {
      var s := y.s.(held := y.s.held[U16(data, 5) := Flushes(data)]);
      if sub.Now? {
        CompleteIs(s, sub.reply);
        MoreReplies(y, Write(y.s, data, sub).0, [sub.reply]);
      } else {
        HeldOnly(y, Write(y.s, data, sub).0);
      }
    }
  }

  lemma HeldOnly(y: Sys, s: Conv)
    requires Inv(y) && s == y.s.(held := s.held)
    ensures Inv(y.(s := s))
  {
    hide Concat, Given, Inside;
  }

  lemma StepKeeps(y: Sys, e: Event)
    requires Inv(y)
    ensures Inv(Step(y, e))
  {
    match e
    case Opens =>
      hide Inv;
      FlushKeeps(y.s.(inuse := true));
    case Closes =>
      hide Inv;
      FlushKeeps(y.s.(inuse := false));
    case Writes(data, sub) =>
      hide Inv, Step;
      WritesKeep(y, data, sub);
    case Interrupts(rs) =>
      hide Inv, Harvest;
      HarvestKeepsCur(y.s, rs);
      MoreReplies(y, Harvest(y.s, rs), rs);
    case Reads(n, rs) =>
      hide Inv, Step;
      ReadsKeep(y, n, rs);
  }

  lemma ReadsKeep(y: Sys, n: nat, rs: seq<bytes>)
    requires Inv(y)
    ensures Inv(Step(y, Reads(n, rs)))
  {
    hide Inv, Harvest;
    HarvestKeepsCur(y.s, rs);
    var more := y.(s := Harvest(y.s, rs), replies := y.replies + rs);
    MoreReplies(y, more.s, rs);
    if n > 0 {
      var z := if y.s.cur.None? && y.s.done == [] then more else y;
      if z.s.cur.Some? || z.s.done != [] {
        NextKeeps(z);
        HandKeeps(Next(z), n);
      }
    }
  }

  lemma {:induction false} RunKeeps(es: seq<Event>)
    ensures Inv(Exec(es))
  {
    if es != [] {
      RunKeeps(es[..|es| - 1]);
      StepKeeps(Exec(es[..|es| - 1]), es[|es| - 1]);
    }
  }

  /**
    Since the conversation was last opened: what has been read, what is left of
    the reply in hand and what is queued are the replies, in the order they came;
    and each read lies inside one of them.
   */
  lemma StreamIsReplies(es: seq<Event>)
    ensures var y := Exec(es);
            && Given(y.got) + InHand(y.s) + Concat(y.s.done) == Concat(y.replies)
            && forall i :: 0 <= i < |y.got| ==> Inside(y.got[i], y.replies)
  {
    RunKeeps(es);
  }

  // ---- the requests held

  /** What happened to requests: one was sent, and what it flushes; a reply with a tag came; a send failed. */
  datatype Act = Sent(tag: nat, flushes: Option<nat>) | Came(tag: nat) | Undone(tag: nat)

  function CameAll(rs: seq<bytes>): seq<Act> {
    if rs == [] then []
    else (if TagOf(rs[0]).Some? then [Came(TagOf(rs[0]).value)] else []) + CameAll(rs[1..])
  }

  function ActsOf(y: Sys, e: Event): seq<Act> {
    match e
    case Opens => []
    case Closes => []
    case Writes(data, sub) =>
      if |data| < 7 then []
      else
        [Sent(U16(data, 5), Flushes(data))] +
        (if sub.Failed? then [Undone(U16(data, 5))] else if sub.Now? then CameAll([sub.reply]) else [])
    case Interrupts(rs) => CameAll(rs)
    case Reads(n, rs) => if n > 0 && y.s.cur.None? && y.s.done == [] then CameAll(rs) else []
  }

  function History(es: seq<Event>): seq<Act> {
    if es == [] then [] else History(es[..|es| - 1]) + ActsOf(Exec(es[..|es| - 1]), es[|es| - 1])
  }

  function Apply(held: map<nat, Option<nat>>, a: Act): map<nat, Option<nat>> {
    match a
    case Sent(tag, flushes) => held[tag := flushes]
    case Came(tag) => Answer(held, tag)
    case Undone(tag) => held - {tag}
  }

  function ApplyAll(held: map<nat, Option<nat>>, h: seq<Act>): map<nat, Option<nat>> {
    if h == [] then held else Apply(ApplyAll(held, h[..|h| - 1]), h[|h| - 1])
  }

  lemma {:induction false} ApplyAppend(held: map<nat, Option<nat>>, a: seq<Act>, b: seq<Act>)
    ensures ApplyAll(held, a + b) == ApplyAll(ApplyAll(held, a), b)
    decreases |b|
  {
    if b == [] {
      assert a + b == a;
    } else {
      var n := |b| - 1;
      assert (a + b)[..|a + b| - 1] == a + b[..n];
      ApplyAppend(held, a, b[..n]);
    }
  }

  lemma {:induction false} HarvestApplies(s: Conv, rs: seq<bytes>)
    ensures Harvest(s, rs).held == ApplyAll(s.held, CameAll(rs))
    decreases |rs|
  {
    if rs != [] {
      var one := if TagOf(rs[0]).Some? then [Came(TagOf(rs[0]).value)] else [];
      HarvestApplies(Complete(s, rs[0]), rs[1..]);
      ApplyAppend(s.held, one, CameAll(rs[1..]));
      assert ApplyAll(s.held, one) == Complete(s, rs[0]).held by {
        if one != [] {
          assert one[..0] == [];
        }
      }
    }
  }

  lemma StepApplies(y: Sys, e: Event)
    ensures Step(y, e).s.held == ApplyAll(y.s.held, ActsOf(y, e))
  {
    match e
    case Opens =>
    case Closes =>
    case Writes(data, sub) =>
      if |data| >= 7 {
        var sent := [Sent(U16(data, 5), Flushes(data))];
        var s := y.s.(held := y.s.held[U16(data, 5) := Flushes(data)]);
        assert sent[..0] == [];
        assert ApplyAll(y.s.held, sent) == s.held;
        if sub.Failed? {
          var undone := [Undone(U16(data, 5))];
          assert undone[..0] == [];
          ApplyAppend(y.s.held, sent, undone);
        } else if sub.Now? {
          var r: bytes := sub.reply;
          HarvestApplies(s, [r]);
          var one: seq<bytes> := [r];
          assert one[1..] == [];
          assert Harvest(s, [r]) == Complete(s, r);
          ApplyAppend(y.s.held, sent, CameAll([r]));
        } else {
          assert sent + [] == sent;
        }
      }
    case Interrupts(rs) =>
      HarvestApplies(y.s, rs);
    case Reads(n, rs) =>
      HarvestApplies(y.s, rs);
  }

  /** What is held is what the history comes to. */
  lemma {:induction false} HeldIsHistory(es: seq<Event>)
    ensures Exec(es).s.held == ApplyAll(map[], History(es))
  {
    if es != [] {
      var init := es[..|es| - 1];
      HeldIsHistory(init);
      StepApplies(Exec(init), es[|es| - 1]);
      ApplyAppend(map[], History(init), ActsOf(Exec(init), es[|es| - 1]));
    }
  }

  /** The request sent at `i` has had no reply, and has not been flushed by a request that had. */
  ghost predicate Live(h: seq<Act>, i: nat)
    decreases |h|, 1
  {
    i < |h| && h[i].Sent? && forall j :: i < j < |h| ==> !Ends(h, j, h[i].tag)
  }

  /** What happened at `j` is the end of a request of this tag. */
  ghost predicate Ends(h: seq<Act>, j: nat, tag: nat)
    requires j < |h|
    decreases |h|, 0
  {
    || h[j] == Came(tag)
    || h[j] == Undone(tag)
    || (h[j].Came? && exists k: nat :: k < j && h[k] == Sent(h[j].tag, Some(tag)) && Live(h[..j], k))
  }

  /** No request is sent with the tag of one that is live. */
  ghost predicate DistinctTags(h: seq<Act>) {
    forall i, j :: 0 <= i < j < |h| && h[j].Sent? && h[i].Sent? && h[i].tag == h[j].tag ==> !Live(h[..j], i)
  }

  lemma LiveLonger(h: seq<Act>, a: Act, i: nat)
    requires i < |h|
    ensures Live(h + [a], i) <==> Live(h, i) && !Ends(h + [a], |h|, h[i].tag)
  {
    var h' := h + [a];
    forall j | i < j < |h|
      ensures Ends(h', j, h'[i].tag) <==> Ends(h, j, h'[i].tag)
    {
      assert h'[..j] == h[..j];
    }
  }

  ghost predicate Matches(h: seq<Act>, held: map<nat, Option<nat>>) {
    && (forall i: nat :: Live(h, i) ==> h[i].tag in held && held[h[i].tag] == h[i].flushes)
    && (forall t :: t in held ==> exists i: nat :: Live(h, i) && h[i].tag == t)
    && (forall i: nat, j: nat :: Live(h, i) && Live(h, j) && h[i].tag == h[j].tag ==> i == j)
  }

  lemma SentMatches(h: seq<Act>, held: map<nat, Option<nat>>, a: Act)
    requires Matches(h, held) && a.Sent? && DistinctTags(h + [a])
    ensures Matches(h + [a], Apply(held, a))
  {
    var h', n := h + [a], |h|;
    assert h'[..n] == h;
    forall i: nat | i < n
      ensures Live(h', i) <==> Live(h, i)
      ensures Live(h, i) ==> h[i].tag != a.tag
    {
      LiveLonger(h, a, i);
    }
    assert Live(h', n);
    assert forall i: nat :: Live(h', i) ==> i == n || Live(h, i);
    assert forall i: nat :: Live(h, i) ==> Live(h', i) && h'[i] == h[i];
  }

  /** Tags that end, by a reply or a failure, are those that leave. */
  lemma EndMatches(h: seq<Act>, held: map<nat, Option<nat>>, a: Act)
    requires Matches(h, held) && !a.Sent?
    ensures Matches(h + [a], Apply(held, a))
  {
    var h', n, held' := h + [a], |h|, Apply(held, a);
    assert h'[..n] == h;
    forall i: nat | i < n
      ensures Live(h', i) <==> Live(h, i) && !Ends(h', n, h[i].tag)
    {
      LiveLonger(h, a, i);
    }
    forall t | t in held
      ensures t in held' <==> !Ends(h', n, t)
    {
      EndsAre(h, held, a, t);
    }
    assert forall i: nat :: Live(h', i) ==> Live(h, i) && h'[i] == h[i];
    forall t | t in held'
      ensures exists i: nat :: Live(h', i) && h'[i].tag == t
    {
      var i: nat :| Live(h, i) && h[i].tag == t;
      assert Live(h', i);
    }
  }

  /** What a reply or a failure ends, of what is held. */
  lemma EndsAre(h: seq<Act>, held: map<nat, Option<nat>>, a: Act, t: nat)
    requires Matches(h, held) && !a.Sent? && t in held
    ensures t in Apply(held, a) <==> !Ends(h + [a], |h|, t)
  {
    var h', n := h + [a], |h|;
    assert h'[..n] == h;
    if a.Came? {
      if a.tag in held && held[a.tag] == Some(t) {
        var k: nat :| Live(h, k) && h[k].tag == a.tag;
        assert h'[k] == Sent(a.tag, Some(t));
      }
      if k: nat :| k < n && h'[k] == Sent(a.tag, Some(t)) && Live(h, k) {
        assert held[a.tag] == Some(t);
      }
    }
  }

  lemma {:induction false} HistoryMatches(h: seq<Act>)
    requires DistinctTags(h)
    ensures Matches(h, ApplyAll(map[], h))
  {
    if h != [] {
      var init, a := h[..|h| - 1], h[|h| - 1];
      assert h == init + [a];
      assert DistinctTags(init) by {
        forall i, j | 0 <= i < j < |init| && init[j].Sent? && init[i].Sent? && init[i].tag == init[j].tag
          ensures !Live(init[..j], i)
        {
          assert h[..j] == init[..j];
        }
      }
      HistoryMatches(init);
      if a.Sent? {
        SentMatches(init, ApplyAll(map[], init), a);
      } else {
        EndMatches(init, ApplyAll(map[], init), a);
      }
    }
  }

  /**
    Where requests do not reuse the tag of one outstanding, the tags held are those
    of the requests neither answered nor flushed.
   */
  lemma HeldIsUnanswered(es: seq<Event>, t: nat)
    requires DistinctTags(History(es))
    ensures t in Exec(es).s.held <==> exists i: nat :: Live(History(es), i) && History(es)[i].tag == t
  {
    HeldIsHistory(es);
    HistoryMatches(History(es));
  }
}
