/**
  Writes through one descriptor (kernel/src/lib.rs). A write at the descriptor's
  own offset claims its range first, for the device may sleep in it, and gives
  back after what the device did not write.
 */
module WriteOffset {
  import opened ProcTable

  const EISDIR := "file is a directory"
  const ENEGOFF := "negative i/o offset"

  /** A write that has left: where it writes, how much, and whether it took its range. */
  datatype Write = Write(at: int, len: nat, taken: bool)

  datatype Desc = Desc(isdir: bool, offset: int, labels: map<Pid, Write>)

  /** What the device does with one entry: the process leaves, or the write is over. */
  datatype Device = Left | Over(res: Result<nat>)

  /** What the device wrote: nothing if it failed. */
  function Written(res: Result<nat>): nat {
    if res.Ok? then res.value else 0
  }

  function Pwriteat(d: Desc, pid: Pid, w: Write, dev: Device): (Desc, Option<Result<nat>>) {
    if dev.Left? then
      (d.(labels := d.labels[pid := w]), None)
    else
      (d.(offset := if w.taken then d.offset - (w.len - Written(dev.res)) else d.offset), Some(dev.res))
  }

  function Pwrite(d: Desc, pid: Pid, len: nat, off: int, dev: Device): (Desc, Option<Result<nat>>) {
    if d.isdir then
      (d, Some(Err(EISDIR)))
    else if off < -1 then
      (d, Some(Err(ENEGOFF)))
    else if off == -1 then
      Pwriteat(d.(offset := d.offset + len), pid, Write(d.offset, len, true), dev)
    else
      Pwriteat(d, pid, Write(off, len, false), dev)
  }

  /** The process entered again: the same write, at the offset taken. */
  function Again(d: Desc, pid: Pid, dev: Device): (Desc, Option<Result<nat>>)
    requires pid in d.labels
  {
    Pwriteat(d.(labels := d.labels - {pid}), pid, d.labels[pid], dev)
  }

  class Cell {
    const isdir: bool
    var offset: int
    var labels: map<Pid, Write>

    constructor (isdir: bool, offset: nat)
      ensures Val() == Desc(isdir, offset, map[])
    {
      this.isdir, this.offset, labels := isdir, offset, map[];
    }

    function Val(): Desc
      reads this
    {
      Desc(isdir, offset, labels)
    }

    method WriteAt(pid: Pid, w: Write, dev: Device) returns (res: Option<Result<nat>>)
      modifies this
      ensures (Val(), res) == Pwriteat(old(Val()), pid, w, dev)
    {
      if dev.Left? {
        labels := labels[pid := w];
        return None;
      }
      var m := Written(dev.res);
      var now := offset;
      offset := if w.taken then now - (w.len - m) else now;
      return Some(dev.res);
    }

    method WriteOff(pid: Pid, len: nat, off: int, dev: Device) returns (res: Option<Result<nat>>)
      modifies this
      ensures (Val(), res) == Pwrite(old(Val()), pid, len, off, dev)
    {
      if isdir {
        return Some(Err(EISDIR));
      }
      if off < -1 {
        return Some(Err(ENEGOFF));
      }
      var taken := off == -1;
      var at := if taken then offset else off;
      if taken {
        offset := offset + len;
      }
      res := WriteAt(pid, Write(at, len, taken), dev);
    }

    method Resume(pid: Pid, dev: Device) returns (res: Option<Result<nat>>)
      requires pid in labels
      modifies this
      ensures (Val(), res) == Again(old(Val()), pid, dev)
    {
      var w := labels[pid];
      labels := labels - {pid};
      res := WriteAt(pid, w, dev);
    }
  }

  // ---- every run

  /** Bytes a write has taken and not given back. */
  datatype Range = Range(at: int, len: nat)
  {
    predicate Has(p: int) {
      at <= p < at + len
    }
  }

  /** A run: the descriptor, every range taken in turn as it now is, and whose those still out are. */
  datatype Sys = Sys(start: nat, d: Desc, log: seq<Range>, slot: map<Pid, nat>)

  datatype Event =
    | Begin(pid: Pid, len: nat, off: int, dev: Device)
    | Resume(pid: Pid, dev: Device)

  /** A device writes no more than it is given. */
  predicate Fits(dev: Device, len: nat) {
    dev.Over? && dev.res.Ok? ==> dev.res.value <= len
  }

  predicate Enabled(s: Sys, e: Event) {
    match e
    case Begin(pid, len, off, dev) => pid !in s.d.labels && Fits(dev, len)
    case Resume(pid, dev) => pid in s.d.labels && Fits(dev, s.d.labels[pid].len)
  }

  /** What becomes of a range when the device is done with it, or is not. */
  function Settle(s: Sys, pid: Pid, i: nat, dev: Device): Sys {
    if dev.Left? then
      s.(slot := s.slot[pid := i])
    else if i < |s.log| then
      s.(slot := s.slot - {pid}, log := s.log[i := s.log[i].(len := Written(dev.res))])
    else
      s
  }

  function Step(s: Sys, e: Event): Sys
    requires Enabled(s, e)
  {
    match e
    case Begin(pid, len, off, dev) =>
      var s' := s.(d := Pwrite(s.d, pid, len, off, dev).0);
      if !s.d.isdir && off == -1 then Settle(s'.(log := s.log + [Range(s.d.offset, len)]), pid, |s.log|, dev) else s'
    case Resume(pid, dev) =>
      var s' := s.(d := Again(s.d, pid, dev).0);
      if pid in s.slot then Settle(s', pid, s.slot[pid], dev) else s'
  }

  function Init(start: nat, isdir: bool): Sys {
    Sys(start, Desc(isdir, start, map[]), [], map[])
  }

  function Exec(start: nat, isdir: bool, es: seq<Event>): Option<Sys> {
    if es == [] then
      Some(Init(start, isdir))
    else
      var s := Exec(start, isdir, es[..|es| - 1]);
      if s.Some? && Enabled(s.value, es[|es| - 1]) then Some(Step(s.value, es[|es| - 1])) else None
  }

  function Total(log: seq<Range>): nat {
    if log == [] then 0 else Total(log[..|log| - 1]) + log[|log| - 1].len
  }

  /** What is out, in the log's terms: a write that took a range has it still, whole. */
  ghost predicate Out(labels: map<Pid, Write>, slot: map<Pid, nat>, log: seq<Range>) {
    && (forall pid :: pid in slot <==> pid in labels && labels[pid].taken)
    && (forall pid :: pid in slot ==> slot[pid] < |log| && log[slot[pid]] == Range(labels[pid].at, labels[pid].len))
    && (forall p, q :: p in slot && q in slot && slot[p] == slot[q] ==> p == q)
  }

  ghost predicate Inv(s: Sys) {
    s.d.offset == s.start + Total(s.log) && Out(s.d.labels, s.slot, s.log)
  }

  lemma {:induction false} TotalAt(log: seq<Range>, i: nat, len: nat)
    requires i < |log|
    ensures Total(log[i := log[i].(len := len)]) == Total(log) - log[i].len + len
  {
    var n := |log| - 1;
    var log' := log[i := log[i].(len := len)];
    if i < n {
      TotalAt(log[..n], i, len);
      assert log'[..n] == log[..n][i := log[i].(len := len)];
    } else {
      assert log'[..n] == log[..n];
    }
  }

  lemma BeginKeeps(s: Sys, pid: Pid, len: nat, dev: Device)
    requires Inv(s) && pid !in s.d.labels && Fits(dev, len) && !s.d.isdir
    ensures Inv(Step(s, Begin(pid, len, -1, dev)))
  {
    var log := s.log + [Range(s.d.offset, len)];
    assert log[..|s.log|] == s.log;
    assert Total(log) == Total(s.log) + len;
    if dev.Over? {
      TotalAt(log, |s.log|, Written(dev.res));
      assert s.slot - {pid} == s.slot;
    }
  }

  lemma ResumeKeeps(s: Sys, pid: Pid, dev: Device)
    requires Inv(s) && pid in s.d.labels && Fits(dev, s.d.labels[pid].len)
    ensures Inv(Step(s, Resume(pid, dev)))
  {
    if dev.Left? {
      assert (s.d.labels - {pid})[pid := s.d.labels[pid]] == s.d.labels;
      assert pid in s.slot ==> s.slot[pid := s.slot[pid]] == s.slot;
    } else if pid in s.slot {
      TotalAt(s.log, s.slot[pid], Written(dev.res));
    }
  }

  lemma StepKeeps(s: Sys, e: Event)
    requires Inv(s) && Enabled(s, e)
    ensures Inv(Step(s, e)) && Step(s, e).start == s.start && Step(s, e).d.isdir == s.d.isdir
  {
    if e.Resume? {
      hide Inv;
      ResumeKeeps(s, e.pid, e.dev);
    } else if !s.d.isdir && e.off == -1 {
      hide Inv;
      BeginKeeps(s, e.pid, e.len, e.dev);
    }
  }

  lemma {:induction false} RunKeeps(start: nat, isdir: bool, es: seq<Event>)
    requires Exec(start, isdir, es).Some?
    ensures var s := Exec(start, isdir, es).value; Inv(s) && s.start == start && s.d.isdir == isdir
  {
    if es != [] {
      RunKeeps(start, isdir, es[..|es| - 1]);
      StepKeeps(Exec(start, isdir, es[..|es| - 1]).value, es[|es| - 1]);
    }
  }

  /**
    In every run the offset is where the descriptor began, and what finished
    writes wrote, and what outstanding ones have taken; so giving back never
    takes it below where it began.
   */
  lemma OffsetAccounts(start: nat, isdir: bool, es: seq<Event>)
    requires Exec(start, isdir, es).Some?
    ensures var s := Exec(start, isdir, es).value;
            && s.d.offset == start + Finished(s) + Outstanding(s)
            && s.d.offset >= start
  {
    RunKeeps(start, isdir, es);
    var s := Exec(start, isdir, es).value;
    Splits(s.log, s.slot.Values);
  }

  /** Of the log, the ranges at these places, or at the others. */
  function TotalOf(log: seq<Range>, places: set<nat>, inside: bool): nat {
    if log == [] then 0
    else TotalOf(log[..|log| - 1], places, inside) + if (|log| - 1 in places) == inside then log[|log| - 1].len else 0
  }

  function Finished(s: Sys): nat {
    TotalOf(s.log, s.slot.Values, false)
  }

  function Outstanding(s: Sys): nat {
    TotalOf(s.log, s.slot.Values, true)
  }

  lemma {:induction false} Splits(log: seq<Range>, places: set<nat>)
    ensures Total(log) == TotalOf(log, places, false) + TotalOf(log, places, true)
  {
    if log != [] {
      Splits(log[..|log| - 1], places);
    }
  }

  // ---- what is answered, and where the device writes

  /** What a step answers, if the call is over. */
  function Answer(s: Sys, e: Event): Option<Result<nat>>
    requires Enabled(s, e)
  {
    match e
    case Begin(pid, len, off, dev) => Pwrite(s.d, pid, len, off, dev).1
    case Resume(pid, dev) => Again(s.d, pid, dev).1
  }

  /** The write that `pid` last began: where it is made, at the offset it was given or the descriptor's own as it then was. */
  function Begun(start: nat, isdir: bool, es: seq<Event>, pid: Pid): Option<Write>
    requires Exec(start, isdir, es).Some?
  {
    if es == [] then
      None
    else
      var s, e := Exec(start, isdir, es[..|es| - 1]).value, es[|es| - 1];
      if e.Begin? && e.pid == pid then Some(Write(if e.off == -1 then s.d.offset else e.off, e.len, e.off == -1))
      else Begun(start, isdir, es[..|es| - 1], pid)
  }

  /** In every run a write that has left and is entered again is the one it began as, at the same place. */
  lemma {:induction false} StaysWhereItBegan(start: nat, isdir: bool, es: seq<Event>, pid: Pid)
    requires Exec(start, isdir, es).Some? && pid in Exec(start, isdir, es).value.d.labels
    ensures Begun(start, isdir, es, pid) == Some(Exec(start, isdir, es).value.d.labels[pid])
  {
    var init, e := es[..|es| - 1], es[|es| - 1];
    var s := Exec(start, isdir, init).value;
    if !(e.Begin? && e.pid == pid) {
      assert pid in s.d.labels && Step(s, e).d.labels[pid] == s.d.labels[pid];
      StaysWhereItBegan(start, isdir, init, pid);
    }
  }

  /**
    In every run: a write to a directory or at a negative offset is refused and
    changes nothing; otherwise it leaves when its device does, and answers what its
    device answers. One at an offset of its own neither reads nor moves the
    descriptor's; one at the descriptor's has moved it by what was written, or
    while it is out by all it was given.
   */
  lemma WriteAnswers(start: nat, isdir: bool, es: seq<Event>, e: Event)
    requires Exec(start, isdir, es).Some? && Enabled(Exec(start, isdir, es).value, e)
    ensures var s := Exec(start, isdir, es).value;
            var s', res := Step(s, e), Answer(s, e);
            match e
            case Begin(pid, len, off, dev) =>
              if isdir || off < -1 then
                s' == s && res == Some(Err(if isdir then EISDIR else ENEGOFF))
              else
                && (res.None? <==> dev.Left?) && (dev.Over? ==> res == Some(dev.res))
                && (pid in s'.d.labels <==> dev.Left?)
                && s'.d.offset == s.d.offset + if off != -1 then 0 else if dev.Left? then len else Written(dev.res)
            case Resume(pid, dev) =>
              && (res.None? <==> dev.Left?) && (dev.Over? ==> res == Some(dev.res))
              && (pid in s'.d.labels <==> dev.Left?)
              && s'.d.offset == s.d.offset - if dev.Over? && s.d.labels[pid].taken then s.d.labels[pid].len - Written(dev.res) else 0
  {
    RunKeeps(start, isdir, es);
  }

  // ---- tiling

  /** How many ranges have this byte. */
  function Count(log: seq<Range>, p: int): nat {
    if log == [] then 0 else Count(log[..|log| - 1], p) + if log[|log| - 1].Has(p) then 1 else 0
  }

  /** The ranges are disjoint, and are together what lies between the start and the offset. */
  ghost predicate Tiled(s: Sys) {
    forall p :: Count(s.log, p) == if s.start <= p < s.d.offset then 1 else 0
  }

  lemma {:induction false} CountAt(log: seq<Range>, i: nat, m: nat, p: int)
    requires i < |log| && m <= log[i].len
    ensures Count(log[i := log[i].(len := m)], p) == Count(log, p) - if log[i].at + m <= p < log[i].at + log[i].len then 1 else 0
    ensures log[i].Has(p) ==> Count(log, p) >= 1
  {
    var n := |log| - 1;
    var log' := log[i := log[i].(len := m)];
    if i < n {
      CountAt(log[..n], i, m, p);
      assert log'[..n] == log[..n][i := log[i].(len := m)];
    } else {
      assert log'[..n] == log[..n];
    }
  }

  /** A write at the descriptor's offset takes bytes that nobody has. */
  lemma TakeTiles(s: Sys, len: nat)
    requires Inv(s) && Tiled(s)
    ensures Tiled(s.(log := s.log + [Range(s.d.offset, len)], d := s.d.(offset := s.d.offset + len)))
  {
    var log := s.log + [Range(s.d.offset, len)];
    assert log[..|s.log|] == s.log;
    forall p
      ensures Count(log, p) == if s.start <= p < s.d.offset + len then 1 else 0
    {
      assert Count(s.log, p) == if s.start <= p < s.d.offset then 1 else 0;
    }
  }

  /** Giving back leaves the ranges a tiling exactly when nothing is given back, or the range is the last. */
  lemma GiveBackTiles(s: Sys, i: nat, m: nat)
    requires Tiled(s) && i < |s.log| && m <= s.log[i].len
    ensures var s' := s.(log := s.log[i := s.log[i].(len := m)], d := s.d.(offset := s.d.offset - (s.log[i].len - m)));
            Tiled(s') <==> m == s.log[i].len || s.log[i].at + s.log[i].len == s.d.offset
  {
    var r := s.log[i];
    var s' := s.(log := s.log[i := r.(len := m)], d := s.d.(offset := s.d.offset - (r.len - m)));
    forall p
      ensures Count(s'.log, p) == Count(s.log, p) - if r.at + m <= p < r.at + r.len then 1 else 0
      ensures r.Has(p) ==> Count(s.log, p) >= 1
    {
      CountAt(s.log, i, m, p);
    }
    if m < r.len && r.at + r.len != s.d.offset {
      assert r.Has(r.at + r.len - 1);
      assert Count(s.log, r.at + r.len - 1) == 1;
      assert Count(s'.log, s.d.offset - 1) == Count(s.log, s.d.offset - 1);
    } else if m < r.len {
      assert r.Has(r.at) && Count(s.log, r.at) == 1;
    }
  }

  /** Whether a step gives back part of a range that is not the last. */
  predicate Tears(s: Sys, e: Event)
    requires Enabled(s, e)
  {
    && e.Resume? && e.dev.Over? && e.pid in s.slot
    && Written(e.dev.res) < s.d.labels[e.pid].len
    && s.d.labels[e.pid].at + s.d.labels[e.pid].len != s.d.offset
  }

  lemma StepTiles(s: Sys, e: Event)
    requires Inv(s) && Enabled(s, e) && Tiled(s)
    ensures Tiled(Step(s, e)) <==> !Tears(s, e)
  {
    match e
    case Begin(pid, len, off, dev) =>
      if !s.d.isdir && off == -1 {
        TakeTiles(s, len);
        if dev.Over? {
          var t := s.(log := s.log + [Range(s.d.offset, len)], d := s.d.(offset := s.d.offset + len));
          GiveBackTiles(t, |s.log|, Written(dev.res));
        }
      }
    case Resume(pid, dev) =>
      if pid in s.slot && dev.Over? {
        GiveBackTiles(s, s.slot[pid], Written(dev.res));
      }
  }

  ghost predicate NeverTears(start: nat, isdir: bool, es: seq<Event>)
    requires Exec(start, isdir, es).Some?
  {
    es == [] || (NeverTears(start, isdir, es[..|es| - 1]) && !Tears(Exec(start, isdir, es[..|es| - 1]).value, es[|es| - 1]))
  }

  /**
    While no write gives back part of a range that another has been taken after,
    no byte is two writes', and together they are all there is between the start
    and the offset.
   */
  lemma {:induction false} WritesTile(start: nat, isdir: bool, es: seq<Event>)
    requires Exec(start, isdir, es).Some? && NeverTears(start, isdir, es)
    ensures Tiled(Exec(start, isdir, es).value)
  {
    if es != [] {
      WritesTile(start, isdir, es[..|es| - 1]);
      RunKeeps(start, isdir, es[..|es| - 1]);
      StepTiles(Exec(start, isdir, es[..|es| - 1]).value, es[|es| - 1]);
    }
  }

  /** A run in which two writes have the same byte: the first of two is short, and a third follows. */
  lemma ShortWriteOverlaps()
    ensures var es := [Begin(1, 10, -1, Left), Begin(2, 10, -1, Left), Resume(1, Over(Ok(4))), Begin(3, 10, -1, Left)];
            var run := Exec(0, false, es);
            run.Some? && |run.value.log| == 3 && run.value.log[1] == Range(10, 10) && run.value.log[2] == Range(14, 10)
  {
    var es := [Begin(1, 10, -1, Left), Begin(2, 10, -1, Left), Resume(1, Over(Ok(4))), Begin(3, 10, -1, Left)];
    assert es[..0] == [] && es[..4] == es;
    FirstTwo();
    ThenShort();
    hide Exec, Step;
    ExecNone(0, false);
    ExecOne(0, false, es, 0);
    ExecOne(0, false, es, 1);
    ExecOne(0, false, es, 2);
    ExecOne(0, false, es, 3);
  }

  const One := Sys(0, Desc(false, 10, map[1 := Write(0, 10, true)]), [Range(0, 10)], map[1 := 0])
  const Two := Sys(0, Desc(false, 20, map[1 := Write(0, 10, true), 2 := Write(10, 10, true)]),
                   [Range(0, 10), Range(10, 10)], map[1 := 0, 2 := 1])
  const Short := Sys(0, Desc(false, 14, map[2 := Write(10, 10, true)]), [Range(0, 4), Range(10, 10)], map[2 := 1])

  lemma FirstTwo()
    ensures Step(Init(0, false), Begin(1, 10, -1, Left)) == One
    ensures Step(One, Begin(2, 10, -1, Left)) == Two
  {
    assert One.log + [Range(10, 10)] == Two.log;
    assert One.d.labels[2 := Write(10, 10, true)] == Two.d.labels;
    assert One.slot[2 := 1] == Two.slot;
  }

  lemma ThenShort()
    ensures Enabled(Two, Resume(1, Over(Ok(4)))) && Step(Two, Resume(1, Over(Ok(4)))) == Short
    ensures Enabled(Short, Begin(3, 10, -1, Left))
    ensures Step(Short, Begin(3, 10, -1, Left)).log == [Range(0, 4), Range(10, 10), Range(14, 10)]
  {
    assert Two.d.labels - {1} == Short.d.labels;
    assert Two.slot - {1} == Short.slot;
    assert Two.log[0 := Range(0, 4)] == Short.log;
    assert Short.log + [Range(14, 10)] == [Range(0, 4), Range(10, 10), Range(14, 10)];
  }

  lemma ExecNone(start: nat, isdir: bool)
    ensures Exec(start, isdir, []) == Some(Init(start, isdir))
  {
  }

  lemma ExecOne(start: nat, isdir: bool, es: seq<Event>, i: nat)
    requires i < |es| && Exec(start, isdir, es[..i]).Some? && Enabled(Exec(start, isdir, es[..i]).value, es[i])
    ensures Exec(start, isdir, es[..i + 1]) == Some(Step(Exec(start, isdir, es[..i]).value, es[i]))
  {
    assert es[..i + 1][..i] == es[..i];
  }
}
