/** How the entries of reads and writes of a pipe end, in every run. */
module PipeAnswers {
  import opened Bytes
  import opened ProcTable
  import opened Qio
  import opened QueueWakeup
  import opened QueueAnswers
  import opened PipeSystem
  import opened PipeStream

  /** The call an event enters, if it enters one. */
  function Entering(s: Sys, e: Event): Option<(Pid, Call)> {
    match e
    case StartRead(pid, end, n) => Some((pid, Reading(end, n)))
    case StartWrite(pid, end, data, mounted, outranks) => Some((pid, Writing(Peer(end), data, mounted, s.nextid)))
    case Resume(pid, outranks) => if pid in s.calls then Some((pid, s.calls[pid])) else None
    case _ => None
  }

  /** The scheduler's word on whether a reader woken outranks the process that is entered. */
  predicate Outranked(e: Event) {
    match e
    case StartWrite(pid, end, data, mounted, outranks) => outranks
    case Resume(pid, outranks) => outranks
    case _ => false
  }

  /** What the device sees of queue `k`. */
  function On(s: Sys, k: Qk): Ctx
    requires k in s.qs
  {
    Ctx(s.qs[k], s.at, s.t)
  }

  /** An entry of `pid` into `call` took `s` to `s'` and ended as an entry of a read or of a write does. */
  ghost predicate Answered(s: Sys, s': Sys, pid: Pid, call: Call, outranks: bool, reply: Reply) {
    && call.k in s.qs && call.k in s'.qs
    && (reply == Pending <==> pid in s'.at)
    && if call.Reading? then
         && (reply == Pending || reply.GotRead?)
         && ReadEnds(On(s, call.k), ReadCall(pid, call.k.devno, call.k.which, call.n),
                     (On(s', call.k), if reply.GotRead? then reply.read else Ok([])))
       else
         && (reply == Pending || reply.GotWrite?)
         && WriteEnds(On(s, call.k), WriteCall(pid, call.k.devno, call.k.which, call.data, !call.mounted, outranks),
                      (On(s', call.k), if reply.GotWrite? then reply.written else Ok(0)))
  }

  lemma CallingRuns(s: Sys, pid: Pid, call: Call)
    requires Calling(s, pid, call)
    ensures pid in s.t.tab && s.t.tab[pid].state == Runnable
    ensures pid in s.at ==> s.at[pid].Read? == call.Reading?
    ensures call.Writing? && pid in s.at ==> s.at[pid].sofar <= |call.data|
  {}

  /** A process is recorded by the device if and only if the kernel keeps its call. */
  lemma EnterLeft(s: Sys, pid: Pid, call: Call, outranks: bool)
    requires Inv(s) && Calling(s, pid, call)
    ensures Enter(s, pid, call, outranks).1 == Pending <==> pid in Device(s, pid, call, outranks).0.at
  {
    hide QueueInv, CallInv, Enter, Inv, Device, Calling;
    EntryIsSeen(s, pid, call, outranks);
  }

  lemma LabelAsleep(t: Table, pid: Pid, r: Rid)
    ensures Asleep(t.TakeLabel(pid), pid, r) == Asleep(t, pid, r) && Noted(t.TakeLabel(pid), pid) == Noted(t, pid)
  {}

  lemma LabelRead(c: Ctx, r: ReadCall, c': Ctx, res: Result<bytes>)
    requires ReadEnds(c, r, (c', res))
    ensures ReadEnds(c, r, (c'.(t := c'.t.TakeLabel(r.pid)), res)) && (r.pid in c'.at ==> res == Ok([]))
  {
    LabelAsleep(c'.t, r.pid, Rr(r.devno, r.which));
    hide Noted, Asleep, Takes, Facing, ProcTable.Table.TakeLabel;
  }

  lemma LabelWrite(c: Ctx, w: WriteCall, c': Ctx, res: Result<nat>)
    requires WriteEnds(c, w, (c', res))
    ensures WriteEnds(c, w, (c'.(t := c'.t.TakeLabel(w.pid)), res)) && (w.pid in c'.at ==> res == Ok(0))
  {
    LabelAsleep(c'.t, w.pid, Wr(w.devno, w.which));
    hide Noted, Asleep, ProcTable.Table.TakeLabel;
  }

  lemma EntryAnswers(s: Sys, pid: Pid, call: Call, outranks: bool)
    requires Inv(s) && Calling(s, pid, call)
    ensures Answered(s, Enter(s, pid, call, outranks).0, pid, call, outranks, Enter(s, pid, call, outranks).1)
  {
    CallingIs(s, pid, call);
    CallingRuns(s, pid, call);
    EnterLeft(s, pid, call, outranks);
    hide QueueInv, CallInv, Inv, Calling;
    if call.Reading? {
      ReadAnswers(s, pid, call, outranks);
    } else {
      WriteAnswers(s, pid, call, outranks);
    }
  }

  lemma ReadAnswers(s: Sys, pid: Pid, call: Call, outranks: bool)
    requires Enterable(s, pid, call) && call.Reading?
    requires Enter(s, pid, call, outranks).1 == Pending <==> pid in Device(s, pid, call, outranks).0.at
    ensures Answered(s, Enter(s, pid, call, outranks).0, pid, call, outranks, Enter(s, pid, call, outranks).1)
  {
    hide QreadSpec, ReadEnds, ProcTable.Table.TakeLabel, ProcTable.Table.Left;
    var r := ReadCall(pid, call.k.devno, call.k.which, call.n);
    QreadEnds(On(s, call.k), r);
    LabelRead(On(s, call.k), r, QreadSpec(On(s, call.k), r).0, QreadSpec(On(s, call.k), r).1);
  }

  lemma WriteAnswers(s: Sys, pid: Pid, call: Call, outranks: bool)
    requires Enterable(s, pid, call) && call.Writing? && (pid in s.at ==> !s.at[pid].Read? && s.at[pid].sofar <= |call.data|)
    requires Enter(s, pid, call, outranks).1 == Pending <==> pid in Device(s, pid, call, outranks).0.at
    ensures Answered(s, Enter(s, pid, call, outranks).0, pid, call, outranks, Enter(s, pid, call, outranks).1)
  {
    hide QwriteSpec, WriteEnds, ProcTable.Table.TakeLabel, ProcTable.Table.Left;
    var w := WriteCall(pid, call.k.devno, call.k.which, call.data, !call.mounted, outranks);
    QwriteEnds(On(s, call.k), w);
    LabelWrite(On(s, call.k), w, QwriteSpec(On(s, call.k), w).0, QwriteSpec(On(s, call.k), w).1);
  }

  lemma EnterRefs(s: Sys, pid: Pid, call: Call, outranks: bool)
    requires Enterable(s, pid, call)
    ensures Enter(s, pid, call, outranks).0.qref == s.qref
  {
    hide Device;
  }

  lemma EntryOn(s: Sys, s1: Sys, pid: Pid, call: Call, outranks: bool)
    requires Inv(s1) && s1 == s.(nextid := s1.nextid) && pid in s.t.tab && s.t.tab[pid].state == Runnable
    requires if pid in s.calls then call == s.calls[pid] else call.k in s.qs
    requires Enterable(s1, pid, call)
    ensures var (s', reply) := Enter(s1, pid, call, outranks);
            && s'.qs.Keys == s.qs.Keys && s'.qref == s.qref && call.k in s.qs
            && (forall k :: k in s.qs && k != call.k ==> s'.qs[k] == s.qs[k])
            && Answered(s, s', pid, call, outranks, reply)
  {
    hide Inv, Enter, Calling, ReadEnds, WriteEnds;
    CallingOf(s1, pid, call);
    EntryIsSeen(s1, pid, call, outranks);
    EnterRefs(s1, pid, call, outranks);
    EntryAnswers(s1, pid, call, outranks);
  }

  /** An event that enters a call. */
  lemma EventAnswers(s: Sys, e: Event)
    requires Inv(s) && Enabled(s, e) && Fit(s, e) && Entering(s, e).Some?
    ensures var (s', reply) := Apply(s, e);
            var (pid, call) := Entering(s, e).value;
            && s'.qs.Keys == s.qs.Keys && s'.qref == s.qref && call.k in s.qs
            && (forall k :: k in s.qs && k != call.k ==> s'.qs[k] == s.qs[k])
            && Answered(s, s', pid, call, Outranked(e), reply)
  {
    hide Inv, Enter, Answered;
    match e
    case StartRead(pid, end, n) => EntryOn(s, s, pid, Reading(end, n), false);
    case StartWrite(pid, end, data, mounted, outranks) =>
      InvMore(s);
      EntryOn(s, s.(nextid := s.nextid + 1), pid, Writing(Peer(end), data, mounted, s.nextid), outranks);
    case Resume(pid, outranks) => EntryOn(s, s, pid, s.calls[pid], outranks);
  }

  /** In every run, each entry of a read or of a write, by anybody, ends as it should. */
  lemma EntriesAnswer(qsize: nat, es: seq<Event>, e: Event)
    requires qsize >= 2 && Exec(qsize, es).Some? && Enabled(Exec(qsize, es).value, e)
    requires Entering(Exec(qsize, es).value, e).Some?
    ensures var s := Exec(qsize, es).value;
            && Fit(s, e)
            && var (s', reply) := Apply(s, e);
               Answered(s, s', Entering(s, e).value.0, Entering(s, e).value.1, Outranked(e), reply)
  {
    hide Inv, Exec, Apply, Answered, Enabled;
    InvFit(Exec(qsize, es).value, e);
    EventAnswers(Exec(qsize, es).value, e);
  }
}
