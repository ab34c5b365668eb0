/**
  Every run of the pipe device (kernel/src/devpipe.rs). A run is a sequence of
  kernel entries, each atomic: an attach, an open or a close of an end, a read
  or a write begun, a call entered again, a note posted, and anything at all
  done elsewhere to a process that is in no pipe call.
 */
module PipeSystem {
  import opened Bytes
  import opened ProcTable
  import opened Qio
  import opened QueueWakeup

  /** An end reads the queue of its own number and writes its peer's. */
  function Peer(k: Qk): Qk {
    Qk(k.devno, if k.which == 0 then 1 else 0)
  }

  /** A call in progress, on the queue it reads or fills; `id` tells one write from another. */
  datatype Call =
    | Reading(k: Qk, n: nat)
    | Writing(k: Qk, data: bytes, mounted: bool, id: nat)

  datatype Sys = Sys(
    t: Table, at: map<Pid, At>, calls: map<Pid, Call>,
    qs: map<Qk, QueueState>, qref: map<Qk, nat>, npipes: nat, nextid: nat, qsize: nat)

  datatype Event =
    | Attach
    | Open(end: Qk)
    | Close(end: Qk)
    | StartRead(pid: Pid, end: Qk, n: nat)
    | StartWrite(pid: Pid, end: Qk, data: bytes, mounted: bool, outranks: bool)
    | Resume(pid: Pid, outranks: bool)
    | Note(pid: Pid)
    | Elsewhere(pid: Pid, rec: Proc)

  datatype Reply = NoReply | Pending | GotRead(read: Result<bytes>) | GotWrite(written: Result<nat>)

  function Init(qsize: nat): Sys {
    Sys(Table(map[], map[], 0), map[], map[], map[], map[], 0, 0, qsize)
  }

  function Readers(calls: map<Pid, Call>, k: Qk): set<Pid> {
    set p | p in calls && calls[p].Reading? && calls[p].k == k
  }

  function Writers(calls: map<Pid, Call>, k: Qk): set<Pid> {
    set p | p in calls && calls[p].Writing? && calls[p].k == k
  }

  /** A process that may make a call: running, and in none. */
  predicate Idle(s: Sys, pid: Pid) {
    pid in s.t.tab && pid !in s.calls && s.t.tab[pid].state == Runnable
  }

  /** The end is of a pipe that has been attached; an end closed has been opened. */
  predicate Enabled(s: Sys, e: Event) {
    match e
    case Attach => true
    case Open(end) => end in s.qref
    case Close(end) => end in s.qref && s.qref[end] > 0
    case StartRead(pid, end, n) => Idle(s, pid) && end in s.qref
    case StartWrite(pid, end, data, mounted, outranks) => Idle(s, pid) && end in s.qref
    case Resume(pid, outranks) => pid in s.calls && pid in s.t.tab && s.t.tab[pid].state == Runnable
    case Note(pid) => pid in s.t.tab
    case Elsewhere(pid, rec) => pid !in s.calls && !rec.setlabel && OffQueues(rec)
  }

  ghost predicate QueueInv(k: Qk, q: QueueState, t: Table, calls: map<Pid, Call>) {
    exists hr, hw :: Core(k, q, t, Readers(calls, k), Writers(calls, k), hr, hw)
  }

  ghost predicate QueuesInv(qs: map<Qk, QueueState>, t: Table, calls: map<Pid, Call>) {
    forall k :: k in qs ==> QueueInv(k, qs[k], t, calls)
  }

  ghost predicate CallInv(p: Pid, a: At, call: Call, q: QueueState, t: Table) {
    if call.Reading? then ReaderAt(a, p, q, t) else WriterAt(a, p, q, t, |call.data|)
  }

  ghost predicate CallsInv(at: map<Pid, At>, calls: map<Pid, Call>, qs: map<Qk, QueueState>, t: Table) {
    && at.Keys == calls.Keys <= t.tab.Keys
    && (forall p :: p in calls ==> calls[p].k in qs)
    && (forall p :: p in calls ==> CallInv(p, at[p], calls[p], qs[calls[p].k], t))
  }

  predicate ProcInv(rec: Proc, calling: bool) {
    !rec.setlabel && ((calling && rec.state == Wakeme) || OffQueues(rec))
  }

  ghost predicate ProcsInv(t: Table, calls: map<Pid, Call>) {
    t.doublesleep == 0 && forall p :: p in t.tab ==> ProcInv(t.tab[p], p in calls)
  }

  ghost predicate Shape(qs: map<Qk, QueueState>, qref: map<Qk, nat>, npipes: nat) {
    && qref.Keys == qs.Keys
    && forall k :: k in qs <==> k.devno < npipes && k.which < 2
  }

  /** Nobody sleeps at a queue that is not there. */
  ghost predicate RendezInv(qs: map<Qk, QueueState>, t: Table) {
    forall r :: r in t.rr && !r.Sema? ==> Qk(r.devno, r.which) in qs
  }

  ghost predicate Inv(s: Sys) {
    && s.qsize >= 2
    && Shape(s.qs, s.qref, s.npipes)
    && RendezInv(s.qs, s.t)
    && ProcsInv(s.t, s.calls)
    && CallsInv(s.at, s.calls, s.qs, s.t)
    && QueuesInv(s.qs, s.t, s.calls)
  }

  /** A call that may be entered: its queue is there and counts its blocks. */
  ghost predicate Enterable(s: Sys, pid: Pid, call: Call) {
    && call.k in s.qs && s.qs[call.k].Valid()
    && (call.Writing? && pid in s.at ==> s.at[pid].Read? || s.at[pid].sofar <= |call.data|)
  }

  /** The device's part of one entry of `pid` into its call. */
  ghost function Device(s: Sys, pid: Pid, call: Call, outranks: bool): (Ctx, Reply)
    requires Enterable(s, pid, call)
  {
    var k := call.k;
    var c := Ctx(s.qs[k], s.at, s.t);
    if call.Reading? then
      var (c', res) := QreadSpec(c, ReadCall(pid, k.devno, k.which, call.n));
      (c', GotRead(res))
    else
      var (c', res) := QwriteSpec(c, WriteCall(pid, k.devno, k.which, call.data, !call.mounted, outranks));
      (c', GotWrite(res))
  }

  function Gone(calls: map<Pid, Call>, pid: Pid): map<Pid, Call> {
    map p | p in calls && p != pid :: calls[p]
  }

  /** The kernel's: a call that left is kept to be entered again, and one that did not is over. */
  function Settle(s: Sys, pid: Pid, call: Call, c: Ctx): Sys {
    s.(qs := s.qs[call.k := c.q], at := c.at, t := c.t.TakeLabel(pid),
       calls := if c.t.Left(pid) then s.calls[pid := call] else Gone(s.calls, pid))
  }

  ghost function Enter(s: Sys, pid: Pid, call: Call, outranks: bool): (Sys, Reply)
    requires Enterable(s, pid, call)
  {
    var (c, reply) := Device(s, pid, call, outranks);
    (Settle(s, pid, call, c), if c.t.Left(pid) then Pending else reply)
  }

  function AttachStep(s: Sys): Sys {
    var k := Qk(s.npipes, 0);
    s.(qs := s.qs[k := NewQueue(s.qsize)][Peer(k) := NewQueue(s.qsize)],
       qref := s.qref[k := 0][Peer(k) := 0],
       npipes := s.npipes + 1)
  }

  function WakeBoth(t: Table, k: Qk): Table {
    t.Wakeup(k.R()).0.Wakeup(k.W()).0
  }

  /** The queues of a pipe once an end has `n` opens left and its peer `m`: its own, and its peer's. */
  function ClosedPair(own: QueueState, other: QueueState, n: nat, m: nat): (QueueState, QueueState) {
    if n == 0 && m == 0 then
      (own.Close().Reopen(), other.Hangup().Reopen())
    else if n == 0 then
      (own.Close(), other.Hangup())
    else
      (own, other)
  }

  /** `pipeclose`: the last close of an end hangs up its peer's queue and closes its own. */
  function CloseStep(s: Sys, end: Qk): Sys
    requires end in s.qs && Peer(end) in s.qs && end in s.qref && Peer(end) in s.qref
  {
    var other := Peer(end);
    var n := if s.qref[end] == 0 then 0 else s.qref[end] - 1;
    var (own', other') := ClosedPair(s.qs[end], s.qs[other], n, s.qref[other]);
    s.(qref := s.qref[end := n],
       qs := s.qs[other := other'][end := own'],
       t := if n == 0 then WakeBoth(WakeBoth(s.t, other), end) else s.t)
  }

  lemma InvQueue(s: Sys, k: Qk)
    requires Shape(s.qs, s.qref, s.npipes) && QueuesInv(s.qs, s.t, s.calls) && k in s.qs
    ensures QueueOk(s.qs[k]) && Peer(k) in s.qs && k in s.qref && Peer(k) in s.qref
  {
    assert QueueInv(k, s.qs[k], s.t, s.calls);
  }

  lemma InvCall(s: Sys, p: Pid)
    requires CallsInv(s.at, s.calls, s.qs, s.t) && p in s.calls
    ensures s.calls[p].Writing? ==> !s.at[p].Read? && s.at[p].sofar <= |s.calls[p].data|
  {
    assert CallInv(p, s.at[p], s.calls[p], s.qs[s.calls[p].k], s.t);
  }

  /** What `Apply` needs of a state to be defined; `InvFit` shows the invariant gives it. */
  ghost predicate Fit(s: Sys, e: Event) {
    match e
    case Attach => true
    case Open(end) => end in s.qref
    case Close(end) => end in s.qs && Peer(end) in s.qs && end in s.qref && Peer(end) in s.qref
    case StartRead(pid, end, n) => Enterable(s, pid, Reading(end, n))
    case StartWrite(pid, end, data, mounted, outranks) => Enterable(s, pid, Writing(Peer(end), data, mounted, s.nextid))
    case Resume(pid, outranks) => pid in s.calls && Enterable(s, pid, s.calls[pid])
    case Note(pid) => true
    case Elsewhere(pid, rec) => true
  }

  ghost function Apply(s: Sys, e: Event): (Sys, Reply)
    requires Fit(s, e)
  {
    match e
    case Attach => (AttachStep(s), NoReply)
    case Open(end) => (s.(qref := s.qref[end := s.qref[end] + 1]), NoReply)
    case Close(end) => (CloseStep(s, end), NoReply)
    case StartRead(pid, end, n) => Enter(s, pid, Reading(end, n), false)
    case StartWrite(pid, end, data, mounted, outranks) =>
      Enter(s.(nextid := s.nextid + 1), pid, Writing(Peer(end), data, mounted, s.nextid), outranks)
    case Resume(pid, outranks) => Enter(s, pid, s.calls[pid], outranks)
    case Note(pid) => (s.(t := s.t.Postnote(pid)), NoReply)
    case Elsewhere(pid, rec) => (s.(t := s.t.Set(pid, rec)), NoReply)
  }

  lemma InvFit(s: Sys, e: Event)
    requires Inv(s) && Enabled(s, e)
    ensures Fit(s, e)
  {
    match e
    case Close(end) => InvQueue(s, end);
    case StartRead(pid, end, n) => InvQueue(s, end);
    case StartWrite(pid, end, data, mounted, outranks) => InvQueue(s, end); InvQueue(s, Peer(end));
    case Resume(pid, outranks) => InvQueue(s, s.calls[pid].k); InvCall(s, pid);
    case _ =>
  }

  // ---- every step keeps the invariant ----

  /** A queue that a step on other processes and other rendez leaves alone. */
  lemma QueueFrame(k: Qk, q: QueueState, t: Table, calls: map<Pid, Call>, t': Table, calls': map<Pid, Call>, ps: set<Pid>, rs: set<Rid>)
    requires QueueInv(k, q, t, calls)
    requires Only(t, t', ps, rs) && k.R() !in rs && k.W() !in rs
    requires Readers(calls', k) == Readers(calls, k) && Readers(calls, k) !! ps
    requires Writers(calls', k) == Writers(calls, k) && Writers(calls, k) !! ps
    ensures QueueInv(k, q, t', calls')
  {
    var hr, hw :| Core(k, q, t, Readers(calls, k), Writers(calls, k), hr, hw);
    SideFrame(hr, q.rlock, Readers(calls, k), k.R(), t, t', ps, rs);
    SideFrame(hw, q.wlock, Writers(calls, k), k.W(), t, t', ps, rs);
    assert Core(k, q, t', Readers(calls', k), Writers(calls', k), hr, hw);
  }

  /** Once the label is taken: what the entry of `p` did to the table. */
  lemma LabelFrame(k: Qk, p: Pid, c: Ctx, c': Ctx, rm: set<Pid>, wm: set<Pid>)
    requires Framed(k, p, c, c', rm, wm)
    ensures var t := c'.t.TakeLabel(p);
            && (p in c'.at <==> c'.t.Left(p))
            && Only(c.t, t, rm + wm + {p}, {k.R(), k.W()})
            && Others(p, c, c'.(t := t))
            && p in t.tab && !t.tab[p].setlabel
            && t.tab[p].state == c'.t.tab[p].state && t.tab[p].r == c'.t.tab[p].r
  {}

  lemma LabelCore(k: Qk, p: Pid, q: QueueState, t: Table, rm: set<Pid>, wm: set<Pid>, hr: Option<Pid>, hw: Option<Pid>)
    requires Core(k, q, t, rm, wm, hr, hw)
    ensures Core(k, q, t.TakeLabel(p), rm, wm, hr, hw)
  {
    if p in t.tab {
      var rec := t.tab[p].(setlabel := false);
      SideTouch(p, rec, hr, q.rlock, rm, k.R(), t);
      SideTouch(p, rec, hw, q.wlock, wm, k.W(), t);
    }
  }

  lemma GoneSets(calls: map<Pid, Call>, pid: Pid, call: Call, k: Qk)
    requires pid in calls ==> calls[pid] == call
    ensures Readers(Gone(calls, pid), k) == Readers(calls[pid := call], k) - {pid}
    ensures Writers(Gone(calls, pid), k) == Writers(calls[pid := call], k) - {pid}
    ensures k != call.k ==> Readers(Gone(calls, pid), k) == Readers(calls[pid := call], k) == Readers(calls, k)
    ensures k != call.k ==> Writers(Gone(calls, pid), k) == Writers(calls[pid := call], k) == Writers(calls, k)
    ensures k != call.k ==> Readers(calls, k) !! Readers(calls[pid := call], call.k) + Writers(calls[pid := call], call.k) + {pid}
    ensures k != call.k ==> Writers(calls, k) !! Readers(calls[pid := call], call.k) + Writers(calls[pid := call], call.k) + {pid}
  {}

  /** What the device's part of an entry comes to, from `s`. */
  ghost predicate DeviceDone(s: Sys, pid: Pid, call: Call, c': Ctx, hr: Option<Pid>, hw: Option<Pid>) {
    && call.k in s.qs
    && var (k, calls) := (call.k, s.calls[pid := call]);
       && Entered(k, pid, Ctx(s.qs[k], Without(s.at, pid), s.t), c', Readers(calls, k), Writers(calls, k), hr, hw)
       && (pid in c'.at ==> CallInv(pid, c'.at[pid], call, c'.q, c'.t))
  }

  /** `pid` runs, and is either in `call` already or beginning it. */
  ghost predicate Calling(s: Sys, pid: Pid, call: Call) {
    && pid in s.t.tab && s.t.tab[pid].state == Runnable && ProcInv(s.t.tab[pid], pid in s.calls)
    && (pid in s.at <==> pid in s.calls)
    && Enterable(s, pid, call)
    && (pid in s.calls ==> s.calls[pid] == call && CallInv(pid, s.at[pid], call, s.qs[call.k], s.t))
  }

  lemma DeviceReads(s: Sys, pid: Pid, call: Call, outranks: bool, hr0: Option<Pid>, hw: Option<Pid>) returns (hr: Option<Pid>)
    requires Calling(s, pid, call) && call.Reading?
    requires Core(call.k, s.qs[call.k], s.t, Readers(s.calls, call.k), Writers(s.calls, call.k), hr0, hw)
    ensures DeviceDone(s, pid, call, Device(s, pid, call, outranks).0, hr, hw)
  {
    var k := call.k;
    var rm, wm := Readers(s.calls[pid := call], k), Writers(s.calls[pid := call], k);
    assert pid in s.calls ==> s.calls[pid := call] == s.calls;
    assert Readers(s.calls, k) == if pid in s.at then rm else rm - {pid};
    assert Writers(s.calls, k) == wm;
    hr := QreadKeeps(k, Ctx(s.qs[k], s.at, s.t), ReadCall(pid, k.devno, k.which, call.n), rm, wm, hr0, hw);
  }

  lemma DeviceWrites(s: Sys, pid: Pid, call: Call, outranks: bool, hr0: Option<Pid>, hw0: Option<Pid>)
    returns (hr: Option<Pid>, hw: Option<Pid>)
    requires Calling(s, pid, call) && call.Writing?
    requires Core(call.k, s.qs[call.k], s.t, Readers(s.calls, call.k), Writers(s.calls, call.k), hr0, hw0)
    ensures DeviceDone(s, pid, call, Device(s, pid, call, outranks).0, hr, hw)
  {
    var k := call.k;
    var rm, wm := Readers(s.calls[pid := call], k), Writers(s.calls[pid := call], k);
    assert pid in s.calls ==> s.calls[pid := call] == s.calls;
    assert Readers(s.calls, k) == rm;
    assert Writers(s.calls, k) == if pid in s.at then wm else wm - {pid};
    var w := WriteCall(pid, k.devno, k.which, call.data, !call.mounted, outranks);
    hr, hw := QwriteKeeps(k, Ctx(s.qs[k], s.at, s.t), w, rm, wm, hr0, hw0);
  }

  lemma DeviceKeeps(s: Sys, pid: Pid, call: Call, outranks: bool) returns (hr: Option<Pid>, hw: Option<Pid>)
    requires Calling(s, pid, call) && QueueInv(call.k, s.qs[call.k], s.t, s.calls)
    ensures DeviceDone(s, pid, call, Device(s, pid, call, outranks).0, hr, hw)
  {
    var k := call.k;
    var hr0, hw0 :| Core(k, s.qs[k], s.t, Readers(s.calls, k), Writers(s.calls, k), hr0, hw0);
    if call.Reading? {
      hr := DeviceReads(s, pid, call, outranks, hr0, hw0);
      hw := hw0;
    } else {
      hr, hw := DeviceWrites(s, pid, call, outranks, hr0, hw0);
    }
  }

  /** The queue entered. */
  lemma SettleQueue(s: Sys, pid: Pid, call: Call, c': Ctx, hr: Option<Pid>, hw: Option<Pid>)
    requires DeviceDone(s, pid, call, c', hr, hw)
    requires pid in s.calls ==> s.calls[pid] == call
    ensures var s' := Settle(s, pid, call, c'); QueueInv(call.k, c'.q, s'.t, s'.calls)
  {
    var k := call.k;
    var s' := Settle(s, pid, call, c');
    var rm, wm := Readers(s.calls[pid := call], k), Writers(s.calls[pid := call], k);
    GoneSets(s.calls, pid, call, k);
    if pid in c'.at {
      LabelCore(k, pid, c'.q, c'.t, rm, wm, hr, hw);
    } else {
      LabelCore(k, pid, c'.q, c'.t, rm - {pid}, wm - {pid}, hr, hw);
    }
    assert Core(k, s'.qs[k], s'.t, Readers(s'.calls, k), Writers(s'.calls, k), hr, hw);
  }

  /** What an entry of `pid` did, as far as anybody else can tell. */
  ghost predicate Seen(s: Sys, pid: Pid, call: Call, c': Ctx) {
    && call.k in s.qs
    && Framed(call.k, pid, Ctx(s.qs[call.k], Without(s.at, pid), s.t), c',
              Readers(s.calls[pid := call], call.k), Writers(s.calls[pid := call], call.k))
    && (pid in s.calls ==> s.calls[pid] == call)
  }

  lemma SettleQueues(s: Sys, pid: Pid, call: Call, c': Ctx)
    requires Seen(s, pid, call, c') && QueuesInv(s.qs, s.t, s.calls)
    requires var s' := Settle(s, pid, call, c'); QueueInv(call.k, c'.q, s'.t, s'.calls)
    ensures var s' := Settle(s, pid, call, c'); QueuesInv(s'.qs, s'.t, s'.calls)
  {
    hide QueueInv, Others;
    var s' := Settle(s, pid, call, c');
    var rm, wm := Readers(s.calls[pid := call], call.k), Writers(s.calls[pid := call], call.k);
    LabelFrame(call.k, pid, Ctx(s.qs[call.k], Without(s.at, pid), s.t), c', rm, wm);
    forall k | k in s'.qs && k != call.k ensures QueueInv(k, s'.qs[k], s'.t, s'.calls) {
      GoneSets(s.calls, pid, call, k);
      QueueFrame(k, s.qs[k], s.t, s.calls, s'.t, s'.calls, rm + wm + {pid}, {call.k.R(), call.k.W()});
    }
  }

  /** A process that was at most readied is recorded as rightly as it was. */
  lemma CallFrame(p: Pid, a: At, call: Call, q: QueueState, t: Table, q': QueueState, t': Table)
    requires CallInv(p, a, call, q, t) && p in t.tab && p in t'.tab && Readied(t.tab[p], t'.tab[p])
    requires (p in q'.rlock.q ==> p in q.rlock.q) && (p in q'.wlock.q ==> p in q.wlock.q)
    ensures CallInv(p, a, call, q', t')
  {}

  /** Somebody else in a call, after an entry of `pid`. */
  lemma SettleOther(s: Sys, pid: Pid, call: Call, c': Ctx, p: Pid)
    requires Seen(s, pid, call, c') && CallsInv(s.at, s.calls, s.qs, s.t) && pid in s.t.tab && p in s.calls && p != pid
    ensures var s' := Settle(s, pid, call, c');
            && p in s'.calls && s'.calls[p] == s.calls[p] && p in s'.at && p in s'.t.tab && s'.calls[p].k in s'.qs
            && CallInv(p, s'.at[p], s'.calls[p], s'.qs[s'.calls[p].k], s'.t)
  {
    hide CallInv, Readied, OffQueues, Only;
    var s' := Settle(s, pid, call, c');
    LabelFrame(call.k, pid, Ctx(s.qs[call.k], Without(s.at, pid), s.t), c',
               Readers(s.calls[pid := call], call.k), Writers(s.calls[pid := call], call.k));
    CallFrame(p, s.at[p], s.calls[p], s.qs[s.calls[p].k], s.t, s'.qs[s.calls[p].k], s'.t);
  }

  /** Who is recorded, and where: the calls that go on, each on a queue there is. */
  lemma SettleKeys(s: Sys, pid: Pid, call: Call, c': Ctx)
    requires Seen(s, pid, call, c') && CallsInv(s.at, s.calls, s.qs, s.t) && pid in s.t.tab
    ensures var s' := Settle(s, pid, call, c');
            && s'.at.Keys == s'.calls.Keys <= s'.t.tab.Keys
            && (forall p :: p in s'.calls ==> s'.calls[p].k in s'.qs && (p == pid || p in s.calls))
            && (pid in s'.calls ==> pid in c'.at && s'.calls[pid] == call && s'.at[pid] == c'.at[pid])
  {
    hide CallInv, Readied, OffQueues, Only, Others;
    LabelFrame(call.k, pid, Ctx(s.qs[call.k], Without(s.at, pid), s.t), c',
               Readers(s.calls[pid := call], call.k), Writers(s.calls[pid := call], call.k));
  }

  lemma SettleCalls(s: Sys, pid: Pid, call: Call, c': Ctx)
    requires Seen(s, pid, call, c') && CallsInv(s.at, s.calls, s.qs, s.t) && pid in s.t.tab
    requires pid in c'.at ==> CallInv(pid, c'.at[pid], call, c'.q, c'.t)
    ensures var s' := Settle(s, pid, call, c'); CallsInv(s'.at, s'.calls, s'.qs, s'.t)
  {
    var s' := Settle(s, pid, call, c');
    SettleKeys(s, pid, call, c');
    hide CallInv, Seen;
    forall p | p in s'.calls && p != pid ensures CallInv(p, s'.at[p], s'.calls[p], s'.qs[s'.calls[p].k], s'.t) {
      SettleOther(s, pid, call, c', p);
    }
    if pid in c'.at {
      LabelCall(pid, c'.at[pid], call, c'.q, c'.t);
    }
  }

  lemma LabelCall(p: Pid, a: At, call: Call, q: QueueState, t: Table)
    requires CallInv(p, a, call, q, t)
    ensures CallInv(p, a, call, q, t.TakeLabel(p))
  {}

  lemma SettleProcs(s: Sys, pid: Pid, call: Call, c': Ctx)
    requires Seen(s, pid, call, c') && ProcsInv(s.t, s.calls) && RendezInv(s.qs, s.t)
    ensures var s' := Settle(s, pid, call, c'); ProcsInv(s'.t, s'.calls) && RendezInv(s'.qs, s'.t)
  {
    LabelFrame(call.k, pid, Ctx(s.qs[call.k], Without(s.at, pid), s.t), c',
               Readers(s.calls[pid := call], call.k), Writers(s.calls[pid := call], call.k));
  }

  lemma DeviceSeen(s: Sys, pid: Pid, call: Call, c': Ctx, hr: Option<Pid>, hw: Option<Pid>)
    requires DeviceDone(s, pid, call, c', hr, hw) && Calling(s, pid, call)
    ensures Seen(s, pid, call, c')
    ensures pid in c'.at ==> CallInv(pid, c'.at[pid], call, c'.q, c'.t)
  {
    hide Core, Only, Others;
  }

  lemma EnterKeeps(s: Sys, pid: Pid, call: Call, outranks: bool)
    requires Inv(s) && Calling(s, pid, call)
    ensures Inv(Enter(s, pid, call, outranks).0)
  {
    hide QueueInv, CallInv, DeviceDone, Seen, Device, ProcInv, RendezInv;
    var c' := Device(s, pid, call, outranks).0;
    var hr, hw := DeviceKeeps(s, pid, call, outranks);
    DeviceSeen(s, pid, call, c', hr, hw);
    SettleQueue(s, pid, call, c', hr, hw);
    SettleQueues(s, pid, call, c');
    SettleCalls(s, pid, call, c');
    SettleProcs(s, pid, call, c');
  }

  lemma NewQueueKeeps(k: Qk, limit: nat, t: Table, calls: map<Pid, Call>)
    requires limit >= 2 && k.R() !in t.rr && k.W() !in t.rr
    requires forall p :: p in calls ==> calls[p].k != k
    ensures QueueInv(k, NewQueue(limit), t, calls)
  {
    assert Readers(calls, k) == {} && Writers(calls, k) == {};
    assert Core(k, NewQueue(limit), t, {}, {}, None, None);
  }

  lemma AttachKeeps(s: Sys)
    requires Inv(s)
    ensures Inv(AttachStep(s))
  {
    hide QueueInv, CallInv, ProcInv;
    var k := Qk(s.npipes, 0);
    NewQueueKeeps(k, s.qsize, s.t, s.calls);
    NewQueueKeeps(Peer(k), s.qsize, s.t, s.calls);
  }

  lemma OpenKeeps(s: Sys, end: Qk)
    requires Inv(s) && end in s.qref
    ensures Inv(s.(qref := s.qref[end := s.qref[end] + 1]))
  {
    hide QueueInv, CallInv, ProcInv, RendezInv;
  }

  /** A change to processes in no call, and to no queue's rendez. */
  lemma IdleKeeps(s: Sys, t: Table, pid: Pid, rs: set<Rid>)
    requires Inv(s) && pid in s.t.tab && pid !in s.calls && (forall r :: r in rs ==> r.Sema?)
    requires Only(s.t, t, {pid}, rs) && ProcInv(t.tab[pid], false)
    ensures Inv(s.(t := t))
  {
    hide QueueInv;
    forall k | k in s.qs ensures QueueInv(k, s.qs[k], t, s.calls) {
      QueueFrame(k, s.qs[k], s.t, s.calls, t, s.calls, {pid}, rs);
    }
  }

  lemma NewProcQueue(k: Qk, q: QueueState, t: Table, calls: map<Pid, Call>, pid: Pid, rec: Proc)
    requires QueueInv(k, q, t, calls) && pid !in t.tab && pid !in calls
    ensures QueueInv(k, q, t.Set(pid, rec), calls)
  {
    var hr, hw :| Core(k, q, t, Readers(calls, k), Writers(calls, k), hr, hw);
    assert Core(k, q, t.Set(pid, rec), Readers(calls, k), Writers(calls, k), hr, hw);
  }

  /** A process that was not there before. */
  lemma NewProcKeeps(s: Sys, pid: Pid, rec: Proc)
    requires Inv(s) && pid !in s.t.tab && ProcInv(rec, false)
    ensures Inv(s.(t := s.t.Set(pid, rec)))
  {
    hide QueueInv;
    forall k | k in s.qs ensures QueueInv(k, s.qs[k], s.t.Set(pid, rec), s.calls) {
      NewProcQueue(k, s.qs[k], s.t, s.calls, pid, rec);
    }
  }

  /** A note on the queue `pid` is in a call on. */
  lemma NoteQueue(k: Qk, q: QueueState, t: Table, calls: map<Pid, Call>, pid: Pid)
    requires pid in calls && calls[pid].k == k && QueueInv(k, q, t, calls)
    ensures QueueInv(k, q, t.Postnote(pid), calls)
    ensures Only(t, t.Postnote(pid), {pid}, {k.R(), k.W()})
    ensures pid in t.tab && Readied(t.tab[pid], t.Postnote(pid).tab[pid])
  {
    var rm, wm := Readers(calls, k), Writers(calls, k);
    var hr, hw :| Core(k, q, t, rm, wm, hr, hw);
    if calls[pid].Reading? {
      SideNote(pid, hr, q.rlock, rm, k.R(), t);
      SideFrame(hw, q.wlock, wm, k.W(), t, t.Postnote(pid), {pid}, {k.R()});
    } else {
      SideNote(pid, hw, q.wlock, wm, k.W(), t);
      SideFrame(hr, q.rlock, rm, k.R(), t, t.Postnote(pid), {pid}, {k.W()});
    }
    assert Core(k, q, t.Postnote(pid), rm, wm, hr, hw);
  }

  lemma NoteKeeps(s: Sys, pid: Pid)
    requires Inv(s) && pid in s.t.tab
    ensures Inv(s.(t := s.t.Postnote(pid)))
  {
    hide QueueInv, CallInv;
    var t := s.t.Postnote(pid);
    assert ProcInv(s.t.tab[pid], pid in s.calls);
    if pid in s.calls {
      var k := s.calls[pid].k;
      NoteQueue(k, s.qs[k], s.t, s.calls, pid);
      NoteQueues(s, pid, k);
      NoteCalls(s, pid, k);
    } else {
      IdleKeeps(s, t, pid, if s.t.tab[pid].r.Some? then {s.t.tab[pid].r.value} else {});
    }
  }

  lemma NoteQueues(s: Sys, pid: Pid, k: Qk)
    requires QueuesInv(s.qs, s.t, s.calls) && pid in s.calls && s.calls[pid].k == k && k in s.qs
    requires QueueInv(k, s.qs[k], s.t.Postnote(pid), s.calls)
    requires Only(s.t, s.t.Postnote(pid), {pid}, {k.R(), k.W()})
    ensures QueuesInv(s.qs, s.t.Postnote(pid), s.calls)
  {
    hide QueueInv, Only, ProcTable.Table.Postnote;
    forall x | x in s.qs && x != k ensures QueueInv(x, s.qs[x], s.t.Postnote(pid), s.calls) {
      QueueFrame(x, s.qs[x], s.t, s.calls, s.t.Postnote(pid), s.calls, {pid}, {k.R(), k.W()});
    }
  }

  lemma NoteCalls(s: Sys, pid: Pid, k: Qk)
    requires CallsInv(s.at, s.calls, s.qs, s.t) && pid in s.calls
    requires Only(s.t, s.t.Postnote(pid), {pid}, {k.R(), k.W()})
    requires pid in s.t.tab && Readied(s.t.tab[pid], s.t.Postnote(pid).tab[pid])
    ensures CallsInv(s.at, s.calls, s.qs, s.t.Postnote(pid))
  {
    forall p | p in s.calls ensures CallInv(p, s.at[p], s.calls[p], s.qs[s.calls[p].k], s.t.Postnote(pid)) {
      assert CallInv(p, s.at[p], s.calls[p], s.qs[s.calls[p].k], s.t);
    }
  }

  /** Some were readied, and nobody new is asleep. */
  ghost predicate WokenOnly(t: Table, t': Table) {
    && t'.tab.Keys == t.tab.Keys && t'.doublesleep == t.doublesleep
    && (forall r :: r in t'.rr ==> r in t.rr)
    && (forall p :: p in t.tab ==> Readied(t.tab[p], t'.tab[p]))
  }

  /** Closed, hung up or reopened, and its sleepers woken. */
  lemma WakeBothKeeps(k: Qk, q: QueueState, q': QueueState, t: Table, calls: map<Pid, Call>)
    requires QueueInv(k, q, t, calls) && QueueOk(q') && q'.rlock == q.rlock && q'.wlock == q.wlock
    ensures QueueInv(k, q', WakeBoth(t, k), calls)
    ensures Only(t, WakeBoth(t, k), Readers(calls, k) + Writers(calls, k), {k.R(), k.W()})
    ensures WokenOnly(t, WakeBoth(t, k))
  {
    hide Side, Only, WokenOnly, WakeBoth;
    var rm, wm := Readers(calls, k), Writers(calls, k);
    var hr, hw :| Core(k, q, t, rm, wm, hr, hw);
    SidesWake(k, q, t, rm, wm, hr, hw);
    assert Core(k, q', WakeBoth(t, k), rm, wm, hr, hw);
  }

  lemma SidesWake(k: Qk, q: QueueState, t: Table, rm: set<Pid>, wm: set<Pid>, hr: Option<Pid>, hw: Option<Pid>)
    requires Side(hr, q.rlock, rm, k.R(), t) && Side(hw, q.wlock, wm, k.W(), t) && rm !! wm
    ensures var t' := WakeBoth(t, k);
            && Side(hr, q.rlock, rm, k.R(), t') && Side(hw, q.wlock, wm, k.W(), t')
            && k.R() !in t'.rr && k.W() !in t'.rr
            && Only(t, t', rm + wm, {k.R(), k.W()}) && WokenOnly(t, t')
  {
    var t1 := t.Wakeup(k.R()).0;
    SideWake(hr, q.rlock, rm, k.R(), t);
    SideFrame(hw, q.wlock, wm, k.W(), t, t1, rm, {k.R()});
    SideWake(hw, q.wlock, wm, k.W(), t1);
    SideFrame(hr, q.rlock, rm, k.R(), t1, WakeBoth(t, k), wm, {k.W()});
  }

  lemma WokenTwice(t: Table, t1: Table, t2: Table)
    requires WokenOnly(t, t1) && WokenOnly(t1, t2)
    ensures WokenOnly(t, t2)
  {}

  lemma Apart(calls: map<Pid, Call>, a: Qk, b: Qk)
    requires a != b
    ensures Readers(calls, a) !! Readers(calls, b) + Writers(calls, b)
    ensures Writers(calls, a) !! Readers(calls, b) + Writers(calls, b)
    ensures Readers(calls, b) !! Readers(calls, a) + Writers(calls, a)
    ensures Writers(calls, b) !! Readers(calls, a) + Writers(calls, a)
  {}

  /** A pipe after a close of `end` that was, or was not, its last. */
  lemma ClosedOk(s: Sys, end: Qk)
    requires Fit(s, Close(end)) && QueueOk(s.qs[end]) && QueueOk(s.qs[Peer(end)]) && end.which < 2
    ensures var s' := CloseStep(s, end);
            && s' == s.(qs := s'.qs, qref := s'.qref, t := s'.t)
            && s'.qs.Keys == s.qs.Keys && s'.qref.Keys == s.qref.Keys
            && s'.t == (if s.qref[end] <= 1 then WakeBoth(WakeBoth(s.t, Peer(end)), end) else s.t)
            && (forall k :: k in s.qs && k != end && k != Peer(end) ==> s'.qs[k] == s.qs[k])
            && (forall k :: k in s.qs ==> s'.qs[k].rlock == s.qs[k].rlock && s'.qs[k].wlock == s.qs[k].wlock)
            && QueueOk(s'.qs[end]) && QueueOk(s'.qs[Peer(end)])
            && (s.qref[end] > 1 ==> s'.qs == s.qs)
  {
    hide WakeBoth, ClosedPair, QueueOk;
    var n := if s.qref[end] == 0 then 0 else s.qref[end] - 1;
    ClosedPairOk(s.qs[end], s.qs[Peer(end)], n, s.qref[Peer(end)]);
    assert n > 0 ==> CloseStep(s, end).qs == s.qs;
  }

  lemma ClosedPairOk(own: QueueState, other: QueueState, n: nat, m: nat)
    requires QueueOk(own) && QueueOk(other)
    ensures var (own', other') := ClosedPair(own, other, n, m);
            && QueueOk(own') && own'.rlock == own.rlock && own'.wlock == own.wlock
            && QueueOk(other') && other'.rlock == other.rlock && other'.wlock == other.wlock
            && (n > 0 ==> (own', other') == (own, other))
  {}

  /** The last close of `end`, on the pipe's two queues and on every other. */
  lemma HangupQueues(s: Sys, end: Qk)
    requires Fit(s, Close(end)) && s.qref[end] <= 1 && QueuesInv(s.qs, s.t, s.calls)
    requires QueueOk(s.qs[end]) && QueueOk(s.qs[Peer(end)]) && end.which < 2
    ensures var s' := CloseStep(s, end);
            QueuesInv(s'.qs, s'.t, s'.calls) && WokenOnly(s.t, s'.t)
  {
    hide QueueInv, QueueOk, WakeBoth, Only, WokenOnly, CloseStep, Readers, Writers;
    var other := Peer(end);
    var (s', calls) := (CloseStep(s, end), s.calls);
    var t1 := WakeBoth(s.t, other);
    var t2 := WakeBoth(t1, end);
    ClosedOk(s, end);
    Apart(calls, end, other);
    WakeBothKeeps(other, s.qs[other], s'.qs[other], s.t, calls);
    var ps, rs := Readers(calls, other) + Writers(calls, other), {other.R(), other.W()};
    QueueFrame(end, s.qs[end], s.t, calls, t1, calls, ps, rs);
    WakeBothKeeps(end, s.qs[end], s'.qs[end], t1, calls);
    var ps2, rs2 := Readers(calls, end) + Writers(calls, end), {end.R(), end.W()};
    QueueFrame(other, s'.qs[other], t1, calls, t2, calls, ps2, rs2);
    WokenTwice(s.t, t1, t2);
    forall k | k in s.qs && k != end && k != other ensures QueueInv(k, s'.qs[k], t2, calls) {
      Apart(calls, k, end);
      Apart(calls, k, other);
      QueueFrame(k, s.qs[k], s.t, calls, t1, calls, ps, rs);
      QueueFrame(k, s.qs[k], t1, calls, t2, calls, ps2, rs2);
    }
  }

  lemma ReadiedCalls(at: map<Pid, At>, calls: map<Pid, Call>, qs: map<Qk, QueueState>, t: Table, qs': map<Qk, QueueState>, t': Table)
    requires CallsInv(at, calls, qs, t) && qs'.Keys == qs.Keys && WokenOnly(t, t')
    requires forall k :: k in qs ==> qs'[k].rlock == qs[k].rlock && qs'[k].wlock == qs[k].wlock
    ensures CallsInv(at, calls, qs', t')
  {
    hide CallInv;
    forall p | p in calls ensures CallInv(p, at[p], calls[p], qs'[calls[p].k], t') {
      CallFrame(p, at[p], calls[p], qs[calls[p].k], t, qs'[calls[p].k], t');
    }
  }

  lemma CloseKeeps(s: Sys, end: Qk)
    requires Inv(s) && Enabled(s, Close(end))
    ensures Inv(CloseStep(s, end))
  {
    hide QueuesInv, CallsInv, QueueOk, CloseStep, WakeBoth;
    InvFit(s, Close(end));
    InvQueue(s, end);
    InvQueue(s, Peer(end));
    ClosedOk(s, end);
    if s.qref[end] <= 1 {
      HangupQueues(s, end);
      ReadiedCalls(s.at, s.calls, s.qs, s.t, CloseStep(s, end).qs, CloseStep(s, end).t);
    }
  }

  lemma CallingOf(s: Sys, pid: Pid, call: Call)
    requires Inv(s) && pid in s.t.tab && s.t.tab[pid].state == Runnable
    requires if pid in s.calls then call == s.calls[pid] else call.k in s.qs
    ensures Calling(s, pid, call)
  {
    hide QueueInv;
    if pid in s.calls {
      InvCall(s, pid);
    }
    InvQueue(s, call.k);
  }

  lemma StepKeeps(s: Sys, e: Event)
    requires Inv(s) && Enabled(s, e) && Fit(s, e)
    ensures Inv(Apply(s, e).0)
  {
    hide QueueInv, CallInv, QueuesInv, CallsInv;
    match e
    case Attach => AttachKeeps(s);
    case Open(end) => OpenKeeps(s, end);
    case Close(end) => CloseKeeps(s, end);
    case StartRead(pid, end, n) =>
      CallingOf(s, pid, Reading(end, n));
      EnterKeeps(s, pid, Reading(end, n), false);
    case StartWrite(pid, end, data, mounted, outranks) =>
      var (s1, call) := (s.(nextid := s.nextid + 1), Writing(Peer(end), data, mounted, s.nextid));
      CallingOf(s1, pid, call);
      EnterKeeps(s1, pid, call, outranks);
    case Resume(pid, outranks) =>
      CallingOf(s, pid, s.calls[pid]);
      EnterKeeps(s, pid, s.calls[pid], outranks);
    case Note(pid) => NoteKeeps(s, pid);
    case Elsewhere(pid, rec) =>
      if pid in s.t.tab {
        IdleKeeps(s, s.t.Set(pid, rec), pid, {});
      } else {
        NewProcKeeps(s, pid, rec);
      }
  }

  /** The state a run of `es` comes to; `None` if some event of it could not happen. */
  ghost function Exec(qsize: nat, es: seq<Event>): (r: Option<Sys>)
    requires qsize >= 2
    ensures r.Some? ==> Inv(r.value)
  {
    if es == [] then
      Some(Init(qsize))
    else
      var (r, e) := (Exec(qsize, es[..|es| - 1]), es[|es| - 1]);
      if r.None? || !Enabled(r.value, e) then
        None
      else
        InvFit(r.value, e);
        StepKeeps(r.value, e);
        Some(Apply(r.value, e).0)
  }

  // ---- wake-up safety ----

  predicate ReaderAsleep(s: Sys, k: Qk, p: Pid) {
    p in s.calls && s.calls[p].Reading? && s.calls[p].k == k && p in s.t.tab && s.t.tab[p].state == Wakeme
  }

  predicate WriterAsleep(s: Sys, k: Qk, p: Pid) {
    p in s.calls && s.calls[p].Writing? && s.calls[p].k == k && p in s.t.tab && s.t.tab[p].state == Wakeme
  }

  lemma QueueSafety(k: Qk, q: QueueState, t: Table, calls: map<Pid, Call>, p: Pid)
    requires QueueInv(k, q, t, calls) && p in calls && calls[p].k == k
    ensures p in t.tab && q.limit == q.inilim >= 2
    ensures t.tab[p].state == Wakeme && calls[p].Reading? ==> q.blocks == [] && q.len == 0 && q.starve && !q.closed
    ensures t.tab[p].state == Wakeme && calls[p].Writing? ==> q.flow && q.len >= q.limit / 2 && !q.closed
    ensures t.tab[p].state == Queueing ==>
              exists h :: && h in calls && h != p && calls[h].k == k && calls[h].Reading? == calls[p].Reading?
                          && h in t.tab && t.tab[h].state != Queueing
  {
    var hr, hw :| Core(k, q, t, Readers(calls, k), Writers(calls, k), hr, hw);
    if calls[p].Reading? {
      assert p in Readers(calls, k);
      assert t.tab[p].state == Queueing ==> p in q.rlock.q && hr.value in Readers(calls, k);
    } else {
      assert p in Writers(calls, k);
      assert t.tab[p].state == Queueing ==> p in q.wlock.q && hw.value in Writers(calls, k);
    }
  }

  /**
    In every run: a reader asleep for data means its queue is empty, starving
    and open; a writer asleep for room means its queue is flow-controlled, at
    least half full and open; so the two are never asleep at once. And no
    rendez is ever slept on by two.
   */
  lemma WakeupSafety(qsize: nat, es: seq<Event>, k: Qk, r: Pid, w: Pid)
    requires qsize >= 2 && Exec(qsize, es).Some? && k in Exec(qsize, es).value.qs
    ensures var s := Exec(qsize, es).value;
            var q := s.qs[k];
            && (ReaderAsleep(s, k, r) ==> q.blocks == [] && q.starve && !q.closed)
            && (WriterAsleep(s, k, w) ==> q.flow && q.len >= q.limit / 2 && q.limit == q.inilim && !q.closed)
            && !(ReaderAsleep(s, k, r) && WriterAsleep(s, k, w))
            && s.t.doublesleep == 0
  {
    hide Exec, QueueInv, CallInv;
    var s := Exec(qsize, es).value;
    if ReaderAsleep(s, k, r) {
      QueueSafety(k, s.qs[k], s.t, s.calls, r);
    }
    if WriterAsleep(s, k, w) {
      QueueSafety(k, s.qs[k], s.t, s.calls, w);
    }
  }

  /**
    In every run, a process in a call is runnable, or asleep as above, or in
    line for a lock that another process in a call on the same side of the same
    queue holds: nobody waits for a lock that will not be handed on.
   */
  lemma LockProgress(qsize: nat, es: seq<Event>, p: Pid)
    requires qsize >= 2 && Exec(qsize, es).Some? && p in Exec(qsize, es).value.calls
    ensures var s := Exec(qsize, es).value;
            && p in s.t.tab
            && (s.t.tab[p].state == Queueing ==>
                  exists h :: && h in s.calls && h != p && s.calls[h].k == s.calls[p].k
                              && s.calls[h].Reading? == s.calls[p].Reading?
                              && h in s.t.tab && s.t.tab[h].state != Queueing)
  {
    hide Exec, QueueInv, CallInv;
    var s := Exec(qsize, es).value;
    QueueSafety(s.calls[p].k, s.qs[s.calls[p].k], s.t, s.calls, p);
  }
}
