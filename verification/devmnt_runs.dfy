/**
  Every run of the mount driver against servers that follow the protocol: what it
  says it holds is what they hold.
 */
module MountDriverRuns {
  import opened ProcTable
  import opened MountDriver

  datatype Sys = Sys(m: MntState, srv: Servers)

  /** An operation, with the servers' answers to what it may send. */
  datatype Event =
    | DoVersion(wire: Wire, msize: nat, version: string, v: Answer)
    | DoAttach(wire: Wire, auth: bool, v: Answer, a: Answer)
    | DoWalk(c: Chan, how: Steps, a: Answer)
    | DoClunk(c: Chan, remove: bool, a: Answer)
    | DoRelease
    | DoMuxclose(key: WireKey)

  /**
    The answers are ones the protocol allows, and a wire that says it is another
    mount's, and names one there is, has a session of its own.
   */
  predicate Enabled(s: Sys, e: Event) {
    Lawful(s, e) && (e.DoAttach? ==> Unmuxed(s.m, e.wire))
  }

  predicate Unmuxed(m: MntState, wire: Wire) {
    wire.mux.None? || wire.mux.value >= |m.mounts| || wire.key in m.sessions
  }

  predicate Lawful(s: Sys, e: Event) {
    match e
    case DoVersion(wire, msize, version, v) => Conforms(At(s.srv, wire.key), Tversion(Asked(wire, msize)), v)
    case DoAttach(wire, auth, v, a) =>
      && Conforms(At(s.srv, wire.key), Tversion(Asked(wire, 0)), v)
      && Conforms(At(Session(s.m, s.srv, wire, v).0, wire.key), if auth then Tauth(s.m.fid + 1) else Tattach(s.m.fid + 1), a)
    case DoWalk(c, how, a) => c.devno < |s.m.mounts| ==> Conforms(At(s.srv, s.m.mounts[c.devno].wire), Twalk(c.fid, s.m.fid + 1, how.Names()), a)
    case DoClunk(c, remove, a) =>
      c.devno < |s.m.mounts| ==> Conforms(At(s.srv, s.m.mounts[c.devno].wire), if remove then Tremove(c.fid) else Tclunk(c.fid), a)
    case DoRelease => true
    case DoMuxclose(key) => true
  }

  function Step(s: Sys, e: Event): Sys {
    match e
    case DoVersion(wire, msize, version, v) => var (m, srv, _) := Fversion(s.m, s.srv, wire, msize, version, v); Sys(m, srv)
    case DoAttach(wire, auth, v, a) => var (m, srv, _) := Attach(s.m, s.srv, wire, auth, v, a); Sys(m, srv)
    case DoWalk(c, how, a) => var (m, srv, _) := Walk(s.m, s.srv, c, how, a); Sys(m, srv)
    case DoClunk(c, remove, a) => var (m, srv, _) := Clunk(s.m, s.srv, c, remove, a); Sys(m, srv)
    case DoRelease => s.(m := s.m.(released := []))
    case DoMuxclose(key) => Sys(s.m.Muxclose(key), s.srv - {key})
  }

  /** The wire a step sends a version on, if it does. */
  function Versions(s: Sys, e: Event): Option<WireKey> {
    if e.DoVersion? && e.wire.key !in s.m.sessions && VERSION <= (if e.version == "" then VERSION else e.version) then Some(e.wire.key)
    else if e.DoAttach? && Joined(s.m, e.wire).None? then Some(e.wire.key)
    else None
  }

  const Init := Sys(NewMnt, map[])

  function Exec(es: seq<Event>): Option<Sys> {
    if es == [] then
      Some(Init)
    else
      var s := Exec(es[..|es| - 1]);
      if s.Some? && Enabled(s.value, es[|es| - 1]) then Some(Step(s.value, es[|es| - 1])) else None
  }

  /** The msize of a session, within what the client accepts. */
  predicate Msize(n: nat) {
    256 <= n <= 1024 * 1024
  }

  ghost predicate Agree(m: MntState, srv: Servers) {
    forall w :: m.Held(w) == At(srv, w).fids
  }

  /** A wire with a fid has a session, and no fid is above the counter. */
  ghost predicate HeldInv(m: MntState) {
    && (forall w :: w in m.held ==> m.held[w] != {} && w in m.sessions)
    && (forall w, f :: f in m.Held(w) ==> f <= m.fid)
  }

  ghost predicate MsizeInv(m: MntState) {
    && (forall w :: w in m.sessions ==> Msize(m.sessions[w].0))
    && (forall i :: 0 <= i < |m.mounts| ==> Msize(m.mounts[i].msize))
  }

  ghost predicate Inv(s: Sys) {
    Agree(s.m, s.srv) && HeldInv(s.m) && MsizeInv(s.m)
  }

  /** Agreement is kept by a change to one wire that keeps it there. */
  lemma AgreeAt(m: MntState, m': MntState, srv: Servers, srv': Servers, k: WireKey)
    requires Agree(m, srv) && m'.Held(k) == At(srv', k).fids
    requires forall w :: w != k ==> m'.Held(w) == m.Held(w) && At(srv', w).fids == At(srv, w).fids
    ensures Agree(m', srv')
  {
    forall w
      ensures m'.Held(w) == At(srv', w).fids
    {
      assert m.Held(w) == At(srv, w).fids;
      assert w != k ==> m'.Held(w) == m.Held(w);
    }
  }

  lemma HeldAt(m: MntState, m': MntState, k: WireKey)
    requires HeldInv(m) && m'.fid >= m.fid
    requires forall w :: w != k ==> m'.Held(w) == m.Held(w) && (w in m'.held <==> w in m.held) && (w in m.sessions ==> w in m'.sessions)
    requires k in m'.held ==> k in m'.sessions && m'.held[k] != {}
    requires forall f :: f in m'.Held(k) ==> f <= m'.fid
    ensures HeldInv(m')
  {
    forall w, f | f in m'.Held(w)
      ensures f <= m'.fid
    {
      if w != k {
        assert f in m.Held(w);
      }
    }
    forall w | w in m'.held
      ensures m'.held[w] != {} && w in m'.sessions
    {
      if w != k {
        assert m'.Held(w) == m.Held(w) && w in m.held;
      }
    }
  }

  lemma SessionKeeps(m: MntState, srv: Servers, wire: Wire, v: Answer)
    requires Agree(m, srv) && HeldInv(m) && MsizeInv(m) && Unmuxed(m, wire)
    ensures var (srv', res) := Session(m, srv, wire, v);
            && Agree(m, srv')
            && (res.Ok? ==> Msize(res.value.0) && (res.value.1.Some? ==> Msize(res.value.1.value.0)))
            && (res.Ok? && res.value.1.None? ==> wire.key in m.sessions)
  {
    if Joined(m, wire).None? {
      assert m.Held(wire.key) == {};
      AgreeAt(m, m, srv, Session(m, srv, wire, v).0, wire.key);
    }
  }

  lemma VersionKeeps(s: Sys, wire: Wire, msize: nat, version: string, v: Answer)
    requires Inv(s)
    ensures Inv(Step(s, DoVersion(wire, msize, version, v)))
  {
    var s' := Step(s, DoVersion(wire, msize, version, v));
    if wire.key !in s.m.sessions {
      assert s.m.Held(wire.key) == {};
      assert s'.m.held == s.m.held;
      AgreeAt(s.m, s'.m, s.srv, s'.srv, wire.key);
      HeldAt(s.m, s'.m, wire.key);
    }
  }

  lemma AttachKeeps(s: Sys, wire: Wire, auth: bool, v: Answer, a: Answer)
    requires Inv(s) && Enabled(s, DoAttach(wire, auth, v, a))
    ensures Inv(Step(s, DoAttach(wire, auth, v, a)))
  {
    SessionKeeps(s.m, s.srv, wire, v);
    hide Session, Agree, HeldInv, MsizeInv;
    var (srv1, res) := Session(s.m, s.srv, wire, v);
    var f := s.m.fid + 1;
    var srv2 := Send(srv1, wire.key, if auth then Tauth(f) else Tattach(f), a);
    if res.Ok? {
      HeldFits(s.m, srv1, wire.key);
      if a.Rerror? {
        SentSame(s.m, s.m.(fid := f), srv1, srv2, wire.key);
      } else {
        TakenKeeps(s.m, srv1, srv2, wire.key, res.value, f);
      }
    }
  }

  /** A message that came to nothing. */
  lemma SentSame(m: MntState, m': MntState, srv: Servers, srv': Servers, k: WireKey)
    requires Agree(m, srv) && HeldInv(m) && MsizeInv(m) && m' == m.(fid := m'.fid) && m'.fid >= m.fid
    requires At(srv', k) == At(srv, k) && srv' == srv[k := At(srv', k)]
    ensures Agree(m', srv') && HeldInv(m') && MsizeInv(m')
  {
    AgreeAt(m, m', srv, srv', k);
    HeldAt(m, m', k);
  }

  /** The server took the fid. */
  lemma TakenKeeps(m: MntState, srv: Servers, srv': Servers, k: WireKey, s: (nat, Option<(nat, string)>), f: nat)
    requires Agree(m, srv) && HeldInv(m) && MsizeInv(m) && f == m.fid + 1
    requires Msize(s.0) && (s.1.Some? ==> Msize(s.1.value.0)) && (s.1.None? ==> k in m.sessions)
    requires srv' == srv[k := At(srv', k)] && At(srv', k).fids == At(srv, k).fids + {f}
    ensures var m1 := m.(fid := f).Begin(k, s.1).Hold(k, f);
            var m' := m1.(mounts := m1.mounts + [Mnt(s.0, k)]);
            Agree(m', srv') && HeldInv(m') && MsizeInv(m')
  {
    HeldFits(m, srv, k);
    var m1 := m.(fid := f).Begin(k, s.1).Hold(k, f);
    var m' := m1.(mounts := m1.mounts + [Mnt(s.0, k)]);
    hide Agree, HeldInv;
    AgreeAt(m, m', srv, srv', k);
    HeldAt(m, m', k);
  }

  lemma HeldFits(m: MntState, srv: Servers, w: WireKey)
    requires Agree(m, srv) && HeldInv(m)
    ensures m.Held(w) == At(srv, w).fids && (forall f :: f in m.Held(w) ==> f <= m.fid)
    ensures w in m.held ==> m.held[w] != {} && w in m.sessions
  {
  }

  lemma WalkKeeps(s: Sys, c: Chan, how: Steps, a: Answer)
    requires Inv(s) && Enabled(s, DoWalk(c, how, a))
    ensures Inv(Step(s, DoWalk(c, how, a)))
  {
    hide Agree, HeldInv;
    var s' := Step(s, DoWalk(c, how, a));
    var w := if c.devno < |s.m.mounts| then s.m.mounts[c.devno].wire else WireKey(0, 0, 0);
    HeldFits(s.m, s.srv, w);
    if a.Rwalk? && c.devno < |s.m.mounts| {
      assert c.fid in s.m.held[w];
    }
    AgreeAt(s.m, s'.m, s.srv, s'.srv, w);
    HeldAt(s.m, s'.m, w);
  }

  lemma ClunkKeeps(s: Sys, c: Chan, remove: bool, a: Answer)
    requires Inv(s)
    ensures Inv(Step(s, DoClunk(c, remove, a)))
  {
    hide Agree, HeldInv;
    if c.devno < |s.m.mounts| {
      var s' := Step(s, DoClunk(c, remove, a));
      var w := s.m.mounts[c.devno].wire;
      HeldFits(s.m, s.srv, w);
      assert s.m.Held(w) - {c.fid} == s'.m.Held(w);
      AgreeAt(s.m, s'.m, s.srv, s'.srv, w);
      HeldAt(s.m, s'.m, w);
    }
  }

  lemma MuxcloseKeeps(s: Sys, key: WireKey)
    requires Inv(s)
    ensures Inv(Step(s, DoMuxclose(key)))
  {
    hide Agree, HeldInv;
    var s' := Step(s, DoMuxclose(key));
    AgreeAt(s.m, s'.m, s.srv, s'.srv, key);
    HeldAt(s.m, s'.m, key);
  }

  lemma ReleaseKeeps(s: Sys)
    requires Inv(s)
    ensures Inv(Step(s, DoRelease))
  {
    hide Agree, HeldInv;
    var s' := Step(s, DoRelease);
    HeldFits(s.m, s.srv, WireKey(0, 0, 0));
    AgreeAt(s.m, s'.m, s.srv, s'.srv, WireKey(0, 0, 0));
    HeldAt(s.m, s'.m, WireKey(0, 0, 0));
  }

  lemma StepKeeps(s: Sys, e: Event)
    requires Inv(s) && Enabled(s, e)
    ensures Inv(Step(s, e)) && Step(s, e).m.fid >= s.m.fid
  {
    match e
    case DoVersion(wire, msize, version, v) => VersionKeeps(s, wire, msize, version, v);
    case DoAttach(wire, auth, v, a) => AttachKeeps(s, wire, auth, v, a);
    case DoWalk(c, how, a) => WalkKeeps(s, c, how, a);
    case DoClunk(c, remove, a) => ClunkKeeps(s, c, remove, a);
    case DoRelease => ReleaseKeeps(s);
    case DoMuxclose(key) => MuxcloseKeeps(s, key);
  }

  lemma {:induction false} RunKeeps(es: seq<Event>)
    requires Exec(es).Some?
    ensures Inv(Exec(es).value)
  {
    if es != [] {
      RunKeeps(es[..|es| - 1]);
      StepKeeps(Exec(es[..|es| - 1]).value, es[|es| - 1]);
    }
  }

  /** In every run the fids the driver holds on each wire are the fids its server has. */
  lemma HeldIsServed(es: seq<Event>, w: WireKey)
    requires Exec(es).Some?
    ensures var s := Exec(es).value; s.m.Held(w) == At(s.srv, w).fids && (w in s.m.held ==> s.m.held[w] != {} && w in s.m.sessions)
  {
    RunKeeps(es);
  }

  /** A version is never sent on a wire that holds a fid. */
  lemma VersionOnlyIdle(es: seq<Event>, e: Event)
    requires Exec(es).Some? && Enabled(Exec(es).value, e) && Versions(Exec(es).value, e).Some?
    ensures var s := Exec(es).value; var w := Versions(s, e).value; s.m.Held(w) == {} && At(s.srv, w).fids == {}
  {
    RunKeeps(es);
  }

  /** A fid that comes to be held is the next of the counter, and was held on no wire at any time before. */
  lemma FidsAreNew(es: seq<Event>, e: Event, w: WireKey, f: nat, i: nat, w': WireKey)
    requires Exec(es).Some? && Enabled(Exec(es).value, e) && i <= |es|
    requires f in Step(Exec(es).value, e).m.Held(w) && f !in Exec(es).value.m.Held(w)
    ensures f == Exec(es).value.m.fid + 1 == Step(Exec(es).value, e).m.fid
    ensures Exec(es[..i]).Some? && f !in Exec(es[..i]).value.m.Held(w')
  {
    OneNewFid(Exec(es).value, e, w, f);
    hide Step, Exec, Enabled;
    Earlier(es, i);
    RunKeeps(es[..i]);
  }

  lemma OneNewFid(s: Sys, e: Event, w: WireKey, f: nat)
    requires f in Step(s, e).m.Held(w) && f !in s.m.Held(w)
    ensures f == s.m.fid + 1 == Step(s, e).m.fid
  {
    hide Session;
  }

  lemma {:induction false} Earlier(es: seq<Event>, i: nat)
    requires Exec(es).Some? && i <= |es|
    ensures Exec(es[..i]).Some? && Exec(es[..i]).value.m.fid <= Exec(es).value.m.fid
    decreases |es|
  {
    if i == |es| {
      assert es[..i] == es;
    } else {
      var init := es[..|es| - 1];
      Earlier(init, i);
      assert init[..i] == es[..i];
      RunKeeps(init);
      StepKeeps(Exec(init).value, es[|es| - 1]);
    }
  }

  /** A wire is let go of exactly when a clunk or a remove takes its last fid. */
  lemma ReleasedAtLast(es: seq<Event>, e: Event, w: WireKey)
    requires Exec(es).Some? && Enabled(Exec(es).value, e) && !e.DoRelease? && !e.DoMuxclose?
    ensures var s, s' := Exec(es).value, Step(Exec(es).value, e);
            && (s'.m.released == s.m.released + [w] <==> s.m.Held(w) != {} && s'.m.Held(w) == {})
            && (s'.m.released == s.m.released || exists x :: s'.m.released == s.m.released + [x])
  {
    RunKeeps(es);
    hide Exec, Agree, MsizeInv;
    var s := Exec(es).value;
    if e.DoClunk? {
      ClunkReleases(s.m, e.c, w);
    } else {
      OnlyClunksRelease(s, e, w);
    }
  }

  lemma ClunkReleases(m: MntState, c: Chan, w: WireKey)
    requires HeldInv(m)
    ensures var m' := m.Letgo(c);
            && (m'.released == m.released + [w] <==> m.Held(w) != {} && m'.Held(w) == {})
            && (m'.released == m.released || exists x :: m'.released == m.released + [x])
  {
    if c.devno < |m.mounts| {
      var k := m.mounts[c.devno].wire;
      assert m.released + [k] == m.released + [w] ==> k == w by {
        assert (m.released + [k])[|m.released|] == k;
        assert (m.released + [w])[|m.released|] == w;
      }
      assert k in m.held && c.fid in m.held[k] && m.held[k] - {c.fid} == {} ==> m.held[k] == {c.fid};
    }
  }

  /** Other steps take no fid from a wire. */
  lemma OnlyClunksRelease(s: Sys, e: Event, w: WireKey)
    requires !e.DoRelease? && !e.DoMuxclose? && !e.DoClunk?
    ensures var m' := Step(s, e).m; m'.released == s.m.released && s.m.Held(w) <= m'.Held(w)
  {
    hide Session;
  }

  // ---- what is answered

  /** A version the client takes: no larger than it asked for, of a size that makes sense, and of a protocol it named. */
  predicate Acceptable(asked: nat, want: string, v: Answer) {
    v.Rversion? && 256 <= v.msize <= asked && v.msize <= 1024 * 1024 && v.version != "" && v.version <= want
  }

  /** The step held `f` on `w`, which was held nowhere on it and the server now has, and held and let go of nothing else. */
  ghost predicate Gains(s: Sys, s': Sys, w: WireKey, f: nat) {
    && f !in s.m.Held(w) && s'.m.Held(w) == s.m.Held(w) + {f} && f in At(s'.srv, w).fids
    && forall x :: x != w ==> s'.m.Held(x) == s.m.Held(x)
  }

  /**
    In every run an attach answers a channel exactly when the wire's session can be
    had and the server takes the fid. The channel is of the new mount, with the
    session's size, and carries the fid that came to be held; and an attach that
    fails holds nothing, mounts nothing and keeps no session.
   */
  lemma AttachAnswers(es: seq<Event>, wire: Wire, auth: bool, v: Answer, a: Answer)
    requires Exec(es).Some? && Enabled(Exec(es).value, DoAttach(wire, auth, v, a))
    ensures var s := Exec(es).value;
            var s', res := Step(s, DoAttach(wire, auth, v, a)), Attach(s.m, s.srv, wire, auth, v, a).2;
            var own := wire.key in s.m.sessions;
            var other := wire.mux.Some? && wire.mux.value < |s.m.mounts|;
            && (res.Ok? <==> (own || other || Acceptable(Asked(wire, 0), VERSION, v)) && !a.Rerror?)
            && (res.Ok? ==>
                  && res.value.devno == |s.m.mounts| && Gains(s, s', wire.key, res.value.fid)
                  && |s'.m.mounts| == |s.m.mounts| + 1 && s'.m.mounts[..|s.m.mounts|] == s.m.mounts
                  && s'.m.mounts[|s.m.mounts|] ==
                     Mnt(if other then s.m.mounts[wire.mux.value].msize else if own then s.m.sessions[wire.key].0 else v.msize, wire.key)
                  && s'.m.sessions == if own || other then s.m.sessions else s.m.sessions[wire.key := (v.msize, v.version)])
            && (res.Err? ==> s'.m.held == s.m.held && s'.m.mounts == s.m.mounts && s'.m.sessions == s.m.sessions)
  {
    hide *;
    Around(es, DoAttach(wire, auth, v, a), wire.key);
    AttachIs(Exec(es).value, wire, auth, v, a);
  }

  /** The next fid is not held, and if a step holds it that is what the step gains. */
  lemma Around(es: seq<Event>, e: Event, w: WireKey)
    requires Exec(es).Some? && Enabled(Exec(es).value, e)
    ensures var s, s' := Exec(es).value, Step(Exec(es).value, e);
            Lawful(s, e) && (s'.m.held == s.m.held[w := s.m.Held(w) + {s.m.fid + 1}] ==> Gains(s, s', w, s.m.fid + 1))
  {
    hide Exec, Step, Lawful, Unmuxed, Gains, Agree, HeldInv, MsizeInv;
    RunKeeps(es);
    var s := Exec(es).value;
    var s' := Step(s, e);
    StepKeeps(s, e);
    HeldFits(s.m, s.srv, w);
    HeldFits(s'.m, s'.srv, w);
    if s'.m.held == s.m.held[w := s.m.Held(w) + {s.m.fid + 1}] {
      HoldGains(s, s', w, s.m.fid + 1);
    }
  }

  lemma HoldGains(s: Sys, s': Sys, w: WireKey, f: nat)
    requires s'.m.held == s.m.held[w := s.m.Held(w) + {f}] && f !in s.m.Held(w) && s'.m.Held(w) == At(s'.srv, w).fids
    ensures Gains(s, s', w, f)
  {
    assert f in s'.m.Held(w);
  }

  lemma SessionIs(m: MntState, srv: Servers, wire: Wire, v: Answer)
    ensures var res := Session(m, srv, wire, v).1;
            var own := wire.key in m.sessions;
            var other := wire.mux.Some? && wire.mux.value < |m.mounts|;
            && (res.Ok? <==> own || other || Acceptable(Asked(wire, 0), VERSION, v))
            && (res.Ok? && !own && !other ==> res.value == (v.msize, Some((v.msize, v.version))))
            && (res.Ok? && other ==> res.value == (m.mounts[wire.mux.value].msize, None))
            && (res.Ok? && own && !other ==> res.value == (m.sessions[wire.key].0, None))
  {
    hide Asked;
  }

  lemma AttachIs(s: Sys, wire: Wire, auth: bool, v: Answer, a: Answer)
    requires Lawful(s, DoAttach(wire, auth, v, a))
    ensures var s', res := Step(s, DoAttach(wire, auth, v, a)), Attach(s.m, s.srv, wire, auth, v, a).2;
            var own := wire.key in s.m.sessions;
            var other := wire.mux.Some? && wire.mux.value < |s.m.mounts|;
            && (res.Ok? <==> (own || other || Acceptable(Asked(wire, 0), VERSION, v)) && !a.Rerror?)
            && (res.Ok? ==>
                  && res.value == Chan(|s.m.mounts|, s.m.fid + 1)
                  && s'.m.held == s.m.held[wire.key := s.m.Held(wire.key) + {s.m.fid + 1}]
                  && s'.m.mounts == s.m.mounts +
                     [Mnt(if other then s.m.mounts[wire.mux.value].msize else if own then s.m.sessions[wire.key].0 else v.msize, wire.key)]
                  && s'.m.sessions == if own || other then s.m.sessions else s.m.sessions[wire.key := (v.msize, v.version)])
            && (res.Err? ==> s'.m.held == s.m.held && s'.m.mounts == s.m.mounts && s'.m.sessions == s.m.sessions)
  {
    SessionIs(s.m, s.srv, wire, v);
    hide Session, Acceptable, Send, At;
  }

  /**
    In every run a walk answers a channel exactly when every name was walked, and the
    channel carries the fid that came to be held; it answers that there is none when
    the one name was not found, or some but not all of several were; and otherwise
    it fails, and in either case holds what it held.
   */
  lemma WalkAnswers(es: seq<Event>, c: Chan, how: Steps, a: Answer)
    requires Exec(es).Some? && Enabled(Exec(es).value, DoWalk(c, how, a))
    ensures var s := Exec(es).value;
            var s', res := Step(s, DoWalk(c, how, a)), Walk(s.m, s.srv, c, how, a).2;
            var sent := c.devno < |s.m.mounts| && a.Rwalk?;
            && (res.Ok? && res.value.Some? <==> sent && a.n == how.Names())
            && (res == Ok(None) <==> sent && a.n < how.Names() && (how.One? || a.n > 0))
            && (res.Ok? && res.value.Some? ==>
                  res.value.value.devno == c.devno && Gains(s, s', s.m.mounts[c.devno].wire, res.value.value.fid))
            && ((res.Ok? && res.value.Some?) || s'.m.held == s.m.held)
            && s'.m.mounts == s.m.mounts && s'.m.sessions == s.m.sessions
  {
    hide *;
    var m := Exec(es).value.m;
    Around(es, DoWalk(c, how, a), if c.devno < |m.mounts| then m.mounts[c.devno].wire else WireKey(0, 0, 0));
    WalkIs(Exec(es).value, c, how, a);
  }

  lemma WalkIs(s: Sys, c: Chan, how: Steps, a: Answer)
    requires Lawful(s, DoWalk(c, how, a))
    ensures var s', res := Step(s, DoWalk(c, how, a)), Walk(s.m, s.srv, c, how, a).2;
            var sent := c.devno < |s.m.mounts| && a.Rwalk?;
            && (res.Ok? && res.value.Some? <==> sent && a.n == how.Names())
            && (res == Ok(None) <==> sent && a.n < how.Names() && (how.One? || a.n > 0))
            && (if res.Ok? && res.value.Some? then
                  && res.value.value == Chan(c.devno, s.m.fid + 1)
                  && var w := s.m.mounts[c.devno].wire; s'.m.held == s.m.held[w := s.m.Held(w) + {s.m.fid + 1}]
                else s'.m.held == s.m.held)
            && s'.m.mounts == s.m.mounts && s'.m.sessions == s.m.sessions
  {
    hide Send;
  }

  /** In every run a clunk or a remove fails exactly when its server does, and its fid is let go of either way. */
  lemma ClunkAnswers(es: seq<Event>, c: Chan, remove: bool, a: Answer)
    requires Exec(es).Some? && c.devno < |Exec(es).value.m.mounts|
    ensures var s := Exec(es).value;
            var s', res := Step(s, DoClunk(c, remove, a)), Clunk(s.m, s.srv, c, remove, a).2;
            var w := s.m.mounts[c.devno].wire;
            && (res.Ok? <==> !a.Rerror?) && (a.Rerror? ==> res == Err(a.ename))
            && s'.m.Held(w) == s.m.Held(w) - {c.fid} && c.fid !in At(s'.srv, w).fids
            && forall x :: x != w ==> s'.m.Held(x) == s.m.Held(x)
  {
    hide *;
    ClunkIs(Exec(es).value, c, remove, a);
    RunKeepsFids(es, Exec(es).value.m.mounts[c.devno].wire);
  }

  lemma RunKeepsFids(es: seq<Event>, w: WireKey)
    requires Exec(es).Some?
    ensures Exec(es).value.m.Held(w) == At(Exec(es).value.srv, w).fids
  {
    hide Exec, HeldInv, MsizeInv;
    RunKeeps(es);
  }

  lemma ClunkIs(s: Sys, c: Chan, remove: bool, a: Answer)
    requires c.devno < |s.m.mounts|
    ensures var s', res := Step(s, DoClunk(c, remove, a)), Clunk(s.m, s.srv, c, remove, a).2;
            var w := s.m.mounts[c.devno].wire;
            && (res.Ok? <==> !a.Rerror?) && (a.Rerror? ==> res == Err(a.ename))
            && s'.m.Held(w) == s.m.Held(w) - {c.fid} && At(s'.srv, w).fids == At(s.srv, w).fids - {c.fid}
            && forall x :: x != w ==> s'.m.Held(x) == s.m.Held(x)
  {
  }

  /**
    In every run a version agreed is kept for the wire, and one that was not
    leaves the wire without; a wire with a session answers its own version, if the
    one asked for has it for a front, and sends nothing.
   */
  lemma VersionAnswers(es: seq<Event>, wire: Wire, msize: nat, version: string, v: Answer)
    requires Exec(es).Some? && Enabled(Exec(es).value, DoVersion(wire, msize, version, v))
    ensures var s := Exec(es).value;
            var s', res := Step(s, DoVersion(wire, msize, version, v)), Fversion(s.m, s.srv, wire, msize, version, v).2;
            var want := if version == "" then VERSION else version;
            && s'.m.held == s.m.held && s'.m.mounts == s.m.mounts
            && if wire.key in s.m.sessions then
                 s' == s && (res.Ok? <==> s.m.sessions[wire.key].1 <= want) && (res.Ok? ==> res.value == s.m.sessions[wire.key].1)
               else
                 && (res.Ok? <==> VERSION <= want && Acceptable(Asked(wire, msize), want, v))
                 && (res.Ok? ==> res.value == v.version && s'.m.sessions == s.m.sessions[wire.key := (v.msize, v.version)])
                 && (res.Err? ==> s'.m.sessions == s.m.sessions)
  {
    hide Exec;
  }

  /** Every session's and every mount's msize leaves room for data in a message. */
  lemma RoomInMessages(es: seq<Event>)
    requires Exec(es).Some?
    ensures var m := Exec(es).value.m;
            && (forall w :: w in m.sessions ==> m.sessions[w].0 >= IOHDRSZ + 232)
            && (forall i :: 0 <= i < |m.mounts| ==> m.mounts[i].msize >= IOHDRSZ + 232)
  {
    RunKeeps(es);
  }

  /** A version is sent only on a wire without a session of its own. */
  lemma VersionNeedsNoSession(s: Sys, e: Event)
    requires Versions(s, e).Some?
    ensures Versions(s, e).value !in s.m.sessions
  {
  }

  /**
    After an attach the server takes, no version can be sent on its wire while the
    wire holds a fid if and only if the session it joined or began is the wire's
    own; and all the rest is kept exactly then.
   */
  lemma AttachKeepsIff(s: Sys, wire: Wire, auth: bool, v: Answer, a: Answer)
    requires Inv(s) && Lawful(s, DoAttach(wire, auth, v, a)) && !a.Rerror?
    ensures Inv(Step(s, DoAttach(wire, auth, v, a))) <==> Unmuxed(s.m, wire)
    ensures var s' := Step(s, DoAttach(wire, auth, v, a));
            (forall e :: Lawful(s', e) && Versions(s', e) == Some(wire.key) ==> s'.m.Held(wire.key) == {}) <==> Unmuxed(s.m, wire)
  {
    var s' := Step(s, DoAttach(wire, auth, v, a));
    if Unmuxed(s.m, wire) {
      AttachKeeps(s, wire, auth, v, a);
      hide Step, Lawful;
      forall e | Versions(s', e) == Some(wire.key)
        ensures s'.m.Held(wire.key) == {}
      {
        VersionNeedsNoSession(s', e);
      }
    } else {
      assert wire.key in s'.m.held && wire.key !in s'.m.sessions && s'.m.Held(wire.key) != {};
      var e := DoAttach(Wire(wire.key, None, 0), false, Rerror("no"), Rerror("no"));
      assert Lawful(s', e) && Versions(s', e) == Some(wire.key);
    }
  }

  /**
    Why a wire that says it is another mount's must have a session of its own: a
    run, lawful but for that, in which a version is sent on a wire holding a fid.
    The first attach on the wire agrees a version and is refused, so no session
    is kept; the second joins the other mount's.
   */
  lemma MuxLosesFids()
    ensures var s1 := Step(Init, DoAttach(Wire(WireA, None, 0), false, Agrees, Rattach));
            var s2 := Step(s1, DoAttach(Wire(WireB, None, 0), false, Agrees, Rerror("no")));
            var s3 := Step(s2, DoAttach(Wire(WireB, Some(0), 0), false, Agrees, Rattach));
            var e := DoAttach(Wire(WireB, None, 0), false, Agrees, Rattach);
            && Lawful(Init, DoAttach(Wire(WireA, None, 0), false, Agrees, Rattach))
            && Lawful(s1, DoAttach(Wire(WireB, None, 0), false, Agrees, Rerror("no")))
            && Lawful(s2, DoAttach(Wire(WireB, Some(0), 0), false, Agrees, Rattach))
            && Lawful(s3, e) && Versions(s3, e) == Some(WireB) && s3.m.Held(WireB) == {3}
            && Step(s3, e).m.Held(WireB) == {3, 4} && At(Step(s3, e).srv, WireB).fids == {4}
  {
    var s1 := Step(Init, DoAttach(Wire(WireA, None, 0), false, Agrees, Rattach));
    var s2 := Step(s1, DoAttach(Wire(WireB, None, 0), false, Agrees, Rerror("no")));
    var s3 := Step(s2, DoAttach(Wire(WireB, Some(0), 0), false, Agrees, Rattach));
    FirstWire();
    hide Step, Lawful, Versions;
    SecondRefused(s1);
    SecondJoins(s2);
    ThenVersion(s3);
  }

  const WireA := WireKey(0, 0, 1)
  const WireB := WireKey(0, 0, 2)
  const Agrees := Rversion(8192, VERSION)

  lemma AgreesIs()
    ensures Agreed(MAXRPC, VERSION, Agrees) == Ok((8192, VERSION))
  {
    assert VERSION != "";
  }

  lemma FirstWire()
    ensures var e := DoAttach(Wire(WireA, None, 0), false, Agrees, Rattach);
            var s := Step(Init, e);
            && Lawful(Init, e) && s.m.mounts == [Mnt(8192, WireA)] && s.m.fid == 1
            && WireB !in s.m.held && WireB !in s.m.sessions && WireB !in s.srv
  {
    AgreesIs();
  }

  lemma SecondRefused(s: Sys)
    requires s.m.mounts == [Mnt(8192, WireA)] && s.m.fid == 1 && WireB !in s.m.held && WireB !in s.m.sessions && WireB !in s.srv
    ensures var e := DoAttach(Wire(WireB, None, 0), false, Agrees, Rerror("no"));
            Lawful(s, e) && Step(s, e).m == s.m.(fid := 2) && At(Step(s, e).srv, WireB) == Server(true, {})
  {
    AgreesIs();
  }

  lemma SecondJoins(s: Sys)
    requires s.m.mounts == [Mnt(8192, WireA)] && s.m.fid == 2 && WireB !in s.m.held && WireB !in s.m.sessions
    requires At(s.srv, WireB) == Server(true, {})
    ensures var e := DoAttach(Wire(WireB, Some(0), 0), false, Agrees, Rattach);
            var s' := Step(s, e);
            && Lawful(s, e) && s'.m.Held(WireB) == {3} && WireB !in s'.m.sessions && s'.m.fid == 3
            && At(s'.srv, WireB) == Server(true, {3})
  {
  }

  lemma ThenVersion(s: Sys)
    requires s.m.Held(WireB) == {3} && WireB !in s.m.sessions && s.m.fid == 3 && At(s.srv, WireB) == Server(true, {3})
    ensures var e := DoAttach(Wire(WireB, None, 0), false, Agrees, Rattach);
            && Lawful(s, e) && Versions(s, e) == Some(WireB)
            && Step(s, e).m.Held(WireB) == {3, 4} && At(Step(s, e).srv, WireB).fids == {4}
  {
    AgreesIs();
  }
}
