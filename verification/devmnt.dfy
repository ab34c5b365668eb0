/**
  The mount driver (kernel/src/devmnt.rs): a 9P client, and what it must agree
  about with the servers at the other end of its wires.

  A wire always answers. What a server does with a message is `Serve`, and
  `Conforms` says which answers walk(5), attach(5), clunk(5), remove(5) and
  version(5) allow. `MntState` is the driver as a value; `MntDev` is the mutable
  object, each of whose methods is proved to be the function of its name.
 */
module MountDriver {
  import opened ProcTable

  const IOHDRSZ: nat := 24
  const MAXRPC: nat := IOHDRSZ + 16 * 1024
  const VERSION := "9P2000"
  const ENOTMOUNTED := "not mounted"
  const ENONEXIST := "file does not exist"

  /** What identifies a wire. */
  datatype WireKey = WireKey(dev: nat, devno: nat, path: nat)

  /** The channel to a server. `mux` is the mount said to be using it. */
  datatype Wire = Wire(key: WireKey, mux: Option<nat>, iounit: nat)

  datatype Msg =
    | Tversion(msize: nat)
    | Tauth(afid: nat)
    | Tattach(fid: nat)
    | Twalk(fid: nat, newfid: nat, names: nat)
    | Tclunk(fid: nat)
    | Tremove(fid: nat)

  /** A walk's answer is how many of its names were walked. */
  datatype Answer = Rerror(ename: string) | Rversion(msize: nat, version: string) | Rauth | Rattach | Rwalk(n: nat) | Rclunk | Rremove

  // ---- the servers

  /** The fids a server has for one wire; none before a version is agreed. */
  datatype Server = Server(versioned: bool, fids: set<nat>)

  type Servers = map<WireKey, Server>

  function At(srv: Servers, w: WireKey): Server {
    if w in srv then srv[w] else Server(false, {})
  }

  /** The answers the protocol allows. */
  predicate Conforms(s: Server, m: Msg, a: Answer) {
    a.Rerror? ||
    match m
    case Tversion(msize) => a.Rversion?
    case Tauth(afid) => a.Rauth? && s.versioned && afid !in s.fids
    case Tattach(fid) => a.Rattach? && s.versioned && fid !in s.fids
    case Twalk(fid, newfid, names) => a.Rwalk? && fid in s.fids && newfid !in s.fids && a.n <= names
    case Tclunk(fid) => a.Rclunk? && fid in s.fids
    case Tremove(fid) => a.Rremove? && fid in s.fids
  }

  /**
    What the server is left with: a version begins a session with no fids; a fid
    comes with an attach, an auth, or a walk of every name; and goes with a clunk
    or a remove, whether or not that failed.
   */
  function Serve(s: Server, m: Msg, a: Answer): Server {
    match m
    case Tversion(msize) => if a.Rerror? then s else Server(true, {})
    case Tauth(afid) => if a.Rerror? then s else s.(fids := s.fids + {afid})
    case Tattach(fid) => if a.Rerror? then s else s.(fids := s.fids + {fid})
    case Twalk(fid, newfid, names) => if a.Rwalk? && a.n == names then s.(fids := s.fids + {newfid}) else s
    case Tclunk(fid) => s.(fids := s.fids - {fid})
    case Tremove(fid) => s.(fids := s.fids - {fid})
  }

  function Send(srv: Servers, w: WireKey, m: Msg, a: Answer): Servers {
    srv[w := Serve(At(srv, w), m, a)]
  }

  // ---- the driver

  datatype Mnt = Mnt(msize: nat, wire: WireKey)

  datatype MntState = MntState(
    mounts: seq<Mnt>, fid: nat, sessions: map<WireKey, (nat, string)>, held: map<WireKey, set<nat>>, released: seq<WireKey>)
  {
    function Held(w: WireKey): set<nat> {
      if w in held then held[w] else {}
    }

    function Hold(w: WireKey, f: nat): MntState {
      this.(held := held[w := Held(w) + {f}])
    }

    /** The fid has gone, and with the last of them the wire. */
    function Letgo(c: Chan): MntState {
      if c.devno >= |mounts| then
        this
      else
        var w := mounts[c.devno].wire;
        if w !in held || c.fid !in held[w] then this
        else if held[w] == {c.fid} then this.(held := held - {w}, released := released + [w])
        else this.(held := held[w := held[w] - {c.fid}])
    }

    function Begin(w: WireKey, s: Option<(nat, string)>): MntState {
      if s.Some? then this.(sessions := sessions[w := s.value]) else this
    }

    function Muxclose(w: WireKey): MntState {
      this.(sessions := sessions - {w}, held := held - {w})
    }
  }

  /** A channel the driver serves: which mount, and which fid. */
  datatype Chan = Chan(devno: nat, fid: nat)

  const NewMnt := MntState([], 0, map[], map[], [])

  function Asked(wire: Wire, msize: nat): nat {
    var m := if msize == 0 then MAXRPC else msize;
    if wire.iounit != 0 && m > wire.iounit then wire.iounit else m
  }

  /** What the client makes of the answer to its version. */
  function Agreed(asked: nat, v: string, a: Answer): Result<(nat, string)> {
    if a.Rerror? then Err(a.ename)
    else if !a.Rversion? then Err("unexpected reply type in fversion")
    else if a.msize > asked then Err("server tries to increase msize in fversion")
    else if a.msize < 256 || a.msize > 1024 * 1024 then Err("nonsense value of msize in fversion")
    else if a.version == "" || !(a.version <= v) then Err("bad 9P version returned from server")
    else Ok((a.msize, a.version))
  }

  /** The session the wire has: the mount's it is said to be using, or its own. */
  function Joined(m: MntState, wire: Wire): Option<nat> {
    if wire.mux.Some? && wire.mux.value < |m.mounts| then Some(m.mounts[wire.mux.value].msize)
    else if wire.key in m.sessions then Some(m.sessions[wire.key].0)
    else None
  }

  /** The wire's session, joined or begun; one begun is not kept yet. `v` is the answer to the version, if one is sent. */
  function Session(m: MntState, srv: Servers, wire: Wire, v: Answer): (Servers, Result<(nat, Option<(nat, string)>)>) {
    if Joined(m, wire).Some? then
      (srv, Ok((Joined(m, wire).value, None)))
    else
      var got := Agreed(Asked(wire, 0), VERSION, v);
      (Send(srv, wire.key, Tversion(Asked(wire, 0)), v),
       if got.Ok? then Ok((got.value.0, Some(got.value))) else Err(got.error))
  }

  /** The same of `fversion`: with the msize and version asked for, and the session kept. */
  function Fversion(m: MntState, srv: Servers, wire: Wire, msize: nat, version: string, v: Answer): (MntState, Servers, Result<string>) {
    var want := if version == "" then VERSION else version;
    if wire.key in m.sessions then
      var have := m.sessions[wire.key].1;
      (m, srv, if have <= want then Ok(have) else Err("incompatible 9P versions"))
    else if !(VERSION <= want) then
      (m, srv, Err("bad 9P version specification"))
    else
      var got := Agreed(Asked(wire, msize), want, v);
      (if got.Ok? then m.Begin(wire.key, Some(got.value)) else m,
       Send(srv, wire.key, Tversion(Asked(wire, msize)), v),
       if got.Ok? then Ok(got.value.1) else Err(got.error))
  }

  /** An attach or an auth: a session, a new fid, and if the server takes it a new mount. */
  function Attach(m: MntState, srv: Servers, wire: Wire, auth: bool, v: Answer, a: Answer): (MntState, Servers, Result<Chan>) {
    var (srv1, s) := Session(m, srv, wire, v);
    if s.Err? then
      (m, srv1, Err(s.error))
    else
      var f := m.fid + 1;
      var srv2 := Send(srv1, wire.key, if auth then Tauth(f) else Tattach(f), a);
      var m1 := m.(fid := f);
      if a.Rerror? then (m1, srv2, Err(a.ename))
      else if a != (if auth then Rauth else Rattach) then (m1, srv2, Err("not Rattach"))
      else
        var m2 := m1.Begin(wire.key, s.value.1).Hold(wire.key, f);
        (m2.(mounts := m2.mounts + [Mnt(s.value.0, wire.key)]), srv2, Ok(Chan(|m.mounts|, f)))
  }

  /** A walk of one name, of none, which gives the same file another fid, or of several. */
  datatype Steps = One | Same | Several(n: nat)
  {
    function Names(): nat {
      if One? then 1 else if Same? then 0 else n
    }

    /** What an answer that is no error comes to: whether there is a channel. */
    function Reached(walked: nat): Result<bool> {
      if One? then Ok(walked > 0)
      else if Same? then Ok(true)
      else if walked > n then Err("too many QIDs returned by walk")
      else if walked == 0 && n > 0 then Err(ENONEXIST)
      else Ok(walked == n)
    }
  }

  /** A walk, and a channel if every name was walked. */
  function Walk(m: MntState, srv: Servers, c: Chan, how: Steps, a: Answer): (MntState, Servers, Result<Option<Chan>>) {
    var f := m.fid + 1;
    var m1 := m.(fid := f);
    if c.devno >= |m.mounts| then
      (m1, srv, Err(ENOTMOUNTED))
    else
      var w := m.mounts[c.devno].wire;
      var srv1 := Send(srv, w, Twalk(c.fid, f, how.Names()), a);
      if a.Rerror? then (m1, srv1, Err(a.ename))
      else if !a.Rwalk? then (m1, srv1, Err("unexpected reply"))
      else
        var reached := how.Reached(a.n);
        if reached.Err? then (m1, srv1, Err(reached.error))
        else if reached.value then (m1.Hold(w, f), srv1, Ok(Some(Chan(c.devno, f))))
        else (m1, srv1, Ok(None))
  }

  /** A clunk or a remove: the fid is gone, whatever the answer. */
  function Clunk(m: MntState, srv: Servers, c: Chan, remove: bool, a: Answer): (MntState, Servers, Result<()>) {
    if c.devno >= |m.mounts| then
      (m, srv, Err(ENOTMOUNTED))
    else
      var w := m.mounts[c.devno].wire;
      (m.Letgo(c), Send(srv, w, if remove then Tremove(c.fid) else Tclunk(c.fid), a),
       if a.Rerror? then Err(a.ename) else Ok(()))
  }

  /** The servers, as the driver's transport reaches them; what they answer is theirs to say. */
  class Transport {
    var srv: Servers

    constructor ()
      ensures srv == map[]
    {
      srv := map[];
    }

    method Rpc(w: WireKey, m: Msg, a: Answer)
      modifies this
      ensures srv == Send(old(srv), w, m, a)
    {
      srv := srv[w := Serve(At(srv, w), m, a)];
    }
  }

  class MntDev {
    var mounts: seq<Mnt>
    var fid: nat
    var sessions: map<WireKey, (nat, string)>
    var held: map<WireKey, set<nat>>
    var released: seq<WireKey>

    constructor ()
      ensures Val() == NewMnt
    {
      mounts, fid, sessions, held, released := [], 0, map[], map[], [];
    }

    function Val(): MntState
      reads this
    {
      MntState(mounts, fid, sessions, held, released)
    }

    method NewFid() returns (f: nat)
      modifies this
      ensures f == old(fid) + 1 && Val() == old(Val()).(fid := f)
    {
      f := fid + 1;
      fid := f;
    }

    method Hold(w: WireKey, f: nat)
      modifies this
      ensures Val() == old(Val()).Hold(w, f)
    {
      if w !in held {
        held := held[w := {}];
      }
      held := held[w := held[w] + {f}];
    }

    method LetGo(c: Chan)
      modifies this
      ensures Val() == old(Val()).Letgo(c)
    {
      if c.devno >= |mounts| {
        return;
      }
      var w := mounts[c.devno].wire;
      if w !in held {
        return;
      }
      if c.fid in held[w] {
        held := held[w := held[w] - {c.fid}];
        if held[w] == {} {
          held := held - {w};
          released := released + [w];
        }
      }
    }

    /** Hands over the list of wires to close, and starts another. */
    method Released() returns (ws: seq<WireKey>)
      modifies this
      ensures ws == old(released) && Val() == old(Val()).(released := [])
    {
      ws, released := released, [];
    }

    method MuxClose(w: WireKey)
      modifies this
      ensures Val() == old(Val()).Muxclose(w)
    {
      sessions, held := sessions - {w}, held - {w};
    }

    method GetSession(t: Transport, wire: Wire, v: Answer) returns (res: Result<(nat, Option<(nat, string)>)>)
      modifies t
      ensures (t.srv, res) == Session(Val(), old(t.srv), wire, v)
    {
      if wire.mux.Some? && wire.mux.value < |mounts| {
        return Ok((mounts[wire.mux.value].msize, None));
      }
      if wire.key in sessions {
        return Ok((sessions[wire.key].0, None));
      }
      t.Rpc(wire.key, Tversion(Asked(wire, 0)), v);
      var got := Agreed(Asked(wire, 0), VERSION, v);
      if got.Err? {
        return Err(got.error);
      }
      return Ok((got.value.0, Some(got.value)));
    }

    method FVersion(t: Transport, wire: Wire, msize: nat, version: string, v: Answer) returns (res: Result<string>)
      modifies this, t
      ensures (Val(), t.srv, res) == Fversion(old(Val()), old(t.srv), wire, msize, version, v)
    {
      var want := if version == "" then VERSION else version;
      if wire.key in sessions {
        var have := sessions[wire.key].1;
        return if have <= want then Ok(have) else Err("incompatible 9P versions");
      }
      if !(VERSION <= want) {
        return Err("bad 9P version specification");
      }
      t.Rpc(wire.key, Tversion(Asked(wire, msize)), v);
      var got := Agreed(Asked(wire, msize), want, v);
      if got.Err? {
        return Err(got.error);
      }
      sessions := sessions[wire.key := got.value];
      return Ok(got.value.1);
    }

    /** The server has taken the fid: the session is kept, the fid held, and there is one more mount. */
    method AddMount(w: WireKey, msize: nat, s: Option<(nat, string)>, f: nat) returns (c: Chan)
      modifies this
      ensures var m := old(Val()).Begin(w, s).Hold(w, f);
              Val() == m.(mounts := m.mounts + [Mnt(msize, w)]) && c == Chan(|old(mounts)|, f)
    {
      if s.Some? {
        sessions := sessions[w := s.value];
      }
      Hold(w, f);
      mounts := mounts + [Mnt(msize, w)];
      return Chan(|mounts| - 1, f);
    }

    method AttachTo(t: Transport, wire: Wire, auth: bool, v: Answer, a: Answer) returns (res: Result<Chan>)
      modifies this, t
      ensures (Val(), t.srv, res) == Attach(old(Val()), old(t.srv), wire, auth, v, a)
    {
      var s := GetSession(t, wire, v);
      if s.Err? {
        return Err(s.error);
      }
      hide Session;
      var f := NewFid();
      t.Rpc(wire.key, if auth then Tauth(f) else Tattach(f), a);
      if a.Rerror? {
        return Err(a.ename);
      }
      if a != (if auth then Rauth else Rattach) {
        return Err("not Rattach");
      }
      var c := AddMount(wire.key, s.value.0, s.value.1, f);
      return Ok(c);
    }

    /** The rest of a walk of one name. */
    method WalkOne(w: WireKey, c: Chan, f: nat, n: nat) returns (res: Result<Option<Chan>>)
      modifies this
      ensures Val() == (if n > 0 then old(Val()).Hold(w, f) else old(Val()))
      ensures res == Ok(if n > 0 then Some(Chan(c.devno, f)) else None)
    {
      if n == 0 {
        return Ok(None);
      }
      Hold(w, f);
      return Ok(Some(Chan(c.devno, f)));
    }

    /** The rest of a walk of several. */
    method WalkSeveral(w: WireKey, c: Chan, f: nat, names: nat, n: nat) returns (res: Result<Option<Chan>>)
      modifies this
      ensures var reached := Several(names).Reached(n);
              && Val() == (if reached == Ok(true) then old(Val()).Hold(w, f) else old(Val()))
              && res == if reached.Err? then Err(reached.error) else Ok(if reached.value then Some(Chan(c.devno, f)) else None)
    {
      if n > names {
        return Err("too many QIDs returned by walk");
      }
      if n == 0 && names > 0 {
        return Err(ENONEXIST);
      }
      if n < names {
        return Ok(None);
      }
      Hold(w, f);
      return Ok(Some(Chan(c.devno, f)));
    }

    method WalkNames(t: Transport, c: Chan, how: Steps, a: Answer) returns (res: Result<Option<Chan>>)
      modifies this, t
      ensures (Val(), t.srv, res) == Walk(old(Val()), old(t.srv), c, how, a)
    {
      var f := NewFid();
      if c.devno >= |mounts| {
        return Err(ENOTMOUNTED);
      }
      var w := mounts[c.devno].wire;
      t.Rpc(w, Twalk(c.fid, f, how.Names()), a);
      if a.Rerror? {
        return Err(a.ename);
      }
      if !a.Rwalk? {
        return Err("unexpected reply");
      }
      if how.One? {
        res := WalkOne(w, c, f, a.n);
      } else if how.Same? {
        Hold(w, f);
        res := Ok(Some(Chan(c.devno, f)));
      } else {
        res := WalkSeveral(w, c, f, how.n, a.n);
      }
    }

    method ClunkFid(t: Transport, c: Chan, remove: bool, a: Answer) returns (res: Result<()>)
      modifies this, t
      ensures (Val(), t.srv, res) == Clunk(old(Val()), old(t.srv), c, remove, a)
    {
      if c.devno >= |mounts| {
        return Err(ENOTMOUNTED);
      }
      t.Rpc(mounts[c.devno].wire, if remove then Tremove(c.fid) else Tclunk(c.fid), a);
      res := if a.Rerror? then Err(a.ename) else Ok(());
      LetGo(c);
    }
  }
}
