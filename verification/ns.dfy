/**
  The mount table (kernel/src/ns.rs) as a value: 32 chains of mount heads, and a
  function for each operation on them. ns_table.dfy has the mutable table, each
  of whose methods is proved to be that function.
 */
module MountTable {
  import opened ProcTable

  const MNTHASH: nat := 32

  const MREPL := 0
  const MBEFORE := 1
  const MAFTER := 2

  /** The bits of `MMASK`, 0x17. */
  function Masked(flag: int): int {
    flag % 8 + flag / 16 % 2 * 16
  }

  const EMOUNT := "inconsistent mount"
  const EUNMOUNT := "not mounted"
  const EUNION := "not in union"

  /** `ref` is which channel it is: two with the same contents are still two. */
  datatype Chan = Chan(ref: nat, dev: nat, devno: nat, path: nat, qtype: nat, vers: nat, name: string)
  {
    predicate IsDir() {
      qtype / 128 % 2 == 1
    }
  }

  /** What a file is, to the mount table: not its version, nor the name it was reached by. */
  datatype Key = Key(dev: nat, devno: nat, path: nat, qtype: nat)

  function KeyOf(c: Chan): Key {
    Key(c.dev, c.devno, c.path, c.qtype)
  }

  predicate Eqchan(a: Chan, b: Chan) {
    a.path == b.path && a.qtype == b.qtype && a.dev == b.dev && a.devno == b.devno
  }

  /** Which chain: the low five bits of the path. */
  function Mounth(c: Chan): nat {
    c.path % MNTHASH
  }

  datatype Bind = Replace | Before | After

  datatype Element = Element(chan: Chan, mflag: int, spec: string, mountid: nat)
  {
    /** The `MCREATE` bit. */
    predicate Create() {
      mflag / 4 % 2 == 1
    }
  }

  function Shared(c: Chan, flag: int, spec: string): Element {
    Element(c, Masked(flag), spec, 0)
  }

  datatype Head = Head(from: Option<Chan>, mount: seq<Element>)
  {
    predicate On(c: Chan) {
      from.Some? && Eqchan(from.value, c)
    }
  }

  type Chains = seq<seq<Head>>

  /** `next` is the next mount id. */
  datatype Ns = Ns(chains: Chains, next: nat)

  /** Where on its chain the head for `on` is; the length of the chain if nowhere. */
  function Index(chain: seq<Head>, on: Chan): (i: nat)
    ensures i <= |chain|
    ensures i < |chain| ==> chain[i].On(on)
    ensures forall k :: 0 <= k < i ==> !chain[k].On(on)
  {
    if chain == [] || chain[0].On(on) then 0 else Index(chain[1..], on) + 1
  }

  function Lookup(ns: Ns, on: Chan): Option<Head>
    requires |ns.chains| == MNTHASH
  {
    var chain := ns.chains[Mounth(on)];
    var i := Index(chain, on);
    if i < |chain| then Some(chain[i]) else None
  }

  function Findmount(ns: Ns, on: Chan): Option<Head>
    requires |ns.chains| == MNTHASH
  {
    var h := Lookup(ns, on);
    if h.Some? && h.value.mount != [] then h else None
  }

  function Elements(ns: Ns, on: Chan): Option<seq<Element>>
    requires |ns.chains| == MNTHASH
  {
    var h := Findmount(ns, on);
    if h.Some? then Some(h.value.mount) else None
  }

  function FirstCreate(es: seq<Element>): (r: Option<Element>)
    ensures r.None? <==> forall e :: e in es ==> !e.Create()
    ensures r.Some? ==> exists i :: 0 <= i < |es| && r == Some(es[i]) && es[i].Create() && forall j :: 0 <= j < i ==> !es[j].Create()
  {
    if es == [] then
      None
    else if es[0].Create() then
      Some(es[0])
    else
      var r := FirstCreate(es[1..]);
      assert forall i :: 0 <= i < |es| - 1 ==> es[1..][i] == es[i + 1];
      r
  }

  function CreateElement(ns: Ns, on: Chan): Option<Element>
    requires |ns.chains| == MNTHASH
  {
    var es := Elements(ns, on);
    if es.Some? then FirstCreate(es.value) else None
  }

  function Chans(es: seq<Element>): (cs: seq<Chan>)
    ensures |cs| == |es|
  {
    seq(|es|, i requires 0 <= i < |es| => es[i].chan)
  }

  /** Numbered in order, from `next`. */
  function Numbered(es: seq<Element>, next: nat): (r: seq<Element>)
    ensures |r| == |es|
    ensures forall i :: 0 <= i < |r| ==> r[i] == es[i].(mountid := next + i)
  {
    seq(|es|, i requires 0 <= i < |es| => es[i].(mountid := next + i))
  }

  /** What a bind makes refuse. */
  predicate Refused(on: Chan, to: Element, union: seq<Element>, how: Bind) {
    || on.IsDir() != to.chan.IsDir()
    || (!on.IsDir() && how != Replace)
    || (to.Create() && union != [] && (|union| > 1 || !union[0].Create()))
  }

  /** The new element, and the rest of the union it was reached through, flagged as the bind says. */
  function Group(to: Element, union: seq<Element>, how: Bind): (g: seq<Element>)
    ensures |g| == 1 + (if union == [] then 0 else |union| - 1) && g[0] == to
  {
    var flg := if how == Before then MBEFORE else MAFTER;
    [to] + seq(if union == [] then 0 else |union| - 1, i requires 0 <= i < |union| - 1 => Shared(union[i + 1].chan, flg, union[i + 1].spec))
  }

  /** The head on `on` before the bind's own elements: the directory itself, if a union is being made of it. */
  function FirstHead(on: Chan, how: Bind, next: nat): Head {
    Head(Some(on), if how == Replace then [] else [Shared(on, MREPL, "").(mountid := next)])
  }

  function Joined(list: seq<Element>, group: seq<Element>, how: Bind): seq<Element> {
    match how
    case Replace => group
    case Before => group + list
    case After => list + group
  }

  /** A bind or a mount: the new mount's id, and what was let go of. */
  function Cmount(ns: Ns, on: Chan, to: Element, union: seq<Element>, how: Bind): (r: (Ns, Result<(nat, seq<Chan>)>))
    requires |ns.chains| == MNTHASH
    ensures |r.0.chains| == MNTHASH
  {
    if Refused(on, to, union, how) then
      (ns, Err(EMOUNT))
    else
      var b := Mounth(on);
      var i := Index(ns.chains[b], on);
      var made := i == |ns.chains[b]|;
      var chain := if made then ns.chains[b] + [FirstHead(on, how, ns.next)] else ns.chains[b];
      var next := if made && how != Replace then ns.next + 1 else ns.next;
      var h := chain[i];
      var group := Numbered(Group(to, union, how), next);
      (Ns(ns.chains[b := chain[i := h.(mount := Joined(h.mount, group, how))]], next + |group|),
       Ok((next, if how == Replace then Chans(h.mount) else [])))
  }

  function Match(es: seq<Element>, matches: Chan -> bool): (i: nat)
    ensures i <= |es|
    ensures i < |es| ==> matches(es[i].chan)
    ensures forall k :: 0 <= k < i ==> !matches(es[k].chan)
  {
    if es == [] || matches(es[0].chan) then 0 else Match(es[1..], matches) + 1
  }

  function OptSeq<T>(o: Option<T>): seq<T> {
    if o.Some? then [o.value] else []
  }

  /** An unmount: of everything, or of the first element that matches; what was let go of. */
  function Cunmount(ns: Ns, on: Chan, matches: Option<Chan -> bool>): (r: (Ns, Result<seq<Chan>>))
    requires |ns.chains| == MNTHASH
    ensures |r.0.chains| == MNTHASH
  {
    var b := Mounth(on);
    var i := Index(ns.chains[b], on);
    if i == |ns.chains[b]| then
      (ns, Err(EUNMOUNT))
    else
      var h := ns.chains[b][i];
      var without := ns.(chains := ns.chains[b := ns.chains[b][..i] + ns.chains[b][i + 1..]]);
      if matches.None? then
        (without, Ok(Chans(h.mount) + OptSeq(h.from)))
      else
        var k := Match(h.mount, matches.value);
        if k == |h.mount| then
          (ns, Err(EUNION))
        else
          var rest := h.mount[..k] + h.mount[k + 1..];
          if rest == [] then
            (without, Ok([h.mount[k].chan] + OptSeq(h.from)))
          else
            (ns.(chains := ns.chains[b := ns.chains[b][i := h.(mount := rest)]]), Ok([h.mount[k].chan]))
  }

  /** The heads, chain by chain. */
  function Heads(chains: Chains): seq<Head> {
    if chains == [] then [] else chains[0] + Heads(chains[1..])
  }

  /** The channels a list of heads holds, each head's own first. */
  function HeldBy(hs: seq<Head>): seq<Chan> {
    if hs == [] then [] else OptSeq(hs[0].from) + Chans(hs[0].mount) + HeldBy(hs[1..])
  }

  function Closepgrp(ns: Ns): (r: (Ns, seq<Chan>)) {
    (ns.(chains := seq(MNTHASH, b => [])), HeldBy(Heads(ns.chains)))
  }

  const NewNs: Chains := seq(MNTHASH, b => [])

  // ---- the copy

  function AllElements(hs: seq<Head>): seq<Element> {
    if hs == [] then [] else hs[0].mount + AllElements(hs[1..])
  }

  function Ids(es: seq<Element>): (ids: seq<nat>)
    ensures |ids| == |es|
    ensures forall i :: 0 <= i < |ids| ==> ids[i] == es[i].mountid
  {
    seq(|es|, i requires 0 <= i < |es| => es[i].mountid)
  }
}
