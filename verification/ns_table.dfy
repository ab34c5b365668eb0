/**
  The mount table as it is kept (kernel/src/ns.rs): heads are objects, shared with
  the channels of open union directories, and the operations change them in place.
 */
module Namespaces {
  import opened ProcTable
  import opened MountTable
  import opened MountTableProofs

  /** The counter mount ids are drawn from, one for every namespace. */
  class MountIds {
    var next: nat

    constructor ()
      ensures next == 1
    {
      next := 1;
    }

    method New() returns (id: nat)
      modifies this
      ensures id == old(next) && next == old(next) + 1
    {
      id := next;
      next := next + 1;
    }
  }

  class Mhead {
    var from: Option<Chan>
    var mount: seq<Element>

    function Val(): Head
      reads this
    {
      Head(from, mount)
    }

    constructor (from: Option<Chan>, mount: seq<Element>)
      ensures Val() == Head(from, mount)
    {
      this.from, this.mount := from, mount;
    }

    /** What it held: the channel mounted upon, and its elements'. It lists nothing from here on. */
    method Empty() returns (own: Option<Chan>, gone: seq<Chan>)
      modifies this
      ensures own == old(from) && gone == Chans(old(mount)) && Val() == Head(None, [])
    {
      own, gone := from, Chans(mount);
      from, mount := None, [];
    }
  }

  function Vals(chain: seq<Mhead>): (r: seq<Head>)
    reads chain
    ensures |r| == |chain| && forall i :: 0 <= i < |r| ==> r[i] == chain[i].Val()
  {
    seq(|chain|, i requires 0 <= i < |chain| reads chain => chain[i].Val())
  }

  /** No object is in two places. */
  ghost predicate Apart(hash: seq<seq<Mhead>>) {
    forall b, i, b', i' ::
      0 <= b < |hash| && 0 <= i < |hash[b]| && 0 <= b' < |hash| && 0 <= i' < |hash[b']| && (b != b' || i != i') ==>
        hash[b][i] != hash[b'][i']
  }

  lemma PushApart(hash: seq<seq<Mhead>>, b: nat, h: Mhead)
    requires Apart(hash) && b < |hash| && forall c, i :: 0 <= c < |hash| && 0 <= i < |hash[c]| ==> hash[c][i] != h
    ensures Apart(hash[b := hash[b] + [h]])
  {
  }

  /** Take an object out of a chain, wherever it is. */
  function Retain(chain: seq<Mhead>, h: Mhead): seq<Mhead> {
    if chain == [] then [] else (if chain[0] == h then [] else [chain[0]]) + Retain(chain[1..], h)
  }

  lemma {:induction false} RetainNone(chain: seq<Mhead>, h: Mhead)
    requires h !in chain
    ensures Retain(chain, h) == chain
  {
    if chain != [] {
      RetainNone(chain[1..], h);
    }
  }

  lemma {:induction false} RetainOne(chain: seq<Mhead>, i: nat)
    requires i < |chain| && forall j :: 0 <= j < |chain| && j != i ==> chain[j] != chain[i]
    ensures Retain(chain, chain[i]) == chain[..i] + chain[i + 1..]
  {
    var rest := chain[1..];
    if i == 0 {
      RetainNone(rest, chain[0]);
    } else {
      RetainOne(rest, i - 1);
      assert chain[..i] + chain[i + 1..] == [chain[0]] + (rest[..i - 1] + rest[i..]);
    }
  }

  /** With a first head for the file at the end of its chain. */
  ghost function Added(ns: Ns, on: Chan, how: Bind): Ns
    requires |ns.chains| == MNTHASH
  {
    var b := Mounth(on);
    Ns(ns.chains[b := ns.chains[b] + [FirstHead(on, how, ns.next)]], if how == Replace then ns.next else ns.next + 1)
  }

  /** A bind in two steps: the head found or made, and then its list. */
  ghost predicate HeadMade(ns: Ns, on: Chan, how: Bind, mid: Ns, i: nat)
    requires |ns.chains| == MNTHASH
  {
    var chain := ns.chains[Mounth(on)];
    && i == Index(chain, on)
    && mid == if i < |chain| then ns else Added(ns, on, how)
  }

  /** The head there is, or the one put at the end of the chain. */
  lemma HeadThere(ns: Ns, on: Chan, how: Bind)
    requires |ns.chains| == MNTHASH
    ensures var i := Index(ns.chains[Mounth(on)], on);
            i <= |ns.chains[Mounth(on)]| && HeadMade(ns, on, how, if i < |ns.chains[Mounth(on)]| then ns else Added(ns, on, how), i)
  {
  }

  lemma CmountInSteps(ns: Ns, on: Chan, to: Element, union: seq<Element>, how: Bind, mid: Ns, i: nat)
    requires |ns.chains| == MNTHASH && !Refused(on, to, union, how) && HeadMade(ns, on, how, mid, i)
    ensures var b := Mounth(on);
            && i < |mid.chains[b]|
            && var h, group := mid.chains[b][i], Numbered(Group(to, union, how), mid.next);
               Cmount(ns, on, to, union, how) ==
                 (Ns(mid.chains[b := mid.chains[b][i := h.(mount := Joined(h.mount, group, how))]], mid.next + |group|),
                  Ok((group[0].mountid, if how == Replace then Chans(h.mount) else [])))
  {
    hide Joined, Refused;
    var b := Mounth(on);
    var h, group := mid.chains[b][i], Numbered(Group(to, union, how), mid.next);
    var c := mid.chains[b][i := h.(mount := Joined(h.mount, group, how))];
    assert mid.chains[b := c] == ns.chains[b := c];
  }

  /** The first `b` chains are empty, and the rest as they were. */
  ghost predicate EmptyTo(was: Chains, now: Chains, b: nat) {
    && b <= |was| == |now|
    && (forall c :: 0 <= c < b ==> now[c] == [])
    && (forall c :: b <= c < |now| ==> now[c] == was[c])
  }

  lemma EmptyNext(was: Chains, now: Chains, b: nat)
    requires EmptyTo(was, now, b) && b < |was|
    ensures now[b] == was[b] && EmptyTo(was, now[b := []], b + 1)
  {
  }

  lemma NextDrained(was: seq<Head>, i: nat)
    requires i < |was|
    ensures HeldBy(was[..i + 1]) == HeldBy(was[..i]) + OptSeq(was[i].from) + Chans(was[i].mount)
  {
    assert was[..i + 1] == was[..i] + [was[i]];
    HeldAppend(was[..i], [was[i]]);
    OneHead(was[i]);
  }

  lemma NextHeld(was: Chains, b: nat)
    requires b < |was|
    ensures HeldBy(Heads(was[..b + 1])) == HeldBy(Heads(was[..b])) + HeldBy(was[b])
  {
    assert was[..b + 1] == was[..b] + [was[b]];
    HeadsAppend(was[..b], [was[b]]);
    assert Heads([was[b]]) == was[b];
    HeldAppend(Heads(was[..b]), was[b]);
  }

  class Namespace {
    var mnthash: seq<seq<Mhead>>
    const ids: MountIds

    ghost function Objs(): set<Mhead>
      reads this
    {
      set b, i | 0 <= b < |mnthash| && 0 <= i < |mnthash[b]| :: mnthash[b][i]
    }

    function Chains(): (r: Chains)
      reads this, Objs()
      ensures |r| == |mnthash| && forall b :: 0 <= b < |r| ==> r[b] == Vals(mnthash[b])
    {
      seq(|mnthash|, b requires 0 <= b < |mnthash| reads this, Objs() => Vals(mnthash[b]))
    }

    function State(): Ns
      reads this, Objs(), ids
    {
      Ns(Chains(), ids.next)
    }

    /** No head is in two places. */
    ghost predicate Shape()
      reads this
    {
      |mnthash| == MNTHASH && Apart(mnthash)
    }

    constructor (ids: MountIds)
      ensures Shape() && Objs() == {} && State() == Ns(NewNs, ids.next) && this.ids == ids
    {
      mnthash, this.ids := seq(MNTHASH, b => []), ids;
      new;
      assert State().chains == NewNs;
    }

    method Search(on: Chan) returns (i: nat)
      requires Shape()
      ensures i == Index(Chains()[Mounth(on)], on)
    {
      i := 0;
      var chain := mnthash[Mounth(on)];
      while i < |chain| && !(chain[i].from.Some? && Eqchan(chain[i].from.value, on))
        invariant i <= |chain|
        invariant forall k :: 0 <= k < i ==> !chain[k].Val().On(on)
      {
        i := i + 1;
      }
    }

    /** The head on this file, which the caller may keep. */
    method Find(on: Chan) returns (h: Option<Mhead>)
      requires Shape()
      ensures h.Some? ==> h.value in Objs()
      ensures (if h.Some? then Some(h.value.Val()) else None) == Findmount(State(), on)
    {
      var i := Search(on);
      var chain := mnthash[Mounth(on)];
      if i < |chain| && chain[i].mount != [] {
        return Some(chain[i]);
      }
      return None;
    }

    /** A new head at the end of a chain. */
    method Push(b: nat, h: Mhead)
      requires Shape() && b < MNTHASH && h !in Objs()
      modifies this`mnthash
      ensures Shape() && h in Objs() && old(Objs()) <= Objs() <= old(Objs()) + {h} && mnthash == old(mnthash)[b := old(mnthash)[b] + [h]]
      ensures Chains() == old(Chains())[b := old(Chains())[b] + [h.Val()]]
    {
      ghost var was := Chains();
      PushApart(mnthash, b, h);
      hide Apart;
      mnthash := mnthash[b := mnthash[b] + [h]];
      assert mnthash[b][|mnthash[b]| - 1] == h;
      assert forall c, i :: 0 <= c < |mnthash| && 0 <= i < |mnthash[c]| ==> mnthash[c][i] == h || mnthash[c][i] == old(mnthash)[c][i];
      assert forall c, i :: 0 <= c < |mnthash| && 0 <= i < |old(mnthash)[c]| ==> old(mnthash)[c][i] == mnthash[c][i];
      assert forall c :: 0 <= c < |mnthash| && c != b ==> Chains()[c] == was[c];
      assert Chains()[b] == was[b] + [h.Val()];
    }

    /** A head's list, replaced. */
    method SetMount(b: nat, i: nat, list: seq<Element>)
      requires Shape() && b < MNTHASH && i < |mnthash[b]|
      modifies mnthash[b][i]
      ensures Shape()
      ensures Chains() == old(Chains())[b := old(Chains())[b][i := old(Chains())[b][i].(mount := list)]]
    {
      ghost var was := Chains();
      mnthash[b][i].mount := list;
      assert forall c :: 0 <= c < |mnthash| && c != b ==> Chains()[c] == was[c];
      assert Chains()[b] == was[b][i := was[b][i].(mount := list)];
    }

    /** Each element numbered as it is made. */
    method Number(es: seq<Element>) returns (r: seq<Element>)
      modifies ids
      ensures r == Numbered(es, old(ids.next)) && ids.next == old(ids.next) + |es|
    {
      r := es;
      var k := 0;
      while k < |r|
        invariant 0 <= k <= |r| == |es| && ids.next == old(ids.next) + k
        invariant forall j :: 0 <= j < k ==> r[j] == es[j].(mountid := old(ids.next) + j)
        invariant forall j :: k <= j < |r| ==> r[j] == es[j]
      {
        var id := ids.New();
        r := r[k := r[k].(mountid := id)];
        k := k + 1;
      }
    }

    /** A head for a file with nothing on it, which begins as the file itself unless it is replaced. */
    method NewHead(on: Chan, how: Bind) returns (h: Mhead)
      modifies ids
      ensures fresh(h) && h.Val() == FirstHead(on, how, old(ids.next))
      ensures ids.next == if how == Replace then old(ids.next) else old(ids.next) + 1
    {
      var mount := [];
      if how != Replace {
        var id := ids.New();
        mount := [Shared(on, MREPL, "").(mountid := id)];
      }
      h := new Mhead(Some(on), mount);
    }

    method AddHead(on: Chan, how: Bind)
      requires Shape()
      modifies this`mnthash, ids
      ensures Shape() && old(Objs()) <= Objs() && fresh(Objs() - old(Objs()))
      ensures |mnthash[Mounth(on)]| == |old(mnthash)[Mounth(on)]| + 1
      ensures State() == Added(old(State()), on, how)
    {
      hide Apart, FirstHead;
      ghost var was := Chains();
      var h := NewHead(on, how);
      assert Chains() == was;
      Push(Mounth(on), h);
    }

    /** The head for a bind: the one there is, or a new one. */
    method HeadFor(on: Chan, how: Bind) returns (i: nat)
      requires Shape()
      modifies this`mnthash, ids
      ensures Shape() && old(Objs()) <= Objs() && fresh(Objs() - old(Objs()))
      ensures i == Index(old(Chains())[Mounth(on)], on) < |mnthash[Mounth(on)]|
      ensures HeadMade(old(State()), on, how, State(), i)
    {
      hide Apart, HeadMade, Index, Added;
      i := Search(on);
      HeadThere(State(), on, how);
      if i == |mnthash[Mounth(on)]| {
        AddHead(on, how);
      }
    }

    /** The new elements numbered, and put where the bind says; their first id, and what they replaced. */
    method Join(b: nat, i: nat, es: seq<Element>, how: Bind) returns (id: nat, gone: seq<Chan>)
      requires Shape() && b < MNTHASH && i < |mnthash[b]| && es != []
      modifies mnthash[b][i], ids
      ensures Shape()
      ensures var h, group := old(Chains())[b][i], Numbered(es, old(ids.next));
              && Chains() == old(Chains())[b := old(Chains())[b][i := h.(mount := Joined(h.mount, group, how))]]
              && ids.next == old(ids.next) + |group|
              && id == group[0].mountid && gone == if how == Replace then Chans(h.mount) else []
    {
      ghost var was := Chains();
      var group := Number(es);
      assert Chains() == was;
      id := group[0].mountid;
      var list := mnthash[b][i].mount;
      assert Head(mnthash[b][i].from, list) == was[b][i];
      gone := if how == Replace then Chans(list) else [];
      SetMount(b, i, Joined(list, group, how));
    }

    method Put(on: Chan, es: seq<Element>, how: Bind, ghost to: Element, ghost union: seq<Element>) returns (id: nat, gone: seq<Chan>)
      requires Shape() && !Refused(on, to, union, how) && es == Group(to, union, how)
      modifies this`mnthash, Objs(), ids
      ensures Shape() && old(Objs()) <= Objs() && fresh(Objs() - old(Objs()))
      ensures (State(), Ok((id, gone))) == Cmount(old(State()), on, to, union, how)
    {
      hide Refused, Cmount, HeadMade, Joined;
      ghost var was := State();
      var i := HeadFor(on, how);
      ghost var mid, objs := State(), Objs();
      CmountInSteps(was, on, to, union, how, mid, i);
      id, gone := Join(Mounth(on), i, es, how);
      assert Objs() == objs;
      assert State() == Cmount(was, on, to, union, how).0;
    }

    method Bind(on: Chan, to: Element, union: seq<Element>, how: Bind) returns (res: Result<(nat, seq<Chan>)>)
      requires Shape()
      modifies this`mnthash, Objs(), ids
      ensures Shape() && old(Objs()) <= Objs() && fresh(Objs() - old(Objs()))
      ensures (State(), res) == Cmount(old(State()), on, to, union, how)
    {
      if Refused(on, to, union, how) {
        return Err(EMOUNT);
      }
      var id, gone := Put(on, Group(to, union, how), how, to, union);
      return Ok((id, gone));
    }

    /** A head off its chain, whichever that is. */
    method Unlink(ghost b: nat, ghost i: nat, h: Mhead)
      requires Shape() && b < MNTHASH && i < |mnthash[b]| && h == mnthash[b][i]
      modifies this`mnthash
      ensures Shape() && Objs() == old(Objs()) - {h}
      ensures mnthash == old(mnthash)[b := old(mnthash)[b][..i] + old(mnthash)[b][i + 1..]]
    {
      var c := 0;
      while c < |mnthash|
        invariant 0 <= c <= |mnthash| == MNTHASH
        invariant forall d :: c <= d < MNTHASH ==> mnthash[d] == old(mnthash)[d]
        invariant forall d :: 0 <= d < c && d != b ==> mnthash[d] == old(mnthash)[d]
        invariant b < c ==> mnthash[b] == old(mnthash)[b][..i] + old(mnthash)[b][i + 1..]
      {
        if c == b {
          RetainOne(mnthash[c], i);
        } else {
          RetainNone(mnthash[c], h);
        }
        mnthash := mnthash[c := Retain(mnthash[c], h)];
        c := c + 1;
      }
      ghost var chain := old(mnthash)[b];
      assert forall j :: 0 <= j < |mnthash[b]| ==> mnthash[b][j] == if j < i then chain[j] else chain[j + 1];
      forall x | x in old(Objs()) && x != h
        ensures x in Objs()
      {
        var d, j :| 0 <= d < MNTHASH && 0 <= j < |old(mnthash)[d]| && old(mnthash)[d][j] == x;
        assert mnthash[d][if d == b && j > i then j - 1 else j] == x;
      }
    }

    /** A head emptied, and off its chain; what it held. */
    method Detach(b: nat, i: nat) returns (own: Option<Chan>, gone: seq<Chan>)
      requires Shape() && b < MNTHASH && i < |mnthash[b]|
      modifies this`mnthash, mnthash[b][i]
      ensures Shape() && Objs() == old(Objs()) - {old(mnthash[b][i])} && old(mnthash[b][i]).Val() == Head(None, [])
      ensures own == old(Chains())[b][i].from && gone == Chans(old(Chains())[b][i].mount)
      ensures Chains() == old(Chains())[b := old(Chains())[b][..i] + old(Chains())[b][i + 1..]]
    {
      ghost var was, hash := Chains(), mnthash;
      var h := mnthash[b][i];
      Unlink(b, i, h);
      assert forall c :: 0 <= c < MNTHASH && c != b ==> Chains()[c] == was[c];
      assert forall j :: 0 <= j < |mnthash[b]| ==> mnthash[b][j] == hash[b][if j < i then j else j + 1];
      assert Chains()[b] == was[b][..i] + was[b][i + 1..];
      hide Shape, Objs;
      own, gone := h.Empty();
    }

    /** Which of the elements matches first. */
    method FirstMatch(list: seq<Element>, matches: Chan -> bool) returns (k: nat)
      ensures k == Match(list, matches)
    {
      k := 0;
      while k < |list| && !matches(list[k].chan)
        invariant 0 <= k <= |list|
        invariant forall j :: 0 <= j < k ==> !matches(list[j].chan)
      {
        k := k + 1;
      }
    }

    /** One element of a head taken off, and the head with the last. */
    method TakeOff(b: nat, i: nat, k: nat) returns (gone: seq<Chan>)
      requires Shape() && b < MNTHASH && i < |mnthash[b]| && k < |mnthash[b][i].mount|
      modifies this`mnthash, mnthash[b][i]
      ensures Shape() && Objs() <= old(Objs())
      ensures forall h :: h in old(Objs()) - Objs() ==> h == old(mnthash[b][i]) && h.Val() == Head(None, [])
      ensures var chain := old(Chains())[b];
              var h := chain[i];
              var rest := h.mount[..k] + h.mount[k + 1..];
              if rest == [] then
                Chains() == old(Chains())[b := chain[..i] + chain[i + 1..]] && gone == [h.mount[k].chan] + OptSeq(h.from)
              else
                Chains() == old(Chains())[b := chain[i := h.(mount := rest)]] && gone == [h.mount[k].chan]
    {
      hide Apart;
      assert mnthash[b][i].Val() == Chains()[b][i];
      var list := mnthash[b][i].mount;
      var rest := list[..k] + list[k + 1..];
      if rest == [] {
        var own, _ := Detach(b, i);
        return [list[k].chan] + OptSeq(own);
      }
      SetMount(b, i, rest);
      return [list[k].chan];
    }

    /** `unmount`: of everything on the file, or of the first that matches. A head let go of lists nothing. */
    method Unmount(on: Chan, matches: Option<Chan -> bool>) returns (res: Result<seq<Chan>>)
      requires Shape()
      modifies this`mnthash, Objs()
      ensures Shape() && Objs() <= old(Objs())
      ensures forall h :: h in old(Objs()) - Objs() ==> h.Val() == Head(None, [])
      ensures (State(), res) == Cunmount(old(State()), on, matches)
    {
      hide Apart, Index, Match;
      var b := Mounth(on);
      var i := Search(on);
      if i == |mnthash[b]| {
        return Err(EUNMOUNT);
      }
      if matches.None? {
        var own, gone := Detach(b, i);
        return Ok(gone + OptSeq(own));
      }
      assert mnthash[b][i].Val() == Chains()[b][i];
      var k := FirstMatch(mnthash[b][i].mount, matches.value);
      if k == |mnthash[b][i].mount| {
        return Err(EUNION);
      }
      var gone := TakeOff(b, i, k);
      return Ok(gone);
    }

    /** One chain's heads emptied, in order; what they held. */
    method Drain(chain: seq<Mhead>) returns (out: seq<Chan>)
      requires forall i, j :: 0 <= i < j < |chain| ==> chain[i] != chain[j]
      modifies chain
      ensures out == HeldBy(old(Vals(chain))) && forall h :: h in chain ==> h.Val() == Head(None, [])
    {
      out := [];
      ghost var was := Vals(chain);
      var i := 0;
      while i < |chain|
        invariant 0 <= i <= |chain|
        invariant out == HeldBy(was[..i])
        invariant forall j :: 0 <= j < i ==> chain[j].Val() == Head(None, [])
        invariant forall j :: i <= j < |chain| ==> chain[j].Val() == was[j]
      {
        NextDrained(was, i);
        hide HeldBy;
        var own, gone := chain[i].Empty();
        out := out + OptSeq(own) + gone;
        i := i + 1;
      }
      assert was[..i] == was;
    }

    /** One chain let go of. */
    method CloseChain(b: nat) returns (out: seq<Chan>)
      requires Shape() && b < MNTHASH
      modifies this`mnthash, mnthash[b]
      ensures Shape() && Chains() == old(Chains())[b := []] && out == HeldBy(old(Chains())[b])
      ensures Objs() <= old(Objs())
      ensures forall h :: h in old(Objs()) - Objs() ==> h in old(mnthash[b]) && h.Val() == Head(None, [])
    {
      ghost var was, hash := Chains(), mnthash;
      out := Drain(mnthash[b]);
      mnthash := mnthash[b := []];
      assert forall c :: 0 <= c < MNTHASH && c != b ==> mnthash[c] == hash[c] && Chains()[c] == was[c];
      assert forall c, i :: 0 <= c < MNTHASH && c != b && 0 <= i < |hash[c]| ==> hash[c][i] == mnthash[c][i];
    }

    /** `closepgrp`: everything let go of, and every head emptied. */
    method Close() returns (out: seq<Chan>)
      requires Shape()
      modifies this`mnthash, Objs()
      ensures Shape() && Objs() <= old(Objs()) && (forall h :: h in old(Objs()) ==> h.Val() == Head(None, []))
      ensures (State(), out) == Closepgrp(old(State()))
    {
      out := [];
      ghost var was := Chains();
      var b := 0;
      while b < |mnthash|
        invariant 0 <= b <= |mnthash| == MNTHASH && Shape() && Objs() <= old(Objs())
        invariant out == HeldBy(Heads(was[..b]))
        invariant EmptyTo(was, Chains(), b)
        invariant forall h :: h in old(Objs()) && h !in Objs() ==> h.Val() == Head(None, [])
      {
        hide Heads, HeldBy;
        NextHeld(was, b);
        assert forall h :: h in mnthash[b] ==> h in Objs() by {
          assert forall i :: 0 <= i < |mnthash[b]| ==> mnthash[b][i] in Objs();
        }
        EmptyNext(was, Chains(), b);
        hide Shape, Objs, EmptyTo;
        var gone := CloseChain(b);
        out := out + gone;
        b := b + 1;
      }
      assert was[..b] == was;
      assert Chains() == NewNs;
      assert forall h :: h !in Objs();
    }
  }
}
