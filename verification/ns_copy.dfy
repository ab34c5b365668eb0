/**
  A namespace copied (kernel/src/ns.rs): what a copy is, what follows from being
  one, and that copying makes one.
 */
module NamespaceCopy {
  import opened ProcTable
  import opened MountTable
  import opened MountTableProofs
  import opened Namespaces

  // ---- the order of the parent's mounts

  /** By mount id, and by place where ids are the same. */
  predicate Earlier(ids: seq<nat>, j: nat, k: nat)
    requires j < |ids| && k < |ids|
  {
    ids[j] < ids[k] || (ids[j] == ids[k] && j < k)
  }

  /** How many of the first `n` come before `k`. */
  function RankTo(ids: seq<nat>, n: nat, k: nat): (r: nat)
    requires n <= |ids| && k < |ids|
    ensures r <= n
  {
    if n == 0 then 0 else RankTo(ids, n - 1, k) + if Earlier(ids, n - 1, k) then 1 else 0
  }

  function Rank(ids: seq<nat>, k: nat): nat
    requires k < |ids|
  {
    RankTo(ids, |ids|, k)
  }

  lemma {:induction false} RankToGrows(ids: seq<nat>, n: nat, k: nat, l: nat)
    requires n <= |ids| && k < |ids| && l < |ids| && Earlier(ids, k, l)
    ensures RankTo(ids, n, k) + (if k < n then 1 else 0) <= RankTo(ids, n, l)
    ensures RankTo(ids, n, l) + (if l < n then 1 else 0) <= n
  {
    if n > 0 {
      RankToGrows(ids, n - 1, k, l);
    }
  }

  /** The rank orders as the ids do, and is a place in the list. */
  lemma RankOrders(ids: seq<nat>, k: nat, l: nat)
    requires k < |ids| && l < |ids|
    ensures Earlier(ids, k, l) <==> Rank(ids, k) < Rank(ids, l)
    ensures k != l ==> Rank(ids, k) != Rank(ids, l)
    ensures k != l ==> Rank(ids, l) < |ids|
  {
    if Earlier(ids, k, l) {
      RankToGrows(ids, |ids|, k, l);
    } else if k != l {
      RankToGrows(ids, |ids|, l, k);
    }
  }

  lemma {:induction false} RankBelow(ids: seq<nat>, n: nat, k: nat)
    requires n <= |ids| && k < |ids|
    ensures RankTo(ids, n, k) + (if k < n then 1 else 0) <= n
  {
    if n > 0 {
      RankBelow(ids, n - 1, k);
    }
  }

  /** In sorted order, each is at its rank. */
  lemma {:induction false} SortedAtRank(ids: seq<nat>, perm: seq<nat>, r: nat)
    requires |perm| == |ids| && r < |ids| && (forall i :: 0 <= i < |perm| ==> perm[i] < |ids|)
    requires forall i, j :: 0 <= i < j < |perm| ==> Earlier(ids, perm[i], perm[j])
    ensures Rank(ids, perm[r]) == r
  {
    RankAtLeast(ids, perm, r);
    RankAtMost(ids, perm, r);
  }

  lemma {:induction false} RankAtLeast(ids: seq<nat>, perm: seq<nat>, r: nat)
    requires |perm| == |ids| && r < |ids| && (forall i :: 0 <= i < |perm| ==> perm[i] < |ids|)
    requires forall i, j :: 0 <= i < j < |perm| ==> Earlier(ids, perm[i], perm[j])
    ensures Rank(ids, perm[r]) >= r
  {
    if r > 0 {
      RankAtLeast(ids, perm, r - 1);
      RankOrders(ids, perm[r - 1], perm[r]);
    }
  }

  lemma {:induction false} RankAtMost(ids: seq<nat>, perm: seq<nat>, r: nat)
    requires |perm| == |ids| && r < |ids| && (forall i :: 0 <= i < |perm| ==> perm[i] < |ids|)
    requires forall i, j :: 0 <= i < j < |perm| ==> Earlier(ids, perm[i], perm[j])
    ensures Rank(ids, perm[r]) <= r
    decreases |ids| - r
  {
    if r < |ids| - 1 {
      RankAtMost(ids, perm, r + 1);
      RankOrders(ids, perm[r], perm[r + 1]);
    } else {
      RankBelow(ids, |ids|, perm[r]);
    }
  }

  /** A stable sort by id: the places of the ids, in order. */
  method SortById(ids: seq<nat>) returns (perm: seq<nat>)
    ensures |perm| == |ids| && forall i :: 0 <= i < |perm| ==> perm[i] < |ids|
    ensures forall i, j :: 0 <= i < j < |perm| ==> Earlier(ids, perm[i], perm[j])
    ensures forall i, j :: 0 <= i < j < |perm| ==> perm[i] != perm[j]
  {
    perm := [];
    var k := 0;
    while k < |ids|
      invariant 0 <= k <= |ids| && |perm| == k
      invariant forall i :: 0 <= i < |perm| ==> perm[i] < k
      invariant forall i, j :: 0 <= i < j < |perm| ==> Earlier(ids, perm[i], perm[j])
    {
      var at := |perm|;
      while at > 0 && ids[perm[at - 1]] > ids[k]
        invariant 0 <= at <= |perm|
        invariant forall i :: at <= i < |perm| ==> ids[perm[i]] > ids[k]
      {
        at := at - 1;
      }
      perm := perm[..at] + [k] + perm[at..];
      k := k + 1;
    }
  }

  // ---- what a copy is

  predicate SameMount(e: Element, f: Element) {
    e.chan == f.chan && e.mflag == f.mflag && e.spec == f.spec
  }

  /** The same but for the mounts' ids. */
  ghost predicate SameHead(h: Head, g: Head) {
    h.from == g.from && |h.mount| == |g.mount| && forall i :: 0 <= i < |h.mount| ==> SameMount(h.mount[i], g.mount[i])
  }

  ghost predicate SameHeads(hs: seq<Head>, gs: seq<Head>) {
    |hs| == |gs| && forall i :: 0 <= i < |hs| ==> SameHead(hs[i], gs[i])
  }

  ghost predicate SameChains(a: Chains, b: Chains) {
    |a| == |b| && forall i :: 0 <= i < |a| ==> SameHeads(a[i], b[i])
  }

  function MountIdsOf(chains: Chains): seq<nat> {
    Ids(AllElements(Heads(chains)))
  }

  /** The same heads in the same places, numbered from after twice as many ids in the order of the parent's. */
  ghost predicate IsCopy(ns: Ns, copy: Ns) {
    && SameChains(ns.chains, copy.chains)
    && var was, now := MountIdsOf(ns.chains), MountIdsOf(copy.chains);
       && |now| == |was|
       && copy.next == ns.next + 2 * |was|
       && forall k :: 0 <= k < |was| ==> now[k] == ns.next + |was| + Rank(was, k)
  }

  // ---- what follows

  lemma {:induction false} SameFlat(a: Chains, b: Chains)
    requires SameChains(a, b)
    ensures SameHeads(Heads(a), Heads(b))
  {
    if a != [] {
      SameFlat(a[1..], b[1..]);
    }
  }

  lemma {:induction false} SameFind(hs: seq<Head>, gs: seq<Head>, k: Key)
    requires SameHeads(hs, gs)
    ensures Find(hs, k).Some? <==> Find(gs, k).Some?
    ensures Find(hs, k).Some? ==> SameHead(Find(hs, k).value, Find(gs, k).value)
  {
    if hs != [] {
      SameFind(hs[1..], gs[1..], k);
    }
  }

  lemma {:induction false} SameHeld(hs: seq<Head>, gs: seq<Head>)
    requires SameHeads(hs, gs)
    ensures HeldBy(hs) == HeldBy(gs)
  {
    if hs != [] {
      SameHeld(hs[1..], gs[1..]);
      assert Chans(hs[0].mount) == Chans(gs[0].mount);
    }
  }

  lemma SamePlaced(a: Chains, b: Chains)
    requires SameChains(a, b) && Placed(a)
    ensures Placed(b)
  {
    forall c, i | 0 <= c < |b| && 0 <= i < |b[c]|
      ensures b[c][i].from.Some? && Mounth(b[c][i].from.value) == c
    {
      assert SameHead(a[c][i], b[c][i]);
    }
  }

  lemma SameOneEach(hs: seq<Head>, gs: seq<Head>)
    requires SameHeads(hs, gs) && OneEach(hs)
    ensures OneEach(gs)
  {
    forall i, j | 0 <= i < j < |gs| && gs[i].from.Some? && gs[j].from.Some?
      ensures KeyOf(gs[i].from.value) != KeyOf(gs[j].from.value)
    {
      assert SameHead(hs[i], gs[i]) && SameHead(hs[j], gs[j]);
    }
  }

  lemma {:induction false} AllDifferent(s: seq<nat>)
    requires forall i, j :: 0 <= i < j < |s| ==> s[i] != s[j]
    ensures forall x :: x in multiset(s) ==> multiset(s)[x] == 1
  {
    if s != [] {
      var n := |s| - 1;
      assert s == s[..n] + [s[n]];
      AllDifferent(s[..n]);
    }
  }

  /** A copy answers every lookup with the same mounts, in the same order, and holds the same channels. */
  lemma CopyAnswersTheSame(ns: Ns, copy: Ns, on: Chan)
    requires Valid(ns) && IsCopy(ns, copy)
    ensures |copy.chains| == MNTHASH && (Lookup(copy, on).Some? <==> Lookup(ns, on).Some?)
    ensures Lookup(ns, on).Some? ==> SameHead(Lookup(ns, on).value, Lookup(copy, on).value)
    ensures Held(copy) == Held(ns)
  {
    hide OneEach, FreshIds, Heads, Find, Lookup, HeldBy, SameHead;
    SamePlaced(ns.chains, copy.chains);
    LookupIsSearch(ns, on);
    LookupIsSearch(copy, on);
    SameFlat(ns.chains, copy.chains);
    SameFind(Heads(ns.chains), Heads(copy.chains), KeyOf(on));
    SameHeld(Heads(ns.chains), Heads(copy.chains));
  }

  /** A copy's ids are new, no two the same, and in the order of the parent's. */
  lemma CopyKeepsOrder(ns: Ns, copy: Ns, k: nat, l: nat)
    requires Valid(ns) && IsCopy(ns, copy)
    requires k < |MountIdsOf(ns.chains)| && l < |MountIdsOf(ns.chains)|
    ensures var was, now := MountIdsOf(ns.chains), MountIdsOf(copy.chains);
            && |now| == |was|
            && ns.next <= now[k] < copy.next && now[k] !in was
            && (was[k] < was[l] <==> now[k] < now[l])
            && (k != l ==> now[k] != now[l])
  {
    hide Placed, OneEach, Heads, Ids, AllElements, SameChains;
    var was := MountIdsOf(ns.chains);
    RankOrders(was, k, l);
    RankBelow(was, |was|, k);
    assert forall x :: x in was ==> x in multiset(was);
    if k < l && was[k] == was[l] {
      Twice(was, k, l);
    } else if l < k && was[k] == was[l] {
      Twice(was, l, k);
    }
  }

  lemma Twice(s: seq<nat>, k: nat, l: nat)
    requires k < l < |s| && s[k] == s[l]
    ensures multiset(s)[s[k]] >= 2
  {
    assert s == s[..k] + [s[k]] + s[k + 1..l] + [s[l]] + s[l + 1..];
  }

  /** A copy is a namespace of its own: each head on its chain, one for a file, none empty. */
  lemma CopyIsValid(ns: Ns, copy: Ns)
    requires Valid(ns) && IsCopy(ns, copy)
    ensures Valid(copy)
  {
    var was, now := MountIdsOf(ns.chains), MountIdsOf(copy.chains);
    SamePlaced(ns.chains, copy.chains);
    SameFlat(ns.chains, copy.chains);
    SameOneEach(Heads(ns.chains), Heads(copy.chains));
    forall h | h in Heads(copy.chains)
      ensures h.mount != []
    {
      var i :| 0 <= i < |Heads(copy.chains)| && Heads(copy.chains)[i] == h;
      assert SameHead(Heads(ns.chains)[i], h);
    }
    hide Valid, Placed, OneEach, Heads, Ids, AllElements, SameChains, SameHeads, Rank;
    forall k, l | 0 <= k < l < |now|
      ensures now[k] != now[l]
    {
      CopyKeepsOrder(ns, copy, k, l);
    }
    AllDifferent(now);
    forall x | x in multiset(now)
      ensures x < copy.next
    {
      var k :| 0 <= k < |now| && now[k] == x;
      CopyKeepsOrder(ns, copy, k, k);
    }
    assert FreshIds(now, copy.next);
    assert Valid(copy) by { FromParts(copy, now); }
  }

  lemma FromParts(ns: Ns, ids: seq<nat>)
    requires Placed(ns.chains) && OneEach(Heads(ns.chains)) && (forall h :: h in Heads(ns.chains) ==> h.mount != [])
    requires ids == Ids(AllElements(Heads(ns.chains))) && FreshIds(ids, ns.next)
    ensures Valid(ns)
  {
  }

  // ---- copying

  /** Where the element at `k` of them all is: which head, and where on it. */
  function LocateHead(hs: seq<Head>, k: nat): (r: (nat, nat))
    requires k < |AllElements(hs)|
    ensures r.0 < |hs| && r.1 < |hs[r.0].mount| && hs[r.0].mount[r.1] == AllElements(hs)[k]
  {
    if k < |hs[0].mount| then (0, k) else var (j, e) := LocateHead(hs[1..], k - |hs[0].mount|); (j + 1, e)
  }

  lemma {:induction false} HeadUpdate(hs: seq<Head>, k: nat, x: Element)
    requires k < |AllElements(hs)|
    ensures var (j, e) := LocateHead(hs, k);
            AllElements(hs[j := hs[j].(mount := hs[j].mount[e := x])]) == AllElements(hs)[k := x]
  {
    var (j, e) := LocateHead(hs, k);
    var hs' := hs[j := hs[j].(mount := hs[j].mount[e := x])];
    if j == 0 {
      assert hs'[1..] == hs[1..];
    } else {
      HeadUpdate(hs[1..], k - |hs[0].mount|, x);
      assert hs'[1..] == hs[1..][j - 1 := hs[j].(mount := hs[j].mount[e := x])];
    }
  }

  function Locate(chains: Chains, k: nat): (r: (nat, nat, nat))
    requires k < |AllElements(Heads(chains))|
    ensures r.0 < |chains| && r.1 < |chains[r.0]| && r.2 < |chains[r.0][r.1].mount|
    ensures chains[r.0][r.1].mount[r.2] == AllElements(Heads(chains))[k]
  {
    ElementsAppend(chains[0], Heads(chains[1..]));
    var n := |AllElements(chains[0])|;
    if k < n then
      var (j, e) := LocateHead(chains[0], k);
      (0, j, e)
    else
      var (b, j, e) := Locate(chains[1..], k - n);
      (b + 1, j, e)
  }

  function WithMount(chains: Chains, b: nat, i: nat, list: seq<Element>): Chains
    requires b < |chains| && i < |chains[b]|
  {
    chains[b := chains[b][i := chains[b][i].(mount := list)]]
  }

  /** Renumbering the element at `k` changes that one alone. */
  lemma {:induction false} ChainUpdate(chains: Chains, k: nat, x: Element)
    requires k < |AllElements(Heads(chains))|
    ensures var (b, i, e) := Locate(chains, k);
            AllElements(Heads(WithMount(chains, b, i, chains[b][i].mount[e := x]))) == AllElements(Heads(chains))[k := x]
  {
    var (b, i, e) := Locate(chains, k);
    var chains' := WithMount(chains, b, i, chains[b][i].mount[e := x]);
    ElementsAppend(chains[0], Heads(chains[1..]));
    ElementsAppend(chains'[0], Heads(chains'[1..]));
    var n := |AllElements(chains[0])|;
    if k < n {
      HeadUpdate(chains[0], k, x);
      assert chains'[1..] == chains[1..];
    } else {
      ChainUpdate(chains[1..], k - n, x);
      assert chains'[1..] == WithMount(chains[1..], b - 1, i, chains[b][i].mount[e := x]);
    }
  }

  lemma NextHead(was: seq<Head>, now: seq<Head>, i: nat, g: Head)
    requires i < |was| && SameHeads(was[..i], now) && SameHead(was[i], g)
    ensures SameHeads(was[..i + 1], now + [g])
    ensures Ids(AllElements(was[..i + 1])) == Ids(AllElements(was[..i])) + Ids(was[i].mount)
  {
    assert was[..i + 1] == was[..i] + [was[i]];
    ElementsAppend(was[..i], [was[i]]);
    OneHead(was[i]);
    IdsAppend(AllElements(was[..i]), was[i].mount);
  }

  lemma NextChain(was: Chains, b: nat)
    requires b < |was|
    ensures MountIdsOf(was[..b + 1]) == MountIdsOf(was[..b]) + Ids(AllElements(was[b]))
  {
    assert was[..b + 1] == was[..b] + [was[b]];
    HeadsAppend(was[..b], [was[b]]);
    assert Heads([was[b]]) == was[b];
    ElementsAppend(Heads(was[..b]), was[b]);
    IdsAppend(AllElements(Heads(was[..b])), AllElements(was[b]));
  }

  /** One head copied, its mounts numbered as they are made. */
  method CopyHead(f: Mhead, c: Namespace, b: nat) returns (ghost g: Head)
    requires c.Shape() && b < MNTHASH
    modifies c`mnthash, c.ids
    ensures c.Shape() && fresh(c.Objs() - old(c.Objs()))
    ensures SameHead(f.Val(), g) && c.Chains() == old(c.Chains())[b := old(c.Chains())[b] + [g]]
    ensures c.ids.next == old(c.ids.next) + |f.mount|
  {
    ghost var was := c.Chains();
    var mount := c.Number(f.mount);
    var mh := new Mhead(f.from, mount);
    assert c.Chains() == was;
    g := mh.Val();
    assert SameHead(f.Val(), g);
    c.Push(b, mh);
  }

  /** `c` is a namespace being made: nothing else holds its heads. */
  ghost predicate Making(ns: Namespace, c: Namespace)
    reads ns, c
  {
    ns.Shape() && c.Shape() && c != ns && c.ids == ns.ids
  }

  /** The first `i` heads of chain `b` copied, and their mounts' ids. */
  ghost predicate HeadsCopied(was: seq<Head>, others: Chains, now: Chains, b: nat, i: nat, order: seq<nat>) {
    && i <= |was| && b < |others| && |now| == |others|
    && now == others[b := now[b]]
    && SameHeads(was[..i], now[b])
    && order == Ids(AllElements(was[..i]))
  }

  lemma CopyStarts(was: seq<Head>, others: Chains, b: nat)
    requires b < |others| && others[b] == []
    ensures HeadsCopied(was, others, others, b, 0, [])
  {
    assert was[..0] == [];
    OneHead(Head(None, []));
  }

  lemma CopyGoesOn(was: seq<Head>, others: Chains, now: Chains, b: nat, i: nat, order: seq<nat>, g: Head)
    requires HeadsCopied(was, others, now, b, i, order) && i < |was| && SameHead(was[i], g)
    ensures b < |now| && HeadsCopied(was, others, now[b := now[b] + [g]], b, i + 1, order + Ids(was[i].mount))
  {
    hide SameHead, SameHeads, AllElements;
    NextHead(was, now[b], i, g);
  }

  lemma CopyEnds(was: seq<Head>, others: Chains, now: Chains, b: nat, order: seq<nat>)
    requires HeadsCopied(was, others, now, b, |was|, order)
    ensures (forall d :: 0 <= d < |others| && d != b ==> now[d] == others[d])
    ensures SameHeads(was, now[b]) && order == Ids(AllElements(was))
  {
    assert was[..|was|] == was;
  }

  method CopyChain(ns: Namespace, c: Namespace, b: nat) returns (order: seq<nat>)
    requires Making(ns, c) && b < MNTHASH && c.Chains()[b] == []
    modifies c`mnthash, c.ids
    ensures Making(ns, c) && fresh(c.Objs() - old(c.Objs())) && |c.Chains()| == MNTHASH && ns.Chains() == old(ns.Chains())
    ensures forall d :: 0 <= d < MNTHASH && d != b ==> c.Chains()[d] == old(c.Chains())[d]
    ensures SameHeads(ns.Chains()[b], c.Chains()[b])
    ensures order == Ids(AllElements(ns.Chains()[b]))
    ensures c.ids.next == old(c.ids.next) + |order|
  {
    order := [];
    ghost var was, others := ns.Chains()[b], c.Chains();
    CopyStarts(was, others, b);
    hide Apart, SameHead, SameHeads, AllElements, HeadsCopied;
    var i := 0;
    while i < |ns.mnthash[b]|
      invariant 0 <= i <= |ns.mnthash[b]| == |was| && Making(ns, c) && fresh(c.Objs() - old(c.Objs()))
      invariant HeadsCopied(was, others, c.Chains(), b, i, order) && c.ids.next == old(c.ids.next) + |order|
    {
      ghost var now := c.Chains();
      var f := ns.mnthash[b][i];
      assert f.Val() == was[i];
      ghost var g := CopyHead(f, c, b);
      CopyGoesOn(was, others, now, b, i, order, g);
      order := order + Ids(f.mount);
      i := i + 1;
    }
    CopyEnds(was, others, c.Chains(), b, order);
  }

  /** The first `b` chains copied, and the rest not yet. */
  ghost predicate CopiedTo(was: Chains, now: Chains, b: nat) {
    && b <= |was| == |now|
    && (forall d :: 0 <= d < b ==> SameHeads(was[d], now[d]))
    && (forall d :: b <= d < |now| ==> now[d] == [])
  }

  lemma CopiedNext(was: Chains, now: Chains, now': Chains, b: nat)
    requires CopiedTo(was, now, b) && b < |was| == |now'| && SameHeads(was[b], now'[b])
    requires forall d :: 0 <= d < |was| && d != b ==> now'[d] == now[d]
    ensures CopiedTo(was, now', b + 1)
  {
    hide SameHeads;
  }

  lemma AllCopied(was: Chains, now: Chains)
    requires CopiedTo(was, now, |was|)
    ensures SameChains(was, now) && MountIdsOf(was[..|was|]) == MountIdsOf(was)
  {
    assert was[..|was|] == was;
  }

  /** The first pass: a new head for every head; the parent's ids. */
  method CopyHeads(ns: Namespace, c: Namespace) returns (order: seq<nat>)
    requires Making(ns, c) && CopiedTo(ns.Chains(), c.Chains(), 0)
    modifies c`mnthash, c.ids
    ensures Making(ns, c) && fresh(c.Objs() - old(c.Objs()))
    ensures ns.Chains() == old(ns.Chains()) && SameChains(ns.Chains(), c.Chains())
    ensures order == MountIdsOf(ns.Chains())
    ensures c.ids.next == old(c.ids.next) + |order|
  {
    order := [];
    ghost var was := ns.Chains();
    var b := 0;
    while b < MNTHASH
      invariant 0 <= b <= MNTHASH == |was| == |c.Chains()| && Making(ns, c) && fresh(c.Objs() - old(c.Objs())) && ns.Chains() == was
      invariant CopiedTo(was, c.Chains(), b)
      invariant order == MountIdsOf(was[..b]) && c.ids.next == old(c.ids.next) + |order|
    {
      ghost var now := c.Chains();
      assert now[b] == [];
      hide CopiedTo, Making, Namespace.Shape, Namespace.Objs, SameHeads, AllElements, MountIdsOf;
      NextChain(was, b);
      var more := CopyChain(ns, c, b);
      CopiedNext(was, now, c.Chains(), b);
      order := order + more;
      b := b + 1;
    }
    AllCopied(was, c.Chains());
  }

  lemma Renumbered(chains: Chains, now: Chains, b: nat, i: nat, e: nat, id: nat)
    requires SameChains(chains, now) && b < |now| && i < |now[b]| && e < |now[b][i].mount|
    ensures SameChains(chains, WithMount(now, b, i, now[b][i].mount[e := now[b][i].mount[e].(mountid := id)]))
  {
    var g := now[b][i].(mount := now[b][i].mount[e := now[b][i].mount[e].(mountid := id)]);
    assert SameHead(chains[b][i], now[b][i]);
    assert SameHead(chains[b][i], g);
    assert SameHeads(chains[b], now[b]);
    assert SameHeads(chains[b], now[b][i := g]);
  }

  /** One mount of the copy given its next number. */
  method Renumber(c: Namespace, k: nat, ghost was: Chains)
    requires c.Shape() && k < |AllElements(Heads(c.Chains()))| && SameChains(was, c.Chains())
    modifies c.Objs(), c.ids
    ensures c.Shape() && c.Objs() == old(c.Objs()) && SameChains(was, c.Chains())
    ensures c.ids.next == old(c.ids.next) + 1
    ensures MountIdsOf(c.Chains()) == old(MountIdsOf(c.Chains()))[k := old(c.ids.next)]
  {
    ghost var now := c.Chains();
    var (b, i, e) := Locate(c.Chains(), k);
    var id := c.ids.New();
    assert c.Chains() == now;
    var m := c.mnthash[b][i].mount;
    assert c.mnthash[b][i].Val() == now[b][i];
    ChainUpdate(now, k, m[e].(mountid := id));
    Renumbered(was, now, b, i, e, id);
    ghost var es := AllElements(Heads(now));
    assert Ids(es[k := m[e].(mountid := id)]) == Ids(es)[k := id];
    hide SameChains, AllElements, Heads, Namespace.Shape, Namespace.Objs, Ids, Locate;
    c.SetMount(b, i, m[e := m[e].(mountid := id)]);
    assert c.Chains() == WithMount(now, b, i, now[b][i].mount[e := m[e].(mountid := id)]);
  }

  lemma {:induction false} SameCount(hs: seq<Head>, gs: seq<Head>)
    requires SameHeads(hs, gs)
    ensures |AllElements(hs)| == |AllElements(gs)|
  {
    if hs != [] {
      SameCount(hs[1..], gs[1..]);
    }
  }

  /** The first `r` in the order given have their numbers. */
  ghost predicate NumberedTo(now: seq<nat>, perm: seq<nat>, r: nat, base: nat) {
    && r <= |perm| == |now| && (forall i :: 0 <= i < |perm| ==> perm[i] < |perm|)
    && forall j :: 0 <= j < r ==> now[perm[j]] == base + j
  }

  lemma NextNumber(now: seq<nat>, perm: seq<nat>, r: nat, base: nat)
    requires NumberedTo(now, perm, r, base) && r < |perm|
    requires forall q, r :: 0 <= q < r < |perm| ==> perm[q] != perm[r]
    ensures NumberedTo(now[perm[r] := base + r], perm, r + 1, base)
  {
  }

  /** The second pass: every mount numbered again, in the order given. */
  method RenumberAll(c: Namespace, perm: seq<nat>, ghost was: Chains)
    requires c.Shape() && SameChains(was, c.Chains()) && |perm| == |MountIdsOf(was)|
    requires forall r :: 0 <= r < |perm| ==> perm[r] < |perm|
    requires forall q, r :: 0 <= q < r < |perm| ==> perm[q] != perm[r]
    modifies c.Objs(), c.ids
    ensures c.Shape() && c.Objs() == old(c.Objs()) && SameChains(was, c.Chains())
    ensures c.ids.next == old(c.ids.next) + |perm|
    ensures |MountIdsOf(c.Chains())| == |perm|
    ensures forall r :: 0 <= r < |perm| ==> MountIdsOf(c.Chains())[perm[r]] == old(c.ids.next) + r
  {
    SameFlat(was, c.Chains());
    SameCount(Heads(was), Heads(c.Chains()));
    hide SameChains, AllElements, Heads, Namespace.Shape, Namespace.Objs;
    var r := 0;
    while r < |perm|
      invariant 0 <= r <= |perm|
      invariant c.Shape() && c.Objs() == old(c.Objs()) && SameChains(was, c.Chains()) && c.ids.next == old(c.ids.next) + r
      invariant NumberedTo(MountIdsOf(c.Chains()), perm, r, old(c.ids.next))
    {
      NextNumber(MountIdsOf(c.Chains()), perm, r, old(c.ids.next));
      assert |MountIdsOf(c.Chains())| == |perm|;
      hide NumberedTo;
      Renumber(c, perm[r], was);
      r := r + 1;
    }
  }

  /** Numbering in sorted order gives each its rank. */
  lemma NumberedByRank(ids: seq<nat>, perm: seq<nat>, now: seq<nat>, base: nat, k: nat)
    requires |perm| == |ids| == |now| && (forall i :: 0 <= i < |perm| ==> perm[i] < |ids|)
    requires forall i, j :: 0 <= i < j < |perm| ==> Earlier(ids, perm[i], perm[j])
    requires forall r :: 0 <= r < |perm| ==> now[perm[r]] == base + r
    requires k < |ids|
    ensures now[k] == base + Rank(ids, k)
  {
    RankBelow(ids, |ids|, k);
    var r := Rank(ids, k);
    SortedAtRank(ids, perm, r);
    RankOrders(ids, perm[r], k);
  }

  /** A new namespace with a copy of every head. */
  method NewCopy(ns: Namespace) returns (c: Namespace, order: seq<nat>)
    requires ns.Shape()
    modifies ns.ids
    ensures fresh(c) && c.Shape() && c.ids == ns.ids && fresh(c.Objs())
    ensures ns.Chains() == old(ns.Chains()) && SameChains(ns.Chains(), c.Chains())
    ensures order == MountIdsOf(ns.Chains()) && c.ids.next == old(ns.ids.next) + |order|
  {
    c := new Namespace(ns.ids);
    assert c.Chains() == NewNs;
    hide SameChains, MountIdsOf;
    order := CopyHeads(ns, c);
  }

  /**
    A namespace copied: a new namespace none of whose heads is the parent's, and
    the parent as it was.
   */
  method Clone(ns: Namespace) returns (c: Namespace)
    requires ns.Shape()
    modifies ns.ids
    ensures fresh(c) && c.Shape() && c.ids == ns.ids && fresh(c.Objs())
    ensures ns.Chains() == old(ns.Chains())
    ensures IsCopy(old(ns.State()), c.State())
  {
    hide SameChains, MountIdsOf, IsCopy, Namespace.Shape;
    var order;
    c, order := NewCopy(ns);
    Reorder(c, order, old(ns.State()));
  }

  /** The copy's mounts put in the order of the parent's. */
  method Reorder(c: Namespace, order: seq<nat>, ghost was: Ns)
    requires c.Shape() && SameChains(was.chains, c.Chains())
    requires order == MountIdsOf(was.chains) && c.ids.next == was.next + |order|
    modifies c.Objs(), c.ids
    ensures c.Shape() && c.Objs() == old(c.Objs())
    ensures IsCopy(was, c.State())
  {
    hide SameChains, Namespace.Shape, IsCopy, Earlier;
    ghost var now := c.Chains();
    var perm := SortById(order);
    assert c.Chains() == now;
    RenumberAll(c, perm, was.chains);
    CopyMade(was, c.State(), perm);
  }

  lemma CopyMade(ns: Ns, copy: Ns, perm: seq<nat>)
    requires SameChains(ns.chains, copy.chains)
    requires var was, now := MountIdsOf(ns.chains), MountIdsOf(copy.chains);
             && |perm| == |was| == |now| && copy.next == ns.next + 2 * |was|
             && (forall i :: 0 <= i < |perm| ==> perm[i] < |was|)
             && (forall i, j :: 0 <= i < j < |perm| ==> Earlier(was, perm[i], perm[j]))
             && (forall r :: 0 <= r < |perm| ==> now[perm[r]] == ns.next + |was| + r)
    ensures IsCopy(ns, copy)
  {
    var was, now := MountIdsOf(ns.chains), MountIdsOf(copy.chains);
    forall k | 0 <= k < |was|
      ensures now[k] == ns.next + |was| + Rank(was, k)
    {
      NumberedByRank(was, perm, now, ns.next + |was|, k);
    }
  }

  // ---- two namespaces that share no head

  /** What may be done to a namespace. */
  datatype Op =
    | DoBind(on: Chan, to: Element, union: seq<Element>, how: Bind)
    | DoUnmount(at: Chan, matches: Option<Chan -> bool>)
    | DoClose

  function ApplyOp(ns: Ns, op: Op): (r: Ns)
    requires |ns.chains| == MNTHASH
    ensures |r.chains| == MNTHASH
  {
    match op
    case DoBind(on, to, union, how) => Cmount(ns, on, to, union, how).0
    case DoUnmount(at, matches) => Cunmount(ns, at, matches).0
    case DoClose => Closepgrp(ns).0
  }

  /** One namespace, by itself. */
  function Alone(ns: Ns, ops: seq<Op>): (r: Ns)
    requires |ns.chains| == MNTHASH
    ensures |r.chains| == MNTHASH
    decreases |ops|
  {
    if ops == [] then ns else Alone(ApplyOp(ns, ops[0]), ops[1..])
  }

  /** Each operation is on the first or on the second of two; mount ids are drawn from one counter. */
  function Both(a: Chains, b: Chains, next: nat, ops: seq<(bool, Op)>): (r: (Chains, Chains, nat))
    requires |a| == MNTHASH && |b| == MNTHASH
    ensures |r.0| == MNTHASH && |r.1| == MNTHASH
    decreases |ops|
  {
    if ops == [] then
      (a, b, next)
    else if ops[0].0 then
      var ns := ApplyOp(Ns(a, next), ops[0].1);
      Both(ns.chains, b, ns.next, ops[1..])
    else
      var ns := ApplyOp(Ns(b, next), ops[0].1);
      Both(a, ns.chains, ns.next, ops[1..])
  }

  /** The operations on one of them. */
  function Of(ops: seq<(bool, Op)>, first: bool): seq<Op>
    decreases |ops|
  {
    if ops == [] then [] else (if ops[0].0 == first then [ops[0].1] else []) + Of(ops[1..], first)
  }

  method DoOp(ns: Namespace, op: Op)
    requires ns.Shape()
    modifies ns`mnthash, ns.Objs(), ns.ids
    ensures ns.Shape() && fresh(ns.Objs() - old(ns.Objs()))
    ensures ns.State() == ApplyOp(old(ns.State()), op)
  {
    hide Cmount, Cunmount, Closepgrp, Namespace.Shape;
    match op
    case DoBind(on, to, union, how) =>
      var _ := ns.Bind(on, to, union, how);
    case DoUnmount(at, matches) =>
      var _ := ns.Unmount(at, matches);
    case DoClose =>
      var _ := ns.Close();
  }

  /** One of two. */
  method DoOne(ns: Namespace, other: Namespace, op: Op)
    requires ns.Shape() && other.Shape() && ns != other && ns.Objs() !! other.Objs()
    modifies ns`mnthash, ns.Objs(), ns.ids
    ensures ns.Shape() && other.Shape() && ns.Objs() !! other.Objs()
    ensures fresh(ns.Objs() - old(ns.Objs())) && other.Objs() == old(other.Objs())
    ensures ns.State() == ApplyOp(old(ns.State()), op) && other.Chains() == old(other.Chains())
  {
    hide Namespace.Shape, ApplyOp;
    DoOp(ns, op);
  }

  /** Two namespaces with no head in common stay so, and each operation is the one's it is on. */
  method DoBoth(ns: Namespace, other: Namespace, ops: seq<(bool, Op)>)
    requires ns.Shape() && other.Shape() && ns != other && ns.Objs() !! other.Objs() && ns.ids == other.ids
    modifies ns`mnthash, other`mnthash, ns.Objs(), other.Objs(), ns.ids
    ensures ns.Shape() && other.Shape() && ns.Objs() !! other.Objs()
    ensures (ns.Chains(), other.Chains(), ns.ids.next) == Both(old(ns.Chains()), old(other.Chains()), old(ns.ids.next), ops)
  {
    hide ApplyOp, Apart;
    ghost var want := Both(ns.Chains(), other.Chains(), ns.ids.next, ops);
    var i := 0;
    assert ops[0..] == ops;
    while i < |ops|
      invariant 0 <= i <= |ops|
      invariant ns.Shape() && other.Shape() && ns.Objs() !! other.Objs()
      invariant fresh(ns.Objs() - old(ns.Objs())) && fresh(other.Objs() - old(other.Objs()))
      invariant want == Both(ns.Chains(), other.Chains(), ns.ids.next, ops[i..])
    {
      assert ops[i..][0] == ops[i] && ops[i..][1..] == ops[i + 1..];
      hide Namespace.Objs;
      if ops[i].0 {
        DoOne(ns, other, ops[i].1);
      } else {
        DoOne(other, ns, ops[i].1);
      }
      i := i + 1;
    }
  }

  lemma SameIndex(c: seq<Head>, d: seq<Head>, on: Chan)
    requires SameHeads(c, d)
    ensures Index(c, on) == Index(d, on)
  {
    assert forall k :: 0 <= k < |c| ==> SameHead(c[k], d[k]) && (c[k].On(on) <==> d[k].On(on));
  }

  lemma {:induction false} SameMatch(es: seq<Element>, fs: seq<Element>, matches: Chan -> bool)
    requires |es| == |fs| && forall i :: 0 <= i < |es| ==> SameMount(es[i], fs[i])
    ensures Match(es, matches) == Match(fs, matches)
  {
    if es != [] {
      SameMatch(es[1..], fs[1..], matches);
    }
  }

  lemma ChainSame(m: Chains, n: Chains, b: nat, c: seq<Head>, d: seq<Head>)
    requires SameChains(m, n) && b < |m| && SameHeads(c, d)
    ensures SameHeads(m[b], n[b]) && SameChains(m[b := c], n[b := d])
  {
    hide SameHeads;
  }

  lemma SetSame(c: seq<Head>, d: seq<Head>, i: nat, h: Head, k: Head)
    requires SameHeads(c, d) && i < |c| && SameHead(h, k)
    ensures SameHead(c[i], d[i]) && SameHeads(c[i := h], d[i := k])
  {
    hide SameHead;
  }

  lemma AddSame(c: seq<Head>, d: seq<Head>, h: Head, k: Head)
    requires SameHeads(c, d) && SameHead(h, k)
    ensures SameHeads(c + [h], d + [k])
  {
    hide SameHead;
  }

  lemma DropSame(c: seq<Head>, d: seq<Head>, i: nat)
    requires SameHeads(c, d) && i < |c|
    ensures SameHeads(c[..i] + c[i + 1..], d[..i] + d[i + 1..])
  {
    hide SameHead;
  }

  lemma BindSame(m: Ns, n: Ns, on: Chan, to: Element, union: seq<Element>, how: Bind)
    requires |m.chains| == |n.chains| == MNTHASH && SameChains(m.chains, n.chains)
    ensures SameChains(Cmount(m, on, to, union, how).0.chains, Cmount(n, on, to, union, how).0.chains)
  {
    if !Refused(on, to, union, how) {
      var b := Mounth(on);
      var c, d := m.chains[b], n.chains[b];
      ChainSame(m.chains, n.chains, b, [], []);
      SameIndex(c, d, on);
      var i := Index(c, on);
      var c1 := if i == |c| then c + [FirstHead(on, how, m.next)] else c;
      var d1 := if i == |d| then d + [FirstHead(on, how, n.next)] else d;
      assert i < |c1| == |d1|;
      assert SameHead(FirstHead(on, how, m.next), FirstHead(on, how, n.next));
      hide Refused, Group, Index, SameHead, SameHeads, SameChains, FirstHead, Joined;
      AddSame(c, d, FirstHead(on, how, m.next), FirstHead(on, how, n.next));
      var g := Group(to, union, how);
      var mg, ng := Numbered(g, NextOf(m, i == |c|, how)), Numbered(g, NextOf(n, i == |d|, how));
      SetSame(c1, d1, i, FirstHead(on, how, m.next), FirstHead(on, how, n.next));
      JoinedSame(c1[i], d1[i], mg, ng, how);
      var h, k := c1[i].(mount := Joined(c1[i].mount, mg, how)), d1[i].(mount := Joined(d1[i].mount, ng, how));
      SetSame(c1, d1, i, h, k);
      ChainSame(m.chains, n.chains, b, c1[i := h], d1[i := k]);
    }
  }

  function NextOf(ns: Ns, made: bool, how: Bind): nat {
    if made && how != Replace then ns.next + 1 else ns.next
  }

  lemma JoinedSame(h: Head, k: Head, g: seq<Element>, f: seq<Element>, how: Bind)
    requires SameHead(h, k) && |g| == |f| && forall i :: 0 <= i < |g| ==> SameMount(g[i], f[i])
    ensures SameHead(h.(mount := Joined(h.mount, g, how)), k.(mount := Joined(k.mount, f, how)))
  {
  }

  /** What an unmount leaves of its chain. */
  function Left(chain: seq<Head>, on: Chan, matches: Option<Chan -> bool>): seq<Head> {
    var i := Index(chain, on);
    if i == |chain| then chain
    else if matches.None? then chain[..i] + chain[i + 1..]
    else
      var k := Match(chain[i].mount, matches.value);
      if k == |chain[i].mount| then chain
      else if |chain[i].mount| == 1 then chain[..i] + chain[i + 1..]
      else chain[i := chain[i].(mount := chain[i].mount[..k] + chain[i].mount[k + 1..])]
  }

  lemma UnmountIs(ns: Ns, on: Chan, matches: Option<Chan -> bool>)
    requires |ns.chains| == MNTHASH
    ensures Cunmount(ns, on, matches).0.chains == ns.chains[Mounth(on) := Left(ns.chains[Mounth(on)], on, matches)]
  {
    hide Index, Match;
    assert ns.chains == ns.chains[Mounth(on) := ns.chains[Mounth(on)]];
  }

  lemma LeftSame(c: seq<Head>, d: seq<Head>, on: Chan, matches: Option<Chan -> bool>)
    requires SameHeads(c, d)
    ensures SameHeads(Left(c, on, matches), Left(d, on, matches))
  {
    SameIndex(c, d, on);
    var i := Index(c, on);
    if i < |c| {
      assert SameHead(c[i], d[i]);
      DropSame(c, d, i);
      if matches.Some? {
        SameMatch(c[i].mount, d[i].mount, matches.value);
        var k := Match(c[i].mount, matches.value);
        LessOne(c[i], d[i], k);
        hide Index, Match, SameHead, SameHeads;
        if k < |c[i].mount| {
          SetSame(c, d, i, c[i].(mount := c[i].mount[..k] + c[i].mount[k + 1..]), d[i].(mount := d[i].mount[..k] + d[i].mount[k + 1..]));
        }
      }
    }
  }

  lemma UnmountSame(m: Ns, n: Ns, on: Chan, matches: Option<Chan -> bool>)
    requires |m.chains| == |n.chains| == MNTHASH && SameChains(m.chains, n.chains)
    ensures SameChains(Cunmount(m, on, matches).0.chains, Cunmount(n, on, matches).0.chains)
  {
    hide Cunmount, Left, SameHeads, SameChains;
    var b := Mounth(on);
    NoneSame();
    ChainSame(m.chains, n.chains, b, [], []);
    LeftSame(m.chains[b], n.chains[b], on, matches);
    ChainSame(m.chains, n.chains, b, Left(m.chains[b], on, matches), Left(n.chains[b], on, matches));
    UnmountIs(m, on, matches);
    UnmountIs(n, on, matches);
  }

  lemma LessOne(h: Head, g: Head, k: nat)
    requires SameHead(h, g)
    ensures |h.mount| == |g.mount| && (k < |h.mount| ==>
              SameHead(h.(mount := h.mount[..k] + h.mount[k + 1..]), g.(mount := g.mount[..k] + g.mount[k + 1..])))
  {
  }

  lemma OpSame(m: Ns, n: Ns, op: Op)
    requires |m.chains| == |n.chains| == MNTHASH && SameChains(m.chains, n.chains)
    ensures SameChains(ApplyOp(m, op).chains, ApplyOp(n, op).chains)
  {
    hide Cmount, Cunmount, SameHeads;
    match op
    case DoBind(on, to, union, how) => BindSame(m, n, on, to, union, how);
    case DoUnmount(at, matches) => UnmountSame(m, n, at, matches);
    case DoClose => assert SameHeads([], []) by { NoneSame(); }
  }

  lemma NoneSame()
    ensures SameHeads([], [])
  {
  }

  /**
    Whatever is done to either of two namespaces and in whatever order, each comes
    to what its own operations alone would make of it, but for the mounts' ids:
    nothing done in one ever shows in the other.
   */
  lemma {:induction false} NothingShows(a: Chains, b: Chains, next: nat, ops: seq<(bool, Op)>, m: Ns, n: Ns)
    requires |a| == |b| == |m.chains| == |n.chains| == MNTHASH && SameChains(a, m.chains) && SameChains(b, n.chains)
    ensures SameChains(Both(a, b, next, ops).0, Alone(m, Of(ops, true)).chains)
    ensures SameChains(Both(a, b, next, ops).1, Alone(n, Of(ops, false)).chains)
    decreases |ops|
  {
    hide ApplyOp, SameChains;
    if ops != [] {
      var (first, op) := ops[0];
      assert Of(ops, first) == [op] + Of(ops[1..], first);
      assert Of(ops, !first) == Of(ops[1..], !first);
      if first {
        OpSame(Ns(a, next), m, op);
        NothingShows(ApplyOp(Ns(a, next), op).chains, b, ApplyOp(Ns(a, next), op).next, ops[1..], ApplyOp(m, op), n);
      } else {
        OpSame(Ns(b, next), n, op);
        NothingShows(a, ApplyOp(Ns(b, next), op).chains, ApplyOp(Ns(b, next), op).next, ops[1..], m, ApplyOp(n, op));
      }
    }
  }

  /** So of a namespace and its copy: the copy comes to what the parent, as it was, would have. */
  lemma CopyApart(ns: Ns, copy: Ns, ops: seq<(bool, Op)>)
    requires Valid(ns) && IsCopy(ns, copy)
    ensures |copy.chains| == MNTHASH
    ensures var (a, b, _) := Both(ns.chains, copy.chains, copy.next, ops);
            SameChains(a, Alone(ns, Of(ops, true)).chains) && SameChains(b, Alone(ns, Of(ops, false)).chains)
  {
    hide OneEach, FreshIds, Heads, Both, Alone, Of;
    assert SameChains(ns.chains, ns.chains) && SameChains(copy.chains, ns.chains);
    NothingShows(ns.chains, copy.chains, copy.next, ops, ns, ns);
  }
}
