/** The mount table refines a map keyed by file identity, and conserves references. */
module MountTableProofs {
  import opened ProcTable
  import opened MountTable

  // ---- the heads in one list

  lemma {:induction false} HeadsAppend(a: Chains, b: Chains)
    ensures Heads(a + b) == Heads(a) + Heads(b)
  {
    if a == [] {
      assert a + b == b;
    } else {
      assert (a + b)[1..] == a[1..] + b;
      HeadsAppend(a[1..], b);
    }
  }

  /** A table's heads: before, on, and after one chain. */
  lemma HeadsAt(chains: Chains, b: nat, c: seq<Head>)
    requires b < |chains|
    ensures Heads(chains[b := c]) == Heads(chains[..b]) + c + Heads(chains[b + 1..])
  {
    var after := [c] + chains[b + 1..];
    assert chains[b := c] == chains[..b] + after;
    HeadsAppend(chains[..b], after);
    assert after[1..] == chains[b + 1..];
  }

  lemma {:induction false} InHeads(chains: Chains, h: Head)
    ensures h in Heads(chains) <==> exists b :: 0 <= b < |chains| && h in chains[b]
  {
    if chains != [] {
      InHeads(chains[1..], h);
      if h in Heads(chains[1..]) {
        var b :| 0 <= b < |chains| - 1 && h in chains[1..][b];
        assert h in chains[b + 1];
      }
      if b :| 0 <= b < |chains| && h in chains[b] && b > 0 {
        assert h in chains[1..][b - 1];
      }
    }
  }

  lemma {:induction false} ElementsAppend(a: seq<Head>, b: seq<Head>)
    ensures AllElements(a + b) == AllElements(a) + AllElements(b)
  {
    if a == [] {
      assert a + b == b;
    } else {
      assert (a + b)[1..] == a[1..] + b;
      ElementsAppend(a[1..], b);
    }
  }

  lemma {:induction false} HeldAppend(a: seq<Head>, b: seq<Head>)
    ensures HeldBy(a + b) == HeldBy(a) + HeldBy(b)
  {
    if a == [] {
      assert a + b == b;
    } else {
      assert (a + b)[1..] == a[1..] + b;
      HeldAppend(a[1..], b);
    }
  }

  // ---- the map

  /** The first head with this key, of all there are. */
  function Find(hs: seq<Head>, k: Key): (r: Option<Head>)
    ensures r.Some? ==> r.value in hs && r.value.from.Some? && KeyOf(r.value.from.value) == k
    ensures r.None? ==> forall h :: h in hs && h.from.Some? ==> KeyOf(h.from.value) != k
  {
    if hs == [] then None
    else if hs[0].from.Some? && KeyOf(hs[0].from.value) == k then Some(hs[0])
    else Find(hs[1..], k)
  }

  /** The table as a map: a search of every head there is. */
  ghost function Abs(ns: Ns): map<Key, Head> {
    map h | h in Heads(ns.chains) && h.from.Some? :: KeyOf(h.from.value) := Find(Heads(ns.chains), KeyOf(h.from.value)).value
  }

  /** No two heads for one file. */
  ghost predicate OneEach(hs: seq<Head>) {
    forall i, j :: 0 <= i < j < |hs| ==> hs[i].from.Some? && hs[j].from.Some? ==> KeyOf(hs[i].from.value) != KeyOf(hs[j].from.value)
  }

  ghost predicate Placed(chains: Chains) {
    && |chains| == MNTHASH
    && forall b, i :: 0 <= b < |chains| && 0 <= i < |chains[b]| ==> chains[b][i].from.Some? && Mounth(chains[b][i].from.value) == b
  }

  /** Below `next`, and no two the same. */
  ghost predicate FreshIds(ids: seq<nat>, next: nat) {
    forall id :: id in multiset(ids) ==> id < next && multiset(ids)[id] == 1
  }

  /** Each head on its own chain, one for a file, none of them empty; no two mounts with one id. */
  ghost predicate Valid(ns: Ns) {
    && Placed(ns.chains)
    && OneEach(Heads(ns.chains))
    && (forall h :: h in Heads(ns.chains) ==> h.mount != [])
    && FreshIds(Ids(AllElements(Heads(ns.chains))), ns.next)
  }

  lemma EqchanIsKey(a: Chan, b: Chan)
    ensures Eqchan(a, b) <==> KeyOf(a) == KeyOf(b)
  {
  }

  lemma {:induction false} FindAppend(a: seq<Head>, b: seq<Head>, k: Key)
    ensures Find(a + b, k) == if Find(a, k).Some? then Find(a, k) else Find(b, k)
  {
    if a == [] {
      assert a + b == b;
    } else {
      assert (a + b)[1..] == a[1..] + b;
      FindAppend(a[1..], b, k);
    }
  }

  lemma AbsAt(ns: Ns, k: Key)
    ensures k in Abs(ns) <==> Find(Heads(ns.chains), k).Some?
    ensures k in Abs(ns) ==> Abs(ns)[k] == Find(Heads(ns.chains), k).value
  {
    var f := Find(Heads(ns.chains), k);
    if f.Some? {
      assert f.value in Heads(ns.chains);
    }
  }

  lemma {:induction false} IndexIsFind(chain: seq<Head>, on: Chan)
    ensures Find(chain, KeyOf(on)) == if Index(chain, on) < |chain| then Some(chain[Index(chain, on)]) else None
  {
    if chain != [] {
      IndexIsFind(chain[1..], on);
    }
  }

  /** Searching one chain is searching them all. */
  lemma LookupIsSearch(ns: Ns, on: Chan)
    requires Placed(ns.chains)
    ensures Lookup(ns, on) == Find(Heads(ns.chains), KeyOf(on))
  {
    var b, k := Mounth(on), KeyOf(on);
    HeadsAt(ns.chains, b, ns.chains[b]);
    assert ns.chains[b := ns.chains[b]] == ns.chains;
    IndexIsFind(ns.chains[b], on);
    NotHere(ns.chains[..b], on);
    NotHere(ns.chains[b + 1..], on);
    FindAppend(Heads(ns.chains[..b]) + ns.chains[b], Heads(ns.chains[b + 1..]), k);
    FindAppend(Heads(ns.chains[..b]), ns.chains[b], k);
  }

  lemma {:induction false} NotHere(chains: Chains, on: Chan)
    requires forall b, i :: 0 <= b < |chains| && 0 <= i < |chains[b]| ==>
               chains[b][i].from.Some? && Mounth(chains[b][i].from.value) != Mounth(on)
    ensures Find(Heads(chains), KeyOf(on)).None?
  {
    if chains != [] {
      NotHere(chains[1..], on);
      FindAppend(chains[0], Heads(chains[1..]), KeyOf(on));
      assert forall h :: h in chains[0] ==> exists i :: 0 <= i < |chains[0]| && chains[0][i] == h;
    }
  }

  /** Lookup agrees with the map. */
  lemma LookupAgrees(ns: Ns, on: Chan)
    requires Valid(ns)
    ensures Lookup(ns, on) == if KeyOf(on) in Abs(ns) then Some(Abs(ns)[KeyOf(on)]) else None
    ensures Findmount(ns, on) == Lookup(ns, on)
    ensures Lookup(ns, on).Some? ==> var h := Lookup(ns, on).value; h.from.Some? && KeyOf(h.from.value) == KeyOf(on)
  {
    LookupIsSearch(ns, on);
    AbsAt(ns, KeyOf(on));
  }

  /** What is mounted on a file does not depend on its version, or on the name or channel it is reached by. */
  lemma SameFile(ns: Ns, a: Chan, b: Chan)
    requires Valid(ns) && KeyOf(a) == KeyOf(b)
    ensures Elements(ns, a) == Elements(ns, b) && CreateElement(ns, a) == CreateElement(ns, b)
  {
    LookupIsSearch(ns, a);
    LookupIsSearch(ns, b);
  }

  // ---- one head changed, put in or taken out

  /** `hs` is `a + x + b`, where `x` is all that is on the file `k`. */
  ghost predicate Around(hs: seq<Head>, a: seq<Head>, x: seq<Head>, b: seq<Head>, k: Key) {
    && hs == a + x + b
    && |x| <= 1
    && (forall h :: h in x ==> h.from.Some? && KeyOf(h.from.value) == k)
    && (forall h :: h in a || h in b ==> h.from.Some? && KeyOf(h.from.value) != k)
  }

  lemma AroundFind(hs: seq<Head>, a: seq<Head>, x: seq<Head>, b: seq<Head>, k: Key, k': Key)
    requires Around(hs, a, x, b, k)
    ensures k' == k ==> Find(hs, k') == if x == [] then None else Some(x[0])
    ensures k' != k ==> Find(hs, k') == Find(a + b, k')
  {
    FindAppend(a + x, b, k');
    FindAppend(a, x, k');
    FindAppend(a, b, k');
  }

  /** One head for a file, still, after a change to the head of `k`. */
  lemma AroundOneEach(a: seq<Head>, x: seq<Head>, x': seq<Head>, b: seq<Head>, k: Key)
    requires Around(a + x + b, a, x, b, k) && Around(a + x' + b, a, x', b, k) && OneEach(a + x + b)
    ensures OneEach(a + x' + b)
  {
    var hs, hs' := a + x + b, a + x' + b;
    var d, d' := |a| + |x|, |a| + |x'|;
    forall i, j | 0 <= i < j < |hs'|
      ensures KeyOf(hs'[i].from.value) != KeyOf(hs'[j].from.value)
    {
      if i < |a| && j >= d' {
        assert hs[i] == hs'[i] && hs[j - d' + d] == hs'[j];
      } else if i < |a| && j < |a| {
        assert hs[i] == hs'[i] && hs[j] == hs'[j];
      } else if i >= d' {
        assert hs[i - d' + d] == hs'[i] && hs[j - d' + d] == hs'[j];
      }
    }
  }

  /** An edit of one table into another: on the chain of `on`, the head there is (`x`) becomes the head there is to be (`x'`). */
  datatype Edit = Edit(on: Chan, a: seq<Head>, x: seq<Head>, x': seq<Head>, b: seq<Head>)
  {
    ghost predicate Of(chains: Chains, chains': Chains) {
      && |chains| == MNTHASH
      && Around(chains[Mounth(on)], a, x, b, KeyOf(on))
      && Around(a + x' + b, a, x', b, KeyOf(on))
      && chains' == chains[Mounth(on) := a + x' + b]
    }

    /** The heads before and after, in the table as a whole. */
    function A(chains: Chains): seq<Head>
      requires |chains| == MNTHASH
    {
      Heads(chains[..Mounth(on)]) + a
    }

    function B(chains: Chains): seq<Head>
      requires |chains| == MNTHASH
    {
      b + Heads(chains[Mounth(on) + 1..])
    }
  }

  lemma OnOtherChains(chains: Chains, on: Chan, h: Head)
    requires Placed(chains) && (h in Heads(chains[..Mounth(on)]) || h in Heads(chains[Mounth(on) + 1..]))
    ensures h.from.Some? && KeyOf(h.from.value) != KeyOf(on)
  {
    InHeads(chains[..Mounth(on)], h);
    InHeads(chains[Mounth(on) + 1..], h);
  }

  lemma Regroup(p: seq<Head>, a: seq<Head>, x: seq<Head>, b: seq<Head>, q: seq<Head>)
    ensures p + (a + x + b) + q == (p + a) + x + (b + q)
  {
  }

  lemma EditHeads(e: Edit, chains: Chains, chains': Chains)
    requires Placed(chains) && e.Of(chains, chains')
    ensures Around(Heads(chains), e.A(chains), e.x, e.B(chains), KeyOf(e.on))
    ensures Around(Heads(chains'), e.A(chains), e.x', e.B(chains), KeyOf(e.on))
  {
    hide Heads, KeyOf, Placed;
    var m := Mounth(e.on);
    var p, q := Heads(chains[..m]), Heads(chains[m + 1..]);
    HeadsAt(chains, m, chains[m]);
    assert chains[m := chains[m]] == chains;
    HeadsAt(chains, m, e.a + e.x' + e.b);
    Regroup(p, e.a, e.x, e.b, q);
    Regroup(p, e.a, e.x', e.b, q);
    forall h | h in p + e.a || h in e.b + q
      ensures h.from.Some? && KeyOf(h.from.value) != KeyOf(e.on)
    {
      if h !in e.a && h !in e.b {
        OnOtherChains(chains, e.on, h);
      }
    }
  }

  /** As a map: the file's entry alone is changed, put in or taken out. */
  lemma EditAbs(e: Edit, ns: Ns, ns': Ns)
    requires Placed(ns.chains) && e.Of(ns.chains, ns'.chains)
    ensures Abs(ns') == if e.x' == [] then Abs(ns) - {KeyOf(e.on)} else Abs(ns)[KeyOf(e.on) := e.x'[0]]
    ensures e.x == [] <==> KeyOf(e.on) !in Abs(ns)
    ensures e.x != [] ==> Abs(ns)[KeyOf(e.on)] == e.x[0]
  {
    hide Abs, Heads, KeyOf, Placed, Around, Find;
    var k := KeyOf(e.on);
    EditHeads(e, ns.chains, ns'.chains);
    EditAt(e, ns, ns', k);
    forall k' | k' != k
      ensures SameAt(Abs(ns), Abs(ns'), k')
    {
      EditAt(e, ns, ns', k');
    }
    MapEdit(Abs(ns), Abs(ns'), k, if e.x' == [] then None else Some(e.x'[0]));
  }

  predicate SameAt(m: map<Key, Head>, m': map<Key, Head>, k: Key) {
    (k in m' <==> k in m) && (k in m' ==> m'[k] == m[k])
  }

  lemma MapEdit(m: map<Key, Head>, m': map<Key, Head>, k: Key, o: Option<Head>)
    requires forall k' :: k' != k ==> SameAt(m, m', k')
    requires (k in m' <==> o.Some?) && (k in m' ==> m'[k] == o.value)
    ensures m' == if o.None? then m - {k} else m[k := o.value]
  {
    var want := if o.None? then m - {k} else m[k := o.value];
    forall k'
      ensures SameAt(want, m', k')
    {
      assert k' == k || SameAt(m, m', k');
    }
    assert want.Keys == m'.Keys by {
      forall k' ensures k' in want.Keys <==> k' in m'.Keys { assert SameAt(want, m', k'); }
    }
    assert forall k' :: k' in want ==> SameAt(want, m', k');
  }

  lemma EditAt(e: Edit, ns: Ns, ns': Ns, k: Key)
    requires |ns.chains| == MNTHASH
    requires Around(Heads(ns.chains), e.A(ns.chains), e.x, e.B(ns.chains), KeyOf(e.on))
    requires Around(Heads(ns'.chains), e.A(ns.chains), e.x', e.B(ns.chains), KeyOf(e.on))
    ensures k != KeyOf(e.on) ==> (k in Abs(ns') <==> k in Abs(ns)) && (k in Abs(ns') ==> Abs(ns')[k] == Abs(ns)[k])
    ensures k == KeyOf(e.on) ==> (k in Abs(ns') <==> e.x' != []) && (k in Abs(ns') ==> Abs(ns')[k] == e.x'[0])
    ensures k == KeyOf(e.on) ==> (k in Abs(ns) <==> e.x != []) && (k in Abs(ns) ==> Abs(ns)[k] == e.x[0])
  {
    hide Abs, Heads, KeyOf, Around, Find;
    AbsAt(ns, k);
    AbsAt(ns', k);
    AroundFind(Heads(ns.chains), e.A(ns.chains), e.x, e.B(ns.chains), KeyOf(e.on), k);
    AroundFind(Heads(ns'.chains), e.A(ns.chains), e.x', e.B(ns.chains), KeyOf(e.on), k);
  }

  /** The channels a table holds. */
  ghost function Held(ns: Ns): multiset<Chan> {
    multiset(HeldBy(Heads(ns.chains)))
  }

  lemma HeldAround(a: seq<Head>, x: seq<Head>, b: seq<Head>)
    ensures multiset(HeldBy(a + x + b)) == multiset(HeldBy(a)) + multiset(HeldBy(x)) + multiset(HeldBy(b))
  {
    HeldAppend(a + x, b);
    HeldAppend(a, x);
  }

  lemma EditHeld(e: Edit, ns: Ns, ns': Ns)
    requires Placed(ns.chains) && e.Of(ns.chains, ns'.chains)
    ensures Held(ns') + multiset(HeldBy(e.x)) == Held(ns) + multiset(HeldBy(e.x'))
  {
    EditHeads(e, ns.chains, ns'.chains);
    hide Heads, Placed, HeldBy;
    HeldAround(e.A(ns.chains), e.x, e.B(ns.chains));
    HeldAround(e.A(ns.chains), e.x', e.B(ns.chains));
  }

  lemma {:induction false} IdsAppend(a: seq<Element>, b: seq<Element>)
    ensures Ids(a + b) == Ids(a) + Ids(b)
  {
  }

  ghost function IdBag(hs: seq<Head>): multiset<nat> {
    multiset(Ids(AllElements(hs)))
  }

  lemma BagAround(a: seq<Head>, x: seq<Head>, b: seq<Head>)
    ensures IdBag(a + x + b) == IdBag(a) + IdBag(x) + IdBag(b)
  {
    ElementsAppend(a + x, b);
    ElementsAppend(a, x);
    IdsAppend(AllElements(a + x), AllElements(b));
    IdsAppend(AllElements(a), AllElements(x));
  }

  /** New ids are from `next` on, and no two the same. */
  ghost predicate NewIds(ids: multiset<nat>, next: nat, next': nat) {
    next <= next' && forall id :: id in ids ==> next <= id < next' && ids[id] == 1
  }

  lemma EditIds(e: Edit, ns: Ns, ns': Ns, added: multiset<nat>)
    requires Placed(ns.chains) && e.Of(ns.chains, ns'.chains)
    requires NewIds(added, ns.next, ns'.next) && IdBag(e.x') <= IdBag(e.x) + added
    requires FreshIds(Ids(AllElements(Heads(ns.chains))), ns.next)
    ensures FreshIds(Ids(AllElements(Heads(ns'.chains))), ns'.next)
  {
    EditHeads(e, ns.chains, ns'.chains);
    hide Heads, Placed, AllElements;
    BagAround(e.A(ns.chains), e.x, e.B(ns.chains));
    BagAround(e.A(ns.chains), e.x', e.B(ns.chains));
    assert IdBag(Heads(ns'.chains)) <= IdBag(Heads(ns.chains)) + added;
  }

  lemma EditKeeps(e: Edit, ns: Ns, ns': Ns, added: multiset<nat>)
    requires Valid(ns) && e.Of(ns.chains, ns'.chains)
    requires forall h :: h in e.x' ==> h.mount != [] && Mounth(h.from.value) == Mounth(e.on)
    requires NewIds(added, ns.next, ns'.next) && IdBag(e.x') <= IdBag(e.x) + added
    ensures Valid(ns')
  {
    EditIds(e, ns, ns', added);
    EditPlaced(e, ns.chains, ns'.chains);
    EditHeads(e, ns.chains, ns'.chains);
    hide Heads, Placed, FreshIds, NewIds, AllElements;
    AroundOneEach(e.A(ns.chains), e.x, e.x', e.B(ns.chains), KeyOf(e.on));
    forall h | h in Heads(ns'.chains)
      ensures h.mount != []
    {
      assert h in e.x' || h in Heads(ns.chains);
    }
  }

  lemma EditPlaced(e: Edit, chains: Chains, chains': Chains)
    requires Placed(chains) && e.Of(chains, chains')
    requires forall h :: h in e.x' ==> Mounth(h.from.value) == Mounth(e.on)
    ensures Placed(chains')
  {
    var m := Mounth(e.on);
    forall i | 0 <= i < |chains'[m]|
      ensures chains'[m][i].from.Some? && Mounth(chains'[m][i].from.value) == m
    {
      var h := chains'[m][i];
      if h !in e.x' {
        assert h in chains[m];
      }
    }
  }

  lemma {:induction false} DistinctOnce(s: seq<nat>, lo: nat)
    requires forall i :: 0 <= i < |s| ==> s[i] == lo + i
    ensures NewIds(multiset(s), lo, lo + |s|)
  {
    if s != [] {
      var n := |s| - 1;
      assert s == s[..n] + [s[n]];
      DistinctOnce(s[..n], lo);
    }
  }

  // ---- the operations

  lemma MiddleOneEach(p: seq<Head>, c: seq<Head>, q: seq<Head>)
    requires OneEach(p + c + q)
    ensures OneEach(c)
  {
    var hs := p + c + q;
    forall i, j | 0 <= i < j < |c| && c[i].from.Some? && c[j].from.Some?
      ensures KeyOf(c[i].from.value) != KeyOf(c[j].from.value)
    {
      assert hs[|p| + i] == c[i] && hs[|p| + j] == c[j];
    }
  }

  lemma ChainOneEach(chains: Chains, b: nat)
    requires b < |chains| && OneEach(Heads(chains))
    ensures OneEach(chains[b])
  {
    hide OneEach, Heads;
    HeadsAt(chains, b, chains[b]);
    assert chains[b := chains[b]] == chains;
    MiddleOneEach(Heads(chains[..b]), chains[b], Heads(chains[b + 1..]));
  }

  /** The edit that puts `x'` in place of what is on `on`. */
  function EditOn(chains: Chains, on: Chan, x': seq<Head>): Edit
    requires |chains| == MNTHASH
  {
    var chain := chains[Mounth(on)];
    var i := Index(chain, on);
    if i < |chain| then Edit(on, chain[..i], [chain[i]], x', chain[i + 1..]) else Edit(on, chain, [], x', [])
  }

  /** No head but the one at `i` is on its file. */
  lemma OthersElsewhere(chain: seq<Head>, k: Key, i: nat, j: nat)
    requires OneEach(chain) && i < |chain| && j < |chain| && i != j && chain[i].from.Some? && chain[j].from.Some?
    requires KeyOf(chain[i].from.value) == k
    ensures KeyOf(chain[j].from.value) != k
  {
  }

  lemma FoundAround(chain: seq<Head>, k: Key, i: nat)
    requires OneEach(chain) && (forall h :: h in chain ==> h.from.Some?)
    requires i < |chain| && chain[i].from.Some? && KeyOf(chain[i].from.value) == k
    ensures Around(chain, chain[..i], [chain[i]], chain[i + 1..], k)
  {
    hide OneEach, KeyOf;
    assert chain == chain[..i] + [chain[i]] + chain[i + 1..];
    forall h | h in chain[..i] || h in chain[i + 1..]
      ensures h.from.Some? && KeyOf(h.from.value) != k
    {
      var j :| 0 <= j < |chain| && j != i && chain[j] == h;
      OthersElsewhere(chain, k, i, j);
    }
  }

  lemma NoneAround(chain: seq<Head>, on: Chan)
    requires (forall h :: h in chain ==> h.from.Some?) && Index(chain, on) == |chain|
    ensures Around(chain, chain, [], [], KeyOf(on))
  {
    assert chain == chain + [] + [];
    forall h | h in chain
      ensures KeyOf(h.from.value) != KeyOf(on)
    {
      var j :| 0 <= j < |chain| && chain[j] == h;
      assert !chain[j].On(on);
    }
  }

  lemma IndexAround(chain: seq<Head>, on: Chan, i: nat)
    requires OneEach(chain) && (forall h :: h in chain ==> h.from.Some?) && i == Index(chain, on)
    ensures i < |chain| ==> Around(chain, chain[..i], [chain[i]], chain[i + 1..], KeyOf(on))
    ensures i == |chain| ==> Around(chain, chain, [], [], KeyOf(on))
  {
    if i < |chain| {
      assert chain[i].On(on) && KeyOf(chain[i].from.value) == KeyOf(on);
      hide OneEach, Around, KeyOf, Index;
      FoundAround(chain, KeyOf(on), i);
    } else {
      hide OneEach, Around, KeyOf;
      NoneAround(chain, on);
    }
  }

  lemma EditOnIs(chains: Chains, on: Chan, x': seq<Head>, chains': Chains)
    requires Placed(chains) && OneEach(Heads(chains))
    requires |x'| <= 1 && forall h :: h in x' ==> h.from.Some? && KeyOf(h.from.value) == KeyOf(on)
    requires var e := EditOn(chains, on, x'); chains' == chains[Mounth(on) := e.a + x' + e.b]
    ensures EditOn(chains, on, x').Of(chains, chains')
  {
    hide OneEach, Heads, KeyOf, Index;
    var chain := chains[Mounth(on)];
    ChainOneEach(chains, Mounth(on));
    IndexAround(chain, on, Index(chain, on));
  }

  /** The list on a file before a bind to it, as the bind finds or makes it. */
  ghost function Was(ns: Ns, on: Chan, how: Bind): Head {
    if KeyOf(on) in Abs(ns) then Abs(ns)[KeyOf(on)] else FirstHead(on, how, ns.next)
  }

  /** What a bind takes in: its elements' channels, and the channel mounted upon where it makes the head. */
  ghost function TakenIn(ns: Ns, on: Chan, to: Element, union: seq<Element>, how: Bind): seq<Chan> {
    [to.chan] + (if union == [] then [] else Chans(union[1..])) + if KeyOf(on) in Abs(ns) then [] else if how == Replace then [on] else [on, on]
  }

  lemma TakenInIs(ns: Ns, on: Chan, to: Element, union: seq<Element>, how: Bind)
    ensures TakenIn(ns, on, to, union, how) ==
            Chans(Group(to, union, how)) + if KeyOf(on) in Abs(ns) then [] else if how == Replace then [on] else [on, on]
  {
    hide Abs;
    assert Chans(Group(to, union, how)) == [to.chan] + (if union == [] then [] else Chans(union[1..]));
  }

  /** What is on a file before a bind's own elements: the file itself, if nothing is and it is not to be replaced. */
  ghost function Listed(ns: Ns, on: Chan, how: Bind): seq<Element> {
    if KeyOf(on) in Abs(ns) then Abs(ns)[KeyOf(on)].mount else if how == Replace then [] else [Element(on, 0, "", ns.next)]
  }

  /**
    `now` is `was` after a bind of `to`, and of the rest of the union it was reached
    through: the new elements in front of, behind or in place of the old, each lot
    in its order; the union's with their own channels and specs, and the order's flag.
   */
  predicate Bound(was: seq<Element>, now: seq<Element>, to: Element, union: seq<Element>, how: Bind, id: nat) {
    var n := if union == [] then 1 else |union|;
    var first := if how == After then |was| else 0;
    var kept := if how == Before then n else 0;
    && |now| == n + (if how == Replace then 0 else |was|)
    && Brought(now[first..first + n], to, union, how, id)
    && (how != Replace ==> now[kept..kept + |was|] == was)
  }

  /** The elements a bind makes, in order. */
  predicate Brought(made: seq<Element>, to: Element, union: seq<Element>, how: Bind, id: nat) {
    && |made| == (if union == [] then 1 else |union|)
    && made[0] == to.(mountid := id)
    && forall i :: 1 <= i < |union| ==> made[i] == Element(union[i].chan, if how == Before then MBEFORE else MAFTER, union[i].spec, id + i)
  }

  lemma GroupAt(to: Element, union: seq<Element>, how: Bind, id: nat)
    ensures Brought(Numbered(Group(to, union, how), id), to, union, how, id)
  {
    assert Masked(MBEFORE) == MBEFORE && Masked(MAFTER) == MAFTER;
    var g := Group(to, union, how);
    var flg := if how == Before then MBEFORE else MAFTER;
    forall i | 1 <= i < |union|
      ensures Numbered(g, id)[i] == Element(union[i].chan, flg, union[i].spec, id + i)
    {
      assert g[i] == Shared(union[i].chan, flg, union[i].spec);
    }
  }

  lemma JoinedBound(was: seq<Element>, to: Element, union: seq<Element>, how: Bind, id: nat)
    ensures Bound(was, Joined(was, Numbered(Group(to, union, how), id), how), to, union, how, id)
  {
    GroupAt(to, union, how, id);
    hide Group, Numbered, Brought;
    var g := Numbered(Group(to, union, how), id);
    assert |g| == if union == [] then 1 else |union| by { GroupLen(to, union, how, id); }
    assert (g + was)[..|g|] == g && (g + was)[|g|..|g| + |was|] == was;
    assert (was + g)[..|was|] == was && (was + g)[|was|..|was| + |g|] == g;
    assert g[0..|g|] == g && (g + was)[0..|g|] == g && (was + g)[0..|was|] == was;
  }

  lemma GroupLen(to: Element, union: seq<Element>, how: Bind, id: nat)
    ensures |Numbered(Group(to, union, how), id)| == if union == [] then 1 else |union|
  {
  }

  /** The id a bind gives its first element. */
  function NextId(ns: Ns, on: Chan, how: Bind): nat
    requires |ns.chains| == MNTHASH
  {
    if Lookup(ns, on).None? && how != Replace then ns.next + 1 else ns.next
  }

  /** The edit a bind is: `was` is on the file, or is made, and `g` is joined to it. */
  ghost predicate BindEdit(ns: Ns, ns': Ns, e: Edit, was: Head, g: seq<Element>, on: Chan, how: Bind) {
    && e.Of(ns.chains, ns'.chains) && e.on == on && g != []
    && was.from.Some? && KeyOf(was.from.value) == KeyOf(on)
    && e.x' == [was.(mount := Joined(was.mount, g, how))]
    && (e.x == [was] || (e.x == [] && was == FirstHead(on, how, ns.next)))
    && var next := if e.x == [] then ns.next + |was.mount| else ns.next;
       && ns'.next == next + |g|
       && forall i :: 0 <= i < |g| ==> g[i].mountid == next + i
  }

  /** A bind is an edit of the head of its file. */
  lemma CmountIs(ns: Ns, on: Chan, to: Element, union: seq<Element>, how: Bind, was: Head, g: seq<Element>)
    requires |ns.chains| == MNTHASH && !Refused(on, to, union, how)
    requires was == if Lookup(ns, on).Some? then Lookup(ns, on).value else FirstHead(on, how, ns.next)
    requires g == Numbered(Group(to, union, how), NextId(ns, on, how))
    ensures var h := was.(mount := Joined(was.mount, g, how));
            var e := EditOn(ns.chains, on, [h]);
            Cmount(ns, on, to, union, how) ==
              (Ns(ns.chains[Mounth(on) := e.a + [h] + e.b], NextId(ns, on, how) + |g|),
               Ok((NextId(ns, on, how), if how == Replace then Chans(was.mount) else [])))
  {
    hide Joined, Group, Chans, Refused;
    var chain := ns.chains[Mounth(on)];
    Replaced(if Index(chain, on) < |chain| then chain else chain + [was], Index(chain, on), [was.(mount := Joined(was.mount, g, how))]);
  }

  lemma CmountEdit(ns: Ns, on: Chan, to: Element, union: seq<Element>, how: Bind, was: Head, g: seq<Element>)
    requires Placed(ns.chains) && OneEach(Heads(ns.chains)) && !Refused(on, to, union, how)
    requires was == if Lookup(ns, on).Some? then Lookup(ns, on).value else FirstHead(on, how, ns.next)
    requires g == Numbered(Group(to, union, how), NextId(ns, on, how))
    ensures var (ns', res) := Cmount(ns, on, to, union, how);
            && res == Ok((NextId(ns, on, how), if how == Replace then Chans(was.mount) else []))
            && BindEdit(ns, ns', EditOn(ns.chains, on, [was.(mount := Joined(was.mount, g, how))]), was, g, on, how)
  {
    assert |ns.chains| == MNTHASH;
    var h := was.(mount := Joined(was.mount, g, how));
    CmountIs(ns, on, to, union, how, was, g);
    hide Placed, OneEach, Heads, Joined, Group, Edit.Of, Cmount;
    EditOnIs(ns.chains, on, [h], Cmount(ns, on, to, union, how).0.chains);
  }

  lemma JoinedIds(list: seq<Element>, group: seq<Element>, how: Bind)
    ensures multiset(Ids(Joined(list, group, how))) <= multiset(Ids(list)) + multiset(Ids(group))
    ensures multiset(Chans(Joined(list, group, how))) + multiset(if how == Replace then Chans(list) else []) ==
            multiset(Chans(list)) + multiset(Chans(group))
    ensures group != [] ==> Joined(list, group, how) != []
  {
    IdsAppend(list, group);
    IdsAppend(group, list);
    assert Chans(list + group) == Chans(list) + Chans(group);
    assert Chans(group + list) == Chans(group) + Chans(list);
  }

  lemma OneHead(h: Head)
    ensures AllElements([h]) == h.mount && HeldBy([h]) == OptSeq(h.from) + Chans(h.mount)
    ensures AllElements([]) == [] && HeldBy([]) == []
  {
    assert [h][1..] == [];
  }

  lemma CmountDone(ns: Ns, on: Chan, to: Element, union: seq<Element>, how: Bind, was: Head, g: seq<Element>)
    requires Valid(ns) && !Refused(on, to, union, how)
    requires was == Was(ns, on, how) && g == Numbered(Group(to, union, how), NextId(ns, on, how))
    ensures var (ns', res) := Cmount(ns, on, to, union, how);
            && Valid(ns') && res.Ok? && res.value == (NextId(ns, on, how), if how == Replace then Chans(was.mount) else [])
            && Abs(ns') == Abs(ns)[KeyOf(on) := was.(mount := Joined(was.mount, g, how))]
            && Held(ns') + multiset(res.value.1) == Held(ns) + multiset(TakenIn(ns, on, to, union, how))
  {
    LookupAgrees(ns, on);
    CmountEdit(ns, on, to, union, how, was, g);
    TakenInIs(ns, on, to, union, how);
    assert Chans(g) == Chans(Group(to, union, how));
    hide TakenIn;
    hide Valid, Refused, Group, Cmount, Placed, OneEach, Heads, FreshIds, Abs, Held, Joined, BindEdit, EditOn, Numbered, Chans;
    var (ns', res) := Cmount(ns, on, to, union, how);
    var e := EditOn(ns.chains, on, [was.(mount := Joined(was.mount, g, how))]);
    CmountAbs(ns, ns', e, was, g, on, how);
    CmountCounts(ns, ns', e, was, g, on, how);
    CmountHeld(ns, ns', e, was, g, on, how, res.value.1, TakenIn(ns, on, to, union, how));
  }

  /**
    A bind, as the map sees it. It is refused where a directory and a file are
    brought together, where there is to be a union at a file, or where it would
    allow creation in a union that has it elsewhere than on one element; and then
    nothing is changed. Otherwise the file's entry is the new elements before, after
    or in place of those there were, and nothing else is changed; a directory with
    nothing on it begins as itself, unless it is replaced.
   */
  lemma CmountRefines(ns: Ns, on: Chan, to: Element, union: seq<Element>, how: Bind)
    requires Valid(ns)
    ensures var (ns', res) := Cmount(ns, on, to, union, how);
            var k, was := KeyOf(on), Listed(ns, on, how);
            && Valid(ns')
            && (res.Err? <==>
                  || on.IsDir() != to.chan.IsDir()
                  || (!on.IsDir() && how != Replace)
                  || (to.Create() && union != [] && (|union| > 1 || !union[0].Create())))
            && (res.Err? ==> ns' == ns && res == Err(EMOUNT))
            && (res.Ok? ==>
                  && k in Abs(ns') && Abs(ns') == Abs(ns)[k := Abs(ns')[k]]
                  && Abs(ns')[k].from == (if k in Abs(ns) then Abs(ns)[k].from else Some(on))
                  && Bound(was, Abs(ns')[k].mount, to, union, how, res.value.0)
                  && res.value.0 == (if k !in Abs(ns) && how != Replace then ns.next + 1 else ns.next)
                  && res.value.1 == (if how == Replace then Chans(was) else [])
                  && Held(ns') + multiset(res.value.1) == Held(ns) + multiset(TakenIn(ns, on, to, union, how)))
  {
    if !Refused(on, to, union, how) {
      var was, id := Was(ns, on, how), NextId(ns, on, how);
      WasListed(ns, on, how);
      CmountDone(ns, on, to, union, how, was, Numbered(Group(to, union, how), id));
      JoinedBound(was.mount, to, union, how, id);
      hide Valid, Refused, Group, Cmount, Abs, Held, Joined, Was, Numbered, TakenIn, NextId, Bound, Listed, Chans;
    }
  }

  lemma WasListed(ns: Ns, on: Chan, how: Bind)
    requires Valid(ns)
    ensures Was(ns, on, how).mount == Listed(ns, on, how)
    ensures Was(ns, on, how).from == if KeyOf(on) in Abs(ns) then Abs(ns)[KeyOf(on)].from else Some(on)
    ensures NextId(ns, on, how) == if KeyOf(on) !in Abs(ns) && how != Replace then ns.next + 1 else ns.next
  {
    LookupAgrees(ns, on);
    hide Abs, Heads, Placed, OneEach, FreshIds;
  }

  lemma CmountAbs(ns: Ns, ns': Ns, e: Edit, was: Head, g: seq<Element>, on: Chan, how: Bind)
    requires Valid(ns) && BindEdit(ns, ns', e, was, g, on, how)
    ensures Abs(ns') == Abs(ns)[KeyOf(on) := was.(mount := Joined(was.mount, g, how))]
    ensures e.x == [] <==> KeyOf(on) !in Abs(ns)
  {
    hide OneEach, Heads, FreshIds, Abs, Joined, Edit.Of, FirstHead;
    EditAbs(e, ns, ns');
  }

  lemma CmountCounts(ns: Ns, ns': Ns, e: Edit, was: Head, g: seq<Element>, on: Chan, how: Bind)
    requires Valid(ns) && BindEdit(ns, ns', e, was, g, on, how)
    ensures Valid(ns')
  {
    var first := if e.x == [] then was.mount else [];
    CmountIds(ns, ns', e, was, g, on, how, first);
    JoinedIds(was.mount, g, how);
    hide Valid, Placed, OneEach, FreshIds, Heads, Edit.Of, AllElements, Joined, Ids, IdBag, NewIds, Mounth;
    EditKeeps(e, ns, ns', multiset(Ids(first + g)));
  }

  lemma CmountIds(ns: Ns, ns': Ns, e: Edit, was: Head, g: seq<Element>, on: Chan, how: Bind, first: seq<Element>)
    requires BindEdit(ns, ns', e, was, g, on, how) && first == if e.x == [] then was.mount else []
    ensures NewIds(multiset(Ids(first + g)), ns.next, ns'.next) && IdBag(e.x') <= IdBag(e.x) + multiset(Ids(first + g))
  {
    hide Edit.Of, AllElements, Joined, KeyOf;
    OneHead(e.x'[0]);
    OneHead(was);
    JoinedIds(was.mount, g, how);
    IdsAppend(first, g);
    DistinctOnce(Ids(first + g), ns.next);
  }

  /** Where `x` became `x'`, and `x'` and what went is `x` and what came. */
  lemma Cancel(now: multiset<Chan>, before: multiset<Chan>, x: multiset<Chan>, x': multiset<Chan>, gone: multiset<Chan>, came: multiset<Chan>)
    requires now + x == before + x' && x' + gone == x + came
    ensures now + gone == before + came
  {
    forall c
      ensures (now + gone)[c] == (before + came)[c]
    {
      assert (now + x)[c] == (before + x')[c] && (x' + gone)[c] == (x + came)[c];
    }
  }

  lemma BindBag(from: multiset<Chan>, joined: multiset<Chan>, list: multiset<Chan>, gone: multiset<Chan>, g: multiset<Chan>)
    requires joined + gone == list + g
    ensures from + joined + gone == from + list + g
  {
    assert from + joined + gone == from + (joined + gone);
    assert from + list + g == from + (list + g);
  }

  lemma CmountHeld(ns: Ns, ns': Ns, e: Edit, was: Head, g: seq<Element>, on: Chan, how: Bind, gone: seq<Chan>, came: seq<Chan>)
    requires Placed(ns.chains) && BindEdit(ns, ns', e, was, g, on, how)
    requires gone == if how == Replace then Chans(was.mount) else []
    requires came == Chans(g) + if e.x != [] then [] else if how == Replace then [on] else [on, on]
    ensures Held(ns') + multiset(gone) == Held(ns) + multiset(came)
  {
    hide Placed, Heads, Edit.Of, HeldBy, Joined, Held, Chans;
    var h := e.x'[0];
    OneHead(h);
    OneHead(was);
    JoinedIds(was.mount, g, how);
    EditHeld(e, ns, ns');
    var from, list, joined := multiset(OptSeq(was.from)), multiset(Chans(was.mount)), multiset(Chans(h.mount));
    BindBag(from, joined, list, multiset(gone), multiset(Chans(g)));
    CameBag(e.x, was, g, on, how, ns.next, came);
    Cancel(Held(ns'), Held(ns), multiset(HeldBy(e.x)), from + joined, multiset(gone), multiset(came));
  }

  /** What a bind brings is the new elements', and the head's own where it makes one. */
  lemma CameBag(x: seq<Head>, was: Head, g: seq<Element>, on: Chan, how: Bind, next: nat, came: seq<Chan>)
    requires x == [was] || (x == [] && was == FirstHead(on, how, next))
    requires came == Chans(g) + if x != [] then [] else if how == Replace then [on] else [on, on]
    ensures multiset(OptSeq(was.from)) + multiset(Chans(was.mount)) + multiset(Chans(g)) == multiset(HeldBy(x)) + multiset(came)
  {
    OneHead(was);
    if x == [] {
      assert Chans(was.mount) == if how == Replace then [] else [on];
    }
  }

  /** An unmount is an edit of the head of its file, to `x'`. */
  lemma CunmountEdit(ns: Ns, on: Chan, matches: Option<Chan -> bool>, h: Head, x': seq<Head>, e: Edit)
    requires Placed(ns.chains) && OneEach(Heads(ns.chains)) && Lookup(ns, on) == Some(h)
    requires matches.Some? ==> Match(h.mount, matches.value) < |h.mount|
    requires x' == Rest(h, matches) && e == EditOn(ns.chains, on, x')
    ensures var (ns', res) := Cunmount(ns, on, matches);
            && res == Ok(LetGo(h, matches)) && ns'.next == ns.next
            && e.Of(ns.chains, ns'.chains) && e.x == [h]
  {
    assert |ns.chains| == MNTHASH;
    hide Placed, OneEach, Heads, Match, Edit.Of;
    CunmountIs(ns, on, matches, h, e);
    hide Cunmount, Rest, LetGo, Lookup;
    EditOnIs(ns.chains, on, x', Cunmount(ns, on, matches).0.chains);
  }

  lemma CunmountIs(ns: Ns, on: Chan, matches: Option<Chan -> bool>, h: Head, e: Edit)
    requires |ns.chains| == MNTHASH && Lookup(ns, on) == Some(h)
    requires matches.Some? ==> Match(h.mount, matches.value) < |h.mount|
    requires e == EditOn(ns.chains, on, Rest(h, matches))
    ensures var (ns', res) := Cunmount(ns, on, matches);
            && res == Ok(LetGo(h, matches)) && ns'.next == ns.next && e.x == [h] && e.on == on
            && ns'.chains == ns.chains[Mounth(on) := e.a + Rest(h, matches) + e.b]
  {
    hide Match, Index, Chans, OptSeq;
    var chain := ns.chains[Mounth(on)];
    var i := Index(chain, on);
    var x' := Rest(h, matches);
    Replaced(chain, i, x');
    if matches.None? {
      assert x' == [] && LetGo(h, matches) == Chans(h.mount) + OptSeq(h.from);
    } else {
      var k := Match(h.mount, matches.value);
      var rest := h.mount[..k] + h.mount[k + 1..];
      hide LetGo, Rest;
      assert x' == (if rest == [] then [] else [h.(mount := rest)]) && LetGo(h, matches) == LetGoOne(h, k, x') by {
        LetGoIs(h, matches);
      }
    }
  }

  function LetGoOne(h: Head, k: nat, x': seq<Head>): seq<Chan>
    requires k < |h.mount|
  {
    if x' == [] then [h.mount[k].chan] + OptSeq(h.from) else [h.mount[k].chan]
  }

  lemma LetGoIs(h: Head, matches: Option<Chan -> bool>)
    requires matches.Some? && Match(h.mount, matches.value) < |h.mount|
    ensures var k := Match(h.mount, matches.value);
            var rest := h.mount[..k] + h.mount[k + 1..];
            && Rest(h, matches) == (if rest == [] then [] else [h.(mount := rest)])
            && LetGo(h, matches) == LetGoOne(h, k, Rest(h, matches))
  {
  }

  lemma Replaced(chain: seq<Head>, i: nat, x': seq<Head>)
    requires i < |chain| && |x'| <= 1
    ensures chain[..i] + x' + chain[i + 1..] == if x' == [] then chain[..i] + chain[i + 1..] else chain[i := x'[0]]
  {
  }

  /** What an unmount leaves of a head. */
  function Rest(h: Head, matches: Option<Chan -> bool>): (r: seq<Head>)
    ensures |r| <= 1 && (r != [] ==> r[0].from == h.from && r[0].mount != [])
  {
    if matches.None? then
      []
    else
      var k := Match(h.mount, matches.value);
      var rest := if k < |h.mount| then h.mount[..k] + h.mount[k + 1..] else h.mount;
      if rest == [] then [] else [h.(mount := rest)]
  }

  /** What it lets go of: the elements, or the one, and the channel mounted upon if nothing is left. */
  function LetGo(h: Head, matches: Option<Chan -> bool>): seq<Chan> {
    var gone := if matches.None? then Chans(h.mount)
                else var k := Match(h.mount, matches.value); if k < |h.mount| then [h.mount[k].chan] else [];
    if Rest(h, matches) == [] then gone + OptSeq(h.from) else gone
  }

  lemma WithoutOne(es: seq<Element>, k: nat)
    requires k < |es|
    ensures multiset(Chans(es[..k] + es[k + 1..])) + multiset{es[k].chan} == multiset(Chans(es))
    ensures multiset(Ids(es[..k] + es[k + 1..])) <= multiset(Ids(es))
  {
    var a, b := es[..k], es[k + 1..];
    assert Chans(es) == Chans(a) + [es[k].chan] + Chans(b);
    assert Chans(a + b) == Chans(a) + Chans(b);
    assert Ids(es) == Ids(a) + [es[k].mountid] + Ids(b);
    IdsAppend(a, b);
    hide Chans, Ids;
    OneMore(multiset(Ids(a)), es[k].mountid, multiset(Ids(b)));
  }

  lemma OneMore(a: multiset<nat>, x: nat, b: multiset<nat>)
    ensures a + b <= a + multiset{x} + b
  {
  }

  lemma OneLeft(h: Head, k: nat, x': seq<Head>)
    requires k < |h.mount|
    requires var rest := h.mount[..k] + h.mount[k + 1..]; x' == if rest == [] then [] else [h.(mount := rest)]
    ensures multiset(HeldBy(x')) + multiset(LetGoOne(h, k, x')) == multiset(HeldBy([h])) && IdBag(x') <= IdBag([h])
  {
    hide HeldBy, AllElements, Chans, Ids;
    var left := h.(mount := h.mount[..k] + h.mount[k + 1..]);
    OneHead(h);
    OneHead(left);
    WithoutOne(h.mount, k);
    assert multiset(HeldBy([h])) == multiset(OptSeq(h.from)) + multiset(Chans(h.mount));
    assert multiset(HeldBy([left])) == multiset(OptSeq(h.from)) + multiset(Chans(left.mount));
  }

  lemma RestBags(h: Head, matches: Option<Chan -> bool>)
    requires matches.Some? ==> Match(h.mount, matches.value) < |h.mount|
    ensures multiset(HeldBy(Rest(h, matches))) + multiset(LetGo(h, matches)) == multiset(HeldBy([h]))
    ensures IdBag(Rest(h, matches)) <= IdBag([h])
  {
    if matches.Some? {
      LetGoIs(h, matches);
      hide HeldBy, IdBag, Rest, LetGo, LetGoOne;
      OneLeft(h, Match(h.mount, matches.value), Rest(h, matches));
    } else {
      hide HeldBy, AllElements, Chans, Ids;
      OneHead(h);
    }
  }

  /**
    An unmount, as the map sees it. With nothing there or nothing that matches it
    is refused and changes nothing; otherwise the file's entry loses the first
    element that matches, or all of them, and goes with the last of them. What
    is let go of is what is no longer held.
   */
  lemma CunmountRefines(ns: Ns, on: Chan, matches: Option<Chan -> bool>)
    requires Valid(ns)
    ensures var (ns', res) := Cunmount(ns, on, matches);
            var k := KeyOf(on);
            && Valid(ns')
            && (k !in Abs(ns) ==> ns' == ns && res == Err(EUNMOUNT))
            && (k in Abs(ns) ==>
                  var h := Abs(ns)[k];
                  if matches.Some? && forall e :: e in h.mount ==> !matches.value(e.chan) then
                    ns' == ns && res == Err(EUNION)
                  else
                    && res.Ok?
                    && Abs(ns') == (if Rest(h, matches) == [] then Abs(ns) - {k} else Abs(ns)[k := Rest(h, matches)[0]])
                    && Held(ns') + multiset(res.value) == Held(ns))
  {
    LookupAgrees(ns, on);
    if KeyOf(on) in Abs(ns) {
      var h := Abs(ns)[KeyOf(on)];
      if matches.None? || Match(h.mount, matches.value) < |h.mount| {
        CunmountDone(ns, on, matches, h, EditOn(ns.chains, on, Rest(h, matches)));
      } else {
        hide Abs, Held, Heads, Placed, OneEach, FreshIds;
      }
    }
  }

  lemma CunmountDone(ns: Ns, on: Chan, matches: Option<Chan -> bool>, h: Head, e: Edit)
    requires Valid(ns) && Lookup(ns, on) == Some(h) && KeyOf(on) in Abs(ns) && Abs(ns)[KeyOf(on)] == h
    requires matches.Some? ==> Match(h.mount, matches.value) < |h.mount|
    requires e == EditOn(ns.chains, on, Rest(h, matches))
    ensures var (ns', res) := Cunmount(ns, on, matches);
            && Valid(ns') && res.Ok?
            && Abs(ns') == (if Rest(h, matches) == [] then Abs(ns) - {KeyOf(on)} else Abs(ns)[KeyOf(on) := Rest(h, matches)[0]])
            && Held(ns') + multiset(res.value) == Held(ns)
  {
    LookupAgrees(ns, on);
    assert Placed(ns.chains) && |ns.chains| == MNTHASH;
    CunmountEdit(ns, on, matches, h, Rest(h, matches), e);
    hide Valid, Placed, OneEach, Heads, FreshIds, Abs, Held, Rest, LetGo, HeldBy, IdBag, Edit.Of, Cunmount, Lookup;
    var (ns', res) := Cunmount(ns, on, matches);
    EditAbs(e, ns, ns');
    RestBags(h, matches);
    LostSome(e, ns, ns', h, res.value);
  }

  /** A head is cut down, or goes. */
  lemma LostSome(e: Edit, ns: Ns, ns': Ns, h: Head, gone: seq<Chan>)
    requires Valid(ns) && Placed(ns.chains) && ns'.next == ns.next && e.Of(ns.chains, ns'.chains) && e.x == [h]
    requires h.from.Some? && KeyOf(h.from.value) == KeyOf(e.on)
    requires |e.x'| <= 1 && (e.x' != [] ==> e.x'[0].from == h.from && e.x'[0].mount != [])
    requires multiset(HeldBy(e.x')) + multiset(gone) == multiset(HeldBy([h])) && IdBag(e.x') <= IdBag([h])
    ensures Valid(ns') && Held(ns') + multiset(gone) == Held(ns)
  {
    hide Valid, Placed, Held, HeldBy, IdBag, Edit.Of;
    EditKeeps(e, ns, ns', multiset{});
    EditHeld(e, ns, ns');
    Cancel(Held(ns'), Held(ns), multiset(HeldBy(e.x)), multiset(HeldBy(e.x')), multiset(gone), multiset{});
  }

  /** Closing a namespace hands back every channel it held, and leaves nothing mounted. */
  lemma ClosepgrpRefines(ns: Ns)
    requires Valid(ns)
    ensures var (ns', gone) := Closepgrp(ns);
            Valid(ns') && Abs(ns') == map[] && Held(ns') == multiset{} && multiset(gone) == Held(ns)
  {
    var ns' := Closepgrp(ns).0;
    EmptyValid(ns');
    hide Valid, Heads, HeldBy, Abs, AllElements, Find;
    forall k
      ensures k !in Abs(ns')
    {
      AbsAt(ns', k);
      FindNone(k);
    }
  }

  lemma EmptyValid(ns: Ns)
    requires |ns.chains| == MNTHASH && forall b :: 0 <= b < |ns.chains| ==> ns.chains[b] == []
    ensures Valid(ns) && Heads(ns.chains) == [] && HeldBy([]) == []
  {
    NoHeads(ns.chains);
    OneHead(Head(None, []));
    hide Heads, HeldBy, AllElements;
  }

  lemma FindNone(k: Key)
    ensures Find([], k).None?
  {
  }

  lemma {:induction false} NoHeads(chains: Chains)
    requires forall b :: 0 <= b < |chains| ==> chains[b] == []
    ensures Heads(chains) == []
  {
    if chains != [] {
      NoHeads(chains[1..]);
    }
  }
}
