// LRUCacheShard: the hash table, the LRU list, reference counts and charges of one
// shard, as its public operations change them under the shard's mutex.
module LruShard {
  import opened Probing
  import opened Sums
  import L = LruList
  import H = HandleTable

  // The mutable part of a handle. A handle is an array index that is allocated
  // once; key, hash and charge never change after its creation. Live handles are in
  // one of three states: in the table and referenced, in the table and not
  // referenced (then on the LRU list), or referenced and no longer in the table.
  datatype Meta = Meta(refs: nat, inCache: bool, charged: bool, high: bool, low: bool, hit: bool)

  predicate Live(m: Meta) { m.inCache || m.refs > 0 }

  function Weight(m: Meta, charge: nat): int {
    if Live(m) && m.charged then charge else 0
  }

  function Weights(meta: seq<Meta>, charge: seq<nat>): (ws: seq<int>)
    requires |meta| == |charge|
    ensures |ws| == |meta|
  {
    seq(|meta|, e requires 0 <= e < |meta| => Weight(meta[e], charge[e]))
  }

  // The charges of all live handles.
  function Used(meta: seq<Meta>, charge: seq<nat>): int
    requires |meta| == |charge|
  {
    Sum(Weights(meta, charge))
  }

  lemma UsedUpdate(meta: seq<Meta>, charge: seq<nat>, e: nat, m: Meta)
    requires |meta| == |charge| && e < |meta|
    ensures Used(meta[e := m], charge) == Used(meta, charge) + Weight(m, charge[e]) - Weight(meta[e], charge[e])
  {
    hide Weight;
    assert Weights(meta[e := m], charge) == Weights(meta, charge)[e := Weight(m, charge[e])];
    SumUpdate(Weights(meta, charge), e, Weight(m, charge[e]));
  }

  // -- states --------------------------------------------------------------------------------------

  function IdOf(hash: seq<nat>, key: seq<nat>, e: nat): H.Id
    requires e < |hash| == |key|
  {
    (hash[e], key[e])
  }

  predicate InTable(hash: seq<nat>, key: seq<nat>, content: map<H.Id, nat>, e: nat)
    requires e < |hash| == |key|
  {
    IdOf(hash, key, e) in content && content[IdOf(hash, key, e)] == e
  }

  // A handle is in the table iff its flag says so, and on the LRU list iff it is in
  // the table and nobody references it.
  predicate StatesOk(hash: seq<nat>, key: seq<nat>, meta: seq<Meta>, content: map<H.Id, nat>, l: seq<nat>)
    requires |hash| == |key| == |meta|
  {
    && (forall e :: 0 < e < |meta| ==> (meta[e].inCache <==> InTable(hash, key, content, e)))
    && (forall e :: 0 < e < |meta| ==> (e in l <==> meta[e].inCache && meta[e].refs == 0))
    && (forall e :: 0 < e < |meta| && meta[e].inCache ==> meta[e].charged)
  }

  // -- changes of state --------------------------------------------------------------------------

  // What each operation does to one handle.
  function Hit(m: Meta): Meta { m.(refs := m.refs + 1, hit := true) }
  function Uncached(m: Meta): Meta { m.(inCache := false) }

  // Lookup of an unreferenced handle takes it off the list.
  lemma StatesTake(hash: seq<nat>, key: seq<nat>, meta: seq<Meta>, content: map<H.Id, nat>, l: seq<nat>, e: nat,
                   m: Meta)
    requires |hash| == |key| == |meta| && StatesOk(hash, key, meta, content, l) && L.Distinct(l)
    requires 0 < e < |meta| && m.inCache == meta[e].inCache && m.charged == meta[e].charged && m.refs > 0
    ensures StatesOk(hash, key, meta[e := m], content, L.Minus(l, e))
  {
    hide InTable;
    L.MinusSub(l, e);
  }

  // A handle whose reference count stays positive.
  lemma StatesKeep(hash: seq<nat>, key: seq<nat>, meta: seq<Meta>, content: map<H.Id, nat>, l: seq<nat>, e: nat,
                   m: Meta)
    requires |hash| == |key| == |meta| && StatesOk(hash, key, meta, content, l)
    requires 0 < e < |meta| && m.inCache == meta[e].inCache && (m.inCache ==> m.charged)
    requires !m.inCache || (m.refs == 0) == (meta[e].refs == 0)
    ensures StatesOk(hash, key, meta[e := m], content, l)
  {
    hide InTable;
  }

  // The last reference to a cached handle is released: it goes on the list.
  lemma StatesGive(hash: seq<nat>, key: seq<nat>, meta: seq<Meta>, content: map<H.Id, nat>, l: seq<nat>, e: nat,
                   m: Meta, l': seq<nat>)
    requires |hash| == |key| == |meta| && StatesOk(hash, key, meta, content, l)
    requires 0 < e < |meta| && m.inCache && meta[e].inCache && m.charged && m.refs == 0
    requires forall x :: x in l' <==> x in l || x == e
    ensures StatesOk(hash, key, meta[e := m], content, l')
  {
    hide InTable;
  }

  // A handle leaves the table, and the list if it was on it.
  lemma StatesDrop(hash: seq<nat>, key: seq<nat>, meta: seq<Meta>, content: map<H.Id, nat>, l: seq<nat>, e: nat,
                   m: Meta)
    requires |hash| == |key| == |meta| && StatesOk(hash, key, meta, content, l) && L.Distinct(l)
    requires 0 < e < |meta| && meta[e].inCache && !m.inCache
    ensures StatesOk(hash, key, meta[e := m], content - {IdOf(hash, key, e)}, L.Minus(l, e))
  {
    L.MinusSub(l, e);
  }

  // A new handle enters the table and replaces another one.
  lemma StatesAdd(hash: seq<nat>, key: seq<nat>, meta: seq<Meta>, content: map<H.Id, nat>, l: seq<nat>, e: nat, m: Meta)
    requires |hash| == |key| == |meta| && StatesOk(hash, key, meta, content, l)
    requires 0 < e < |meta| && !meta[e].inCache && m.inCache && m.charged && m.refs > 0
    requires IdOf(hash, key, e) !in content
    ensures StatesOk(hash, key, meta[e := m], content[IdOf(hash, key, e) := e], l)
  {
  }

  lemma StatesReplace(hash: seq<nat>, key: seq<nat>, meta: seq<Meta>, content: map<H.Id, nat>, l: seq<nat>, e: nat,
                      m: Meta, r: nat)
    requires |hash| == |key| == |meta| && StatesOk(hash, key, meta, content, l) && L.Distinct(l)
    requires 0 < e < |meta| && !meta[e].inCache && m.inCache && m.charged && m.refs > 0
    requires IdOf(hash, key, e) in content && content[IdOf(hash, key, e)] == r && 0 < r < |meta|
    requires IdOf(hash, key, r) == IdOf(hash, key, e)
    ensures meta[r].inCache && r != e
    ensures StatesOk(hash, key, meta[r := Uncached(meta[r])][e := m], content[IdOf(hash, key, e) := e], L.Minus(l, r))
  {
    L.MinusSub(l, r);
    assert InTable(hash, key, content, r);
  }

  // -- pinned usage ------------------------------------------------------------------------------

  function PinnedWeights(meta: seq<Meta>, charge: seq<nat>): (ws: seq<int>)
    requires |meta| == |charge|
    ensures |ws| == |meta|
  {
    seq(|meta|, e requires 0 <= e < |meta| => if meta[e].refs > 0 && meta[e].charged then charge[e] else 0)
  }

  // The charges of all referenced handles.
  function PinnedCharge(meta: seq<Meta>, charge: seq<nat>): (c: nat)
    requires |meta| == |charge|
  {
    SumNonNegative(PinnedWeights(meta, charge));
    Sum(PinnedWeights(meta, charge))
  }

  // The charges of the entries of l, slot by slot.
  function ListWeights(charge: seq<nat>, l: seq<nat>): (ws: seq<int>)
    ensures |ws| == |charge|
  {
    seq(|charge|, e requires 0 <= e < |charge| => if e in l then charge[e] else 0)
  }

  lemma {:induction false} TotalIsSum(charge: seq<nat>, l: seq<nat>)
    requires L.Distinct(l) && L.InRange(|charge|, l)
    ensures L.Total(charge, l) == Sum(ListWeights(charge, l))
  {
    if l == [] {
      SumZero(ListWeights(charge, l));
    } else {
      L.DistinctTail(l);
      TotalIsSum(charge, l[1..]);
      assert l[0] !in l[1..];
      assert ListWeights(charge, l) == ListWeights(charge, l[1..])[l[0] := charge[l[0]]];
      SumUpdate(ListWeights(charge, l[1..]), l[0], charge[l[0]]);
    }
  }

  lemma {:induction false} SumPointwise(xs: seq<int>, ys: seq<int>, zs: seq<int>)
    requires |xs| == |ys| == |zs| && forall i :: 0 <= i < |xs| ==> xs[i] == ys[i] + zs[i]
    ensures Sum(xs) == Sum(ys) + Sum(zs)
  {
    if xs != [] { SumPointwise(xs[1..], ys[1..], zs[1..]); }
  }

  // usage_ is what the list and the referenced handles are charged together.
  lemma PinnedUsage(hash: seq<nat>, key: seq<nat>, meta: seq<Meta>, charge: seq<nat>, content: map<H.Id, nat>,
                    l: seq<nat>)
    requires |hash| == |key| == |meta| == |charge| > 0 && StatesOk(hash, key, meta, content, l) && !Live(meta[0])
    requires L.Distinct(l) && 0 !in l && L.InRange(|charge|, l)
    ensures Used(meta, charge) == L.Total(charge, l) + PinnedCharge(meta, charge)
  {
    hide L.Distinct, InTable;
    TotalIsSum(charge, l);
    SumPointwise(Weights(meta, charge), ListWeights(charge, l), PinnedWeights(meta, charge));
  }

  // Where the settled list differs from the old one.
  lemma SettledMembers(charge: seq<nat>, highCap: nat, lowCap: nat, s: L.Segments, e: nat, where: L.Pool)
    ensures forall x :: x in L.Settled(charge, highCap, lowCap, s, e, where).All() <==> x in s.All() || x == e
  {
    hide L.Maintain;
    var placed := L.Placed(s, e, where);
    if L.InCharge(charge, placed) { L.MaintainOk(charge, highCap, lowCap, placed); }
    L.PlacedAll(s, e, where);
    var p := L.PlaceOf(s, where);
    assert s.All() == s.All()[..p] + s.All()[p..];
  }

  // usage_ after evicting these entries.
  function Left(charge: seq<nat>, usage: int, evicted: seq<nat>): int {
    if L.InRange(|charge|, evicted) then usage - L.Total(charge, evicted) else usage
  }

  // Making room for charge c evicts the oldest entries of the list l, until c fits or
  // nothing is left, and no entry more than that takes.
  predicate JustEnough(charge: seq<nat>, capacity: nat, usage: int, c: nat, l: seq<nat>, evicted: seq<nat>) {
    && evicted <= l && L.InRange(|charge|, evicted)
    && (Left(charge, usage, evicted) + c <= capacity || evicted == l)
    && (evicted != [] ==> Left(charge, usage, evicted) + c + charge[Last(evicted)] > capacity)
  }

  lemma LeftNone(charge: seq<nat>, usage: int)
    ensures L.InRange(|charge|, []) && Left(charge, usage, []) == usage
  {
  }

  lemma LeftMore(charge: seq<nat>, usage: int, evicted: seq<nat>, e: nat)
    requires L.InRange(|charge|, evicted) && e < |charge|
    ensures L.InRange(|charge|, evicted + [e])
    ensures Left(charge, usage, evicted + [e]) == Left(charge, usage, evicted) - charge[e]
  {
    L.TotalConcat(charge, evicted, [e]);
    L.TotalOne(charge, e);
  }

  lemma JustEnoughIs(charge: seq<nat>, capacity: nat, usage: int, left: int, c: nat, l: seq<nat>, evicted: seq<nat>,
                     rest: seq<nat>)
    requires evicted + rest == l && L.InRange(|charge|, evicted) && left == Left(charge, usage, evicted)
    requires left + c <= capacity || rest == []
    requires evicted != [] ==> Last(evicted) < |charge| && left + c + charge[Last(evicted)] > capacity
    ensures JustEnough(charge, capacity, usage, c, l, evicted) && rest == l[|evicted|..]
  {
  }

  // How many entries of the list l that takes.
  function Evictions(charge: seq<nat>, capacity: nat, usage: int, c: nat, l: seq<nat>): nat
    decreases |l|
  {
    if usage + c <= capacity || l == [] || l[0] >= |charge| then 0
    else 1 + Evictions(charge, capacity, usage - charge[l[0]], c, l[1..])
  }

  lemma {:induction false} EvictionsExact(charge: seq<nat>, capacity: nat, usage: int, c: nat, l: seq<nat>,
                                          evicted: seq<nat>)
    requires JustEnough(charge, capacity, usage, c, l, evicted) && L.InRange(|charge|, l)
    ensures |evicted| == Evictions(charge, capacity, usage, c, l)
    decreases |l|
  {
    if evicted != [] {
      var rest, l' := evicted[1..], l[1..];
      assert evicted[0] == l[0] && evicted == [l[0]] + rest;
      L.TotalConcat(charge, [l[0]], rest);
      L.TotalOne(charge, l[0]);
      LastCounts(charge, evicted);
      assert rest <= l' by { assert forall i :: 0 <= i < |rest| ==> rest[i] == evicted[i + 1] == l[i + 1] == l'[i]; }
      assert evicted == l ==> rest == l';
      EvictionsExact(charge, capacity, usage - charge[l[0]], c, l', rest);
    }
  }

  lemma LastCounts(charge: seq<nat>, p: seq<nat>)
    requires L.InRange(|charge|, p) && p != []
    ensures L.Total(charge, p) >= charge[Last(p)]
  {
    var q := p[..|p| - 1];
    assert p == q + [Last(p)];
    L.TotalConcat(charge, q, [Last(p)]);
    L.TotalOne(charge, Last(p));
  }

  // The list without the handle that lost its place, if any.
  function WithoutSeg(s: L.Segments, e: nat): L.Segments {
    if e == 0 then s else L.Removed(s, e)
  }

  // Every handle but e is as it was, except that the evicted ones and the replaced one
  // have left the table.
  predicate Filed(meta: seq<Meta>, meta': seq<Meta>, evicted: seq<nat>, replaced: nat, e: nat) {
    && |meta'| == |meta|
    && forall x :: 0 <= x < |meta| && x != e ==>
      meta'[x] == if x in evicted || (x == replaced && replaced != 0) then Uncached(meta[x]) else meta[x]
  }

  // Without e the list is in the same order as before.
  lemma SettledMinus(charge: seq<nat>, highCap: nat, lowCap: nat, s: L.Segments, e: nat, where: L.Pool)
    requires e !in s.All()
    ensures L.Minus(L.Settled(charge, highCap, lowCap, s, e, where).All(), e) == s.All()
  {
    hide L.Maintain, L.Minus, L.Placed, L.Segments.All, L.PlaceOf;
    var placed := L.Placed(s, e, where);
    if L.InCharge(charge, placed) { L.MaintainOk(charge, highCap, lowCap, placed); }
    L.PlacedAll(s, e, where);
    var p := L.PlaceOf(s, where);
    var all, a, b := placed.All(), s.All()[..p], s.All()[p..];
    assert all[p] == e && all[..p] == a && all[p + 1..] == b && s.All() == a + b;
    L.MinusFirst(all, p);
  }

  // The status of an insertion: OK, OkOverwritten, OK without keeping the entry, or
  // MemoryLimit.
  datatype Outcome = Inserted | Overwritten | Dropped | MemoryLimit

  class Shard {
    const hash: array<nat>
    const key: array<nat>
    const charge: array<nat>
    const table: H.Table
    const list: L.List
    var meta: seq<Meta>
    var capacity: nat
    var strict: bool
    var usage: int

    ghost function Repr(): set<object>
      reads this, table
    {
      {this, table, table.list, table.nextHash, list, list.nexts, list.prevs, list.pool}
    }

    ghost predicate Separate()
      reads this, table
    {
      && table.hash == hash && table.key == key && list.charge == charge
      && hash.Length == key.Length == charge.Length == |meta| > 0
      && {list.nexts, list.prevs} !! {table.list, table.nextHash}
      && {list.nexts, list.prevs, table.list, table.nextHash} !! {hash, key, charge}
    }

    // The invariant of the parts, whatever the capacity.
    ghost predicate Core()
      reads this, table, list, table.list, table.nextHash, list.nexts, list.prevs, list.pool, hash, key, charge
    {
      && Separate() && table.Valid() && list.Valid()
      && StatesOk(hash[..], key[..], meta, table.content, list.seg.All()) && !Live(meta[0])
      && usage == Used(meta, charge[..])
    }

    // The invariant between operations: a shard over its capacity has nothing left
    // to evict.
    ghost predicate Valid()
      reads this, table, list, table.list, table.nextHash, list.nexts, list.prevs, list.pool, hash, key, charge
    {
      Core() && (usage > capacity ==> list.seg.All() == [])
    }

    // The handles that will ever be allocated are given by their immutable parts.
    constructor (w: nat, hash: array<nat>, key: array<nat>, charge: array<nat>, maxBits: nat, capacity: nat,
                 strict: bool)
      requires w > 4 && hash.Length == key.Length == charge.Length > 0
      ensures Valid() && table.content == map[] && Lru() == [] && usage == 0
      ensures this.capacity == capacity && this.strict == strict && fresh(Repr())
      ensures this.hash == hash && this.key == key && this.charge == charge && table.w == w
      ensures |meta| == hash.Length && forall e :: 0 <= e < |meta| ==> !Live(meta[e])
    {
      hide H.Table.Valid, L.List.Valid, StatesOk, Used, NoHandles;
      var nextHash := new nat[hash.Length];
      this.hash, this.key, this.charge := hash, key, charge;
      table := new H.Table(w, nextHash, hash, key, maxBits);
      list := new L.List(charge.Length, charge);
      meta := NoHandles(hash.Length);
      this.capacity, this.strict, usage := capacity, strict, 0;
      new;
      NoneLive(hash[..], key[..], meta, charge[..]);
      assert list.seg.All() == [];
    }

    ghost function Lru(): seq<nat>
      reads this, list
    {
      list.seg.All()
    }

    // Take the unreferenced handle e out of the list and the table and free it.
    method Discard(e: nat)
      requires Core() && 0 < e < |meta| && e in Lru()
      modifies Repr()
      ensures Core() && Same() && usage == old(usage) - charge[e]
      ensures meta == old(meta)[e := Uncached(old(meta)[e])] && Lru() == L.Minus(old(Lru()), e)
      ensures list.seg == L.Removed(old(list.seg), e)
      ensures (hash[e], key[e]) in old(table.content) && old(table.content)[(hash[e], key[e])] == e
      ensures table.content == old(table.content) - {(hash[e], key[e])} && table.list == old(table.list)
    {
      hide StatesOk, L.Minus, Used, H.Table.Valid, L.List.Valid, L.Removed;
      list.Facts();
      StatesHere(hash[..], key[..], meta, table.content, Lru(), e);
      table.IdFacts((hash[e], key[e]));
      StatesDrop(hash[..], key[..], meta, table.content, Lru(), e, Uncached(meta[e]));
      UsedUpdate(meta, charge[..], e, Uncached(meta[e]));
      list.Remove(e);
      var _ := table.Remove(key[e], hash[e]);
      meta := meta[e := Uncached(meta[e])];
      usage := usage - charge[e];
    }

    // One eviction.
    method EvictOldest(first: nat, ghost meta0: seq<Meta>, ghost content0: map<H.Id, nat>, ghost out: seq<nat>)
      requires Core() && Lru() != [] && first == Lru()[0] && first !in out
      requires Gone(meta0, meta, content0, table.content, out)
      modifies Repr()
      ensures Core() && Same() && Lru() == old(Lru())[1..] && table.list == old(table.list)
      ensures list.seg == L.DropOldest(old(list.seg), 1)
      ensures 0 < first < charge.Length && usage == old(usage) - charge[first]
      ensures Gone(meta0, meta, content0, table.content, out + [first]) && charge[..] == old(charge[..])
    {
      hide StatesOk, L.Minus, Used, H.Table.Valid, L.List.Valid, Gone, L.Removed, L.DropOldest;
      list.Facts();
      L.MinusAt(Lru(), 0);
      L.RemovedOldest(list.seg);
      assert Lru()[..0] + Lru()[1..] == Lru()[1..];
      Unique(first);
      GoneLength(meta0, meta, content0, table.content, out);
      ghost var m, t := meta, table.content;
      Discard(first);
      GoneMore(meta0, m, content0, t, out, first, hash[..], key[..]);
    }

    // The same, with the handle that will be the oldest then; l0 is the list at the
    // start of the evictions.
    method EvictNext(first: nat, evicted: seq<nat>, ghost l0: seq<nat>, ghost meta0: seq<Meta>,
                     ghost content0: map<H.Id, nat>)
      returns (first': nat)
      requires Core() && Lru() != [] && first == Lru()[0] && evicted + Lru() == l0 && L.Distinct(l0)
      requires Gone(meta0, meta, content0, table.content, evicted)
      modifies Repr()
      ensures Core() && Same() && table.list == old(table.list) && evicted + [first] + Lru() == l0
      ensures |Lru()| < |old(Lru())|
      ensures 0 < first < charge.Length && usage == old(usage) - charge[first]
      ensures Gone(meta0, meta, content0, table.content, evicted + [first]) && charge[..] == old(charge[..])
      ensures if Lru() == [] then first' == 0 else first' == Lru()[0] && first' != 0
      ensures list.seg == L.DropOldest(old(list.seg), 1)
    {
      hide Core, Gone, L.List.Valid, H.Table.Valid, L.Distinct, Separate, L.DropOldest;
      NotBefore(evicted, Lru());
      ghost var l := Lru();
      EvictOldest(first, meta0, content0, evicted);
      assert evicted + [first] + l[1..] == l0 by { assert l == [first] + l[1..]; }
      CoreList();
      first' := list.Oldest();
    }

    // EvictFromLRU: free from the old end of the list until the new charge fits or
    // nothing is left.
    method EvictFromLRU(c: nat) returns (evicted: seq<nat>)
      requires Core()
      modifies Repr()
      ensures Core() && Same() && (usage + c <= capacity || Lru() == []) && table.list == old(table.list)
      ensures JustEnough(charge[..], capacity, old(usage), c, old(Lru()), evicted)
      ensures evicted + Lru() == old(Lru()) && Lru() == old(Lru())[|evicted|..]
      ensures list.seg == L.DropOldest(old(list.seg), |evicted|)
      ensures usage == Left(charge[..], old(usage), evicted) <= old(usage) && charge[..] == old(charge[..])
      ensures Gone(old(meta), meta, old(table.content), table.content, evicted)
    {
      hide Core, Gone, L.List.Valid, H.Table.Valid, L.Distinct, Separate, Left, L.InRange, L.DropOldest;
      evicted := [];
      CoreList();
      GoneNone(meta, table.content);
      LeftNone(charge[..], usage);
      L.DropOldestNone(list.seg);
      assert [] + Lru() == Lru();
      var first := list.Oldest();
      while usage + c > capacity && first != 0
        invariant Core() && Same() && table.list == old(table.list)
        invariant L.InRange(charge.Length, evicted) && usage == Left(old(charge[..]), old(usage), evicted) <= old(usage)
        invariant charge[..] == old(charge[..]) && list.seg == L.DropOldest(old(list.seg), |evicted|)
        invariant evicted + Lru() == old(Lru()) && Gone(old(meta), meta, old(table.content), table.content, evicted)
        invariant evicted != [] ==> Last(evicted) < charge.Length && usage + c + charge[Last(evicted)] > capacity
        invariant if Lru() == [] then first == 0 else first == Lru()[0] && first != 0
        decreases |Lru()|
      {
        var next := EvictNext(first, evicted, old(Lru()), old(meta), old(table.content));
        LeftMore(charge[..], old(usage), evicted, first);
        assert |old(Lru())| == |old(list.seg).bottom| + |old(list.seg).low| + |old(list.seg).high|;
        L.DropOldestMore(old(list.seg), |evicted|);
        evicted, first := evicted + [first], next;
      }
      JustEnoughIs(charge[..], capacity, old(usage), usage, c, old(Lru()), evicted, Lru());
    }

    // Lookup
    method Lookup(k: nat, h: nat) returns (e: nat)
      requires Valid() && h < Pow2(table.w)
      modifies Repr()
      ensures Valid() && Same() && table.content == old(table.content) && usage == old(usage)
      ensures table.list == old(table.list)
      ensures e == if (h, k) in table.content then table.content[(h, k)] else 0
      ensures e == 0 ==> meta == old(meta) && list.seg == old(list.seg)
      ensures e != 0 ==>
        && e < |old(meta)| && meta == old(meta)[e := Hit(old(meta)[e])]
        && list.seg == L.Removed(old(list.seg), e) && Lru() == L.Minus(old(Lru()), e)
    {
      hide StatesOk, Used, H.Table.Valid, L.List.Valid, L.Distinct, L.Removed;
      e := table.Lookup(k, h);
      if e != 0 {
        table.IdFacts((h, k));
        StatesHere(hash[..], key[..], meta, table.content, Lru(), e);
        Take(e, Hit(meta[e]));
      }
    }

    // One more reference to a handle that is in the table or referenced; it leaves
    // the list if it was on it.
    method Take(e: nat, m: Meta)
      requires Core() && 0 < e < |meta| && Live(meta[e])
      requires m.refs == meta[e].refs + 1 && m.inCache == meta[e].inCache && m.charged == meta[e].charged
      modifies Repr()
      ensures Core() && Same() && table.content == old(table.content) && usage == old(usage)
      ensures table.list == old(table.list)
      ensures meta == old(meta)[e := m] && Lru() == L.Minus(old(Lru()), e) && list.seg == L.Removed(old(list.seg), e)
    {
      hide StatesOk, L.Minus, Used, H.Table.Valid, L.List.Valid, L.Distinct, L.Removed;
      list.Facts();
      StatesHere(hash[..], key[..], meta, table.content, Lru(), e);
      StatesTake(hash[..], key[..], meta, table.content, Lru(), e, m);
      UsedUpdate(meta, charge[..], e, m);
      if meta[e].refs == 0 {
        list.Remove(e);
      } else {
        L.MinusNone(Lru(), e);
        L.RemovedNone(list.seg, e);
      }
      meta := meta[e := m];
    }

    // Ref
    method Ref(e: nat)
      requires Valid() && 0 < e < |meta| && meta[e].refs > 0
      modifies Repr()
      ensures Valid() && Same() && table.content == old(table.content) && usage == old(usage)
      ensures meta == old(meta)[e := old(meta)[e].(refs := old(meta)[e].refs + 1)] && list.seg == old(list.seg)
    {
      hide StatesOk, L.Minus, Used, H.Table.Valid, L.List.Valid, L.Distinct, L.Removed;
      StatesHere(hash[..], key[..], meta, table.content, Lru(), e);
      L.RemovedNone(list.seg, e);
      Take(e, meta[e].(refs := meta[e].refs + 1));
    }

    // Put e, which is in the table and has lost its last reference, on the list.
    method Give(e: nat, m: Meta)
      requires Core() && 0 < e < |meta| && meta[e].inCache && meta[e].refs > 0
      requires m == meta[e].(refs := 0)
      modifies Repr()
      ensures Core() && Same() && table.content == old(table.content) && usage == old(usage)
      ensures table.list == old(table.list)
      ensures meta == old(meta)[e := m]
      ensures list.seg == L.Settled(charge[..], list.highCap, list.lowCap, old(list.seg), e, PoolOf(m))
      // entering the high or the low pool cuts both back to their capacities
      ensures !PoolOf(m).Bottom? ==> L.Bounded(charge[..], list.highCap, list.lowCap, list.seg)
      // a high priority or a hit counts for the high pool, any priority or a hit for the low one
      ensures var high := list.highOn && (m.high || m.hit);
        var low := !high && list.lowOn && (m.high || m.low || m.hit);
        !low || list.HighWithin(old(list.seg)) ==>
          L.Ranked(charge[..], list.highCap, list.lowCap, list.seg, e, high, low)
    {
      hide StatesOk, L.Minus, Used, H.Table.Valid, L.List.Valid, L.Distinct, L.Settled, L.Bounded, L.InCharge;
      hide L.Ranked, L.List.HighWithin;
      list.InChargeNow();
      if !PoolOf(m).Bottom? { L.SettledBounded(charge[..], list.highCap, list.lowCap, list.seg, e, PoolOf(m)); }
      StatesHere(hash[..], key[..], meta, table.content, Lru(), e);
      SettledMembers(charge[..], list.highCap, list.lowCap, list.seg, e, PoolOf(m));
      StatesGive(hash[..], key[..], meta, table.content, Lru(), e, m,
                 L.Settled(charge[..], list.highCap, list.lowCap, list.seg, e, PoolOf(m)).All());
      UsedUpdate(meta, charge[..], e, m);
      list.Insert(e, m.high, m.low, m.hit);
      meta := meta[e := m];
    }

    function PoolOf(m: Meta): L.Pool
      reads list
    {
      L.PoolFor(list.highOn, list.lowOn, m.high, m.low, m.hit)
    }

    // Release
    method Release(e: nat, eraseIfLast: bool) returns (freed: bool)
      requires Valid() && 0 < e < |meta| && meta[e].refs > 0
      modifies Repr()
      ensures Valid() && Same() && table.list == old(table.list)
      ensures var m := old(meta)[e].(refs := old(meta)[e].refs - 1);
        var last, over := m.refs == 0, old(usage) > capacity || eraseIfLast;
        && freed == (last && (over || !m.inCache))
        && meta == old(meta)[e := if last && over then Uncached(m) else m]
        && usage == old(usage) - (if freed && m.charged then charge[e] else 0)
        && table.content == (if last && over && m.inCache then old(table.content) - {(hash[e], key[e])}
                             else old(table.content))
        && list.seg == if last && m.inCache && !over
                       then L.Settled(charge[..], list.highCap, list.lowCap, old(list.seg), e, PoolOf(m))
                       else old(list.seg)
      ensures var m := old(meta)[e].(refs := old(meta)[e].refs - 1);
        m.refs == 0 && !freed && !PoolOf(m).Bottom? ==> L.Bounded(charge[..], list.highCap, list.lowCap, list.seg)
      // the entry becomes the newest of the best pool that its priority or a hit entitles it to
      ensures var m := old(meta)[e];
        var high := list.highOn && (m.high || m.hit);
        var low := !high && list.lowOn && (m.high || m.low || m.hit);
        m.refs == 1 && !freed && (!low || list.HighWithin(old(list.seg))) ==>
          L.Ranked(charge[..], list.highCap, list.lowCap, list.seg, e, high, low)
    {
      hide StatesOk, L.Minus, Used, H.Table.Valid, L.List.Valid, L.Distinct, L.Settled, L.Bounded;
      hide L.Ranked, L.List.HighWithin;
      StatesHere(hash[..], key[..], meta, table.content, Lru(), e);
      var m := meta[e].(refs := meta[e].refs - 1);
      freed := m.refs == 0;
      if freed && m.inCache {
        if usage > capacity || eraseIfLast {
          // the assertion of the code: a shard over its capacity has an empty list
          assert Lru() == [] || eraseIfLast;
          Forget(e, Uncached(m));
        } else {
          Give(e, m);
          freed := false;
        }
      } else {
        StatesKeep(hash[..], key[..], meta, table.content, Lru(), e, m);
        UsedUpdate(meta, charge[..], e, m);
        meta := meta[e := m];
        if freed { usage := usage - (if m.charged then charge[e] else 0); }
      }
    }

    // An unreferenced entry that is looked up and released again, in a shard within its
    // capacity, is the newest of the high pool, whatever its priority.
    method Use(k: nat, h: nat) returns (e: nat)
      requires Valid() && h < Pow2(table.w)
      modifies Repr()
      ensures Valid() && Same()
      ensures e == if (h, k) in old(table.content) then old(table.content)[(h, k)] else 0
      ensures e != 0 && e < |old(meta)| && old(meta)[e].refs == 0 && old(usage) <= capacity ==>
        && table.content == old(table.content) && usage == old(usage)
        && e < charge.Length && (list.highOn && charge[e] <= list.highCap ==> L.Newest(list.seg.high, e))
    {
      hide StatesOk, L.Minus, Used, H.Table.Valid, L.List.Valid, L.Distinct, L.Settled, L.Bounded;
      hide L.Removed, L.List.HighWithin;
      e := Lookup(k, h);
      if e != 0 {
        table.IdFacts((h, k));
        StatesHere(hash[..], key[..], meta, table.content, Lru(), e);
        var _ := Release(e, false);
      }
    }

    // The last reference to a cached handle goes away together with the handle.
    method Forget(e: nat, m: Meta)
      requires Core() && 0 < e < |meta| && meta[e].inCache && meta[e].refs > 0 && !Live(m)
      modifies Repr()
      ensures Core() && Same() && Lru() == old(Lru()) && list.seg == old(list.seg) && table.list == old(table.list)
      ensures meta == old(meta)[e := m] && usage == old(usage) - charge[e]
      ensures table.content == old(table.content) - {(hash[e], key[e])}
    {
      hide StatesOk, L.Minus, Used, H.Table.Valid, L.List.Valid, L.Distinct;
      list.Facts();
      StatesHere(hash[..], key[..], meta, table.content, Lru(), e);
      table.IdFacts((hash[e], key[e]));
      StatesDrop(hash[..], key[..], meta, table.content, Lru(), e, m);
      L.MinusNone(Lru(), e);
      UsedUpdate(meta, charge[..], e, m);
      var _ := table.Remove(key[e], hash[e]);
      meta := meta[e := m];
      usage := usage - charge[e];
    }

    // Erase
    method Erase(k: nat, h: nat) returns (freed: bool)
      requires Valid() && h < Pow2(table.w)
      modifies Repr()
      ensures Valid() && Same() && table.content == old(table.content) - {(h, k)}
      ensures (h, k) !in old(table.content) ==>
        meta == old(meta) && list.seg == old(list.seg) && usage == old(usage) && !freed
      ensures (h, k) in old(table.content) ==>
        var e := old(table.content)[(h, k)];
        && e < |old(meta)| && meta == old(meta)[e := Uncached(old(meta)[e])]
        && list.seg == L.Removed(old(list.seg), e) && Lru() == L.Minus(old(Lru()), e)
        && freed == (old(meta)[e].refs == 0) && usage == old(usage) - (if freed then charge[e] else 0)
    {
      hide StatesOk, Used, H.Table.Valid, L.List.Valid, L.Distinct, L.Settled, L.Removed, L.Minus;
      var e := table.Lookup(k, h);
      freed := false;
      if e != 0 {
        table.IdFacts((h, k));
        StatesHere(hash[..], key[..], meta, table.content, Lru(), e);
        if meta[e].refs == 0 {
          Discard(e);
          freed := true;
        } else {
          Detach(e);
        }
      } else {
        assert table.content - {(h, k)} == table.content;
      }
    }

    // A referenced handle leaves the table and lives on until it is released.
    method Detach(e: nat)
      requires Core() && 0 < e < |meta| && meta[e].inCache && meta[e].refs > 0
      modifies Repr()
      ensures Core() && Same() && usage == old(usage) && table.list == old(table.list)
      ensures Lru() == old(Lru()) == L.Minus(old(Lru()), e) && list.seg == old(list.seg) == L.Removed(old(list.seg), e)
      ensures meta == old(meta)[e := Uncached(old(meta)[e])]
      ensures table.content == old(table.content) - {(hash[e], key[e])}
    {
      hide StatesOk, L.Minus, Used, H.Table.Valid, L.List.Valid, L.Distinct, L.Removed;
      list.Facts();
      StatesHere(hash[..], key[..], meta, table.content, Lru(), e);
      table.IdFacts((hash[e], key[e]));
      StatesDrop(hash[..], key[..], meta, table.content, Lru(), e, Uncached(meta[e]));
      L.MinusNone(Lru(), e);
      L.RemovedNone(list.seg, e);
      UsedUpdate(meta, charge[..], e, Uncached(meta[e]));
      var _ := table.Remove(key[e], hash[e]);
      meta := meta[e := Uncached(meta[e])];
    }

    // Put the new handle e into the table with one reference. A handle with the same
    // key loses its place, and its life if nobody references it.
    method Store(e: nat, m: Meta) returns (replaced: nat)
      requires Core() && 0 < e < |meta| && !Live(meta[e]) && hash[e] < Pow2(table.w)
      requires m.inCache && m.charged && m.refs == 1
      modifies Repr()
      ensures Core() && Same() && table.content == old(table.content)[(hash[e], key[e]) := e]
      ensures replaced == if (hash[e], key[e]) in old(table.content) then old(table.content)[(hash[e], key[e])] else 0
      ensures replaced == 0 ==> meta == old(meta)[e := m] && Lru() == old(Lru()) && usage == old(usage) + charge[e]
      ensures replaced != 0 ==>
        && replaced < |old(meta)| && replaced != e
        && meta == old(meta)[replaced := Uncached(old(meta)[replaced])][e := m]
        && Lru() == L.Minus(old(Lru()), replaced)
        && usage == old(usage) + charge[e] - (if old(meta)[replaced].refs == 0 then charge[replaced] else 0)
      ensures fresh(Repr() - old(Repr())) && list.seg == WithoutSeg(old(list.seg), replaced)
    {
      hide StatesOk, L.Minus, Used, H.Table.Valid, L.List.Valid, L.Distinct, L.Removed;
      list.Facts();
      StatesHere(hash[..], key[..], meta, table.content, Lru(), e);
      NotStored(e);
      ghost var content := table.content;
      ghost var id := (hash[e], key[e]);
      if id in content { table.IdFacts(id); }
      replaced := table.Insert(e);
      if replaced == 0 {
        StatesAdd(hash[..], key[..], meta, content, Lru(), e, m);
        UsedUpdate(meta, charge[..], e, m);
        meta := meta[e := m];
        usage := usage + charge[e];
      } else {
        Displace(e, m, replaced, content);
      }
    }

    // The rest of an insertion that overwrote the handle r.
    method Displace(e: nat, m: Meta, r: nat, ghost content: map<H.Id, nat>)
      requires Separate() && table.Valid() && list.Valid() && usage == Used(meta, charge[..])
      requires StatesOk(hash[..], key[..], meta, content, Lru()) && !Live(meta[0])
      requires 0 < e < |meta| && !Live(meta[e]) && m.inCache && m.charged && m.refs == 1
      requires (hash[e], key[e]) in content && content[(hash[e], key[e])] == r && 0 < r < |meta|
      requires (hash[r], key[r]) == (hash[e], key[e])
      requires table.content == content[(hash[e], key[e]) := e]
      modifies this, list, list.nexts, list.prevs
      ensures Core() && Same() && r != e
      ensures meta == old(meta)[r := Uncached(old(meta)[r])][e := m] && Lru() == L.Minus(old(Lru()), r)
      ensures usage == old(usage) + charge[e] - (if old(meta)[r].refs == 0 then charge[r] else 0)
      ensures list.seg == L.Removed(old(list.seg), r)
    {
      hide StatesOk, L.Minus, Used, H.Table.Valid, L.List.Valid, L.Distinct, L.Removed;
      list.Facts();
      StatesReplace(hash[..], key[..], meta, content, Lru(), e, m, r);
      StatesHere(hash[..], key[..], meta, content, Lru(), r);
      UsedUpdate(meta, charge[..], r, Uncached(meta[r]));
      UsedUpdate(meta[r := Uncached(meta[r])], charge[..], e, m);
      usage := usage + charge[e];
      if meta[r].refs == 0 {
        list.Remove(r);
        usage := usage - charge[r];
      } else {
        L.MinusNone(Lru(), r);
        L.RemovedNone(list.seg, r);
      }
      meta := meta[r := Uncached(meta[r])][e := m];
    }

    lemma NotStored(e: nat)
      requires Core() && 0 < e < |meta| && !meta[e].inCache
      ensures e !in table.content.Values
    {
      hide StatesOk, Used, H.Table.Valid, L.List.Valid;
      StatesHere(hash[..], key[..], meta, table.content, Lru(), e);
      Unique(e);
    }

    // The accepting branch of InsertItem: the new handle e enters the table, and with it
    // the list or the caller's hands.
    method Admit(e: nat, high: bool, low: bool, wantHandle: bool) returns (replaced: nat)
      requires Core() && 0 < e < |meta| && !Live(meta[e]) && hash[e] < Pow2(table.w)
      modifies Repr()
      ensures Core() && Same() && fresh(Repr() - old(Repr()))
      ensures table.content == old(table.content)[(hash[e], key[e]) := e]
      ensures replaced == if (hash[e], key[e]) in old(table.content) then old(table.content)[(hash[e], key[e])] else 0
      ensures var m := Meta(if wantHandle then 1 else 0, true, true, high, low, false);
        meta == old(meta)[replaced := Uncached(old(meta)[replaced])][e := m]
      ensures replaced < charge.Length && replaced != e
      ensures usage == old(usage) + charge[e]
                       - (if replaced != 0 && old(meta)[replaced].refs == 0 then charge[replaced] else 0)
      ensures wantHandle ==> Lru() == Except(old(Lru()), replaced)
      ensures !wantHandle ==> e in Lru() && L.Minus(Lru(), e) == Except(old(Lru()), replaced)
      ensures wantHandle ==> list.seg == WithoutSeg(old(list.seg), replaced)
      ensures !wantHandle ==>
        list.seg == L.Settled(charge[..], list.highCap, list.lowCap, WithoutSeg(old(list.seg), replaced), e,
                              L.PoolFor(list.highOn, list.lowOn, high, low, false))
      ensures !wantHandle && !L.PoolFor(list.highOn, list.lowOn, high, low, false).Bottom? ==>
        L.Bounded(charge[..], list.highCap, list.lowCap, list.seg)
      ensures var toHigh := list.highOn && high;
        var toLow := !toHigh && list.lowOn && (high || low);
        !wantHandle && (!toLow || list.HighWithin(WithoutSeg(old(list.seg), replaced))) ==>
          L.Ranked(charge[..], list.highCap, list.lowCap, list.seg, e, toHigh, toLow)
    {
      hide StatesOk, L.Minus, Used, H.Table.Valid, L.List.Valid, L.Distinct, L.Settled, L.Removed, L.Bounded;
      hide L.Ranked, L.List.HighWithin, L.InCharge, L.Total, L.InRange;
      replaced := Store(e, Meta(1, true, true, high, low, false));
      if !wantHandle {
        StatesHere(hash[..], key[..], meta, table.content, Lru(), e);
        var m := Meta(0, true, true, high, low, false);
        SettledMembers(charge[..], list.highCap, list.lowCap, list.seg, e, PoolOf(m));
        SettledMinus(charge[..], list.highCap, list.lowCap, list.seg, e, PoolOf(m));
        Give(e, m);
      }
    }

    // InsertItem for a handle created without references. The result is whether the
    // handle was inserted, what was evicted from the list to make room, and the handle
    // that lost its place to the new one.
    method InsertItem(e: nat, high: bool, low: bool, wantHandle: bool)
      returns (r: Outcome, evicted: seq<nat>, replaced: nat)
      requires Valid() && 0 < e < |meta| && !Live(meta[e]) && hash[e] < Pow2(table.w)
      modifies Repr()
      ensures Valid() && Same() && fresh(Repr() - old(Repr()))
      // the oldest unreferenced handles make room, no more of them than needed
      ensures JustEnough(charge[..], capacity, old(usage), charge[e], old(Lru()), evicted) && e !in evicted
      // rejected exactly if there still is no room and the limit is strict or no handle wanted
      ensures r.Inserted? || r.Overwritten? <==>
        Left(charge[..], old(usage), evicted) + charge[e] <= capacity || (!strict && wantHandle)
      ensures r.MemoryLimit? ==> wantHandle
      ensures r.Dropped? ==> !wantHandle
      // rejected: nothing but the evictions happened
      ensures r.MemoryLimit? || r.Dropped? ==>
        && Gone(old(meta), meta, old(table.content), table.content, evicted)
        && usage == Left(charge[..], old(usage), evicted) && Lru() == old(Lru())[|evicted|..]
      // accepted: the handle is found under its key, and nothing else was lost
      ensures r.Inserted? || r.Overwritten? ==>
        && InTable(hash[..], key[..], table.content, e)
        && Kept(old(table.content), table.content, evicted, IdOf(hash[..], key[..], e))
        && |meta| == charge.Length && meta[e] == Meta(if wantHandle then 1 else 0, true, true, high, low, false)
        && Filed(old(meta), meta, evicted, replaced, e)
        && replaced == Displaced(old(table.content), evicted, IdOf(hash[..], key[..], e))
        && (r.Overwritten? <==> replaced != 0) && replaced < |old(meta)|
        && usage == Left(charge[..], old(usage), evicted) + charge[e]
                    - (if replaced != 0 && old(meta)[replaced].refs == 0 then charge[replaced] else 0)
      ensures (r.Inserted? || r.Overwritten?) && wantHandle ==> Lru() == Except(old(Lru())[|evicted|..], replaced)
      ensures (r.Inserted? || r.Overwritten?) && !wantHandle ==>
        e in Lru() && L.Minus(Lru(), e) == Except(old(Lru())[|evicted|..], replaced)
      // down to the pools: the new entry is the newest of its own
      ensures r.MemoryLimit? || r.Dropped? ==> list.seg == L.DropOldest(old(list.seg), |evicted|)
      ensures (r.Inserted? || r.Overwritten?) && wantHandle ==>
        list.seg == WithoutSeg(L.DropOldest(old(list.seg), |evicted|), replaced)
      ensures (r.Inserted? || r.Overwritten?) && !wantHandle ==>
        list.seg == L.Settled(charge[..], list.highCap, list.lowCap,
                              WithoutSeg(L.DropOldest(old(list.seg), |evicted|), replaced), e,
                              L.PoolFor(list.highOn, list.lowOn, high, low, false))
      // entering the high or the low pool restores the bounds of both
      ensures (r.Inserted? || r.Overwritten?) && !wantHandle ==>
        L.PoolFor(list.highOn, list.lowOn, high, low, false).Bottom?
        || L.Bounded(charge[..], list.highCap, list.lowCap, list.seg)
      // the entry is the newest of the best pool that its priority entitles it to
      ensures var toHigh := list.highOn && high;
        var toLow := !toHigh && list.lowOn && (high || low);
        var rest := WithoutSeg(L.DropOldest(old(list.seg), |evicted|), replaced);
        (r.Inserted? || r.Overwritten?) && !wantHandle && (!toLow || list.HighWithin(rest)) ==>
          L.Ranked(charge[..], list.highCap, list.lowCap, list.seg, e, toHigh, toLow)
      ensures strict && old(usage) <= capacity ==> usage <= capacity
    {
      hide StatesOk, L.Minus, Used, H.Table.Valid, L.List.Valid, L.Distinct, L.Settled, Gone, Kept, JustEnough, Left;
      hide Filed, L.Ranked, L.List.HighWithin;
      hide L.DropOldest, WithoutSeg, L.Bounded;
      StatesHere(hash[..], key[..], meta, table.content, Lru(), e);
      replaced := 0;
      ghost var l := Lru();
      evicted := EvictFromLRU(charge[e]);
      assert e !in evicted by {
        assert e !in l;
        NotEvicted(charge[..], capacity, old(usage), charge[e], l, evicted, e);
      }
      GoneAt(old(meta), meta, old(table.content), table.content, evicted, e);
      if usage + charge[e] > capacity && (strict || !wantHandle) {
        r := if wantHandle then MemoryLimit else Dropped;
        return;
      }
      ghost var id, content, list0, meta0 := IdOf(hash[..], key[..], e), table.content, Lru(), meta;
      replaced := Admit(e, high, low, wantHandle);
      if list0 == [] { L.MinusNone(list0, replaced); }
      GoneKept(old(meta), meta0, old(table.content), content, evicted, id, e);
      GoneId(old(meta), meta0, old(table.content), content, evicted, id);
      FiledAfter(old(meta), meta0, old(table.content), content, evicted, replaced, e, meta[e]);
      GoneRefs(old(meta), meta0, old(table.content), content, evicted, replaced);
      r := if replaced == 0 then Inserted else Overwritten;
    }

    // CreateStandalone: a handle that is charged but never in the table. With
    // allowUncharged it is created uncharged where it would not fit.
    method CreateStandalone(e: nat, allowUncharged: bool) returns (ok: bool, evicted: seq<nat>)
      requires Valid() && 0 < e < |meta| && !Live(meta[e])
      modifies Repr()
      ensures Valid() && Same() && evicted + Lru() == old(Lru()) && table.list == old(table.list)
      ensures list.seg == L.DropOldest(old(list.seg), |evicted|)
      ensures JustEnough(charge[..], capacity, old(usage), charge[e], old(Lru()), evicted) && e !in evicted
      // refused, or not charged, exactly if the limit is strict and there still is no room
      ensures var left := Left(charge[..], old(usage), evicted);
        var full := strict && left + charge[e] > capacity;
        && ok == (!full || allowUncharged)
        && usage == (if full then left else left + charge[e])
        && |meta| == charge.Length
        && meta[e] == if ok then Meta(1, false, !full, false, false, false) else old(meta)[e]
      ensures |meta| == |old(meta)|
      ensures Gone(old(meta), meta[e := old(meta)[e]], old(table.content), table.content, evicted)
      ensures strict && old(usage) <= capacity ==> usage <= capacity
    {
      hide StatesOk, L.Minus, Used, H.Table.Valid, L.List.Valid, L.Distinct, L.Settled, Gone, JustEnough, Left;
      hide L.DropOldest, L.Removed, L.Bounded, L.InCharge, L.Total, L.InRange, Kept, Filed, Except;
      StatesHere(hash[..], key[..], meta, table.content, Lru(), e);
      ghost var l := Lru();
      evicted := EvictFromLRU(charge[e]);
      assert e !in evicted by {
        assert e !in l;
        NotEvicted(charge[..], capacity, old(usage), charge[e], l, evicted, e);
      }
      GoneAt(old(meta), meta, old(table.content), table.content, evicted, e);
      assert meta[e := old(meta)[e]] == meta;
      ok := true;
      var full := strict && usage + charge[e] > capacity;
      if full && !allowUncharged {
        ok := false;
        return;
      }
      var m := Meta(1, false, !full, false, false, false);
      StatesKeep(hash[..], key[..], meta, table.content, Lru(), e, m);
      UsedUpdate(meta, charge[..], e, m);
      ghost var meta0 := meta;
      meta := meta[e := m];
      assert meta[e := old(meta)[e]] == meta0;
      if !full { usage := usage + charge[e]; }
    }

    // SetCapacity. The pool capacities change too, but the pools are not cut back.
    method SetCapacity(capacity': nat, highCap': nat, lowCap': nat) returns (evicted: seq<nat>)
      requires Core()
      modifies Repr()
      ensures Valid() && capacity == capacity' && strict == old(strict) && table.list == old(table.list)
      ensures list.highCap == highCap' && list.lowCap == lowCap' && list.highOn == old(list.highOn)
      ensures list.lowOn == old(list.lowOn)
      ensures JustEnough(charge[..], capacity', old(usage), 0, old(Lru()), evicted)
      ensures evicted + Lru() == old(Lru()) && usage == Left(charge[..], old(usage), evicted)
      ensures Gone(old(meta), meta, old(table.content), table.content, evicted) && charge[..] == old(charge[..])
      // what is left of each pool
      ensures list.seg == L.DropOldest(old(list.seg), Evictions(charge[..], capacity', old(usage), 0, old(Lru())))
      // so the pools are within their new capacities exactly if what is left of them was
      ensures L.Bounded(charge[..], list.highCap, list.lowCap, list.seg)
        <==> L.Bounded(charge[..], highCap', lowCap',
                       L.DropOldest(old(list.seg), Evictions(charge[..], capacity', old(usage), 0, old(Lru()))))
    {
      hide StatesOk, Used, Gone, L.Minus, H.Table.Valid, L.List.Valid, JustEnough, Left, L.DropOldest, L.Bounded;
      hide Evictions;
      capacity := capacity';
      list.SetPools(list.highOn, list.lowOn, highCap', lowCap');
      list.Facts();
      evicted := EvictFromLRU(0);
      EvictionsExact(charge[..], capacity', old(usage), 0, old(Lru()), evicted);
    }

    // SetHighPriorityPoolRatio and SetLowPriorityPoolRatio: unlike SetCapacity they
    // cut the pools back at once, without reordering or evicting anything.
    method SetPoolRatios(on: bool, lowOn: bool, highCap': nat, lowCap': nat)
      requires Valid()
      modifies Repr()
      ensures Valid() && Lru() == old(Lru()) && meta == old(meta) && table.content == old(table.content)
      ensures usage == old(usage)
      ensures list.highCap == highCap' && list.lowCap == lowCap'
      ensures list.highOn == on && list.lowOn == lowOn && capacity == old(capacity) && strict == old(strict)
      ensures table.list == old(table.list)
      ensures L.Bounded(charge[..], highCap', lowCap', list.seg)
    {
      hide StatesOk, Used, L.Minus, H.Table.Valid, L.List.Valid, L.Maintain, L.InCharge, L.Total, L.Segments.All, Live;
      list.InChargeNow();
      list.SetPools(on, lowOn, highCap', lowCap');
      L.MaintainOk(charge[..], highCap', lowCap', list.seg);
      list.MaintainPoolSize();
      list.InChargeNow();
    }

    // GetPinnedUsage: what the referenced handles are charged.
    method GetPinnedUsage() returns (pinned: nat)
      requires Valid()
      ensures pinned == PinnedCharge(meta, charge[..])
    {
      hide H.Table.Valid, L.List.Valid, Used, L.Total;
      list.Facts();
      PinnedUsage(hash[..], key[..], meta, charge[..], table.content, Lru());
      pinned := usage - list.usage;
    }

    // EraseUnRefEntries
    method EraseUnRefEntries() returns (evicted: seq<nat>)
      requires Valid()
      modifies Repr()
      ensures Valid() && Same() && Lru() == [] && evicted == old(Lru())
      ensures Gone(old(meta), meta, old(table.content), table.content, evicted)
    {
      hide Core, Gone, L.List.Valid, H.Table.Valid, L.Distinct, Separate;
      evicted := [];
      CoreList();
      GoneNone(meta, table.content);
      assert [] + Lru() == Lru();
      var first := list.Oldest();
      while first != 0
        invariant Core() && Same() && evicted + Lru() == old(Lru()) && table.list == old(table.list)
        invariant Gone(old(meta), meta, old(table.content), table.content, evicted)
        invariant if Lru() == [] then first == 0 else first == Lru()[0] && first != 0
        decreases |Lru()|
      {
        var next := EvictNext(first, evicted, old(Lru()), old(meta), old(table.content));
        evicted, first := evicted + [first], next;
      }
      assert evicted + [] == evicted;
    }

    lemma CoreList()
      requires Core()
      ensures list.Valid() && L.Distinct(Lru())
    {
      hide StatesOk, Used, H.Table.Valid;
      list.Facts();
    }

    // A handle is found under its own hash and key only.
    lemma Unique(e: nat)
      requires Core() && e < |meta|
      ensures forall id :: id in table.content && table.content[id] == e ==> id == IdOf(hash[..], key[..], e)
    {
      hide StatesOk, Used, H.Table.Valid, L.List.Valid;
      forall id | id in table.content && table.content[id] == e
        ensures id == IdOf(hash[..], key[..], e)
      {
        table.IdFacts(id);
      }
    }

    // Settings that only their setters change.
    twostate predicate Same()
      reads this, list
    {
      capacity == old(capacity) && strict == old(strict)
      && list.highCap == old(list.highCap) && list.lowCap == old(list.lowCap) && list.highOn == old(list.highOn)
      && list.lowOn == old(list.lowOn)
    }
  }

  // An empty shard of capacity 100 whose high pool may take 80 of it.
  method EmptyExample() returns (s: Shard)
    ensures s.Valid() && fresh(s.Repr()) && s.capacity == 100 && s.usage == 0 && s.Lru() == []
    ensures s.table.content == map[]
    ensures s.list.highCap == 80 && s.list.lowCap == 0 && s.list.highOn && s.charge[..] == [60, 60]
    ensures s.charge !in s.Repr()
    ensures |s.meta| == s.hash.Length == s.key.Length == 2 && !Live(s.meta[1]) && s.hash[1] == 0
  {
    hide Shard.Core, L.Bounded;
    var hash, key, charge := new nat[2](_ => 0), new nat[2](_ => 0), new nat[2](_ => 60);
    s := new Shard(5, hash, key, charge, 10, 100, false);
    s.SetPoolRatios(true, false, 80, 0);
  }

  // With one high-priority entry of charge 60.
  method OneHighEntry() returns (s: Shard)
    ensures s.Valid() && fresh(s.Repr()) && s.capacity == 100 && s.usage == 60
    ensures s.list.seg == L.Segments([], [], [1]) && s.list.highCap == 80 && s.charge[..] == [60, 60]
  {
    hide Shard.Core, JustEnough, Left, Gone, Kept, Filed, Displaced, L.Settled, L.DropOldest, WithoutSeg, L.Bounded;
    hide Except, L.Minus;
    s := EmptyExample();
    NoEntries(s.list.seg);
    ghost var usage, content := s.usage, s.table.content;
    var r, evicted, replaced := s.InsertItem(1, true, false, false);
    NothingEvicted(s.charge[..], 100, usage, 60, evicted);
    NoneDisplaced(content, evicted, IdOf(s.hash[..], s.key[..], 1));
    OneSettled(s.charge[..]);
  }

  // At capacity 70 the entry still fits the shard but not the pool, which may now take
  // 56. The pool stays over its bound.
  method OverfullPoolExample() returns (s: Shard)
    ensures s.Valid() && s.capacity == 70 && s.list.highCap == 56 && s.list.seg == L.Segments([], [], [1])
    ensures !L.Bounded(s.charge[..], s.list.highCap, s.list.lowCap, s.list.seg)
  {
    hide Shard.Core, StatesOk, Used, JustEnough, Left, Gone;
    s := OneHighEntry();
    var _ := s.SetCapacity(70, 56, 0);
    L.DropOldestNone(s.list.seg);
    L.TotalOne(s.charge[..], 1);
  }

  lemma NothingEvicted(charge: seq<nat>, capacity: nat, usage: int, c: nat, evicted: seq<nat>)
    requires JustEnough(charge, capacity, usage, c, [], evicted)
    ensures evicted == [] && Left(charge, usage, evicted) == usage
  {
  }

  lemma NoneDisplaced(content: map<H.Id, nat>, evicted: seq<nat>, id: H.Id)
    requires content == map[]
    ensures Displaced(content, evicted, id) == 0
  {
  }

  lemma OneSettled(charge: seq<nat>)
    requires charge == [60, 60]
    ensures L.Settled(charge, 80, 0, WithoutSeg(L.DropOldest(NO_ENTRIES, 0), 0), 1, L.High) == L.Segments([], [], [1])
  {
    L.DropOldestNone(NO_ENTRIES);
    L.TotalOne(charge, 1);
    assert L.Placed(NO_ENTRIES, 1, L.High) == L.Segments([], [], [1]);
    L.MaintainOk(charge, 80, 0, L.Segments([], [], [1]));
  }

  const NO_ENTRIES := L.Segments([], [], [])

  lemma NoEntries(s: L.Segments)
    requires s.All() == []
    ensures s == NO_ENTRIES
  {
    assert |s.All()| == |s.bottom| + |s.low| + |s.high|;
  }

  function Last(p: seq<nat>): nat
    requires p != []
  {
    p[|p| - 1]
  }

  // The handles in `out` left the cache, and nothing else changed.
  ghost predicate Gone(meta: seq<Meta>, meta': seq<Meta>, content: map<H.Id, nat>, content': map<H.Id, nat>,
                       out: seq<nat>) {
    && |meta'| == |meta|
    && (forall e :: 0 <= e < |meta| ==> meta'[e] == if e in out then Uncached(meta[e]) else meta[e])
    && (forall id :: id in content' <==> id in content && content[id] !in out)
    && (forall id :: id in content' ==> content'[id] == content[id])
  }

  lemma NotBefore(a: seq<nat>, b: seq<nat>)
    requires L.Distinct(a + b) && b != []
    ensures b[0] !in a
  {
    forall i | 0 <= i < |a| ensures a[i] != b[0] { assert (a + b)[i] == a[i] && (a + b)[|a|] == b[0]; }
  }

  // Under every other key the table still holds what it held, except for `out`.
  ghost predicate Kept(content: map<H.Id, nat>, content': map<H.Id, nat>, out: seq<nat>, id: H.Id) {
    && (forall x :: x != id ==> (x in content' <==> x in content && content[x] !in out))
    && (forall x :: x in content' && x != id ==> content'[x] == content[x])
  }

  lemma GoneKept(meta: seq<Meta>, meta': seq<Meta>, content: map<H.Id, nat>, content': map<H.Id, nat>, out: seq<nat>,
                 id: H.Id, e: nat)
    requires Gone(meta, meta', content, content', out)
    ensures Kept(content, content'[id := e], out, id)
  {
  }

  lemma GoneLength(meta: seq<Meta>, meta': seq<Meta>, content: map<H.Id, nat>, content': map<H.Id, nat>, out: seq<nat>)
    requires Gone(meta, meta', content, content', out)
    ensures |meta'| == |meta|
  {
  }

  lemma NotEvicted(charge: seq<nat>, capacity: nat, usage: int, c: nat, l: seq<nat>, evicted: seq<nat>, e: nat)
    requires JustEnough(charge, capacity, usage, c, l, evicted) && e !in l
    ensures e !in evicted
  {
    assert forall i :: 0 <= i < |evicted| ==> l[i] == evicted[i];
  }

  // The handle that an insertion under id replaces, after these evictions.
  function Displaced(content: map<H.Id, nat>, evicted: seq<nat>, id: H.Id): nat {
    if id in content && content[id] !in evicted then content[id] else 0
  }

  function Except(l: seq<nat>, e: nat): seq<nat> {
    if e == 0 then l else L.Minus(l, e)
  }

  lemma GoneId(meta: seq<Meta>, meta': seq<Meta>, content: map<H.Id, nat>, content': map<H.Id, nat>, out: seq<nat>,
               id: H.Id)
    requires Gone(meta, meta', content, content', out)
    ensures Displaced(content, out, id) == if id in content' then content'[id] else 0
  {
  }

  lemma GoneRefs(meta: seq<Meta>, meta': seq<Meta>, content: map<H.Id, nat>, content': map<H.Id, nat>, out: seq<nat>,
                 e: nat)
    requires Gone(meta, meta', content, content', out) && e < |meta'|
    ensures |meta'| == |meta| && meta'[e].refs == meta[e].refs
  {
  }

  lemma FiledAfter(meta: seq<Meta>, meta': seq<Meta>, content: map<H.Id, nat>, content': map<H.Id, nat>, out: seq<nat>,
                   replaced: nat, e: nat, m: Meta)
    requires Gone(meta, meta', content, content', out) && replaced < |meta'| && e < |meta'|
    requires !meta'[0].inCache
    ensures Filed(meta, meta'[replaced := Uncached(meta'[replaced])][e := m], out, replaced, e)
  {
  }

  lemma GoneAt(meta: seq<Meta>, meta': seq<Meta>, content: map<H.Id, nat>, content': map<H.Id, nat>, out: seq<nat>,
               e: nat)
    requires Gone(meta, meta', content, content', out) && e < |meta| && e !in out
    ensures |meta'| == |meta| && meta'[e] == meta[e]
  {
  }

  lemma GoneNone(meta: seq<Meta>, content: map<H.Id, nat>)
    ensures Gone(meta, meta, content, content, [])
  {
  }

  lemma GoneMore(meta: seq<Meta>, meta': seq<Meta>, content: map<H.Id, nat>, content': map<H.Id, nat>, out: seq<nat>,
                 e: nat, hash: seq<nat>, key: seq<nat>)
    requires Gone(meta, meta', content, content', out) && e < |meta| == |hash| == |key| && e !in out
    requires InTable(hash, key, content', e)
    requires forall id :: id in content' && content'[id] == e ==> id == IdOf(hash, key, e)
    ensures Gone(meta, meta'[e := Uncached(meta'[e])], content, content' - {IdOf(hash, key, e)}, out + [e])
  {
  }

  function NoHandles(n: nat): (meta: seq<Meta>)
    ensures |meta| == n && forall e :: 0 <= e < n ==> !Live(meta[e])
  {
    seq(n, _ => Meta(0, false, false, false, false, false))
  }

  lemma NoneLive(hash: seq<nat>, key: seq<nat>, meta: seq<Meta>, charge: seq<nat>)
    requires |hash| == |key| == |charge| == |meta| && forall e :: 0 <= e < |meta| ==> !Live(meta[e])
    ensures StatesOk(hash, key, meta, map[], []) && Used(meta, charge) == 0
  {
    SumZero(Weights(meta, charge));
  }

  lemma StatesHere(hash: seq<nat>, key: seq<nat>, meta: seq<Meta>, content: map<H.Id, nat>, l: seq<nat>, e: nat)
    requires |hash| == |key| == |meta| && StatesOk(hash, key, meta, content, l) && 0 < e < |meta|
    ensures (meta[e].inCache <==> InTable(hash, key, content, e)) && (e in l <==> meta[e].inCache && meta[e].refs == 0)
    ensures meta[e].inCache ==> meta[e].charged
  {
  }
}
