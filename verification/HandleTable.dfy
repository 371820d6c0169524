// LRUHandleTable: a chained hash table over intrusive next_hash pointers, indexed
// by the upper bits of a 32-bit hash and doubled in place. Handles are array
// indices; 0 is the null pointer.
module HandleTable {
  import opened Probing
  import LinearHashing

  // hash >> (w - bits), for hashes of w bits (w == 32 in the code).
  function Bucket(w: nat, hash: nat, bits: nat): nat
    requires bits <= w
  {
    DivNat(hash, Pow2(w - bits));
    hash / Pow2(w - bits)
  }

  lemma DivNat(a: nat, b: nat)
    requires b > 0
    ensures a / b >= 0
  {
  }

  lemma BucketInRange(w: nat, hash: nat, bits: nat)
    requires bits <= w && hash < Pow2(w)
    ensures Bucket(w, hash, bits) < Pow2(bits)
  {
    hide Pow2;
    var q := Pow2(w - bits);
    Pow2Split(bits, w - bits);
    assert bits + (w - bits) == w;
    var b := hash / q;
    assert b * q <= hash;
    if b >= Pow2(bits) { MulGrows(b, Pow2(bits), q); }
  }

  lemma Assoc(a: nat, b: nat)
    ensures 2 * (a * b) == (2 * a) * b
  {
  }

  lemma MulGrows(a: nat, b: nat, q: nat)
    requires a >= b
    ensures a * q >= b * q
  {
    assert a * q == b * q + (a - b) * q;
  }

  lemma {:induction false} Pow2Split(a: nat, b: nat)
    ensures Pow2(a + b) == Pow2(a) * Pow2(b)
  {
    if a > 0 {
      Pow2Split(a - 1, b);
      LinearHashing.Double(a - 1 + b);
      LinearHashing.Double(a - 1);
      Assoc(Pow2(a - 1), Pow2(b));
    }
  }

  // -- chains ------------------------------------------------------------------------------------

  function At(p: seq<nat>, i: nat): nat {
    if i < |p| then p[i] else 0
  }

  // From position k on, the pointers follow p.
  predicate Follows(nexts: seq<nat>, p: seq<nat>, k: nat) {
    forall i :: k <= i < |p| ==> p[i] < |nexts| && nexts[p[i]] == At(p, i + 1)
  }

  predicate Distinct(p: seq<nat>) {
    forall i, j :: 0 <= i < j < |p| ==> p[i] != p[j]
  }

  predicate Chain(head: nat, nexts: seq<nat>, p: seq<nat>) {
    head == At(p, 0) && Follows(nexts, p, 0) && Distinct(p)
  }

  predicate Chains(list: seq<nat>, nexts: seq<nat>, chains: seq<seq<nat>>) {
    |list| == |chains| && forall b :: 0 <= b < |chains| ==> Chain(list[b], nexts, chains[b])
  }

  // Handle e is linked somewhere.
  predicate Linked(chains: seq<seq<nat>>, e: nat) {
    exists b :: 0 <= b < |chains| && e in chains[b]
  }

  // A write to another handle does not matter.
  lemma ChainFrame(head: nat, nexts: seq<nat>, p: seq<nat>, e: nat, x: nat)
    requires Chain(head, nexts, p) && e !in p && e < |nexts|
    ensures Chain(head, nexts[e := x], p)
  {
  }

  // Putting e in front of one chain.
  lemma PushFront(list: seq<nat>, nexts: seq<nat>, chains: seq<seq<nat>>, b: nat, e: nat)
    requires Chains(list, nexts, chains) && b < |list| && !Linked(chains, e) && 0 < e < |nexts|
    ensures Chains(list[b := e], nexts[e := list[b]], chains[b := [e] + chains[b]])
  {
    var p, p', nexts' := chains[b], [e] + chains[b], nexts[e := list[b]];
    forall c | 0 <= c < |chains| && c != b
      ensures Chain(list[c], nexts', chains[c])
    {
      ChainFrame(list[c], nexts, chains[c], e, list[b]);
    }
    assert e !in p;
    ChainFrame(list[b], nexts, p, e, list[b]);
    forall i | 0 <= i < |p'| ensures p'[i] < |nexts'| && nexts'[p'[i]] == At(p', i + 1) {
      if i > 0 { assert p'[i] == p[i - 1]; }
    }
  }

  // -- contents ------------------------------------------------------------------------------------

  type Id = (nat, nat)

  // The chains hold exactly the handles of the map, each in the bucket of its hash.
  predicate Holds(w: nat, hash: seq<nat>, key: seq<nat>, bits: nat, chains: seq<seq<nat>>, content: map<Id, nat>)
    requires bits <= w && |hash| == |key|
  {
    && (forall b, k :: 0 <= b < |chains| && 0 <= k < |chains[b]| ==>
          InPlace(w, hash, key, bits, content, b, chains[b][k]))
    && (forall id :: id in content ==> Found(w, hash, key, bits, chains, content, id))
  }

  predicate InPlace(w: nat, hash: seq<nat>, key: seq<nat>, bits: nat, content: map<Id, nat>, b: nat, e: nat)
    requires bits <= w && |hash| == |key|
  {
    && 0 < e < |hash| && hash[e] < Pow2(w) && Bucket(w, hash[e], bits) == b
    && (hash[e], key[e]) in content && content[(hash[e], key[e])] == e
  }

  predicate Found(w: nat, hash: seq<nat>, key: seq<nat>, bits: nat, chains: seq<seq<nat>>, content: map<Id, nat>,
                  id: Id)
    requires bits <= w && |hash| == |key| && id in content
  {
    && Bucket(w, id.0, bits) < |chains| && content[id] in chains[Bucket(w, id.0, bits)]
    && content[id] < |hash| && hash[content[id]] == id.0 && key[content[id]] == id.1
  }

  lemma EntryAt(w: nat, hash: seq<nat>, key: seq<nat>, bits: nat, chains: seq<seq<nat>>, content: map<Id, nat>, b: nat,
                i: nat)
    requires bits <= w && |hash| == |key| && Holds(w, hash, key, bits, chains, content) && b < |chains|
    requires i < |chains[b]|
    ensures InPlace(w, hash, key, bits, content, b, chains[b][i])
  {
  }

  // No handle of the chain has this hash and key.
  predicate NoneOf(hash: seq<nat>, key: seq<nat>, p: seq<nat>, i: nat, h: nat, k: nat)
    requires |hash| == |key| && i <= |p|
  {
    forall j :: 0 <= j < i ==> p[j] < |hash| && (hash[p[j]], key[p[j]]) != (h, k)
  }

  lemma NotFound(w: nat, hash: seq<nat>, key: seq<nat>, bits: nat, chains: seq<seq<nat>>, content: map<Id, nat>, h: nat,
                 k: nat)
    requires bits <= w && |hash| == |key| && Holds(w, hash, key, bits, chains, content) && Bucket(w, h, bits) < |chains|
    requires var p := chains[Bucket(w, h, bits)]; NoneOf(hash, key, p, |p|, h, k)
    ensures (h, k) !in content
  {
    ContentHas(w, hash, key, bits, chains, content, (h, k));
  }

  lemma ContentHas(w: nat, hash: seq<nat>, key: seq<nat>, bits: nat, chains: seq<seq<nat>>, content: map<Id, nat>,
                   id: Id)
    requires bits <= w && |hash| == |key| && Holds(w, hash, key, bits, chains, content)
    ensures id in content ==> Found(w, hash, key, bits, chains, content, id)
  {
  }

  // -- rewiring --------------------------------------------------------------------------------------

  // The chain p with position i replaced by h, or h appended if i is its end.
  function Spliced(p: seq<nat>, i: nat, h: nat): seq<nat>
    requires i <= |p|
  {
    p[..i] + [h] + if i < |p| then p[i + 1..] else []
  }

  // *ptr = h, where ptr is the bucket or the next_hash of the previous handle.
  function SetHead(list: seq<nat>, b: nat, prev: nat, h: nat): seq<nat>
    requires b < |list|
  {
    if prev == 0 then list[b := h] else list
  }

  function SetNext(nexts: seq<nat>, prev: nat, h: nat): seq<nat>
    requires prev < |nexts|
  {
    if prev == 0 then nexts else nexts[prev := h]
  }

  function Prev(p: seq<nat>, i: nat): nat
    requires i <= |p|
  {
    if i == 0 then 0 else p[i - 1]
  }

  predicate Positive(chains: seq<seq<nat>>) {
    forall b, j :: 0 <= b < |chains| && 0 <= j < |chains[b]| ==> chains[b][j] != 0
  }

  lemma SpliceAt(p: seq<nat>, i: nat, h: nat)
    requires i <= |p|
    ensures |Spliced(p, i, h)| == if i < |p| then |p| else |p| + 1
    ensures forall j :: 0 <= j < |Spliced(p, i, h)| ==> Spliced(p, i, h)[j] == if j == i then h else p[j]
  {
  }

  lemma CutAt(p: seq<nat>, i: nat)
    requires i < |p|
    ensures var q := p[..i] + p[i + 1..];
      |q| == |p| - 1 && forall j :: 0 <= j < |q| ==> q[j] == if j < i then p[j] else p[j + 1]
  {
  }

  // One rewired chain.
  lemma SpliceChain(head: nat, nexts: seq<nat>, p: seq<nat>, i: nat, h: nat)
    requires Chain(head, nexts, p) && 0 !in p && i <= |p| && h !in p && 0 < h < |nexts|
    ensures Prev(p, i) < |nexts|
    ensures var prev, nexts1 := Prev(p, i), nexts[h := At(p, i + 1)];
      Chain(if prev == 0 then h else head, SetNext(nexts1, prev, h), Spliced(p, i, h))
  {
    hide Spliced, Distinct;
    var q, prev := Spliced(p, i, h), Prev(p, i);
    SpliceAt(p, i, h);
    var nexts' := SetNext(nexts[h := At(p, i + 1)], prev, h);
    forall j | 0 <= j < |q| ensures q[j] < |nexts'| && nexts'[q[j]] == At(q, j + 1) {
      if j != i {
        assert p[j] < |nexts| && nexts[p[j]] == At(p, j + 1) && p[j] != h;
        assert j + 1 != i && i > 0 ==> p[j] != p[i - 1] by { Differ(p, i, j); }
      }
    }
    SpliceDistinct(p, i, h);
  }

  lemma Differ(p: seq<nat>, i: nat, j: nat)
    requires Distinct(p) && i <= |p| && j < |p|
    ensures j + 1 != i && i > 0 ==> p[j] != p[i - 1]
  {
  }

  lemma CutChain(head: nat, nexts: seq<nat>, p: seq<nat>, i: nat)
    requires Chain(head, nexts, p) && 0 !in p && i < |p|
    ensures Prev(p, i) < |nexts| && p[i] < |nexts|
    ensures var prev := Prev(p, i);
      Chain(if prev == 0 then nexts[p[i]] else head, SetNext(nexts, prev, nexts[p[i]]), p[..i] + p[i + 1..])
  {
    hide Distinct;
    var q, prev := p[..i] + p[i + 1..], Prev(p, i);
    CutAt(p, i);
    assert nexts[p[i]] == At(p, i + 1);
    assert Follows(SetNext(nexts, prev, nexts[p[i]]), q, 0) by {
      forall j | 0 <= j < |q| ensures q[j] < |nexts| && SetNext(nexts, prev, nexts[p[i]])[q[j]] == At(q, j + 1) {
        CutPointer(head, nexts, p, i, j);
      }
    }
    CutDistinct(p, i);
    assert i > 0 ==> q[0] == p[0];
  }

  lemma CutDistinct(p: seq<nat>, i: nat)
    requires Distinct(p) && i < |p|
    ensures Distinct(p[..i] + p[i + 1..])
  {
    CutAt(p, i);
  }

  lemma SpliceDistinct(p: seq<nat>, i: nat, h: nat)
    requires Distinct(p) && i <= |p| && h !in p
    ensures Distinct(Spliced(p, i, h))
  {
    hide Spliced;
    SpliceAt(p, i, h);
  }

  lemma CutPointer(head: nat, nexts: seq<nat>, p: seq<nat>, i: nat, j: nat)
    requires Chain(head, nexts, p) && 0 !in p && i < |p| && j < |p| - 1 && Prev(p, i) < |nexts| && p[i] < |nexts|
    ensures var q := p[..i] + p[i + 1..];
      q[j] < |nexts| && SetNext(nexts, Prev(p, i), nexts[p[i]])[q[j]] == At(q, j + 1)
  {
    CutAt(p, i);
    var k := if j < i then j else j + 1;
    assert nexts[p[k]] == At(p, k + 1) && nexts[p[i]] == At(p, i + 1);
    assert k + 1 != i && i > 0 ==> p[k] != p[i - 1];
  }

  // The other chains do not share handles with it.
  predicate Disjoint(chains: seq<seq<nat>>) {
    forall b, i, c, j ::
      0 <= b < |chains| && 0 <= i < |chains[b]| && 0 <= c < |chains| && 0 <= j < |chains[c]|
      && chains[b][i] == chains[c][j]
      ==> b == c
  }

  lemma HoldsDisjoint(w: nat, hash: seq<nat>, key: seq<nat>, bits: nat, chains: seq<seq<nat>>, content: map<Id, nat>)
    requires bits <= w && |hash| == |key| && Holds(w, hash, key, bits, chains, content)
    ensures Disjoint(chains) && Positive(chains)
  {
    hide Bucket;
    forall b, i, c, j | 0 <= b < |chains| && 0 <= i < |chains[b]| && 0 <= c < |chains| && 0 <= j < |chains[c]|
      && chains[b][i] == chains[c][j] ensures b == c
    {
      EntryAt(w, hash, key, bits, chains, content, b, i);
      EntryAt(w, hash, key, bits, chains, content, c, j);
    }
    forall b, i | 0 <= b < |chains| && 0 <= i < |chains[b]| ensures chains[b][i] != 0 {
      EntryAt(w, hash, key, bits, chains, content, b, i);
    }
  }

  lemma SpliceChains(list: seq<nat>, nexts: seq<nat>, chains: seq<seq<nat>>, b: nat, i: nat, h: nat)
    requires Chains(list, nexts, chains) && Disjoint(chains) && Positive(chains)
    requires b < |chains| && i <= |chains[b]| && !Linked(chains, h) && 0 < h < |nexts|
    ensures Prev(chains[b], i) < |nexts|
    ensures var p, prev := chains[b], Prev(chains[b], i);
      Chains(SetHead(list, b, prev, h), SetNext(nexts[h := At(p, i + 1)], prev, h), chains[b := Spliced(p, i, h)])
  {
    var p, prev := chains[b], Prev(chains[b], i);
    assert h !in p;
    SpliceChain(list[b], nexts, p, i, h);
    var nexts1 := nexts[h := At(p, i + 1)];
    forall c | 0 <= c < |chains| && c != b ensures Chain(list[c], SetNext(nexts1, prev, h), chains[c]) {
      ChainFrame(list[c], nexts, chains[c], h, At(p, i + 1));
      if prev != 0 { assert prev == chains[b][i - 1]; ChainFrame(list[c], nexts1, chains[c], prev, h); }
    }
  }

  lemma CutChains(list: seq<nat>, nexts: seq<nat>, chains: seq<seq<nat>>, b: nat, i: nat)
    requires Chains(list, nexts, chains) && Disjoint(chains) && Positive(chains) && b < |chains| && i < |chains[b]|
    ensures Prev(chains[b], i) < |nexts| && chains[b][i] < |nexts|
    ensures var p, prev := chains[b], Prev(chains[b], i);
      Chains(SetHead(list, b, prev, nexts[p[i]]), SetNext(nexts, prev, nexts[p[i]]), chains[b := p[..i] + p[i + 1..]])
  {
    var p, prev := chains[b], Prev(chains[b], i);
    CutChain(list[b], nexts, p, i);
    forall c | 0 <= c < |chains| && c != b ensures Chain(list[c], SetNext(nexts, prev, nexts[p[i]]), chains[c]) {
      if prev != 0 { assert prev == chains[b][i - 1]; ChainFrame(list[c], nexts, chains[c], prev, nexts[p[i]]); }
    }
  }

  lemma FoundAt(w: nat, hash: seq<nat>, key: seq<nat>, bits: nat, chains: seq<seq<nat>>, content: map<Id, nat>, id: Id)
    requires bits <= w && |hash| == |key| && Holds(w, hash, key, bits, chains, content) && id in content
    ensures Found(w, hash, key, bits, chains, content, id)
  {
  }

  lemma HoldsSplice(w: nat, hash: seq<nat>, key: seq<nat>, bits: nat, chains: seq<seq<nat>>, content: map<Id, nat>,
                    b: nat, i: nat, h: nat)
    requires bits <= w && |hash| == |key| && Holds(w, hash, key, bits, chains, content)
    requires 0 < h < |hash| && hash[h] < Pow2(w) && b == Bucket(w, hash[h], bits) < |chains| && i <= |chains[b]|
    requires Distinct(chains[b])
    requires var id := (hash[h], key[h]);
      if id in content then i < |chains[b]| && chains[b][i] == content[id] else i == |chains[b]|
    ensures Holds(w, hash, key, bits, chains[b := Spliced(chains[b], i, h)], content[(hash[h], key[h]) := h])
  {
    hide Holds, Spliced, Bucket, Pow2;
    var id, p := (hash[h], key[h]), chains[b];
    var chains', content' := chains[b := Spliced(p, i, h)], content[id := h];
    SpliceAt(p, i, h);
    forall c, k | 0 <= c < |chains'| && 0 <= k < |chains'[c]|
      ensures InPlace(w, hash, key, bits, content', c, chains'[c][k])
    {
      if c != b || k != i {
        EntryAt(w, hash, key, bits, chains, content, c, k);
        if c == b && i < |p| { EntryAt(w, hash, key, bits, chains, content, b, i); }
        SpliceOther(w, hash, key, bits, chains, content, b, i, h, c, k);
      }
    }
    forall x | x in content' ensures Found(w, hash, key, bits, chains', content', x) {
      if x == id { assert Spliced(p, i, h)[i] == h; }
      else {
        FoundAt(w, hash, key, bits, chains, content, x);
        var c := Bucket(w, x.0, bits);
        if c == b {
          var k :| 0 <= k < |p| && p[k] == content[x];
          assert k != i by {
            if k == i {
              assert content[id] == content[x];
              FoundAt(w, hash, key, bits, chains, content, id);
            }
          }
          assert Spliced(p, i, h)[k] == p[k];
        }
      }
    }
    HoldsIntro(w, hash, key, bits, chains', content');
  }

  lemma HoldsIntro(w: nat, hash: seq<nat>, key: seq<nat>, bits: nat, chains: seq<seq<nat>>, content: map<Id, nat>)
    requires bits <= w && |hash| == |key|
    requires forall b, k :: 0 <= b < |chains| && 0 <= k < |chains[b]| ==>
      InPlace(w, hash, key, bits, content, b, chains[b][k])
    requires forall id :: id in content ==> Found(w, hash, key, bits, chains, content, id)
    ensures Holds(w, hash, key, bits, chains, content)
  {
  }

  // A handle that stays linked is not the one that was replaced.
  lemma SpliceOther(w: nat, hash: seq<nat>, key: seq<nat>, bits: nat, chains: seq<seq<nat>>, content: map<Id, nat>,
                    b: nat, i: nat, h: nat, c: nat, k: nat)
    requires bits <= w && |hash| == |key| && Holds(w, hash, key, bits, chains, content)
    requires 0 < h < |hash| && b == Bucket(w, hash[h], bits) < |chains| && i <= |chains[b]|
    requires var id := (hash[h], key[h]);
      if id in content then i < |chains[b]| && chains[b][i] == content[id] else i == |chains[b]|
    requires c < |chains| && k < |chains[c]| && (c != b || k != i) && Distinct(chains[b])
    ensures chains[c][k] < |hash| && (hash[chains[c][k]], key[chains[c][k]]) != (hash[h], key[h])
  {
    hide Bucket, Pow2;
    EntryAt(w, hash, key, bits, chains, content, c, k);
    ContentHas(w, hash, key, bits, chains, content, (hash[h], key[h]));
  }

  lemma HoldsCut(w: nat, hash: seq<nat>, key: seq<nat>, bits: nat, chains: seq<seq<nat>>, content: map<Id, nat>, b: nat,
                 i: nat, id: Id)
    requires bits <= w && |hash| == |key| && Holds(w, hash, key, bits, chains, content)
    requires id in content && b == Bucket(w, id.0, bits) < |chains| && i < |chains[b]| && chains[b][i] == content[id]
    requires Distinct(chains[b])
    ensures Holds(w, hash, key, bits, chains[b := chains[b][..i] + chains[b][i + 1..]], content - {id})
  {
    hide Holds, Bucket, Pow2;
    var p := chains[b];
    var q := p[..i] + p[i + 1..];
    var chains', content' := chains[b := q], content - {id};
    CutAt(p, i);
    FoundAt(w, hash, key, bits, chains, content, id);
    forall c, k | 0 <= c < |chains'| && 0 <= k < |chains'[c]|
      ensures InPlace(w, hash, key, bits, content', c, chains'[c][k])
    {
      var k' := if c == b && k >= i then k + 1 else k;
      assert chains'[c][k] == chains[c][k'];
      EntryAt(w, hash, key, bits, chains, content, c, k');
      assert c == b ==> p[k'] != p[i];
    }
    forall x | x in content' ensures Found(w, hash, key, bits, chains', content', x) {
      FoundAt(w, hash, key, bits, chains, content, x);
      var c := Bucket(w, x.0, bits);
      if c == b {
        var k :| 0 <= k < |p| && p[k] == content[x];
        assert q[if k < i then k else k - 1] == p[k];
      }
    }
    HoldsIntro(w, hash, key, bits, chains', content');
  }

  // -- resizing ----------------------------------------------------------------------------------------

  predicate Before(c: int, t: int, i: int, j: int) {
    c < i || (c == i && t < j)
  }

  predicate OldOk(list: seq<nat>, chains: seq<seq<nat>>) {
    && |chains| == |list| && Disjoint(chains) && Positive(chains)
    && (forall c :: 0 <= c < |chains| ==> Distinct(chains[c]) && list[c] == At(chains[c], 0))
  }

  // From position (i, j) on the old chains are still linked.
  predicate RestOk(nexts: seq<nat>, chains: seq<seq<nat>>, i: nat, j: nat) {
    forall c, t :: i <= c < |chains| && 0 <= t < |chains[c]| && !Before(c, t, i, j) ==>
      chains[c][t] < |nexts| && nexts[chains[c][t]] == At(chains[c], t + 1)
  }

  predicate MovedUpTo(chains: seq<seq<nat>>, i: nat, j: nat, moved: set<nat>) {
    && (forall c, t :: 0 <= c < |chains| && 0 <= t < |chains[c]| ==> (chains[c][t] in moved <==> Before(c, t, i, j)))
    && (forall e :: e in moved ==> Linked(chains, e))
  }

  // The new chains hold exactly the moved handles, each in its new bucket.
  predicate NewOk(w: nat, hash: seq<nat>, bits: nat, chains': seq<seq<nat>>, moved: set<nat>)
    requires bits <= w
  {
    && (forall b, k :: 0 <= b < |chains'| && 0 <= k < |chains'[b]| ==>
          chains'[b][k] in moved && chains'[b][k] < |hash| && Bucket(w, hash[chains'[b][k]], bits) == b)
    && (forall e :: e in moved ==>
          e < |hash| && Bucket(w, hash[e], bits) < |chains'| && e in chains'[Bucket(w, hash[e], bits)])
  }

  // In the middle of a resize: the handles before position (i, j) of the old
  // chains are on the new ones, and the rest of the old chains is still linked.
  predicate Moving(w: nat, hash: seq<nat>, bits: nat, list: seq<nat>, nexts: seq<nat>, chains: seq<seq<nat>>, i: nat,
                   j: nat,
                   list': seq<nat>, chains': seq<seq<nat>>, moved: set<nat>)
    requires bits <= w
  {
    && OldOk(list, chains) && RestOk(nexts, chains, i, j) && MovedUpTo(chains, i, j, moved)
    && Chains(list', nexts, chains') && NewOk(w, hash, bits, chains', moved)
  }

  lemma MovingBounds(w: nat, hash: seq<nat>, bits: nat, list: seq<nat>, nexts: seq<nat>, chains: seq<seq<nat>>, i: nat,
                     j: nat,
                     list': seq<nat>, chains': seq<seq<nat>>, moved: set<nat>)
    requires bits <= w && Moving(w, hash, bits, list, nexts, chains, i, j, list', chains', moved) && i < |list|
    ensures i < |chains| && list[i] == At(chains[i], 0)
  {
  }

  lemma PositiveAt(chains: seq<seq<nat>>, i: nat, j: nat)
    requires Positive(chains) && i < |chains| && j <= |chains[i]| && At(chains[i], j) == 0
    ensures j == |chains[i]|
  {
  }

  lemma MoveNone(w: nat, hash: seq<nat>, bits: nat, list: seq<nat>, nexts: seq<nat>, chains: seq<seq<nat>>,
                 list': seq<nat>, chains': seq<seq<nat>>)
    requires bits <= w && Chains(list, nexts, chains) && Disjoint(chains) && Positive(chains)
    requires |list'| == |chains'| && (forall b :: 0 <= b < |list'| ==> list'[b] == 0 && chains'[b] == [])
    ensures Moving(w, hash, bits, list, nexts, chains, 0, 0, list', chains', {})
  {
    hide Bucket;
    forall c | 0 <= c < |chains|
      ensures Distinct(chains[c]) && list[c] == At(chains[c], 0)
    {
      assert Chain(list[c], nexts, chains[c]);
    }
  }

  lemma MoveNext(w: nat, hash: seq<nat>, bits: nat, list: seq<nat>, nexts: seq<nat>, chains: seq<seq<nat>>, i: nat,
                 list': seq<nat>, chains': seq<seq<nat>>, moved: set<nat>)
    requires bits <= w && i < |chains|
    requires Moving(w, hash, bits, list, nexts, chains, i, |chains[i]|, list', chains', moved)
    ensures Moving(w, hash, bits, list, nexts, chains, i + 1, 0, list', chains', moved)
  {
    hide Bucket, Chains, Disjoint, Distinct, Linked, NewOk, OldOk;
  }

  lemma MoveOne(w: nat, hash: seq<nat>, bits: nat, list: seq<nat>, nexts: seq<nat>, chains: seq<seq<nat>>, i: nat,
                j: nat,
                list': seq<nat>, chains': seq<seq<nat>>, moved: set<nat>)
    requires bits <= w && i < |chains| && j < |chains[i]|
    requires Moving(w, hash, bits, list, nexts, chains, i, j, list', chains', moved)
    requires 0 < chains[i][j] < |hash| && Bucket(w, hash[chains[i][j]], bits) < |list'|
    ensures chains[i][j] < |nexts| && nexts[chains[i][j]] == At(chains[i], j + 1) && |list'| == |chains'|
    ensures var h := chains[i][j];
      var b := Bucket(w, hash[h], bits);
      Moving(w, hash, bits, list, nexts[h := list'[b]], chains, i, j + 1, list'[b := h], chains'[b := [h] + chains'[b]],
          moved + {h})
  {
    hide Bucket, Chains, NewOk, Disjoint;
    var h := chains[i][j];
    var b := Bucket(w, hash[h], bits);
    assert !Before(i, j, i, j);
    assert h !in moved;
    ListLength(list', nexts, chains');
    NotMoved(w, hash, bits, chains', moved, h);
    PushFront(list', nexts, chains', b, h);
    Elsewhere(chains, i, j);
    MoveRest(nexts, chains, i, j, list'[b]);
    MoveUpTo(chains, i, j, moved);
    MoveNew(w, hash, bits, chains', moved, h);
  }

  lemma NotMoved(w: nat, hash: seq<nat>, bits: nat, chains': seq<seq<nat>>, moved: set<nat>, h: nat)
    requires bits <= w && NewOk(w, hash, bits, chains', moved) && h !in moved
    ensures !Linked(chains', h)
  {
    hide Bucket;
  }

  lemma MoveRest(nexts: seq<nat>, chains: seq<seq<nat>>, i: nat, j: nat, x: nat)
    requires RestOk(nexts, chains, i, j) && i < |chains| && j < |chains[i]| && chains[i][j] < |nexts|
    requires forall c, t :: 0 <= c < |chains| && 0 <= t < |chains[c]| && (c != i || t != j) ==>
      chains[c][t] != chains[i][j]
    ensures RestOk(nexts[chains[i][j] := x], chains, i, j + 1)
  {
  }

  lemma MoveUpTo(chains: seq<seq<nat>>, i: nat, j: nat, moved: set<nat>)
    requires MovedUpTo(chains, i, j, moved) && i < |chains| && j < |chains[i]|
    requires forall c, t :: 0 <= c < |chains| && 0 <= t < |chains[c]| && (c != i || t != j) ==>
      chains[c][t] != chains[i][j]
    ensures MovedUpTo(chains, i, j + 1, moved + {chains[i][j]})
  {
    hide Linked;
    assert Linked(chains, chains[i][j]) by { LinkedAt(chains, i, j); }
  }

  lemma LinkedAt(chains: seq<seq<nat>>, i: nat, j: nat)
    requires i < |chains| && j < |chains[i]|
    ensures Linked(chains, chains[i][j])
  {
    assert chains[i][j] in chains[i];
  }

  lemma MoveNew(w: nat, hash: seq<nat>, bits: nat, chains': seq<seq<nat>>, moved: set<nat>, h: nat)
    requires bits <= w && NewOk(w, hash, bits, chains', moved) && h < |hash| && Bucket(w, hash[h], bits) < |chains'|
    ensures var b := Bucket(w, hash[h], bits); NewOk(w, hash, bits, chains'[b := [h] + chains'[b]], moved + {h})
  {
    hide Bucket;
    var b := Bucket(w, hash[h], bits);
    var chains'' := chains'[b := [h] + chains'[b]];
    forall c, k | 0 <= c < |chains''| && 0 <= k < |chains''[c]|
      ensures chains''[c][k] in moved + {h} && chains''[c][k] < |hash| && Bucket(w, hash[chains''[c][k]], bits) == c
    {
      if c == b && k > 0 { assert chains''[c][k] == chains'[b][k - 1]; }
    }
    forall e | e in moved + {h}
      ensures e < |hash| && Bucket(w, hash[e], bits) < |chains''| && e in chains''[Bucket(w, hash[e], bits)]
    {
      if e in moved { assert e in chains'[Bucket(w, hash[e], bits)]; } else { assert chains''[b][0] == h; }
    }
  }

  // A handle is at one position only.
  lemma Elsewhere(chains: seq<seq<nat>>, i: nat, j: nat)
    requires Disjoint(chains) && i < |chains| && j < |chains[i]| && Distinct(chains[i])
    ensures forall c, t :: 0 <= c < |chains| && 0 <= t < |chains[c]| && (c != i || t != j) ==>
      chains[c][t] != chains[i][j]
  {
  }

  lemma MoveDone(w: nat, hash: seq<nat>, key: seq<nat>, bits: nat, list: seq<nat>, nexts: seq<nat>,
                 chains: seq<seq<nat>>,
                 content: map<Id, nat>, list': seq<nat>, chains': seq<seq<nat>>, moved: set<nat>)
    requires bits + 1 <= w && |hash| == |key| && Holds(w, hash, key, bits, chains, content)
    requires Moving(w, hash, bits + 1, list, nexts, chains, |chains|, 0, list', chains', moved)
    ensures Chains(list', nexts, chains') && Holds(w, hash, key, bits + 1, chains', content)
  {
    hide Bucket, Pow2, Holds, Chains;
    forall b, k | 0 <= b < |chains'| && 0 <= k < |chains'[b]|
      ensures InPlace(w, hash, key, bits + 1, content, b, chains'[b][k])
    {
      var e := chains'[b][k];
      assert e in moved;
      var c :| 0 <= c < |chains| && e in chains[c];
      var t :| 0 <= t < |chains[c]| && chains[c][t] == e;
      EntryAt(w, hash, key, bits, chains, content, c, t);
    }
    forall id | id in content ensures Found(w, hash, key, bits + 1, chains', content, id) {
      FoundAt(w, hash, key, bits, chains, content, id);
      var c := Bucket(w, id.0, bits);
      var t :| 0 <= t < |chains[c]| && chains[c][t] == content[id];
      assert Before(c, t, |chains|, 0);
    }
    HoldsIntro(w, hash, key, bits + 1, chains', content);
  }

  // -- walking a range of buckets -------------------------------------------------------------------

  // The handles of the buckets from begin up to end, in order.
  function Flat(chains: seq<seq<nat>>, begin: nat, end: nat): seq<nat>
    requires begin <= end <= |chains|
  {
    if end == begin then [] else Flat(chains, begin, end - 1) + chains[end - 1]
  }

  lemma {:induction false} FlatAt(chains: seq<seq<nat>>, begin: nat, end: nat, i: nat) returns (b: nat, j: nat)
    requires begin <= end <= |chains| && i < |Flat(chains, begin, end)|
    ensures begin <= b < end && j < |chains[b]| && Flat(chains, begin, end)[i] == chains[b][j]
  {
    var front := Flat(chains, begin, end - 1);
    if i < |front| { b, j := FlatAt(chains, begin, end - 1, i); } else { b, j := end - 1, i - |front|; }
  }

  lemma {:induction false} FlatHas(chains: seq<seq<nat>>, begin: nat, end: nat, b: nat, j: nat)
    requires begin <= b < end <= |chains| && j < |chains[b]|
    ensures chains[b][j] in Flat(chains, begin, end)
  {
    var front := Flat(chains, begin, end - 1);
    if b < end - 1 { FlatHas(chains, begin, end - 1, b, j); }
    else { assert (front + chains[b])[|front| + j] == chains[b][j]; }
  }

  lemma {:induction false} FlatDistinct(chains: seq<seq<nat>>, begin: nat, end: nat)
    requires begin <= end <= |chains| && Disjoint(chains) && forall b :: 0 <= b < |chains| ==> Distinct(chains[b])
    ensures Distinct(Flat(chains, begin, end))
  {
    if begin < end {
      FlatDistinct(chains, begin, end - 1);
      var front, last := Flat(chains, begin, end - 1), chains[end - 1];
      forall i, j | 0 <= i < |front| && 0 <= j < |last| ensures front[i] != last[j] {
        var b, k := FlatAt(chains, begin, end - 1, i);
      }
      JoinDistinct(front, last);
    }
  }

  lemma JoinDistinct(p: seq<nat>, q: seq<nat>)
    requires Distinct(p) && Distinct(q) && forall i, j :: 0 <= i < |p| && 0 <= j < |q| ==> p[i] != q[j]
    ensures Distinct(p + q)
  {
  }

  // Exactly the handles of the map whose bucket is in the range, each once.
  predicate Covers(w: nat, hash: seq<nat>, key: seq<nat>, bits: nat, content: map<Id, nat>, begin: nat, end: nat,
                   visited: seq<nat>)
    requires bits <= w && |hash| == |key|
  {
    && Distinct(visited)
    && (forall i :: 0 <= i < |visited| ==> Inside(w, hash, key, bits, content, begin, end, visited[i]))
    && (forall id :: id in content && begin <= Bucket(w, id.0, bits) < end ==> content[id] in visited)
  }

  predicate Inside(w: nat, hash: seq<nat>, key: seq<nat>, bits: nat, content: map<Id, nat>, begin: nat, end: nat,
                   e: nat)
    requires bits <= w && |hash| == |key|
  {
    && e < |hash| && (hash[e], key[e]) in content && content[(hash[e], key[e])] == e
    && begin <= Bucket(w, hash[e], bits) < end
  }

  lemma FlatCovers(w: nat, hash: seq<nat>, key: seq<nat>, bits: nat, list: seq<nat>, nexts: seq<nat>,
                   chains: seq<seq<nat>>,
                   content: map<Id, nat>, begin: nat, end: nat)
    requires bits <= w && |hash| == |key| && begin <= end <= |chains|
    requires Chains(list, nexts, chains) && Holds(w, hash, key, bits, chains, content)
    ensures Covers(w, hash, key, bits, content, begin, end, Flat(chains, begin, end))
  {
    hide Bucket, Holds, Follows, Disjoint, Flat;
    var visited := Flat(chains, begin, end);
    HoldsDisjoint(w, hash, key, bits, chains, content);
    FlatDistinct(chains, begin, end);
    forall i | 0 <= i < |visited| ensures Inside(w, hash, key, bits, content, begin, end, visited[i]) {
      var b, j := FlatAt(chains, begin, end, i);
      EntryAt(w, hash, key, bits, chains, content, b, j);
    }
    forall id | id in content && begin <= Bucket(w, id.0, bits) < end ensures content[id] in visited {
      FoundAt(w, hash, key, bits, chains, content, id);
      var p := chains[Bucket(w, id.0, bits)];
      var j :| 0 <= j < |p| && p[j] == content[id];
      FlatHas(chains, begin, end, Bucket(w, id.0, bits), j);
    }
  }

  class Table {
    const w: nat           // the width of a hash
    var list: array<nat>
    const nextHash: array<nat>
    const hash: array<nat>
    const key: array<nat>
    var bits: nat          // length_bits_
    const maxBits: nat     // max_length_bits_
    var elems: nat
    ghost var chains: seq<seq<nat>>
    ghost var content: map<Id, nat>

    ghost predicate Shape()
      reads this
    {
      && list != nextHash && list != hash && list != key && nextHash != hash && nextHash != key
      && nextHash.Length == hash.Length == key.Length > 0
      && bits < w && list.Length == Pow2(bits)
    }

    ghost predicate Valid()
      reads this, list, nextHash, hash, key
    {
      && Shape()
      && Chains(list[..], nextHash[..], chains)
      && Holds(w, hash[..], key[..], bits, chains, content)
      && elems == |content|
    }

    // The table can grow no more.
    predicate AtLimit()
      reads this
    {
      bits >= maxBits || bits >= w - 1
    }

    // Chains are shorter than one handle on average, as long as the table can grow.
    predicate Roomy()
      reads this
    {
      elems < list.Length || AtLimit()
    }

    constructor (w: nat, nextHash: array<nat>, hash: array<nat>, key: array<nat>, maxBits: nat)
      requires w > 4 && nextHash != hash && nextHash != key && nextHash.Length == hash.Length == key.Length > 0
      ensures Valid() && Roomy() && content == map[] && fresh(list) && this.w == w
      ensures this.nextHash == nextHash && this.hash == hash && this.key == key && this.maxBits == maxBits
    {
      this.w, bits := w, 4;
      list := new nat[16](_ => 0);
      this.nextHash, this.hash, this.key, this.maxBits, elems := nextHash, hash, key, maxBits, 0;
      chains, content := seq(16, _ => []), map[];
      new;
      assert Pow2(4) == 16 by { assert Pow2(2) == 4; }
    }

    // The handles of the map have the hash and key under which they are found.
    lemma IdFacts(id: Id)
      requires Valid() && id in content
      ensures 0 < content[id] < hash.Length == key.Length && hash[content[id]] == id.0 < Pow2(w)
      ensures key[content[id]] == id.1
    {
      hide Bucket, Pow2, Chains;
      FoundAt(w, hash[..], key[..], bits, chains, content, id);
      var b := Bucket(w, id.0, bits);
      var i :| 0 <= i < |chains[b]| && chains[b][i] == content[id];
      EntryAt(w, hash[..], key[..], bits, chains, content, b, i);
    }

    // FindPointer: the handle with this hash and key, and the one whose pointer
    // leads to it (0: the bucket itself).
    method FindPointer(k: nat, h: nat) returns (prev: nat, cur: nat, ghost i: nat)
      requires Valid() && h < Pow2(w)
      ensures Bucket(w, h, bits) < |chains| && i <= |chains[Bucket(w, h, bits)]|
      ensures cur == At(chains[Bucket(w, h, bits)], i)
      ensures prev == (if i == 0 then 0 else chains[Bucket(w, h, bits)][i - 1])
      ensures if (h, k) in content then cur == content[(h, k)] != 0 else cur == 0 && i == |chains[Bucket(w, h, bits)]|
    {
      hide Pow2, Bucket, Distinct, Holds, Chains, Chain, NoneOf;
      BucketInRange(w, h, bits);
      var b := Bucket(w, h, bits);
      ListLength(list[..], nextHash[..], chains);
      ghost var p := chains[b];
      ChainHead(list[..], nextHash[..], chains, b);
      NoneYet(hash[..], key[..], p, h, k);
      prev, cur, i := 0, list[b], 0;
      if p != [] { EntryAt(w, hash[..], key[..], bits, chains, content, b, 0); }
      while cur != 0 && (hash[cur] != h || key[cur] != k)
        invariant i <= |p| && cur == At(p, i) && prev == (if i == 0 then 0 else p[i - 1])
        invariant i < |p| ==> InPlace(w, hash[..], key[..], bits, content, b, cur)
        invariant NoneOf(hash[..], key[..], p, i, h, k)
        decreases |p| - i
      {
        ChainShape(list[..], nextHash[..], chains, b, i);
        NoneMore(hash[..], key[..], p, i, h, k);
        prev, cur, i := cur, nextHash[cur], i + 1;
        if i < |p| { EntryAt(w, hash[..], key[..], bits, chains, content, b, i); }
      }
      if cur == 0 { NotFound(w, hash[..], key[..], bits, chains, content, h, k); }
    }

    method Lookup(k: nat, h: nat) returns (e: nat)
      requires Valid() && h < Pow2(w)
      ensures e == if (h, k) in content then content[(h, k)] else 0
      ensures (h, k) in content ==> e != 0
    {
      var _, cur, _ := FindPointer(k, h);
      e := cur;
    }

    // The handles of one bucket.
    method WalkChain(b: nat) returns (visited: seq<nat>)
      requires Valid() && b < list.Length
      ensures b < |chains| && visited == chains[b]
    {
      hide Chains, Holds, Pow2;
      ListLength(list[..], nextHash[..], chains);
      ChainHead(list[..], nextHash[..], chains, b);
      HoldsDisjoint(w, hash[..], key[..], bits, chains, content);
      ghost var p := chains[b];
      var h := list[b];
      visited := [];
      while h != 0
        invariant |visited| <= |p| && visited == p[..|visited|] && h == At(p, |visited|)
        decreases |p| - |visited|
      {
        ChainShape(list[..], nextHash[..], chains, b, |visited|);
        var n := nextHash[h];
        visited := visited + [h];
        h := n;
      }
    }

    // ApplyToEntriesRange: the handles that the function is applied to.
    method ApplyToEntriesRange(begin: nat, end: nat) returns (visited: seq<nat>)
      requires Valid() && begin <= end <= list.Length
      ensures Covers(w, hash[..], key[..], bits, content, begin, end, visited)
    {
      hide Chains, Holds, Pow2, Covers;
      ListLength(list[..], nextHash[..], chains);
      visited := [];
      for i := begin to end
        invariant visited == Flat(chains, begin, i)
      {
        var more := WalkChain(i);
        visited := visited + more;
      }
      FlatCovers(w, hash[..], key[..], bits, list[..], nextHash[..], chains, content, begin, end);
    }

    // Move one old chain to the new list.
    method MoveChain(i: nat, list': array<nat>, ghost chains0: seq<seq<nat>>, ghost moved0: set<nat>)
      returns (ghost chains': seq<seq<nat>>, ghost moved: set<nat>)
      requires Shape() && bits + 1 < w && i < list.Length && list'.Length == Pow2(bits + 1)
      requires list' != list && list' != nextHash && list' != hash && list' != key
      requires Holds(w, hash[..], key[..], bits, chains, content)
      requires Moving(w, hash[..], bits + 1, list[..], nextHash[..], chains, i, 0, list'[..], chains0, moved0)
      modifies nextHash, list'
      ensures Moving(w, hash[..], bits + 1, list[..], nextHash[..], chains, i + 1, 0, list'[..], chains', moved)
    {
      hide Pow2, Bucket, Holds, Chains, Moving;
      var bits' := bits + 1;
      chains', moved := chains0, moved0;
      var h := list[i];
      ghost var j := 0;
      MovingBounds(w, hash[..], bits', list[..], nextHash[..], chains, i, 0, list'[..], chains', moved);
      while h != 0
        invariant j <= |chains[i]| && h == At(chains[i], j)
        invariant Moving(w, hash[..], bits', list[..], nextHash[..], chains, i, j, list'[..], chains', moved)
        decreases |chains[i]| - j
      {
        EntryAt(w, hash[..], key[..], bits, chains, content, i, j);
        BucketInRange(w, hash[h], bits');
        var b := Bucket(w, hash[h], bits');
        MoveOne(w, hash[..], bits', list[..], nextHash[..], chains, i, j, list'[..], chains', moved);
        var next := nextHash[h];
        nextHash[h] := list'[b];
        list'[b] := h;
        chains', moved := chains'[b := [h] + chains'[b]], moved + {h};
        h, j := next, j + 1;
      }
      HoldsDisjoint(w, hash[..], key[..], bits, chains, content);
      PositiveAt(chains, i, j);
      MoveNext(w, hash[..], bits', list[..], nextHash[..], chains, i, list'[..], chains', moved);
    }

    // Resize: every handle is pushed onto its chain in a list of twice the length.
    method Resize()
      requires Valid()
      modifies this, nextHash
      ensures Valid() && content == old(content) && (list == old(list) || fresh(list)) && elems == old(elems)
      ensures old(AtLimit()) ==> list == old(list) && bits == old(bits)
      ensures !old(AtLimit()) ==> bits == old(bits) + 1 && list.Length == 2 * old(list.Length)
    {
      hide Pow2, Bucket, Holds, Chains, Moving, Disjoint, Positive;
      if AtLimit() { return; }
      LinearHashing.Double(bits);
      var list' := new nat[2 * list.Length](_ => 0);
      ghost var chains': seq<seq<nat>>, moved: set<nat> := seq(2 * list.Length, _ => []), {};
      HoldsDisjoint(w, hash[..], key[..], bits, chains, content);
      MoveNone(w, hash[..], bits + 1, list[..], nextHash[..], chains, list'[..], chains');
      ListLength(list[..], nextHash[..], chains);
      for i := 0 to list.Length
        modifies nextHash, list'
        invariant Moving(w, hash[..], bits + 1, list[..], nextHash[..], chains, i, 0, list'[..], chains', moved)
      {
        chains', moved := MoveChain(i, list', chains', moved);
      }
      MoveDone(w, hash[..], key[..], bits, list[..], nextHash[..], chains, content, list'[..], chains', moved);
      list, bits, chains := list', bits + 1, chains';
    }

    // Insert, which replaces a handle with the same hash and key.
    method Insert(h: nat) returns (replaced: nat)
      requires Valid() && 0 < h < hash.Length && hash[h] < Pow2(w) && h !in content.Values
      modifies this, list, nextHash
      ensures Valid() && content == old(content)[(hash[h], key[h]) := h]
      ensures replaced == if (hash[h], key[h]) in old(content) then old(content)[(hash[h], key[h])] else 0
      ensures (list == old(list) || fresh(list)) && (old(Roomy()) ==> Roomy()) && bits >= old(bits)
    {
      hide Chains, Holds, Pow2, Bucket, Linked;
      ghost var id := (hash[h], key[h]);
      var prev, cur, i := FindPointer(key[h], hash[h]);
      var b := Bucket(w, hash[h], bits);
      ghost var p := chains[b];
      NotLinked(w, hash[..], key[..], bits, chains, content, h);
      HoldsDisjoint(w, hash[..], key[..], bits, chains, content);
      ChainShape(list[..], nextHash[..], chains, b, i);
      SpliceChains(list[..], nextHash[..], chains, b, i, h);
      HoldsSplice(w, hash[..], key[..], bits, chains, content, b, i, h);
      replaced := cur;
      nextHash[h] := if cur == 0 then 0 else nextHash[cur];
      if prev == 0 { list[b] := h; } else { nextHash[prev] := h; }
      chains, content := chains[b := Spliced(p, i, h)], content[id := h];
      if cur == 0 {
        elems := elems + 1;
        if elems >= list.Length { Resize(); }
      }
    }

    method Remove(k: nat, h: nat) returns (e: nat)
      requires Valid() && h < Pow2(w)
      modifies this, list, nextHash
      ensures Valid() && content == old(content) - {(h, k)} && list == old(list) && bits == old(bits)
      ensures old(Roomy()) ==> Roomy()
      ensures e == if (h, k) in old(content) then old(content)[(h, k)] else 0
    {
      hide Chains, Holds, Pow2, Bucket;
      var prev, cur, i := FindPointer(k, h);
      e := cur;
      if cur != 0 {
        var b := Bucket(w, h, bits);
        ghost var p := chains[b];
        HoldsDisjoint(w, hash[..], key[..], bits, chains, content);
        ChainShape(list[..], nextHash[..], chains, b, i);
        CutChains(list[..], nextHash[..], chains, b, i);
        HoldsCut(w, hash[..], key[..], bits, chains, content, b, i, (h, k));
        var next := nextHash[cur];
        if prev == 0 { list[b] := next; } else { nextHash[prev] := next; }
        elems := elems - 1;
        chains, content := chains[b := p[..i] + p[i + 1..]], content - {(h, k)};
      } else {
        assert content - {(h, k)} == content;
      }
    }
  }

  lemma ChainHead(list: seq<nat>, nexts: seq<nat>, chains: seq<seq<nat>>, b: nat)
    requires Chains(list, nexts, chains) && b < |chains|
    ensures |list| == |chains| && list[b] == At(chains[b], 0)
  {
  }

  lemma NoneYet(hash: seq<nat>, key: seq<nat>, p: seq<nat>, h: nat, k: nat)
    requires |hash| == |key|
    ensures NoneOf(hash, key, p, 0, h, k)
  {
  }

  lemma NoneMore(hash: seq<nat>, key: seq<nat>, p: seq<nat>, i: nat, h: nat, k: nat)
    requires |hash| == |key| && i < |p| && NoneOf(hash, key, p, i, h, k)
    requires p[i] < |hash| && (hash[p[i]] != h || key[p[i]] != k)
    ensures NoneOf(hash, key, p, i + 1, h, k)
  {
  }

  lemma ListLength(list: seq<nat>, nexts: seq<nat>, chains: seq<seq<nat>>)
    requires Chains(list, nexts, chains)
    ensures |list| == |chains|
  {
  }

  lemma ChainShape(list: seq<nat>, nexts: seq<nat>, chains: seq<seq<nat>>, b: nat, i: nat)
    requires Chains(list, nexts, chains) && b < |chains| && i <= |chains[b]|
    ensures |list| == |chains| && Distinct(chains[b])
    ensures (i < |chains[b]| ==> chains[b][i] < |nexts| && nexts[chains[b][i]] == At(chains[b], i + 1))
  {
  }

  lemma NotLinked(w: nat, hash: seq<nat>, key: seq<nat>, bits: nat, chains: seq<seq<nat>>, content: map<Id, nat>,
                  h: nat)
    requires bits <= w && |hash| == |key| && Holds(w, hash, key, bits, chains, content) && h !in content.Values
    ensures !Linked(chains, h)
  {
    hide Bucket, Pow2;
    forall b | 0 <= b < |chains| ensures h !in chains[b] {
      forall i | 0 <= i < |chains[b]| ensures chains[b][i] != h { EntryAt(w, hash, key, bits, chains, content, b, i); }
    }
  }
}