// ApplyToAllEntries: a scan over all shards in small pieces, one piece per shard and
// turn. The state of a shard's scan is a hash prefix, so that the table may double
// its length between two pieces.
module Scan {
  import opened Probing
  import H = HandleTable
  import opened Sums

  // The buckets from begin up to end of a table of 2^bits buckets hold exactly the
  // hashes in an interval, whatever the table length.
  lemma VisitsInterval(w: nat, bits: nat, begin: nat, end: nat, hash: nat)
    requires bits <= w
    ensures begin <= H.Bucket(w, hash, bits) < end <==> begin * Pow2(w - bits) <= hash < end * Pow2(w - bits)
  {
    hide Pow2;
    var q := Pow2(w - bits);
    var b := H.Bucket(w, hash, bits);
    assert hash == b * q + hash % q;
    Compare(begin, b, q, hash);
    Compare(end, b, q, hash);
  }

  lemma Compare(x: nat, b: nat, q: nat, hash: nat)
    requires q > 0 && b * q <= hash < b * q + q
    ensures x <= b <==> x * q <= hash
  {
    if x <= b { H.MulGrows(b, x, q); }
    else {
      H.MulGrows(x, b + 1, q);
      assert (b + 1) * q == b * q + q;
    }
  }

  // -- one shard -----------------------------------------------------------------------------------

  // A state that a table of 2^bits buckets can resume from: it falls on the boundary
  // of a bucket.
  predicate Aligned(w: nat, state: nat, bits: nat)
    requires bits <= w
  {
    state % Pow2(w - bits) == 0
  }

  // It still does after the table has grown.
  lemma AlignedGrows(w: nat, state: nat, bits: nat, more: nat)
    requires bits <= more <= w && Aligned(w, state, bits)
    ensures Aligned(w, state, more)
  {
    hide Pow2;
    var f, g := Pow2(more - bits), Pow2(w - more);
    H.Pow2Split(more - bits, w - more);
    assert more - bits + (w - more) == w - bits;
    var k := state / (f * g);
    assert state == k * (f * g);
    H.DivNat(state, f * g);
    Assoc3(k, f, g);
    MulNonNegative(k, f);
    DivModUnique(state, g, k * f, 0);
  }

  lemma Assoc3(a: nat, b: nat, c: nat)
    ensures a * (b * c) == (a * b) * c
  {
  }

  // The buckets that ApplyToSomeEntries visits, and the next state. The states between
  // calls are hashes; Pow2(w) stands for SIZE_MAX, the end.
  method Range(w: nat, bits: nat, perLock: nat, state: nat) returns (begin: nat, end: nat, state': nat)
    requires bits <= w && state < Pow2(w) && Aligned(w, state, bits)
    ensures begin <= end == if begin + perLock < Pow2(bits) then begin + perLock else Pow2(bits)
    ensures begin * Pow2(w - bits) == state && end * Pow2(w - bits) == state' <= Pow2(w) && Aligned(w, state', bits)
    ensures perLock > 0 ==> state' > state
    ensures perLock == 0 ==> state' == state
  {
    hide Pow2;
    var q := Pow2(w - bits);
    ghost var k := state / q;
    H.DivNat(state, q);
    assert state == k * q;
    H.Pow2Split(bits, w - bits);
    assert bits + (w - bits) == w;
    begin := H.Bucket(w, state, bits);
    assert k < Pow2(bits) by { Compare(Pow2(bits), k, q, state); }
    end := begin + perLock;
    if end >= Pow2(bits) {
      end := Pow2(bits);
      state' := Pow2(w);
    } else {
      MulNonNegative(end, q);
      state' := end * q;
      H.MulGrows(Pow2(bits), end, q);
    }
    assert state' == end * q && end <= Pow2(bits);
    DivModUnique(state', q, end, 0);
    if perLock > 0 { Grows(begin, end, q); }
  }

  lemma Grows(a: nat, b: nat, q: nat)
    requires a < b && q > 0
    ensures a * q < b * q
  {
    H.MulGrows(b, a + 1, q);
    assert (a + 1) * q == a * q + q;
  }

  // -- all shards ----------------------------------------------------------------------------------

  // What is left to scan.
  function Left(end: nat, states: seq<nat>): (ws: seq<int>)
    ensures |ws| == |states|
  {
    seq(|states|, i requires 0 <= i < |states| => end - states[i])
  }

  lemma LeftUpdate(end: nat, states: seq<nat>, i: nat, s: nat)
    requires i < |states|
    ensures Sum(Left(end, states[i := s])) == Sum(Left(end, states)) + states[i] - s
  {
    assert Left(end, states[i := s]) == Left(end, states)[i := end - s];
    SumUpdate(Left(end, states), i, end - s);
  }

  lemma LeftPositive(end: nat, states: seq<nat>)
    requires forall i :: 0 <= i < |states| ==> states[i] <= end
    ensures Sum(Left(end, states)) >= 0
  {
    SumNonNegative(Left(end, states));
  }

  // -- what has been visited -------------------------------------------------------------------------

  predicate Is(hash: seq<nat>, key: seq<nat>, e: nat, id: H.Id) {
    e < |hash| == |key| && (hash[e], key[e]) == id
  }

  // How often an entry with this hash and key was visited.
  function Times(hash: seq<nat>, key: seq<nat>, seen: seq<nat>, id: H.Id): nat {
    if seen == [] then 0
    else Times(hash, key, seen[..|seen| - 1], id) + if Is(hash, key, seen[|seen| - 1], id) then 1 else 0
  }

  lemma {:induction false} TimesConcat(hash: seq<nat>, key: seq<nat>, a: seq<nat>, b: seq<nat>, id: H.Id)
    ensures Times(hash, key, a + b, id) == Times(hash, key, a, id) + Times(hash, key, b, id)
    decreases |b|
  {
    if b == [] {
      assert a + b == a;
    } else {
      var b' := b[..|b| - 1];
      TimesConcat(hash, key, a, b', id);
      assert (a + b)[..|a + b| - 1] == a + b';
    }
  }

  // Without repetition, and with one handle per id, it is zero or one.
  lemma {:induction false} TimesOnce(hash: seq<nat>, key: seq<nat>, seen: seq<nat>, id: H.Id, e: nat)
    requires H.Distinct(seen) && Is(hash, key, e, id)
    requires forall i :: 0 <= i < |seen| && Is(hash, key, seen[i], id) ==> seen[i] == e
    ensures Times(hash, key, seen, id) == if e in seen then 1 else 0
    decreases |seen|
  {
    hide Is;
    if seen != [] {
      var seen', last := seen[..|seen| - 1], seen[|seen| - 1];
      assert seen == seen' + [last];
      TimesOnce(hash, key, seen', id, e);
    }
  }

  lemma {:induction false} TimesNever(hash: seq<nat>, key: seq<nat>, seen: seq<nat>, id: H.Id)
    requires forall i :: 0 <= i < |seen| ==> !Is(hash, key, seen[i], id)
    ensures Times(hash, key, seen, id) == 0
    decreases |seen|
  {
    if seen != [] { TimesNever(hash, key, seen[..|seen| - 1], id); }
  }

  // A walk over a range of buckets visits an id once if it is in the map and the range,
  // and not at all otherwise.
  lemma TimesCovered(w: nat, hash: seq<nat>, key: seq<nat>, bits: nat, content: map<H.Id, nat>, begin: nat, end: nat,
                     visited: seq<nat>, id: H.Id)
    requires bits <= w && |hash| == |key| && H.Covers(w, hash, key, bits, content, begin, end, visited)
    requires id in content ==> Is(hash, key, content[id], id)
    ensures Times(hash, key, visited, id) == if id in content && begin <= H.Bucket(w, id.0, bits) < end then 1 else 0
  {
    hide H.Bucket, Times;
    forall i | 0 <= i < |visited| && Is(hash, key, visited[i], id)
      ensures id in content && begin <= H.Bucket(w, id.0, bits) < end && visited[i] == content[id]
    {
      assert H.Inside(w, hash, key, bits, content, begin, end, visited[i]);
    }
    if id in content {
      TimesOnce(hash, key, visited, id, content[id]);
    } else {
      TimesNever(hash, key, visited, id);
    }
  }

  // The entry was in the table at all recorded moments.
  predicate Always(contents: seq<map<H.Id, nat>>, id: H.Id) {
    forall k :: 0 <= k < |contents| ==> id in contents[k]
  }

  // What a scan that stands at `state` has visited: nothing twice, nothing ahead, and
  // everything behind that was always there.
  predicate Right(hash: seq<nat>, key: seq<nat>, contents: seq<map<H.Id, nat>>, seen: seq<nat>, state: nat, id: H.Id) {
    && Times(hash, key, seen, id) <= 1
    && (id.0 >= state ==> Times(hash, key, seen, id) == 0)
    && (id.0 < state && Always(contents, id) ==> Times(hash, key, seen, id) == 1)
  }

  ghost predicate Tracked(hash: seq<nat>, key: seq<nat>, contents: seq<map<H.Id, nat>>, seen: seq<nat>, state: nat) {
    forall id: H.Id :: Right(hash, key, contents, seen, state, id)
  }

  lemma TrackedLater(hash: seq<nat>, key: seq<nat>, contents: seq<map<H.Id, nat>>, seen: seq<nat>, state: nat,
                     c: map<H.Id, nat>)
    requires Tracked(hash, key, contents, seen, state)
    ensures Tracked(hash, key, contents + [c], seen, state)
  {
    forall id: H.Id ensures Right(hash, key, contents + [c], seen, state, id) {
      assert Right(hash, key, contents, seen, state, id);
      if Always(contents + [c], id) {
        assert forall k :: 0 <= k < |contents| ==> (contents + [c])[k] == contents[k];
      }
    }
  }

  lemma TrackedMore(w: nat, hash: seq<nat>, key: seq<nat>, bits: nat, contents: seq<map<H.Id, nat>>, seen: seq<nat>,
                    state: nat, state': nat, begin: nat, end: nat, visited: seq<nat>)
    requires bits <= w && |hash| == |key| && contents != [] && Tracked(hash, key, contents, seen, state)
    requires var content := contents[|contents| - 1];
      && H.Covers(w, hash, key, bits, content, begin, end, visited)
      && forall id :: id in content ==> Is(hash, key, content[id], id)
    requires begin * Pow2(w - bits) == state <= state' == end * Pow2(w - bits)
    ensures Tracked(hash, key, contents, seen + visited, state')
  {
    hide Pow2, H.Covers, H.Bucket, Times, Is;
    forall id: H.Id ensures Right(hash, key, contents, seen + visited, state', id) {
      assert Right(hash, key, contents, seen, state, id);
      TimesCovered(w, hash, key, bits, contents[|contents| - 1], begin, end, visited, id);
      VisitsInterval(w, bits, begin, end, id.0);
      TimesConcat(hash, key, seen, visited, id);
    }
  }

  lemma TrackedNone(hash: seq<nat>, key: seq<nat>, contents: seq<map<H.Id, nat>>)
    ensures Tracked(hash, key, contents, [], 0)
  {
  }

  // -- one shard and its other users -------------------------------------------------------------------

  // What other threads do to the table between two pieces of the scan.
  datatype Op = Put(h: nat) | Del(key: nat, hash: nat)

  method Perform(t: H.Table, op: Op)
    requires t.Valid()
    modifies t, t.list, t.nextHash
    ensures t.Valid() && (t.list == old(t.list) || fresh(t.list)) && t.bits >= old(t.bits)
    ensures t.hash[..] == old(t.hash[..]) && t.key[..] == old(t.key[..])
  {
    hide Pow2, H.Chains, H.Holds;
    match op {
      case Put(h) =>
        if 0 < h < t.hash.Length && t.hash[h] < Pow2(t.w) {
          var e := t.Lookup(t.key[h], t.hash[h]);
          if e != h {
            NotStored(t, h);
            var _ := t.Insert(h);
          }
        }
      case Del(k, hash) =>
        if hash < Pow2(t.w) { var _ := t.Remove(k, hash); }
    }
  }

  // A handle that is not found under its own hash and key is not in the table.
  lemma NotStored(t: H.Table, h: nat)
    requires t.Valid() && 0 < h < t.hash.Length
    requires (t.hash[h], t.key[h]) in t.content ==> t.content[(t.hash[h], t.key[h])] != h
    ensures h !in t.content.Values
  {
    hide Pow2, H.Chains, H.Holds;
    forall id | id in t.content ensures t.content[id] != h { t.IdFacts(id); }
  }

  // One turn of a shard: whatever others have done since, and then one call of
  // ApplyToSomeEntries.
  method Turn(t: H.Table, perLock: nat, ops: seq<Op>, state: nat, seen: seq<nat>, ghost contents: seq<map<H.Id, nat>>)
    returns (state': nat, seen': seq<nat>, ghost contents': seq<map<H.Id, nat>>)
    requires t.Valid() && state < Pow2(t.w) && Aligned(t.w, state, t.bits) && perLock > 0
    requires contents != [] && contents[|contents| - 1] == t.content
    requires Tracked(t.hash[..], t.key[..], contents, seen, state)
    modifies t, t.list, t.nextHash
    ensures t.Valid() && (t.list == old(t.list) || fresh(t.list)) && t.hash[..] == old(t.hash[..])
    ensures t.key[..] == old(t.key[..])
    ensures state < state' <= Pow2(t.w) && Aligned(t.w, state', t.bits)
    ensures contents <= contents' && contents'[|contents'| - 1] == t.content
    ensures Tracked(t.hash[..], t.key[..], contents', seen', state')
  {
    hide Pow2, H.Chains, H.Holds, Tracked, Aligned, H.Covers;
    contents' := contents;
    for i := 0 to |ops|
      invariant t.Valid() && (t.list == old(t.list) || fresh(t.list)) && t.bits >= old(t.bits)
      invariant t.hash[..] == old(t.hash[..]) && t.key[..] == old(t.key[..])
      invariant contents <= contents' && contents'[|contents'| - 1] == t.content
      invariant Tracked(t.hash[..], t.key[..], contents', seen, state)
    {
      Perform(t, ops[i]);
      TrackedLater(t.hash[..], t.key[..], contents', seen, state, t.content);
      contents' := contents' + [t.content];
    }
    AlignedGrows(t.w, state, old(t.bits), t.bits);
    var begin, end;
    begin, end, state' := Range(t.w, t.bits, perLock, state);
    var visited := t.ApplyToEntriesRange(begin, end);
    forall id | id in t.content ensures Is(t.hash[..], t.key[..], t.content[id], id) { t.IdFacts(id); }
    TrackedMore(t.w, t.hash[..], t.key[..], t.bits, contents', seen, state, state', begin, end, visited);
    seen' := seen + visited;
  }

  // -- all shards ----------------------------------------------------------------------------------

  // The tables of different shards share nothing that is written.
  ghost predicate Apart(tables: seq<H.Table>)
    reads tables
  {
    && (forall i, j :: 0 <= i < |tables| && 0 <= j < |tables| && i != j ==> Unshared(tables[i], tables[j]))
    && (forall i :: 0 <= i < |tables| ==> Own(tables[i]))
  }

  ghost predicate Unshared(t: H.Table, u: H.Table)
    reads t, u
  {
    && t != u && {t.list, t.nextHash} !! {u.list, u.nextHash} && {t.list, t.nextHash} !! {u.hash, u.key}
  }

  ghost predicate Own(t: H.Table)
    reads t
  {
    {t.list, t.nextHash} !! {t.hash, t.key}
  }

  // Where one shard stands.
  ghost predicate Standing(t: H.Table, contents: seq<map<H.Id, nat>>, seen: seq<nat>, state: nat)
    reads t, t.list, t.nextHash, t.hash, t.key
  {
    && t.Valid() && state <= Pow2(t.w) && Aligned(t.w, state, t.bits)
    && contents != [] && contents[|contents| - 1] == t.content
    && Tracked(t.hash[..], t.key[..], contents, seen, state)
  }

  ghost predicate AllStanding(w: nat, tables: seq<H.Table>, contents: seq<seq<map<H.Id, nat>>>, seen: seq<seq<nat>>,
                              states: seq<nat>)
    reads tables, set i | 0 <= i < |tables| :: tables[i].list, set i | 0 <= i < |tables| :: tables[i].nextHash,
          set i | 0 <= i < |tables| :: tables[i].hash, set i | 0 <= i < |tables| :: tables[i].key
  {
    && |contents| == |seen| == |states| == |tables|
    && forall i :: 0 <= i < |tables| ==> tables[i].w == w && Standing(tables[i], contents[i], seen[i], states[i])
  }

  // A turn of shard i; the others do not notice.
  method TurnOf(w: nat, tables: seq<H.Table>, i: nat, perLock: nat, ops: seq<Op>, states: seq<nat>, seen: seq<seq<nat>>,
                ghost contents: seq<seq<map<H.Id, nat>>>)
    returns (states': seq<nat>, seen': seq<seq<nat>>, ghost contents': seq<seq<map<H.Id, nat>>>)
    requires Apart(tables) && AllStanding(w, tables, contents, seen, states) && i < |tables| && states[i] < Pow2(w)
    requires perLock > 0
    modifies tables[i], tables[i].list, tables[i].nextHash
    ensures Apart(tables) && AllStanding(w, tables, contents', seen', states')
    ensures tables[i].list == old(tables[i].list) || fresh(tables[i].list)
    ensures states' == states[i := states'[i]] && states[i] < states'[i] <= Pow2(w)
    ensures forall j :: 0 <= j < |tables| ==> contents[j] <= contents'[j]
  {
    hide Pow2, H.Table.Valid, Tracked, Aligned;
    var state, more;
    ghost var record;
    assert Standing(tables[i], contents[i], seen[i], states[i]);
    forall j | 0 <= j < |tables| && j != i
      ensures Unshared(tables[i], tables[j]) && Unshared(tables[j], tables[i]) && Own(tables[j])
    {
    }
    state, more, record := Turn(tables[i], perLock, ops, states[i], seen[i], contents[i]);
    states', seen', contents' := states[i := state], seen[i := more], contents[i := record];
    forall j | 0 <= j < |tables|
      ensures tables[j].w == w && Standing(tables[j], contents'[j], seen'[j], states'[j])
    {
      if j != i {
        assert old(Standing(tables[j], contents[j], seen[j], states[j]));
        assert old(Unshared(tables[i], tables[j]));
      }
    }
  }

  // One round over all shards that are not finished.
  method Round(w: nat, tables: seq<H.Table>, perLock: nat, schedule: seq<seq<Op>>, states0: seq<nat>,
               seen0: seq<seq<nat>>,
               ghost contents0: seq<seq<map<H.Id, nat>>>)
    returns (remaining: bool, pending: seq<seq<Op>>, states: seq<nat>, seen: seq<seq<nat>>,
        ghost contents: seq<seq<map<H.Id, nat>>>)
    requires Apart(tables) && AllStanding(w, tables, contents0, seen0, states0) && perLock > 0
    modifies tables, set i | 0 <= i < |tables| :: tables[i].list, set i | 0 <= i < |tables| :: tables[i].nextHash
    ensures Apart(tables) && AllStanding(w, tables, contents, seen, states) && Extends(contents0, contents)
    ensures forall i :: 0 <= i < |tables| ==> tables[i].list == old(tables[i].list) || fresh(tables[i].list)
    ensures !remaining ==> forall i :: 0 <= i < |tables| ==> states[i] == Pow2(w)
    ensures var left, left0 := Sum(Left(Pow2(w), states)), Sum(Left(Pow2(w), states0));
      left <= left0 && (remaining ==> left < left0)
  {
    hide Pow2, Apart, Standing, Sum, Left;
    var end := Pow2(w);
    remaining, pending, states, seen, contents := false, schedule, states0, seen0, contents0;
    for i := 0 to |tables|
      invariant Apart(tables) && AllStanding(w, tables, contents, seen, states) && Extends(contents0, contents)
      invariant !remaining ==> forall j :: 0 <= j < i ==> states[j] == end
      invariant var left, left0 := Sum(Left(end, states)), Sum(Left(end, states0));
        left <= left0 && (remaining ==> left < left0)
      invariant forall j :: 0 <= j < |tables| ==> tables[j].list == old(tables[j].list) || fresh(tables[j].list)
    {
      if states[i] != end {
        StateBound(w, tables, contents, seen, states, i);
        var ops := if pending == [] then [] else pending[0];
        if pending != [] { pending := pending[1..]; }
        var states', seen', contents' := TurnOf(w, tables, i, perLock, ops, states, seen, contents);
        LeftUpdate(end, states, i, states'[i]);
        ExtendsMore(contents0, contents, contents');
        states, seen, contents := states', seen', contents';
        if states[i] != end { remaining := true; }
      }
    }
  }

  lemma StateBound(w: nat, tables: seq<H.Table>, contents: seq<seq<map<H.Id, nat>>>, seen: seq<seq<nat>>,
                   states: seq<nat>, i: nat)
    requires AllStanding(w, tables, contents, seen, states) && i < |tables|
    ensures states[i] <= Pow2(w)
  {
    hide Pow2, H.Table.Valid, Tracked, Aligned;
    assert Standing(tables[i], contents[i], seen[i], states[i]);
  }

  // ApplyToAllEntries over the tables of all shards, while others insert and remove
  // entries between any two pieces, so that tables grow as well. Every call visits at
  // most one bucket (min(average_entries_per_lock, 1)).
  method ApplyToAll(w: nat, tables: seq<H.Table>, averageEntriesPerLock: nat, schedule: seq<seq<Op>>)
    returns (seen: seq<seq<nat>>, ghost contents: seq<seq<map<H.Id, nat>>>)
    requires averageEntriesPerLock > 0 && Apart(tables)
    requires forall i :: 0 <= i < |tables| ==> tables[i].w == w && tables[i].Valid()
    modifies tables, set i | 0 <= i < |tables| :: tables[i].list, set i | 0 <= i < |tables| :: tables[i].nextHash
    ensures |seen| == |contents| == |tables|
    // the recorded contents are those of the whole scan
    ensures forall i :: 0 <= i < |tables| ==>
      contents[i] != [] && contents[i][0] == old(tables[i].content)
      && contents[i][|contents[i]| - 1] == tables[i].content
    // no entry is visited twice, and what is in a table throughout is visited
    ensures forall i :: 0 <= i < |tables| ==>
      tables[i].Valid() && Tracked(tables[i].hash[..], tables[i].key[..], contents[i], seen[i], Pow2(w))
  {
    hide Pow2, H.Table.Valid, Tracked, Aligned, Apart, Sum, Left;
    var n := |tables|;
    var states: seq<nat> := seq(n, _ => 0);
    var pending := schedule;
    seen := seq(n, _ => []);
    contents := Firsts(tables);
    forall i | 0 <= i < n
      ensures Standing(tables[i], contents[i], seen[i], states[i])
    {
      NothingYet(tables[i], contents[i]);
    }
    ghost var first := contents;
    var perLock := if averageEntriesPerLock < 1 then averageEntriesPerLock else 1;
    var remaining := true;
    while remaining
      invariant Apart(tables) && AllStanding(w, tables, contents, seen, states) && Extends(first, contents)
      invariant !remaining ==> forall i :: 0 <= i < n ==> states[i] == Pow2(w)
      invariant forall i :: 0 <= i < n ==> tables[i].list == old(tables[i].list) || fresh(tables[i].list)
      decreases Sum(Left(Pow2(w), states)), remaining
    {
      ghost var contents0 := contents;
      forall i | 0 <= i < n ensures states[i] <= Pow2(w) { StateBound(w, tables, contents, seen, states, i); }
      LeftPositive(Pow2(w), states);
      remaining, pending, states, seen, contents := Round(w, tables, perLock, pending, states, seen, contents);
      ExtendsMore(first, contents0, contents);
    }
  }

  ghost function Firsts(tables: seq<H.Table>): (contents: seq<seq<map<H.Id, nat>>>)
    reads tables
    ensures |contents| == |tables| && forall i :: 0 <= i < |tables| ==> contents[i] == [tables[i].content]
  {
    if tables == [] then [] else Firsts(tables[..|tables| - 1]) + [[tables[|tables| - 1].content]]
  }

  // Each record starts as it did.
  predicate Extends(first: seq<seq<map<H.Id, nat>>>, contents: seq<seq<map<H.Id, nat>>>) {
    |first| == |contents| && forall i :: 0 <= i < |first| ==> first[i] <= contents[i]
  }

  lemma ExtendsMore(first: seq<seq<map<H.Id, nat>>>, contents: seq<seq<map<H.Id, nat>>>,
                    contents': seq<seq<map<H.Id, nat>>>)
    requires Extends(first, contents) && |contents'| == |contents|
    requires forall i :: 0 <= i < |contents| ==> contents[i] <= contents'[i]
    ensures Extends(first, contents')
  {
  }

  lemma NothingYet(t: H.Table, contents: seq<map<H.Id, nat>>)
    requires t.Valid() && contents == [t.content]
    ensures Standing(t, contents, [], 0)
  {
    hide H.Chains, H.Holds;
    DivModUnique(0, Pow2(t.w - t.bits), 0, 0);
    TrackedNone(t.hash[..], t.key[..], contents);
  }

  // So an entry that is in its table throughout the scan is visited exactly once,
  // whatever is inserted or removed and however often the table doubles meanwhile.
  lemma VisitedOnce(t: H.Table, contents: seq<map<H.Id, nat>>, seen: seq<nat>, id: H.Id)
    requires t.Valid() && contents != [] && contents[|contents| - 1] == t.content
    requires Tracked(t.hash[..], t.key[..], contents, seen, Pow2(t.w)) && Always(contents, id)
    ensures Times(t.hash[..], t.key[..], seen, id) == 1
  {
    hide H.Table.Valid, Times, Pow2;
    t.IdFacts(id);
    assert Right(t.hash[..], t.key[..], contents, seen, Pow2(t.w), id);
  }
}
