// The address arithmetic of AutoHyperClockTable: how a used length is packed into
// length_info_, which home a hash has for a given length, and how homes change
// when the table grows by one slot.
module LinearHashing {
  import opened Probing

  // FloorLog2
  function Log2(n: nat): nat {
    if n < 2 then 0 else 1 + Log2(n / 2)
  }

  lemma {:induction false} Log2Bounds(n: nat)
    requires n > 0
    ensures Pow2(Log2(n)) <= n < 2 * Pow2(Log2(n))
  {
    if n >= 2 {
      Log2Bounds(n / 2);
    }
  }

  lemma {:induction false} Pow2Monotone(a: nat, b: nat)
    requires a <= b
    ensures Pow2(a) <= Pow2(b)
    decreases b - a
  {
    if a < b { Pow2Monotone(a, b - 1); }
  }

  lemma Log2Unique(n: nat, k: nat)
    requires Pow2(k) <= n < Pow2(k + 1)
    ensures Log2(n) == k
  {
    Log2Bounds(n);
    if Log2(n) < k { Pow2Monotone(Log2(n) + 1, k); }
    if Log2(n) > k { Pow2Monotone(k + 1, Log2(n)); }
  }

  // The home from which slot g is split off, and the inverse.
  function Parent(g: nat): (p: nat)
    requires g > 0
  {
    Log2Bounds(g);
    g - Pow2(Log2(g))
  }

  lemma ParentOf(g: nat)
    requires g > 0
    ensures Parent(g) < Pow2(Log2(g)) && Parent(g) < g && g == Parent(g) + Pow2(Log2(g))
  {
    Log2Bounds(g);
  }

  lemma ChildOf(p: nat, k: nat)
    requires p < Pow2(k)
    ensures Log2(p + Pow2(k)) == k && Parent(p + Pow2(k)) == p
  {
    Log2Unique(p + Pow2(k), k);
  }

  // -- length_info_ ---------------------------------------------------------------------------

  // UsedLengthToLengthInfo
  function Pack(length: nat): nat
    requires length >= 2
  {
    (length % Pow2(Log2(length))) * 256 + Log2(length)
  }

  // LengthInfoToMinShift, LengthInfoToThreshold, LengthInfoToUsedLength
  function MinShift(info: nat): nat { info % 256 }

  function Threshold(info: nat): nat { info / 256 }

  function UsedLength(info: nat): nat { Pow2(MinShift(info)) + Threshold(info) }

  // For every length below 2^64 the packing is exact.
  lemma PackRoundTrip(length: nat)
    requires 2 <= length < Pow2(64)
    ensures MinShift(Pack(length)) == Log2(length) && Threshold(Pack(length)) == Parent(length)
    ensures UsedLength(Pack(length)) == length && 0 < MinShift(Pack(length)) <= 63
  {
    var k := Log2(length);
    Log2Bounds(length);
    if k >= 64 { Pow2Monotone(64, k); }
    assert length % Pow2(k) == length - Pow2(k) by { DivModUnique(length, Pow2(k), 1, length - Pow2(k)); }
    DivModUnique(Pack(length), 256, length - Pow2(k), k);
  }

  // -- homes ------------------------------------------------------------------------------------

  // GetHomeIndexAndShift, by used length.
  function HomeShift(length: nat, hash: nat): nat
    requires length >= 2
  {
    Log2(length) + if hash % Pow2(Log2(length)) < Parent(length) then 1 else 0
  }

  function Home(length: nat, hash: nat): nat
    requires length >= 2
  {
    hash % Pow2(HomeShift(length, hash))
  }

  // One more hash bit: the home stays or moves up by 2^k.
  lemma NextBit(hash: nat, k: nat)
    ensures var h := hash % Pow2(k);
      hash % Pow2(k + 1) == if (hash / Pow2(k)) % 2 == 1 then h + Pow2(k) else h
  {
    hide Pow2;
    var p := Pow2(k);
    var q, r := hash / p, hash % p;
    var b := q % 2;
    assert hash == q * p + r;
    assert Pow2(k + 1) == 2 * p by { Double(k); }
    SplitProduct(q / 2, b, p);
    assert q == 2 * (q / 2) + b;
    DivModUnique(hash, 2 * p, q / 2, b * p + r);
  }

  lemma Double(k: nat)
    ensures Pow2(k + 1) == 2 * Pow2(k)
  {
  }

  lemma SplitProduct(q: nat, b: nat, p: nat)
    requires b < 2
    ensures (2 * q + b) * p == q * (2 * p) + b * p && b * p == if b == 1 then p else 0
  {
  }

  // Every home is a slot in use.
  lemma HomeInUse(length: nat, hash: nat)
    requires length >= 2
    ensures Home(length, hash) < length
  {
    Log2Bounds(length);
    NextBit(hash, Log2(length));
  }

  // Growing by one slot moves exactly the hashes whose home was the parent of the
  // new slot and whose next bit is set, and moves them to the new slot.
  lemma GrowMovesOneHome(length: nat, hash: nat)
    requires length >= 2
    ensures Home(length + 1, hash) ==
      if Home(length, hash) == Parent(length) && (hash / Pow2(Log2(length))) % 2 == 1 then length
      else Home(length, hash)
  {
    var k := Log2(length);
    ParentOf(length);
    NextBit(hash, k);
    GrownLog2(length);
    if length + 1 == Pow2(k + 1) { FullLength(length); }
  }

  // The shift of the next length, and its parent.
  lemma GrownLog2(length: nat)
    requires length >= 2
    ensures Log2(length + 1) == Log2(length) + if length + 1 == Pow2(Log2(length) + 1) then 1 else 0
  {
    var k := Log2(length);
    Log2Bounds(length);
    Double(k);
    Double(k + 1);
    Log2Unique(length + 1, if length + 1 == Pow2(k + 1) then k + 1 else k);
  }

  lemma FullLength(length: nat)
    requires length >= 2 && length + 1 == Pow2(Log2(length) + 1)
    ensures Parent(length + 1) == 0 && Parent(length) == Pow2(Log2(length)) - 1
  {
    GrownLog2(length);
    Double(Log2(length));
  }
}
