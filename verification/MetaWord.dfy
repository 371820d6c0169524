// The 64-bit meta word of a clock slot, and why one integer addition or one bit
// operation on it is one change of a field.
//
//   | acquire counter (30) | release counter (30) | hit (1) | state (3) |
//     low bits                                                 high bits
module MetaWord {
  import opened ClockTable

  const RELEASE_INCREMENT: nat := 0x4000_0000
  const HIT_BIT: nat := 0x1000_0000_0000_0000
  const STATE_UNIT: nat := 0x2000_0000_0000_0000
  const OCCUPIED_BIT: nat := 0x8000_0000_0000_0000

  function StateBits(s: SlotState): nat {
    match s
    case Empty => 0
    case Construction => 4
    case Invisible => 6
    case Visible => 7
  }

  // Both counters fit their 30 bits.
  predicate Fits(m: Meta) {
    m.acq < COUNTER_RANGE && m.rel < COUNTER_RANGE
  }

  function Pack(m: Meta): (w: nat)
    requires Fits(m)
    ensures w < WORD
  {
    m.acq + RELEASE_INCREMENT * m.rel + (if m.hit then HIT_BIT else 0) + STATE_UNIT * StateBits(m.state)
  }

  // -- field readers, as shifts and masks ---------------------------------------

  function AcquireOf(w: nat): nat { w % COUNTER_RANGE }
  function ReleaseOf(w: nat): nat { (w / RELEASE_INCREMENT) % COUNTER_RANGE }
  function HitOf(w: nat): bool { (w / HIT_BIT) % 2 == 1 }
  function StateOf(w: nat): nat { w / STATE_UNIT }

  // GetRefcount: subtract the shifted words, then mask.
  function RefcountOf(w: nat): nat {
    (w - w / RELEASE_INCREMENT) % COUNTER_RANGE
  }

  // -- atomic updates of the word -------------------------------------------------

  function FetchAdd(w: nat, d: nat): nat { (w + d) % WORD }
  function FetchSub(w: nat, d: nat): nat { (w - d) % WORD }

  // FetchOr(kStateOccupiedBit << kStateShift)
  function OrOccupied(w: nat): nat {
    if (w / OCCUPIED_BIT) % 2 == 0 then w + OCCUPIED_BIT else w
  }

  // FetchAnd(~(kStateVisibleBit << kStateShift))
  function AndNotVisible(w: nat): nat {
    if (w / STATE_UNIT) % 2 == 1 then w - STATE_UNIT else w
  }

  // FetchOr(1 << kHitBitShift)
  function OrHit(w: nat): nat {
    if (w / HIT_BIT) % 2 == 0 then w + HIT_BIT else w
  }

  // -- the word is its fields --------------------------------------------------------

  lemma FieldsOfPack(m: Meta)
    requires Fits(m)
    ensures AcquireOf(Pack(m)) == m.acq
    ensures ReleaseOf(Pack(m)) == m.rel
    ensures HitOf(Pack(m)) == m.hit
    ensures StateOf(Pack(m)) == StateBits(m.state)
  {
    var high := RELEASE_INCREMENT * m.rel + (if m.hit then HIT_BIT else 0) + STATE_UNIT * StateBits(m.state);
    assert high % COUNTER_RANGE == 0;
  }

  // Different metas are different words: a CAS on the word is a CAS on all
  // fields together.
  lemma PackInjective(m: Meta, m': Meta)
    requires Fits(m) && Fits(m')
    ensures Pack(m) == Pack(m') <==> m == m'
  {
    FieldsOfPack(m);
    FieldsOfPack(m');
  }

  lemma RefcountOfPack(m: Meta)
    requires Fits(m)
    ensures RefcountOf(Pack(m)) == Refcount(m)
  {
    var top := (if m.hit then 1 else 0) + 2 * StateBits(m.state);
    var high := m.rel + RELEASE_INCREMENT * top;
    assert Pack(m) == m.acq + RELEASE_INCREMENT * high;
    LowCounter(m.acq, high);
    Shifted(m.acq - m.rel, high - top);
  }

  lemma LowCounter(acq: nat, high: nat)
    requires acq < COUNTER_RANGE
    ensures (acq + RELEASE_INCREMENT * high) / RELEASE_INCREMENT == high
  {
  }

  lemma Shifted(x: int, k: int)
    ensures (x + COUNTER_RANGE * k) % COUNTER_RANGE == x % COUNTER_RANGE
  {
  }

  // Lookup, Ref, Release and Unref are single additions on the word, as long as
  // the counter they move stays inside its field.
  lemma CounterUpdates(m: Meta, count: nat)
    requires Fits(m)
    ensures m.acq + count < COUNTER_RANGE ==> FetchAdd(Pack(m), count) == Pack(m.(acq := m.acq + count))
    ensures m.rel + count < COUNTER_RANGE ==>
      FetchAdd(Pack(m), RELEASE_INCREMENT * count) == Pack(m.(rel := m.rel + count))
    ensures count <= m.acq ==> FetchSub(Pack(m), count) == Pack(Unacquire(m, count))
  {
  }

  // The optimistic bit operations change exactly the states they are meant for.
  lemma StateUpdates(m: Meta)
    requires Fits(m)
    ensures OrOccupied(Pack(m)) == Pack(if m.state.Empty? then m.(state := Construction) else m)
    ensures AndNotVisible(Pack(m)) == Pack(if m.state.Visible? then m.(state := Invisible) else m)
    ensures OrHit(Pack(m)) == Pack(m.(hit := true))
  {
    FieldsOfPack(m);
  }

  // -- CorrectNearOverflow --------------------------------------------------------------

  predicate TopBit(counter: nat) {
    counter / COUNTER_LIMIT == 1
  }

  // FetchAnd that clears the top bit of both counters.
  function ClearTopBits(m: Meta): Meta {
    m.(acq := m.acq % COUNTER_LIMIT, rel := m.rel % COUNTER_LIMIT)
  }

  // The guard: a check bit of the release counter is set in the word that the caller saw
  // before, the top bit or the one above the largest countdown.
  predicate Checked(m: Meta) {
    TopBit(m.rel) || (m.rel / (MAX_COUNTDOWN + 1)) % 2 == 1
  }

  // CorrectNearOverflow after having seen `seen`, on a word that is m by now.
  function Corrected(seen: Meta, m: Meta): Meta {
    if Checked(seen) then ClearTopBits(m) else m
  }

  // The correction keeps the reference count exactly if its guard does not fire or both
  // top bits agree, and it is a no-op exactly if the guard does not fire or both counters
  // are below the limit that this model assumes.
  lemma CorrectionKeepsRefcount(seen: Meta, m: Meta)
    requires Fits(m)
    ensures Refcount(Corrected(seen, m)) == Refcount(m) <==> !Checked(seen) || (TopBit(m.acq) <==> TopBit(m.rel))
    ensures Corrected(seen, m) == m <==> !Checked(seen) || (m.acq < COUNTER_LIMIT && m.rel < COUNTER_LIMIT)
  {
  }

  // Two references are held while the acquire counter reaches its upper half and the
  // release counter is just below it. One of them is released, the guard fires on its
  // lower bit, and only the acquire counter is cut: the entry seems to have 2^29 + 1
  // references where it has one.
  lemma CorrectionExample()
    ensures var seen := Meta(0x2000_0000, 0x1FFF_FFFE, false, Visible);
      var m := seen.(rel := 0x1FFF_FFFF);
      && Fits(seen) && Refcount(seen) == 2
      && FetchAdd(Pack(seen), RELEASE_INCREMENT) == Pack(m) && Refcount(m) == 1
      && Checked(seen) && Refcount(Corrected(seen, m)) == 0x2000_0001
  {
    CounterUpdates(Meta(0x2000_0000, 0x1FFF_FFFE, false, Visible), 1);
  }

  // A word with a release counter in its upper half always fires the guard, so that
  // counters which agree in their top bits come back below the limit.
  lemma CorrectionLowers(m: Meta)
    requires Fits(m) && TopBit(m.rel)
    ensures Corrected(m, m).acq < COUNTER_LIMIT && Corrected(m, m).rel < COUNTER_LIMIT
  {
  }

  // The overflow that a too large counter would cause: the carry of the acquire
  // counter lands in the release counter.
  lemma AcquireCarries(m: Meta)
    requires Fits(m) && m.acq == COUNTER_RANGE - 1 && m.rel < COUNTER_RANGE - 1
    ensures FetchAdd(Pack(m), 1) == Pack(m.(acq := 0, rel := m.rel + 1))
  {
  }
}
