// What the operations on SuperVersions achieve, in any interleaving: in particular, once
// InstallSuperVersion has returned, every reader that starts gets the installed one or a
// later one.
module SuperVersionOperations {
  import opened Sums
  import opened SuperVersions
  import opened SuperVersionProofs
  import opened SuperVersionTheorems

  // Some thread takes the step from run[k] to run[k + 1].
  lemma OneStep(run: seq<State>, n: nat, k: nat) returns (t: nat, ch: Choice)
    requires IsRun(run, n) && k + 1 < |run|
    ensures t < |run[k].threads| && run[k + 1] == StepState(run[k], t, ch) && Inv(run[k])
    ensures |run[k + 1].threads| == |run[k].threads|
  {
    hide Inv, Init, Next;
    RunInv(run, n, k);
    assert Steps(run[k], run[k + 1]);
    var t0: nat, c: Choice :| t0 < |run[k].threads| && run[k + 1] == StepState(run[k], t0, c);
    t, ch := t0, c;
  }

  // Versions only ever go forward.
  lemma ForwardStep(st: State, t: nat, ch: Choice)
    requires Shape(st) && t < |st.threads|
    ensures var st' := StepState(st, t, ch);
      && st'.s.current >= st.s.current && |st'.s.refs| >= |st.s.refs| && |st'.s.slots| == |st.s.slots|
      && (st'.s.current == st.s.current || st'.s.current == |st.s.refs|)
  {
    hide Refs, Outside, SlotAt;
  }

  // -- the installing thread ---------------------------------------------------------------------------

  // Thread i calls InstallSuperVersion in state j and has not returned before state k.
  ghost predicate InstallCall(run: seq<State>, n: nat, i: nat, j: nat, k: nat) {
    && IsRun(run, n) && j < k < |run| && i < |run[j].threads| && run[j].threads[i] == Idle
    && run[j + 1] == StepState(run[j], i, InstallNew)
    && forall m :: j < m < k ==> i < |run[m].threads| && run[m].threads[i].Install?
  }

  // After the new version was published, slot x was marked obsolete.
  ghost predicate Scraped(run: seq<State>, j: nat, k: nat, x: nat, base: nat) {
    exists m :: j < m <= k < |run| && SlotAt(run[m].s, x) == Obsolete && run[m].s.current >= base
  }

  predicate HasPublished(pc: Pc) {
    pc.Idle? || (pc.Install? && !pc.is_.Enter? && !pc.is_.Publish?)
  }

  predicate HasScraped(pc: Pc, x: nat) {
    HasPublished(pc) && (pc.Install? ==> !pc.is_.LockTls? && (pc.is_.Scrape? ==> x < pc.k))
  }

  // How far the call has got; `base` is the number of versions at its start.
  ghost predicate Installing(run: seq<State>, i: nat, j: nat, k: nat, base: nat)
    requires k < |run| && i < |run[k].threads|
  {
    var s, pc := run[k].s, run[k].threads[i];
    && |s.refs| >= base && (pc.Idle? || pc.Install?) && (HasPublished(pc) ==> s.current >= base)
    && forall x :: 0 <= x < |s.slots| && HasScraped(pc, x) ==> Scraped(run, j, k, x, base)
  }

  lemma ScrapedMore(run: seq<State>, j: nat, k: nat, x: nat, base: nat)
    requires k + 1 < |run|
    ensures Scraped(run, j, k, x, base) ==> Scraped(run, j, k + 1, x, base)
    ensures j <= k && SlotAt(run[k + 1].s, x) == Obsolete && run[k + 1].s.current >= base ==>
      Scraped(run, j, k + 1, x, base)
  {
  }

  // One step of the installing thread.
  lemma InstallStep(st: State, i: nat, ch: Choice)
    requires Shape(st) && i < |st.threads| && st.threads[i].Install?
    ensures var st' := StepState(st, i, ch);
      var pc, pc' := st.threads[i], st'.threads[i];
      || pc'.Broken?
      || (pc'.Install? && pc'.is_ == pc.is_ && pc'.k == pc.k && !pc.is_.Publish?)
      || (pc.is_.Enter? && pc'.Install? && pc'.is_.Publish?)
      || (pc.is_.Publish? && pc'.Install? && pc'.is_.LockTls? && st'.s.current == |st.s.refs|)
      || (pc.is_.LockTls? && pc'.Install? && pc'.is_.Scrape? && pc'.k == 0)
      || (pc.is_.Scrape? && pc'.Install? && pc'.is_.Scrape? && pc'.k == pc.k + 1 && SlotAt(st'.s, pc.k) == Obsolete)
      || (pc.is_.Scrape? && pc'.Install? && pc'.is_.UnrefScraped? && pc.k >= |st.s.slots|)
      || ((pc.is_.UnrefScraped? || pc.is_.UnrefOld? || pc.is_.CleanOld?) && pc'.Install?
          && (pc'.is_.UnrefScraped? || pc'.is_.UnrefOld? || pc'.is_.CleanOld? || pc'.is_.Finish?))
      || (pc.is_.Finish? && pc'.Idle?)
  {
    hide Refs;
  }

  lemma InstallingStep(run: seq<State>, n: nat, i: nat, j: nat, k: nat, base: nat)
    requires IsRun(run, n) && j < k && k + 1 < |run| && i < |run[k].threads| && run[k].threads[i].Install?
    requires Installing(run, i, j, k, base)
    ensures i < |run[k + 1].threads| && Installing(run, i, j, k + 1, base)
  {
    hide IsRun, Inv, Next, Scraped;
    var t, ch := OneStep(run, n, k);
    InvShape(run[k]);
    ForwardStep(run[k], t, ch);
    if t == i {
      InstallStep(run[k], i, ch);
      NoAssertionFails(run, n, k + 1, i);
    }
    var k', pc, pc' := k + 1, run[k].threads[i], run[k + 1].threads[i];
    forall x | 0 <= x < |run[k].s.slots| && HasScraped(pc', x) ensures Scraped(run, j, k', x, base) {
      ScrapedMore(run, j, k, x, base);
      assert HasScraped(pc, x) || (pc.is_.Scrape? && x == pc.k);
    }
  }

  lemma InvShape(st: State)
    requires Inv(st)
    ensures Shape(st)
  {
    hide Counted, CleanedOnce, LocksOk, PcOk, Fresh;
  }

  lemma {:induction false} InInstall(run: seq<State>, n: nat, i: nat, j: nat, k: nat)
    requires InstallCall(run, n, i, j, k)
    ensures i < |run[k].threads| && Installing(run, i, j, k, |run[j].s.refs|)
    decreases k
  {
    hide Init, Steps, Installing;
    if j + 1 < k {
      InInstall(run, n, i, j, k - 1);
      InstallingStep(run, n, i, j, k - 1, |run[j].s.refs|);
    } else {
      InstallBegins(run, i, j);
    }
  }

  lemma InstallBegins(run: seq<State>, i: nat, j: nat)
    requires j + 1 < |run| && i < |run[j].threads| && run[j].threads[i] == Idle
    requires run[j + 1] == StepState(run[j], i, InstallNew)
    ensures Installing(run, i, j, j + 1, |run[j].s.refs|)
  {
  }

  // When InstallSuperVersion returns, the current version is the one it installed or a
  // later one, and every thread-local slot was marked obsolete after it was published.
  lemma InstallPublishes(run: seq<State>, n: nat, i: nat, j: nat, k: nat)
    requires InstallCall(run, n, i, j, k) && i < |run[k].threads| && !run[k].threads[i].Install?
    ensures run[k].s.current >= |run[j].s.refs|
    ensures forall x :: 0 <= x < |run[k].s.slots| ==> Scraped(run, j, k, x, |run[j].s.refs|)
  {
    hide IsRun, Scraped;
    InInstall(run, n, i, j, k);
  }

  // -- readers ------------------------------------------------------------------------------------------

  // Nothing older than `base` is current, or was current when an installer that is still
  // scraping replaced it.
  predicate Beyond(st: State, base: nat) {
    && st.s.current >= base
    && forall t :: 0 <= t < |st.threads| && Scraping(st.threads[t]) ==> st.threads[t].old_ >= base
  }

  lemma BeyondStep(st: State, t: nat, ch: Choice, base: nat)
    requires Shape(st) && t < |st.threads| && Beyond(st, base)
    ensures Beyond(StepState(st, t, ch), base)
  {
    hide Next;
    ForwardStep(st, t, ch);
    ScrapingStep(st.s, t, st.threads[t], ch);
  }

  lemma ScrapingStep(s: Shared, i: nat, pc: Pc, ch: Choice)
    ensures var pc' := Next(s, i, pc, ch).1;
      Scraping(pc') ==> (Scraping(pc) && pc'.old_ == pc.old_) || pc'.old_ == s.current
  {
    hide Refs, Outside, SlotAt;
  }

  // When an installer returns, no other is between publishing and the end of its scrape.
  lemma BeyondAfter(run: seq<State>, n: nat, i: nat, j: nat, k: nat)
    requires InstallCall(run, n, i, j, k) && i < |run[k].threads| && !run[k].threads[i].Install?
    ensures Beyond(run[k], |run[j].s.refs|)
  {
    hide Init, Steps, Inv, Next, Scraped;
    InstallPublishes(run, n, i, j, k);
    InInstall(run, n, i, j, j + 1);
    InstallBegins(run, i, j);
    NotYet(run, i, j);
    var t, ch := OneStep(run, n, k - 1);
    InvShape(run[k - 1]);
    InstallStep(run[k - 1], i, ch);
    NoAssertionFails(run, n, k, i);
    OnlyInstaller(run[k - 1], i);
  }

  lemma NotYet(run: seq<State>, i: nat, j: nat)
    requires j + 1 < |run| && i < |run[j].threads| && run[j].threads[i] == Idle
    requires run[j + 1] == StepState(run[j], i, InstallNew)
    ensures run[j + 1].threads[i].Install?
  {
  }

  lemma OnlyInstaller(st: State, i: nat)
    requires Inv(st) && i < |st.threads| && HoldsDb(st.threads[i])
    ensures forall t :: 0 <= t < |st.threads| && t != i ==> !Scraping(st.threads[t])
  {
    hide Counted, CleanedOnce, PcOk, Fresh;
    forall t | 0 <= t < |st.threads| && t != i ensures !Scraping(st.threads[t]) {
      assert LocksOk(st, t) && LocksOk(st, i);
    }
  }

  lemma {:induction false} BeyondRun(run: seq<State>, n: nat, k: nat, m: nat, base: nat)
    requires IsRun(run, n) && k <= m < |run| && Beyond(run[k], base)
    ensures Beyond(run[m], base)
    decreases m
  {
    hide IsRun, Inv, StepState, Beyond;
    if k < m {
      BeyondRun(run, n, k, m - 1, base);
      var t, ch := OneStep(run, n, m - 1);
      InvShape(run[m - 1]);
      BeyondStep(run[m - 1], t, ch, base);
    }
  }

  // Thread t starts to read in state a and does not have its SuperVersion before state b.
  ghost predicate GetCall(run: seq<State>, n: nat, t: nat, a: nat, b: nat) {
    && IsRun(run, n) && a < b < |run| && t < |run[a].threads| && run[a].threads[t] == Idle
    && run[a + 1] == StepState(run[a], t, Get)
    && forall m :: a < m < b ==> t < |run[m].threads| && run[m].threads[t].Read? && !run[m].threads[t].rs.Using?
  }

  // What the thread has in hand.
  predicate Gets(pc: Pc, base: nat) {
    pc.Read? && (pc.rs.Want? || pc.rs.Locked? || ((pc.rs.Unlocking? || pc.rs.Using?) && pc.v >= base))
  }

  lemma GetsNext(s: Shared, i: nat, pc: Pc, ch: Choice, base: nat)
    requires Gets(pc, base) && !pc.rs.Using? && s.current >= base
    ensures Gets(Next(s, i, pc, ch).1, base)
  {
    hide Refs, Outside;
  }

  lemma GetBegins(st: State, t: nat, base: nat)
    requires Inv(st) && t < |st.threads| && st.threads[t] == Idle && Beyond(st, base)
    ensures Gets(StepState(st, t, Get).threads[t], base)
  {
    hide Counted, CleanedOnce, LocksOk;
    assert PcOk(st.s, t, Idle) && Fresh(st, t);
    if SlotAt(st.s, t).Cached? { assert Good(st, t, SlotAt(st.s, t).sv); }
  }

  lemma {:induction false} InGet(run: seq<State>, n: nat, t: nat, a: nat, b: nat, base: nat)
    requires GetCall(run, n, t, a, b) && Beyond(run[a], base)
    ensures t < |run[b].threads| && Gets(run[b].threads[t], base)
    decreases b
  {
    hide Init, Steps, Inv, Next, Gets, Beyond;
    var u, ch := OneStep(run, n, b - 1);
    if a + 1 < b {
      InGet(run, n, t, a, b - 1, base);
      BeyondRun(run, n, a, b - 1, base);
      BeyondCurrent(run[b - 1], base);
      if u == t { GetsNext(run[b - 1].s, t, run[b - 1].threads[t], ch, base); }
    } else {
      GetBegins(run[a], t, base);
    }
  }

  lemma BeyondCurrent(st: State, base: nat)
    requires Beyond(st, base)
    ensures st.s.current >= base
  {
  }

  // Once InstallSuperVersion has returned, no reader that starts afterwards gets an older
  // version, from its thread-local slot or otherwise.
  lemma ReadsSeeInstall(run: seq<State>, n: nat, i: nat, j: nat, k: nat, t: nat, a: nat, b: nat)
    requires InstallCall(run, n, i, j, k) && i < |run[k].threads| && !run[k].threads[i].Install?
    requires k <= a && GetCall(run, n, t, a, b)
    requires t < |run[b].threads| && run[b].threads[t].Read? && run[b].threads[t].rs.Using?
    ensures run[b].threads[t].v >= |run[j].s.refs|
  {
    hide IsRun, Beyond;
    BeyondAfter(run, n, i, j, k);
    BeyondRun(run, n, k, a, |run[j].s.refs|);
    InGet(run, n, t, a, b, |run[j].s.refs|);
  }

  // -- the cache is used ---------------------------------------------------------------------------------

  // The slot of an idle thread is changed by scraping alone.
  lemma SlotStep(st: State, u: nat, ch: Choice, t: nat)
    requires u < |st.threads| && t < |st.threads| == |st.s.slots| && st.threads[t] == Idle
    requires StepState(st, u, ch).threads[t] == Idle
    ensures SlotAt(StepState(st, u, ch).s, t) == SlotAt(st.s, t) || SlotAt(StepState(st, u, ch).s, t) == Obsolete
  {
    hide Refs, Outside;
  }

  // Putting a SuperVersion back into a slot that is still marked, and taking it out again.
  lemma PutAndGet(st: State, t: nat, v: nat)
    requires t < |st.threads| == |st.s.slots|
    ensures st.threads[t] == Read(Using, v) && SlotAt(st.s, t) == InUse ==>
      SlotAt(StepState(st, t, Return).s, t) == Cached(v)
    ensures st.threads[t] == Idle && SlotAt(st.s, t) == Cached(v) ==>
      StepState(st, t, Get).threads[t] == Read(Using, v)
  {
  }

  lemma {:induction false} StaysCached(run: seq<State>, n: nat, t: nat, v: nat, a: nat, b: nat)
    requires IsRun(run, n) && a < b < |run| && t < |run[a + 1].threads| && SlotAt(run[a + 1].s, t) == Cached(v)
    requires forall m :: a < m <= b ==> t < |run[m].threads| && run[m].threads[t] == Idle
    requires forall m :: a < m <= b ==> SlotAt(run[m].s, t) != Obsolete
    ensures SlotAt(run[b].s, t) == Cached(v)
    decreases b
  {
    hide IsRun, Inv, StepState, SlotAt;
    if a + 1 < b {
      StaysCached(run, n, t, v, a, b - 1);
      var u, ch := OneStep(run, n, b - 1);
      InvShape(run[b - 1]);
      SlotStep(run[b - 1], u, ch, t);
    }
  }

  // A thread that returned its SuperVersion, and whose slot is not scraped before it reads
  // again, gets it back without taking the mutex.
  lemma ReturnedIsReused(run: seq<State>, n: nat, t: nat, v: nat, a: nat, b: nat)
    requires IsRun(run, n) && a < b < |run| && t < |run[a].threads| && run[a].threads[t] == Read(Using, v)
    requires SlotAt(run[a].s, t) == InUse && run[a + 1] == StepState(run[a], t, Return)
    requires forall m :: a < m <= b ==> t < |run[m].threads| && run[m].threads[t] == Idle
    requires forall m :: a < m <= b ==> SlotAt(run[m].s, t) != Obsolete
    ensures StepState(run[b], t, Get).threads[t] == Read(Using, v)
  {
    hide IsRun, Inv, StepState, SlotAt;
    RunInv(run, n, a);
    InvShape(run[a]);
    PutAndGet(run[a], t, v);
    StaysCached(run, n, t, v, a, b);
    RunInv(run, n, b);
    InvShape(run[b]);
    PutAndGet(run[b], t, v);
  }

  // -- references handed out --------------------------------------------------------------------------------

  // GetReferencedSuperVersion, from taking the reference on.
  predicate HandsOut(pc: Pc, v: nat) {
    pc == Read(Referenced, v) || pc == Read(Surplus, v)
  }

  lemma HandsOutStep(st: State, t: nat, ch: Choice, v: nat)
    requires Shape(st) && t < |st.threads| && HandsOut(st.threads[t], v) && v < |st.s.refs|
    ensures var st' := StepState(st, t, ch);
      || st'.threads[t].Broken?
      || HandsOut(st'.threads[t], v)
      || (st'.threads[t].Idle? && Outside(st'.s, v) == Outside(st.s, v) + 1)
  {
    hide Refs;
  }

  // Thread t takes a reference to v in state a and is not idle again before state b.
  ghost predicate ReferenceCall(run: seq<State>, n: nat, t: nat, v: nat, a: nat, b: nat) {
    && IsRun(run, n) && a < b < |run| && t < |run[a].threads| && run[a].threads[t] == Read(Using, v)
    && run[a + 1] == StepState(run[a], t, TakeReference)
    && forall m :: a < m < b ==> t < |run[m].threads| && !run[m].threads[t].Idle?
  }

  lemma {:induction false} InReference(run: seq<State>, n: nat, t: nat, v: nat, a: nat, b: nat)
    requires ReferenceCall(run, n, t, v, a, b)
    ensures t < |run[b].threads|
    ensures
      || HandsOut(run[b].threads[t], v)
      || (run[b].threads[t].Idle? && Outside(run[b].s, v) == Outside(run[b - 1].s, v) + 1)
    decreases b
  {
    hide Init, Steps, Inv, Next, Outside;
    var u, ch := OneStep(run, n, b - 1);
    InvShape(run[b - 1]);
    if a + 1 < b {
      InReference(run, n, t, v, a, b - 1);
      if u == t {
        MentionedIsThere(run[b - 1], t, v);
        HandsOutStep(run[b - 1], t, ch, v);
        NoAssertionFails(run, n, b, t);
      }
    } else {
      ReferenceBegins(run[a], t, v);
    }
  }

  lemma MentionedIsThere(st: State, t: nat, v: nat)
    requires Inv(st) && t < |st.threads| && HandsOut(st.threads[t], v)
    ensures v < |st.s.refs|
  {
    hide Counted, CleanedOnce, LocksOk, Fresh;
    assert PcOk(st.s, t, st.threads[t]);
  }

  lemma ReferenceBegins(st: State, t: nat, v: nat)
    requires t < |st.threads| && st.threads[t] == Read(Using, v)
    ensures StepState(st, t, TakeReference).threads[t] == Read(Referenced, v)
  {
  }

  // When GetReferencedSuperVersion returns, its caller has one reference more to the
  // version that the thread was using.
  lemma ReferenceHandedOut(run: seq<State>, n: nat, t: nat, v: nat, a: nat, b: nat)
    requires ReferenceCall(run, n, t, v, a, b) && t < |run[b].threads| && run[b].threads[t].Idle?
    ensures Outside(run[b].s, v) == Outside(run[b - 1].s, v) + 1
  {
    hide IsRun, Outside;
    InReference(run, n, t, v, a, b);
  }

  // And a reference that its holder drops is taken off the count, by the next two steps of
  // the thread that drops it.
  lemma DropUnreferences(st: State, t: nat, v: nat, ch: Choice)
    requires Inv(st) && t < |st.threads| && st.threads[t] == Idle && v < |st.s.refs| && Outside(st.s, v) > 0
    ensures var st1 := StepState(st, t, DropOutside(v));
      var st2 := StepState(st1, t, ch);
      Outside(st1.s, v) == Outside(st.s, v) - 1 && Refs(st2.s, v) == Refs(st.s, v) - 1
  {
    hide CleanedOnce, LocksOk, Fresh, PcOk;
    assert Counted(st, v);
    SlotsNonNegative(st.s.slots, v);
    forall i | 0 <= i < |st.threads| ensures Owns(st.threads, v)[i] >= 0 { OwnNonNegative(st.threads[i], v); }
    SumNonNegative(Owns(st.threads, v));
  }

  // -- thread exit ----------------------------------------------------------------------------------------------

  // A thread that has emptied its slot for good.
  predicate Leaving(pc: Pc) {
    pc.Dead? || (pc.Exit? && pc.es.DropSlot?)
  }

  lemma LeavingStep(st: State, u: nat, ch: Choice, i: nat)
    requires u < |st.threads| && i < |st.threads| == |st.s.slots|
    requires Leaving(st.threads[i]) ==> SlotAt(st.s, i) == Obsolete
    ensures var st' := StepState(st, u, ch); Leaving(st'.threads[i]) ==> SlotAt(st'.s, i) == Obsolete
  {
    hide Next, SlotAt;
    if u == i { OwnLeaving(st.s, i, st.threads[i], ch); } else { ForeignSlot(st.s, u, st.threads[u], ch, i); }
  }

  lemma OwnLeaving(s: Shared, i: nat, pc: Pc, ch: Choice)
    requires i < |s.slots| && (Leaving(pc) ==> SlotAt(s, i) == Obsolete)
    ensures var (s', pc') := Next(s, i, pc, ch); Leaving(pc') ==> SlotAt(s', i) == Obsolete
  {
    hide Refs, Outside;
  }

  // Other threads change a slot by scraping it, and in no other way.
  lemma ForeignSlot(s: Shared, u: nat, pc: Pc, ch: Choice, i: nat)
    requires u != i && u < |s.slots| && i < |s.slots|
    ensures var s' := Next(s, u, pc, ch).0; SlotAt(s', i) == SlotAt(s, i) || SlotAt(s', i) == Obsolete
  {
    hide Refs, Outside;
  }

  // A thread that has exited has left no SuperVersion behind in its slot, in every state of
  // every run.
  lemma {:induction false} ExitEmptiesSlot(run: seq<State>, n: nat, k: nat, i: nat)
    requires IsRun(run, n) && k < |run| && i < |run[k].threads|
    ensures Leaving(run[k].threads[i]) ==> SlotAt(run[k].s, i) == Obsolete
  {
    hide Steps, Inv, StepState, SlotAt;
    if k > 0 {
      var u, ch := OneStep(run, n, k - 1);
      InvShape(run[k - 1]);
      ExitEmptiesSlot(run, n, k - 1, i);
      LeavingStep(run[k - 1], u, ch, i);
    }
  }
}
