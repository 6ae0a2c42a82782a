/**
 Address indices across concurrent NewAddress and BatchNewAddresses calls, failed snapshot
 writes, crashes and restarts. The SDK hands out consecutive indices under its own lock; the
 service then saves the wallet's next index under its lock, reading it and writing the
 snapshot, and answers whatever the write returned. A call that saves without deriving
 (DeriveAt, PubKeyAt, a rescan checkpoint) is one that takes no index.
 */
module Addresses {

  datatype Phase = Derived | Saving(next: nat) | Answered

  /**
   A call, and the indices [lo, hi) it took. `seen`: the save in progress read the counter
   after this call took its indices. `covered`: such a save has succeeded.
   */
  datatype Item = Item(lo: nat, hi: nat, epoch: nat, phase: Phase, seen: bool, covered: bool)

  /** `counter` is the SDK's next index, `saved` the one on disk; `epoch` counts the crashes. */
  datatype State = State(up: bool, epoch: nat, counter: nat, saved: nat, holder: int, items: seq<Item>)

  /** No call holds the service lock. */
  const FREE := -1

  datatype Event =
    | Derive(n: nat)
    | BeginSave(k: nat)
    | EndSave(k: nat, writeOk: bool)
    | Crash
    | Restart

  function See(i: Item, epoch: nat): Item {
    if i.epoch == epoch then i.(seen := true) else i
  }

  /** The end of a save, for one call: it is covered if the save succeeded and had seen it. */
  function Settle(i: Item, epoch: nat, ok: bool): Item {
    if i.epoch == epoch then i.(seen := false, covered := i.covered || (ok && i.seen)) else i
  }

  function SeeAll(items: seq<Item>, epoch: nat): (r: seq<Item>)
    ensures |r| == |items| && forall j | 0 <= j < |r| :: r[j] == See(items[j], epoch)
  {
    if items == [] then [] else SeeAll(items[..|items| - 1], epoch) + [See(items[|items| - 1], epoch)]
  }

  function SettleAll(items: seq<Item>, epoch: nat, ok: bool): (r: seq<Item>)
    ensures |r| == |items| && forall j | 0 <= j < |r| :: r[j] == Settle(items[j], epoch, ok)
  {
    if items == [] then [] else SettleAll(items[..|items| - 1], epoch, ok) + [Settle(items[|items| - 1], epoch, ok)]
  }

  predicate Ready(s: State, k: nat) {
    s.up && k < |s.items| && s.items[k].epoch == s.epoch
  }

  function Step(s: State, e: Event): State {
    match e
    case Derive(n) =>
      if !s.up then s
      else s.(counter := s.counter + n,
              items := s.items + [Item(s.counter, s.counter + n, s.epoch, Derived, false, false)])
    case BeginSave(k) =>
      if !Ready(s, k) || s.items[k].phase != Derived || s.holder != FREE then s
      else s.(holder := k, items := SeeAll(s.items[k := s.items[k].(phase := Saving(s.counter))], s.epoch))
    case EndSave(k, ok) =>
      if !Ready(s, k) || !s.items[k].phase.Saving? || s.holder != k then s
      else s.(holder := FREE,
              saved := if ok then s.items[k].phase.next else s.saved,
              items := SettleAll(s.items[k := s.items[k].(phase := Answered)], s.epoch, ok))
    case Crash => s.(up := false, epoch := s.epoch + 1, holder := FREE)
    case Restart => if s.up then s else s.(up := true, counter := s.saved)
  }

  function Run(saved: nat, run: seq<Event>): State {
    if run == [] then State(false, 0, 0, saved, FREE, [])
    else Step(Run(saved, run[..|run| - 1]), run[|run| - 1])
  }

  // ---- Invariant ----

  /** The next index `n` divides calls cleanly: each lies wholly below it or wholly at or above it. */
  predicate Clean(i: Item, n: nat) {
    i.hi <= n || n <= i.lo
  }

  predicate Takes(i: Item) {
    i.lo < i.hi
  }

  ghost predicate HolderInv(s: State) {
    s.holder == FREE ||
    (&& 0 <= s.holder < |s.items|
     && Ready(s, s.holder)
     && s.items[s.holder].phase.Saving?
     && s.saved <= s.items[s.holder].phase.next <= s.counter)
  }

  /** A call of the present uptime. */
  ghost predicate LiveInv(s: State, i: Item)
    requires HolderInv(s)
  {
    && s.up
    && i.hi <= s.counter
    && Clean(i, s.saved)
    && (Takes(i) ==> (i.covered <==> i.hi <= s.saved))
    && (s.holder == FREE ==> !i.phase.Saving? && !i.seen)
    && (s.holder != FREE ==>
          var n := s.items[s.holder].phase.next;
          && Clean(i, n)
          && (i.seen ==> i.hi <= n)
          && (Takes(i) && i.hi <= n ==> i.seen)
          && (i.phase.Saving? ==> i.seen && i.phase.next == n))
  }

  ghost predicate OrderInv(items: seq<Item>) {
    forall i, j | 0 <= i < j < |items| ::
      && items[i].epoch <= items[j].epoch
      && (items[i].epoch == items[j].epoch || items[i].covered ==> items[i].hi <= items[j].lo)
  }

  ghost predicate ItemInv(s: State, k: nat, i: Item)
    requires HolderInv(s)
  {
    && i.lo <= i.hi && i.epoch <= s.epoch
    && (i.covered ==> i.hi <= s.saved)
    && (i.epoch == s.epoch ==> LiveInv(s, i))
    && (s.holder != k && i.epoch == s.epoch ==> !i.phase.Saving?)
  }

  ghost predicate Inv(s: State) {
    && (s.up ==> s.saved <= s.counter)
    && HolderInv(s)
    && (forall k | 0 <= k < |s.items| :: ItemInv(s, k, s.items[k]))
    && OrderInv(s.items)
  }

  lemma DeriveKeepsInv(s: State, n: nat)
    requires Inv(s)
    ensures Inv(Step(s, Derive(n)))
  {}

  lemma BeginSaveKeepsInv(s: State, k: nat)
    requires Inv(s)
    ensures Inv(Step(s, BeginSave(k)))
  {}

  lemma SettleKeepsOrder(items: seq<Item>, epoch: nat, ok: bool)
    requires OrderInv(items)
    requires forall i | i in items :: i.epoch <= epoch
    ensures OrderInv(SettleAll(items, epoch, ok))
  {}

  lemma SettleKeepsItem(s: State, t: State, k: nat, ok: bool, j: nat)
    requires HolderInv(s) && s.up && s.saved <= s.counter && s.holder == k < |s.items| && j < |s.items|
    requires ItemInv(s, j, s.items[j])
    requires t == s.(holder := FREE, saved := if ok then s.items[k].phase.next else s.saved, items := t.items)
    requires |t.items| == |s.items|
    requires t.items[j] == Settle(if j == k then s.items[k].(phase := Answered) else s.items[j], s.epoch, ok)
    ensures ItemInv(t, j, t.items[j])
  {}

  lemma EndSaveKeepsInv(s: State, k: nat, ok: bool)
    requires Inv(s)
    ensures Inv(Step(s, EndSave(k, ok)))
  {
    if Ready(s, k) && s.items[k].phase.Saving? && s.holder == k {
      SettleKeepsOrder(s.items[k := s.items[k].(phase := Answered)], s.epoch, ok);
      hide OrderInv, ItemInv, Settle;
      var t := Step(s, EndSave(k, ok));
      forall j | 0 <= j < |t.items| ensures ItemInv(t, j, t.items[j]) {
        SettleKeepsItem(s, t, k, ok, j);
      }
    }
  }

  lemma StepKeepsInv(s: State, e: Event)
    requires Inv(s)
    ensures Inv(Step(s, e))
  {
    match e
    case Derive(n) => DeriveKeepsInv(s, n);
    case BeginSave(k) => BeginSaveKeepsInv(s, k);
    case EndSave(k, ok) => EndSaveKeepsInv(s, k, ok);
    case _ =>
  }

  lemma {:induction false} RunInv(saved: nat, run: seq<Event>)
    ensures Inv(Run(saved, run))
  {
    if run != [] {
      RunInv(saved, run[..|run| - 1]);
      StepKeepsInv(Run(saved, run[..|run| - 1]), run[|run| - 1]);
    }
  }

  // ---- Which saves cover a call ----

  /** At position `p` call `b` reads the counter for its save. */
  predicate Begins(saved: nat, run: seq<Event>, p: nat, b: nat) {
    && p < |run| && run[p] == BeginSave(b)
    && var s := Run(saved, run[..p]); Ready(s, b) && s.items[b].phase == Derived && s.holder == FREE
  }

  /** At position `q` the save of call `b` ends well. */
  predicate EndsWell(saved: nat, run: seq<Event>, q: nat, b: nat) {
    && q < |run| && run[q] == EndSave(b, true)
    && var s := Run(saved, run[..q]); Ready(s, b) && s.items[b].phase.Saving? && s.holder == b
  }

  /** Call `k` had taken its indices by position `p`. */
  predicate TakenBy(saved: nat, run: seq<Event>, k: nat, p: nat) {
    p <= |run| && k < |Run(saved, run[..p]).items|
  }

  /**
   A save of some call `b` read the counter after call `k` took its indices, and succeeded
   before a crash: `epoch` counts the crashes.
   */
  ghost predicate SavedBy(saved: nat, run: seq<Event>, k: nat, b: nat, p: nat, q: nat)
    requires k < |Run(saved, run).items|
  {
    && p < q && Begins(saved, run, p, b) && EndsWell(saved, run, q, b)
    && TakenBy(saved, run, k, p) && Run(saved, run).items[k].epoch == Run(saved, run[..q]).epoch
  }

  ghost predicate SavedSince(saved: nat, run: seq<Event>, k: nat)
    requires k < |Run(saved, run).items|
  {
    exists b: nat, p: nat, q: nat :: SavedBy(saved, run, k, b, p, q)
  }

  /** The save in progress, of call `b`, read the counter after call `k` took its indices. */
  ghost predicate SeenSince(saved: nat, run: seq<Event>, k: nat, b: nat) {
    exists p: nat :: Begins(saved, run, p, b) && TakenBy(saved, run, k, p)
  }

  lemma StepKeepsItems(s: State, e: Event)
    ensures |s.items| <= |Step(s, e).items|
    ensures forall k | 0 <= k < |s.items| :: Step(s, e).items[k].epoch == s.items[k].epoch
  {}

  lemma {:induction false} ItemsStay(saved: nat, run: seq<Event>, p: nat)
    requires p <= |run|
    ensures |Run(saved, run[..p]).items| <= |Run(saved, run).items|
  {
    if p == |run| {
      assert run[..p] == run;
    } else {
      hide Step;
      var before := run[..|run| - 1];
      assert before[..p] == run[..p];
      ItemsStay(saved, before, p);
      StepKeepsItems(Run(saved, before), run[|run| - 1]);
    }
  }

  lemma BeginsEarlier(saved: nat, run: seq<Event>, k: nat, p: nat, b: nat)
    requires run != [] && p < |run| - 1
    ensures Begins(saved, run, p, b) <==> Begins(saved, run[..|run| - 1], p, b)
    ensures TakenBy(saved, run, k, p) <==> TakenBy(saved, run[..|run| - 1], k, p)
    ensures EndsWell(saved, run, p, b) <==> EndsWell(saved, run[..|run| - 1], p, b)
  {
    assert run[..|run| - 1][..p] == run[..p];
  }

  /** The last event of a run begins a save of call `b`. */
  predicate JustBegan(saved: nat, run: seq<Event>, b: nat) {
    run != [] && Begins(saved, run, |run| - 1, b)
  }

  lemma SeenSnoc(saved: nat, run: seq<Event>, k: nat, b: nat)
    requires run != []
    ensures SeenSince(saved, run, k, b) <==>
      || SeenSince(saved, run[..|run| - 1], k, b)
      || (JustBegan(saved, run, b) && k < |Run(saved, run[..|run| - 1]).items|)
  {
    hide Begins;
    var before := run[..|run| - 1];
    forall p: nat | p < |before| ensures Begins(saved, run, p, b) && TakenBy(saved, run, k, p)
                                    <==> Begins(saved, before, p, b) && TakenBy(saved, before, k, p)
    {
      BeginsEarlier(saved, run, k, p, b);
    }
    BeginsInside(saved, run, k, b);
    BeginsInside(saved, before, k, b);
  }

  lemma BeginsInside(saved: nat, run: seq<Event>, k: nat, b: nat)
    ensures forall p: nat :: Begins(saved, run, p, b) ==> p < |run|
  {}

  /** What a step does to the flag of one call. */
  lemma StepSees(s: State, e: Event, k: nat)
    requires Inv(s) && k < |Step(s, e).items|
    ensures var t := Step(s, e);
      var began := e.BeginSave? && Ready(s, e.k) && s.items[e.k].phase == Derived && s.holder == FREE;
      && (began ==> t.holder == e.k && k < |s.items|)
      && (k < |s.items| && t.items[k].epoch == t.epoch ==>
            && s.items[k].epoch == s.epoch
            && (t.holder != FREE ==> t.items[k].seen == (began || s.items[k].seen))
            && (!began && t.holder != FREE ==> t.holder == s.holder))
      && (k == |s.items| ==> !t.items[k].seen && !t.items[k].covered)
      && (t.items[k].seen && t.items[k].epoch == t.epoch ==> t.holder != FREE)
  {
    StepKeepsInv(s, e);
  }

  /** While a save is in progress, `seen` marks exactly the calls it will cover. */
  lemma {:induction false} SeenAgrees(saved: nat, run: seq<Event>, k: nat)
    requires k < |Run(saved, run).items| && Run(saved, run).items[k].epoch == Run(saved, run).epoch
    ensures var s := Run(saved, run);
      s.items[k].seen <==> s.holder >= 0 && SeenSince(saved, run, k, s.holder)
  {
    if run != [] {
      hide Inv, SeenSince;
      var before, e := run[..|run| - 1], run[|run| - 1];
      var s, t := Run(saved, before), Run(saved, run);
      RunInv(saved, before);
      StepSees(s, e, k);
      if t.holder != FREE {
        HolderIsCall(saved, run);
        SeenSnoc(saved, run, k, t.holder);
        if k < |s.items| {
          SeenAgrees(saved, before, k);
        } else {
          NotSeenYet(saved, before, k, t.holder);
        }
      }
    }
  }

  lemma HolderIsCall(saved: nat, run: seq<Event>)
    ensures Run(saved, run).holder == FREE || 0 <= Run(saved, run).holder
  {
    RunInv(saved, run);
  }

  lemma NotSeenYet(saved: nat, run: seq<Event>, k: nat, b: nat)
    requires k >= |Run(saved, run).items|
    ensures !SeenSince(saved, run, k, b)
  {
    forall p: nat | Begins(saved, run, p, b) ensures !TakenBy(saved, run, k, p) {
      ItemsStay(saved, run, p);
    }
  }

  /** The last event of a run ends a save well that covers call `k`. */
  ghost predicate JustSaved(saved: nat, run: seq<Event>, k: nat)
    requires k < |Run(saved, run).items|
  {
    run != [] && run[|run| - 1].EndSave? &&
    var before, b := run[..|run| - 1], run[|run| - 1].k;
    && EndsWell(saved, run, |run| - 1, b) && SeenSince(saved, before, k, b)
    && Run(saved, run).items[k].epoch == Run(saved, before).epoch
  }

  lemma SavedSnoc(saved: nat, run: seq<Event>, k: nat)
    requires run != [] && k < |Run(saved, run[..|run| - 1]).items|
    ensures k < |Run(saved, run).items|
    ensures SavedSince(saved, run, k) <==> SavedSince(saved, run[..|run| - 1], k) || JustSaved(saved, run, k)
  {
    hide Begins, EndsWell, TakenBy, Step;
    var before, n := run[..|run| - 1], |run| - 1;
    StepKeepsItems(Run(saved, before), run[n]);
    if b: nat, p: nat, q: nat :| SavedBy(saved, run, k, b, p, q) {
      EndsInside(saved, run, q, b);
      BeginsEarlier(saved, run, k, p, b);
      if q < n {
        BeginsEarlier(saved, run, k, q, b);
        assert before[..q] == run[..q];
        assert SavedBy(saved, before, k, b, p, q);
      } else {
        assert SeenSince(saved, before, k, b);
        assert JustSaved(saved, run, k);
      }
    }
    if b: nat, p: nat, q: nat :| SavedBy(saved, before, k, b, p, q) {
      EndsInside(saved, before, q, b);
      BeginsEarlier(saved, run, k, p, b);
      BeginsEarlier(saved, run, k, q, b);
      assert before[..q] == run[..q];
      assert SavedBy(saved, run, k, b, p, q);
    }
    if JustSaved(saved, run, k) {
      var b := run[n].k;
      var p: nat :| Begins(saved, before, p, b) && TakenBy(saved, before, k, p);
      BeginsInside(saved, before, k, b);
      BeginsEarlier(saved, run, k, p, b);
      assert SavedBy(saved, run, k, b, p, n);
    }
  }

  lemma EndsInside(saved: nat, run: seq<Event>, q: nat, b: nat)
    requires EndsWell(saved, run, q, b)
    ensures q < |run| && run[q] == EndSave(b, true)
  {}

  /** What a step does to the other flag. */
  lemma StepCovers(s: State, e: Event, k: nat)
    requires k < |s.items|
    ensures k < |Step(s, e).items|
    ensures Step(s, e).items[k].covered <==>
      || s.items[k].covered
      || (&& e.EndSave? && e.writeOk && Ready(s, e.k) && s.items[e.k].phase.Saving? && s.holder == e.k
          && s.items[k].epoch == s.epoch && s.items[k].seen)
  {}

  /** `covered` marks exactly the calls that a save covered. */
  lemma {:induction false} CoveredAgrees(saved: nat, run: seq<Event>, k: nat)
    requires k < |Run(saved, run).items|
    ensures Run(saved, run).items[k].covered <==> SavedSince(saved, run, k)
  {
    if run != [] {
      hide Inv, SeenSince, SavedSince, Step;
      var before, e := run[..|run| - 1], run[|run| - 1];
      var s := Run(saved, before);
      if k < |s.items| {
        CoveredAgrees(saved, before, k);
        StepCovers(s, e, k);
        StepKeepsItems(s, e);
        SavedSnoc(saved, run, k);
        if s.items[k].epoch == s.epoch {
          SeenAgrees(saved, before, k);
        }
      } else {
        NotSavedYet(saved, run, k);
        RunInv(saved, before);
        StepSees(s, e, k);
        OneMoreItem(s, e);
      }
    }
  }

  lemma OneMoreItem(s: State, e: Event)
    ensures |Step(s, e).items| <= |s.items| + 1
  {}

  lemma NotSavedYet(saved: nat, run: seq<Event>, k: nat)
    requires run != [] && |Run(saved, run[..|run| - 1]).items| <= k < |Run(saved, run).items|
    ensures !SavedSince(saved, run, k)
  {
    hide Begins, EndsWell, Step;
    var before := run[..|run| - 1];
    forall b: nat, p: nat, q: nat ensures !SavedBy(saved, run, k, b, p, q) {
      if SavedBy(saved, run, k, b, p, q) {
        EndsInside(saved, run, q, b);
        assert before[..p] == run[..p];
        ItemsStay(saved, before, p);
      }
    }
  }

  // ---- Main results ----

  /** The next index on disk never goes back, whatever fails. */
  lemma {:induction false} SavedNeverDecreases(saved: nat, run: seq<Event>, n: nat)
    requires n <= |run|
    ensures Run(saved, run[..n]).saved <= Run(saved, run).saved
  {
    if n == |run| {
      assert run[..n] == run;
    } else {
      var before := run[..|run| - 1];
      assert before[..n] == run[..n];
      SavedNeverDecreases(saved, before, n);
      RunInv(saved, before);
    }
  }

  /**
   While the service is up, an index it has taken lies below the saved next index exactly when
   a save that read the counter after the index was taken has succeeded; write errors are
   ignored, so nothing else is promised of an answered call.
   */
  lemma PersistedExactly(saved: nat, run: seq<Event>, k: nat, index: nat)
    requires var s := Run(saved, run);
      s.up && k < |s.items| && s.items[k].epoch == s.epoch && s.items[k].lo <= index < s.items[k].hi
    ensures index < Run(saved, run).saved <==> SavedSince(saved, run, k)
  {
    RunInv(saved, run);
    CoveredAgrees(saved, run, k);
  }

  /** After a crash and restart such an index can be handed out again exactly when no such save had succeeded. */
  lemma ReusedExactly(saved: nat, run: seq<Event>, k: nat, index: nat)
    requires var s := Run(saved, run);
      s.up && k < |s.items| && s.items[k].epoch == s.epoch && s.items[k].lo <= index < s.items[k].hi
    ensures var s := Run(saved, run);
      var t := Step(Step(s, Crash), Restart);
      (exists n: nat :: var again := Step(t, Derive(n)).items[|s.items|]; again.lo <= index < again.hi)
        <==> !SavedSince(saved, run, k)
  {
    hide SavedSince;
    PersistedExactly(saved, run, k, index);
    var s := Run(saved, run);
    var t := Step(Step(s, Crash), Restart);
    if !SavedSince(saved, run, k) {
      var again := Step(t, Derive(index + 1)).items[|s.items|];
      assert again.lo == s.saved <= index && again.hi == s.saved + index + 1;
    }
  }

  lemma RunSnoc(saved: nat, run: seq<Event>, e: Event)
    ensures Run(saved, run + [e]) == Step(Run(saved, run), e)
  {
    assert (run + [e])[..|run|] == run;
  }

  /**
   From any state with the service up and the lock free: a call that nothing interrupts takes the
   next n indices, and once its save has worked the next index on disk is the one after them.
   */
  lemma UninterruptedCall(saved: nat, run: seq<Event>, n: nat)
    requires Run(saved, run).up && Run(saved, run).holder == FREE
    ensures var s := Run(saved, run);
      var k := |s.items|;
      var t := Run(saved, run + [Derive(n)] + [BeginSave(k)] + [EndSave(k, true)]);
      && |t.items| == k + 1 && t.items[k] == Item(s.counter, s.counter + n, s.epoch, Answered, false, true)
      && t.saved == t.counter == s.counter + n && t.holder == FREE && t.up
  {
    var k := |Run(saved, run).items|;
    RunSnoc(saved, run, Derive(n));
    RunSnoc(saved, run + [Derive(n)], BeginSave(k));
    RunSnoc(saved, run + [Derive(n)] + [BeginSave(k)], EndSave(k, true));
    hide Run;
  }

  /** An answered address can come out again: its snapshot could not be written, and nothing told the caller. */
  lemma AnsweredAndReused() returns (run: seq<Event>, later: seq<Event>)
    ensures var s := Run(0, run);
      s.up && s.items == [Item(0, 1, 0, Answered, false, false)]
    ensures run <= later && Run(0, later).items == Run(0, run).items + [Item(0, 1, 1, Derived, false, false)]
  {
    var first := [Restart];
    run := first + [Derive(1)] + [BeginSave(0)] + [EndSave(0, false)];
    later := run + [Crash] + [Restart] + [Derive(1)];
    assert first[..0] == [];
    assert Run(0, first) == State(true, 0, 0, 0, FREE, []);
    hide Run;
    RunSnoc(0, first, Derive(1));
    RunSnoc(0, first + [Derive(1)], BeginSave(0));
    RunSnoc(0, first + [Derive(1)] + [BeginSave(0)], EndSave(0, false));
    RunSnoc(0, run, Crash);
    RunSnoc(0, run + [Crash], Restart);
    RunSnoc(0, run + [Crash] + [Restart], Derive(1));
  }

  /** Two calls are never given the same index, unless a crash came between them before the first was saved. */
  lemma IndicesDistinct(saved: nat, run: seq<Event>, j: nat, k: nat)
    requires j < k < |Run(saved, run).items|
    requires var items := Run(saved, run).items; items[j].epoch == items[k].epoch || SavedSince(saved, run, j)
    ensures var items := Run(saved, run).items; items[j].hi <= items[k].lo
  {
    RunInv(saved, run);
    CoveredAgrees(saved, run, j);
  }

  predicate WritesSucceed(run: seq<Event>) {
    forall e | e in run :: e.EndSave? ==> e.writeOk
  }

  lemma {:induction false} AnsweredAreCovered(saved: nat, run: seq<Event>)
    requires WritesSucceed(run)
    ensures forall k | 0 <= k < |Run(saved, run).items| ::
      Run(saved, run).items[k].phase.Answered? ==> Run(saved, run).items[k].covered
  {
    if run != [] {
      var before, e := run[..|run| - 1], run[|run| - 1];
      assert e in run && forall d | d in before :: d in run;
      AnsweredAreCovered(saved, before);
      RunInv(saved, before);
    }
  }

  /**
   If snapshot writes succeed, then over every interleaving, crash and restart the saved next
   index exceeds every index already answered, and no later call is given one of them.
   */
  lemma AnsweredNeverReused(saved: nat, run: seq<Event>, k: nat)
    requires WritesSucceed(run)
    requires k < |Run(saved, run).items| && Run(saved, run).items[k].phase.Answered?
    ensures var s := Run(saved, run);
      && s.items[k].hi <= s.saved
      && (s.up ==> s.items[k].hi <= s.counter)
      && forall j | k < j < |s.items| :: s.items[k].hi <= s.items[j].lo
  {
    AnsweredAreCovered(saved, run);
    RunInv(saved, run);
  }
}
