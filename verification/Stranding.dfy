/**
 Wallets on disk that nobody has a live token for, and how they come about. The first save that
 succeeds after a failed one writes the failed call's wallet to disk with the rest of the list; a
 crash can come between a save and its answer; a call can save without issuing tokens. From then
 on the wallet is there to stay, and there is no way to get a token for it.
 */
module Stranding {
  import opened Wrappers
  import opened Base64
  import opened Auth
  import opened Tokens
  import opened Migration
  import opened Registry
  import opened Grants
  import opened Service

  // ---- A call is a run ----

  lemma RunFromSnoc(env: Env, s: State, run: seq<Event>, e: Event)
    ensures RunFrom(env, s, run + [e]) == Step(env, RunFrom(env, s, run), e)
  {
    assert (run + [e])[..|run|] == run;
  }

  /** An uninterrupted call is a run of its seven events. */
  lemma CallIsRun(env: Env, s: State, req: Request, ce: CallEnv) returns (run: seq<Event>)
    ensures CallEvents(env, s, req, ce) == RunFrom(env, s, run)
    ensures HonestFrom(env, s, run) && Crash !in run
  {
    hide Step, Honest, BuildStep, AttachStep, AppendStep, WriteStep, RenameStep, FinishStep;
    run := [Enter(req), Build(ce.sdk, ce.randoms), Event.Attach(ce.attachOk), Append, WriteTmp(ce.write),
            Rename(ce.renameOk), Finish(ce.now, ce.jtis, ce.signOk)];
    CallUnrolls(env, s, req, ce, run);
    forall n | 0 <= n < |run| ensures Honest(env, RunFrom(env, s, run[..n]), run[n]) {
      NotRefresh(env, RunFrom(env, s, run[..n]), run[n]);
    }
  }

  lemma NotRefresh(env: Env, s: State, e: Event)
    requires !e.Refresh?
    ensures Honest(env, s, e)
  {}

  lemma StepIs(env: Env, s: State, ce: CallEnv)
    ensures Step(env, s, Build(ce.sdk, ce.randoms)) == BuildStep(env, s, ce.sdk, ce.randoms)
    ensures Step(env, s, Event.Attach(ce.attachOk)) == AttachStep(s, ce.attachOk)
    ensures Step(env, s, Append) == AppendStep(s)
    ensures Step(env, s, WriteTmp(ce.write)) == WriteStep(s, ce.write)
    ensures Step(env, s, Rename(ce.renameOk)) == RenameStep(s, ce.renameOk)
    ensures Step(env, s, Finish(ce.now, ce.jtis, ce.signOk)) == FinishStep(env, s, ce.now, ce.jtis, ce.signOk)
  {
    hide BuildStep, AttachStep, AppendStep, WriteStep, RenameStep, FinishStep;
  }

  lemma CallUnrolls(env: Env, s: State, req: Request, ce: CallEnv, events: seq<Event>)
    requires events == [Enter(req), Build(ce.sdk, ce.randoms), Event.Attach(ce.attachOk), Append, WriteTmp(ce.write),
                        Rename(ce.renameOk), Finish(ce.now, ce.jtis, ce.signOk)]
    ensures CallEvents(env, s, req, ce) == RunFrom(env, s, events)
  {
    hide Step, BuildStep, AttachStep, AppendStep, WriteStep, RenameStep, FinishStep, RunFrom;
    forall n | 0 <= n < 7 ensures RunFrom(env, s, events[..n + 1]) == Step(env, RunFrom(env, s, events[..n]), events[n]) {
      assert events[..n + 1] == events[..n] + [events[n]];
      RunFromSnoc(env, s, events[..n], events[n]);
    }
    forall n | 0 <= n < 7 { StepIs(env, RunFrom(env, s, events[..n]), ce); }
    RunFromNothing(env, s);
    assert events[..0] == [] && events[..7] == events;
    assert RunFrom(env, s, events[..0]) == s;
    assert RunFrom(env, s, events[..0 + 1]) == Step(env, s, Enter(req));
    assert RunFrom(env, s, events[..1 + 1]) == BuildStep(env, RunFrom(env, s, events[..1]), ce.sdk, ce.randoms);
    assert RunFrom(env, s, events[..2 + 1]) == AttachStep(RunFrom(env, s, events[..2]), ce.attachOk);
    assert RunFrom(env, s, events[..3 + 1]) == AppendStep(RunFrom(env, s, events[..3]));
    assert RunFrom(env, s, events[..4 + 1]) == WriteStep(RunFrom(env, s, events[..4]), ce.write);
    assert RunFrom(env, s, events[..5 + 1]) == RenameStep(RunFrom(env, s, events[..5]), ce.renameOk);
    assert RunFrom(env, s, events[..6 + 1]) == FinishStep(env, RunFrom(env, s, events[..6]), ce.now, ce.jtis, ce.signOk);
  }

  lemma RunFromNothing(env: Env, s: State)
    ensures RunFrom(env, s, []) == s
  {}

  // ---- Until the next crash ----

  /** The wallet is in the registry's list, and not being made by the call under way. */
  ghost predicate Listed(s: State, key: string) {
    s.mem.Up? && key in KeySet(s.mem.list) && (s.mem.call.Some? ==> RequestKey(s.mem.call.value.req) != key)
  }

  ghost predicate OnDisk(s: State, key: string) {
    key in KeySet(DiskList(s.disk))
  }

  /** This event is the rename that ends a successful save. */
  predicate Saves(s: State, e: Event) {
    e == Rename(true) && InCall(s) && s.mem.call.value.point.Written?
  }

  /** Some save of the run succeeds. */
  ghost predicate SavedIn(env: Env, s: State, run: seq<Event>) {
    exists n :: 0 <= n < |run| && Saves(RunFrom(env, s, run[..n]), run[n])
  }

  lemma SavedInSnoc(env: Env, s: State, run: seq<Event>)
    requires run != []
    ensures var front, e := run[..|run| - 1], run[|run| - 1];
      SavedIn(env, s, run) <==> SavedIn(env, s, front) || Saves(RunFrom(env, s, front), e)
  {
    hide Saves, RunFrom;
    var front := run[..|run| - 1];
    assert forall n | 0 <= n < |front| :: front[..n] == run[..n];
    if n :| 0 <= n < |front| && Saves(RunFrom(env, s, front[..n]), front[n]) {
      assert Saves(RunFrom(env, s, run[..n]), run[n]);
    }
    if n :| 0 <= n < |run| && Saves(RunFrom(env, s, run[..n]), run[n]) {
      if n < |front| {
        assert Saves(RunFrom(env, s, front[..n]), front[n]);
      }
    }
  }

  lemma ListedKeyRegistered(env: Env, s: State, key: string)
    requires Inv(env, s) && Listed(s, key)
    ensures key in s.mem.wallets
  {
    hide KeySet, Distinct, OpenSecrets, KeyOf;
    if s.mem.call.Some? && s.mem.call.value.point.Attached? {
      assert key in s.mem.wallets - {RequestKey(s.mem.call.value.req)};
    }
  }

  lemma SameDiskUnlessSaved(env: Env, s: State, e: Event)
    requires Inv(env, s) && s.mem.Up? && !e.Crash?
    ensures var t := Step(env, s, e);
      && t.mem.Up? && s.mem.list <= t.mem.list
      && (if Saves(s, e) then DiskList(t.disk) == s.mem.list else DiskList(t.disk) == DiskList(s.disk))
      && (t.mem.call.Some? ==>
            || (s.mem.call.Some? && t.mem.call.value.req == s.mem.call.value.req)
            || RequestKey(t.mem.call.value.req) !in s.mem.wallets)
  {
    hide InSync, KeySet, Distinct, OpenSecrets, Extends, ValidRequest, NewMeta, Validate, Issue, LoadAll;
  }

  lemma StepListed(env: Env, s: State, e: Event, key: string)
    requires Inv(env, s) && Listed(s, key) && !e.Crash?
    ensures Listed(Step(env, s, e), key)
    ensures OnDisk(Step(env, s, e), key) <==> OnDisk(s, key) || Saves(s, e)
  {
    hide Inv, Step, KeySet, RequestKey, Saves;
    ListedKeyRegistered(env, s, key);
    SameDiskUnlessSaved(env, s, e);
    KeySetPrefix(s.mem.list, Step(env, s, e).mem.list);
    assert Listed(Step(env, s, e), key);
  }

  /** Until a crash, a listed wallet reaches the disk exactly with the first save that succeeds. */
  lemma {:induction false} OnDiskIffSaved(env: Env, s: State, run: seq<Event>, key: string)
    requires Sound(env) && Inv(env, s) && Listed(s, key) && Crash !in run
    ensures Listed(RunFrom(env, s, run), key)
    ensures OnDisk(RunFrom(env, s, run), key) <==> OnDisk(s, key) || SavedIn(env, s, run)
  {
    if run != [] {
      hide Step, Inv, Sound, Listed, OnDisk, SavedIn, Saves;
      var front, e := run[..|run| - 1], run[|run| - 1];
      assert e in run && forall d | d in front :: d in run;
      RunFromInv(env, s, front);
      OnDiskIffSaved(env, s, front, key);
      StepListed(env, RunFrom(env, s, front), e, key);
      SavedInSnoc(env, s, run);
    } else {
      assert !SavedIn(env, s, run);
    }
  }

  // ---- The next restart ----

  /** `boot` leads from a service that is down to the first moment it is up. */
  ghost predicate Restarts(env: Env, s: State, boot: seq<Event>) {
    && (forall n | 0 <= n < |boot| :: !RunFrom(env, s, boot[..n]).mem.Up?)
    && RunFrom(env, s, boot).mem.Up?
  }

  lemma SameKeys(v: Vault, a: seq<Meta>, b: seq<Meta>)
    requires |a| == |b| && Extends(v, a, b)
    ensures KeySet(a) == KeySet(b)
  {
    hide KeySet, OpenSecrets;
    KeySetPrefix(a, b);
    KeySetPrefix(b, a);
  }

  lemma StartedKeys(env: Env, s: State, settings: Settings, envs: nat -> RecordEnv)
    requires Sound(env) && s.mem.Down? && BootStep(env, s, settings, envs).mem.Up? && Distinct(DiskList(s.disk))
    ensures var t := BootStep(env, s, settings, envs);
      t.disk == s.disk && t.mem.call.None? && t.mem.wallets.Keys == KeySet(DiskList(s.disk))
  {
    hide OpenSecrets, LoadAll, Distinct;
    MigrationKeepsSecrets(env.vault, DiskList(s.disk), envs);
  }

  lemma MigratedKeys(env: Env, s: State)
    requires Inv(env, s) && s.mem.Loading?
    ensures KeySet(s.mem.loaded.metas) == KeySet(DiskList(s.disk)) == s.mem.loaded.wallets.Keys
  {
    hide KeySet, OpenSecrets, Extends;
    SameKeys(env.vault, DiskList(s.disk), s.mem.loaded.metas);
  }

  /** A service that is not up keeps the wallets on disk, and starts with exactly those. */
  lemma DownStep(env: Env, s: State, e: Event)
    requires Sound(env) && Inv(env, s) && !s.mem.Up?
    ensures var t := Step(env, s, e);
      && KeySet(DiskList(t.disk)) == KeySet(DiskList(s.disk))
      && (t.mem.Up? ==> t.mem.call.None? && t.mem.wallets.Keys == KeySet(DiskList(t.disk)))
  {
    hide InSync, KeySet, OpenSecrets, Extends, LoadAll, Distinct, Validate, NewMeta, Issue, ValidRequest, Sound;
    if s.mem.Loading? {
      MigratedKeys(env, s);
    }
    match e
    case Boot(settings, envs) =>
      if BootStep(env, s, settings, envs).mem.Up? {
        StartedKeys(env, s, settings, envs);
      }
    case _ =>
  }

  lemma {:induction false} DownRun(env: Env, s: State, boot: seq<Event>)
    requires Sound(env) && Inv(env, s) && forall n | 0 <= n < |boot| :: !RunFrom(env, s, boot[..n]).mem.Up?
    ensures var t := RunFrom(env, s, boot);
      && KeySet(DiskList(t.disk)) == KeySet(DiskList(s.disk))
      && (boot != [] && t.mem.Up? ==> t.mem.call.None? && t.mem.wallets.Keys == KeySet(DiskList(t.disk)))
  {
    if boot != [] {
      hide Step, Inv, Sound, KeySet;
      var front := boot[..|boot| - 1];
      forall n | 0 <= n < |front| ensures !RunFrom(env, s, front[..n]).mem.Up? {
        assert front[..n] == boot[..n];
      }
      RunFromInv(env, s, front);
      DownRun(env, s, front);
      assert !RunFrom(env, s, boot[..|boot| - 1]).mem.Up?;
      DownStep(env, RunFrom(env, s, front), boot[|boot| - 1]);
    }
  }

  /** After a crash the service comes up with exactly the wallets on disk, and nobody holds the lock. */
  lemma RestartLoadsDisk(env: Env, s: State, boot: seq<Event>)
    requires Sound(env) && Inv(env, s) && Restarts(env, Step(env, s, Crash), boot)
    ensures var u := RunFrom(env, Step(env, s, Crash), boot);
      u.mem.call.None? && u.mem.wallets.Keys == KeySet(DiskList(u.disk)) == KeySet(DiskList(s.disk))
  {
    hide Inv, KeySet, Sound, RunFrom;
    var down := Step(env, s, Crash);
    StepKeepsInv(env, s, Crash);
    DownRun(env, down, boot);
    RunFromNothing(env, down);
  }

  // ---- Wallets on disk that no live refresh token names ----

  /** Every refresh token of the wallet has expired by `time`, in Unix seconds. */
  ghost predicate Lapsed(grants: seq<Grant>, key: string, time: int) {
    forall g | g in grants && WalletKey(g.tenantID, g.walletID) == key :: g.refresh.exp <= time
  }

  /** No token was ever issued for the wallet. */
  ghost predicate NoGrant(grants: seq<Grant>, key: string) {
    forall g | g in grants :: WalletKey(g.tenantID, g.walletID) != key
  }

  /** None was issued for it since. */
  ghost predicate NoNewGrant(before: seq<Grant>, after: seq<Grant>, key: string) {
    before <= after && forall i | |before| <= i < |after| :: WalletKey(after[i].tenantID, after[i].walletID) != key
  }

  ghost predicate InTheMaking(s: State, key: string) {
    InCall(s) && RequestKey(s.mem.call.value.req) == key
  }

  /** The wallet is on disk, its refresh tokens have lapsed, and no call under way is making it. */
  ghost predicate Dormant(s: State, key: string, time: int) {
    OnDisk(s, key) && Lapsed(s.grants, key, time) && !InTheMaking(s, key)
  }

  /** The wallet is on disk, no token ever named it, and no call under way is making it. */
  ghost predicate Ungranted(s: State, key: string) {
    OnDisk(s, key) && NoGrant(s.grants, key) && !InTheMaking(s, key)
  }

  ghost predicate RefreshesFrom(run: seq<Event>, time: int) {
    forall e | e in run && e.Refresh? :: time <= Unix(e.now)
  }

  lemma DiskStays(env: Env, s: State, e: Event, key: string)
    requires Inv(env, s) && OnDisk(s, key)
    ensures OnDisk(Step(env, s, e), key)
  {
    hide Inv, Step, KeySet, OpenSecrets;
    StepKeeps(env, s, e);
    KeySetPrefix(DiskList(s.disk), DiskList(Step(env, s, e).disk));
  }

  /** A call is entered only for a wallet that is not on disk. */
  lemma CallsAreForNew(env: Env, s: State, e: Event, key: string)
    requires Inv(env, s) && OnDisk(s, key) && !InTheMaking(s, key)
    ensures !InTheMaking(Step(env, s, e), key)
  {
    if s.mem.Up? {
      WalletsCoverDisk(env, s);
    }
    hide Inv, KeySet, NewMeta, Validate, LoadAll, Issue, ValidRequest, RequestKey;
  }

  lemma RefreshGrant(env: Env, s: State, token: string, now: int, jtis: (string, string), key: string, time: int)
    requires FaithfulClaims(env) && TokenInv(s) && Honest(env, s, Refresh(token, now, jtis))
    requires Lapsed(s.grants, key, time) && time <= Unix(now)
    ensures NoNewGrant(s.grants, RefreshStep(env, s, token, now, jtis).grants, key)
  {
    hide GrantInv, KeySet, Validate, WalletKey, FaithfulClaims;
    var t := RefreshStep(env, s, token, now, jtis);
    if t.grants != s.grants {
      var k := RefreshSource(env, s, token, now);
      assert s.grants[k] in s.grants;
    }
  }

  /** The only new tokens are for the wallet of the call that finishes, and for the owner of a live refresh token. */
  lemma GrantSource(env: Env, s: State, e: Event, key: string, time: int)
    requires FaithfulClaims(env) && TokenInv(s) && Honest(env, s, e)
    requires Lapsed(s.grants, key, time) && !InTheMaking(s, key) && RefreshesFrom([e], time)
    ensures NoNewGrant(s.grants, Step(env, s, e).grants, key)
  {
    hide TokenInv, KeySet, NewMeta, LoadAll, Validate, ValidRequest, WalletKey, FaithfulClaims, Honest, Lapsed;
    match e
    case Refresh(token, now, jtis) =>
      assert e in [e];
      RefreshGrant(env, s, token, now, jtis, key, time);
    case _ =>
  }

  lemma NoNewGrantKeeps(a: seq<Grant>, b: seq<Grant>, key: string, time: int)
    requires NoNewGrant(a, b, key)
    ensures Lapsed(a, key, time) ==> Lapsed(b, key, time)
    ensures NoGrant(a, key) ==> NoGrant(b, key)
  {
    hide WalletKey;
    forall g | g in b ensures g in a || WalletKey(g.tenantID, g.walletID) != key {
      var i :| 0 <= i < |b| && b[i] == g;
    }
  }

  lemma NoNewGrantAdds(a: seq<Grant>, b: seq<Grant>, c: seq<Grant>, key: string)
    requires NoNewGrant(a, b, key) && NoNewGrant(b, c, key)
    ensures NoNewGrant(a, c, key)
  {
    hide WalletKey;
    assert forall i | |a| <= i < |b| :: c[i] == b[i];
  }

  lemma StepDormant(env: Env, s: State, e: Event, key: string, time: int)
    requires FaithfulClaims(env) && Inv(env, s) && TokenInv(s) && Honest(env, s, e)
    requires Dormant(s, key, time) && RefreshesFrom([e], time)
    ensures Dormant(Step(env, s, e), key, time) && NoNewGrant(s.grants, Step(env, s, e).grants, key)
  {
    hide Inv, Step, TokenInv, FaithfulClaims, Honest, OnDisk, NoNewGrant, Lapsed, InTheMaking;
    DiskStays(env, s, e, key);
    CallsAreForNew(env, s, e, key);
    GrantSource(env, s, e, key, time);
    NoNewGrantKeeps(s.grants, Step(env, s, e).grants, key, time);
  }

  lemma {:induction false} DormantStays(env: Env, s: State, run: seq<Event>, key: string, time: int)
    requires Sound(env) && FaithfulClaims(env) && Inv(env, s) && TokenInv(s) && HonestFrom(env, s, run)
    requires Dormant(s, key, time) && RefreshesFrom(run, time)
    ensures Dormant(RunFrom(env, s, run), key, time) && NoNewGrant(s.grants, RunFrom(env, s, run).grants, key)
  {
    if run != [] {
      hide Step, Inv, TokenInv, Sound, Honest, HonestFrom, FaithfulClaims, Dormant, NoNewGrant;
      var front, e := run[..|run| - 1], run[|run| - 1];
      assert e in run && forall d | d in front :: d in run;
      HonestFront(env, s, run);
      RunFromInv(env, s, front);
      RunFromTokens(env, s, front);
      DormantStays(env, s, front, key, time);
      StepDormant(env, RunFrom(env, s, front), e, key, time);
      NoNewGrantAdds(s.grants, RunFrom(env, s, front).grants, RunFrom(env, s, run).grants, key);
    }
  }

  lemma OnDiskRegistered(env: Env, s: State, key: string)
    requires Inv(env, s) && OnDisk(s, key)
    ensures s.mem.Up? ==> key in s.mem.wallets
  {
    hide Inv, KeySet;
    if s.mem.Up? {
      WalletsCoverDisk(env, s);
    }
  }

  /** A time no refresh of the run comes before. */
  lemma {:induction false} Earliest(run: seq<Event>) returns (time: int)
    ensures RefreshesFrom(run, time)
  {
    time := 0;
    if run != [] {
      var front, e := run[..|run| - 1], run[|run| - 1];
      time := Earliest(front);
      if e.Refresh? && Unix(e.now) < time {
        time := Unix(e.now);
      }
      assert run == front + [e];
    }
  }

  lemma UngrantedStays(env: Env, s: State, run: seq<Event>, key: string)
    requires Sound(env) && FaithfulClaims(env) && Inv(env, s) && TokenInv(s) && HonestFrom(env, s, run)
    requires Ungranted(s, key)
    ensures Ungranted(RunFrom(env, s, run), key)
  {
    hide Inv, TokenInv, Sound, HonestFrom, FaithfulClaims, OnDisk, InTheMaking, RunFrom, WalletKey;
    var time := Earliest(run);
    assert Lapsed(s.grants, key, time);
    DormantStays(env, s, run, key, time);
    NoNewGrantKeeps(s.grants, RunFrom(env, s, run).grants, key, time);
  }

  // ---- How a wallet gets to disk without tokens ----

  lemma NotOnDiskNoGrant(s: State, key: string)
    requires TokenInv(s) && !OnDisk(s, key)
    ensures NoGrant(s.grants, key)
  {
    hide KeySet, GrantInv, WalletKey;
  }

  /** A call has issued nothing for its wallet before it answers. */
  lemma NoGrantInTheMaking(s: State, key: string)
    requires TokenInv(s) && InTheMaking(s, key)
    ensures NoGrant(s.grants, key)
  {
    hide KeySet, WalletKey, RequestKey, UniqueBootstraps, ProperPair;
    forall g | g in s.grants ensures WalletKey(g.tenantID, g.walletID) != key {
      var i: nat :| i < |s.grants| && s.grants[i] == g;
      assert Rooted(s.grants, i);
      var j :| 0 <= j <= i && s.grants[j].origin.Bootstrapped? && SameOwner(s.grants[j], s.grants[i]);
      assert s.grants[j] in s.grants;
    }
  }

  /** A crash between the rename of a save and the answer of its call. */
  lemma CrashBeforeAnswer(env: Env, s: State, key: string)
    requires Inv(env, s) && TokenInv(s) && InTheMaking(s, key) && s.mem.call.value.point.Renamed?
    ensures Ungranted(Step(env, s, Crash), key)
  {
    NoGrantInTheMaking(s, key);
    hide KeySet, InSync, Distinct, OpenSecrets, Extends, ValidRequest, NoGrant, TokenInv, KeyOf;
    KeyIn(s.mem.list, |s.mem.list| - 1);
  }

  /** A call that saves but issues no tokens: auth is off, or signing fails. */
  lemma SavedWithoutTokens(env: Env, s: State, req: Request, ce: CallEnv)
    requires Sound(env) && Inv(env, s) && TokenInv(s) && Fresh(s, req) && Saved(env, req, ce)
    requires !s.settings.authEnabled || !ce.signOk
    ensures Ungranted(CallEvents(env, s, req, ce), RequestKey(req))
  {
    hide Inv, TokenInv, KeySet, CallEvents, Record, ValidRequest, RequestKey, KeyOf, Sound, NoGrant;
    CallEffect(env, s, req, ce);
    RecordKey(env, req, ce);
    var t := CallEvents(env, s, req, ce);
    KeyIn(t.mem.list, |s.mem.list|);
    NotOnDiskYet(env, s, req);
    NotOnDiskNoGrant(s, RequestKey(req));
  }

  lemma NotOnDiskYet(env: Env, s: State, req: Request)
    requires Inv(env, s) && Fresh(s, req)
    ensures !OnDisk(s, RequestKey(req))
  {
    hide Inv, KeySet, RequestKey, ValidRequest;
    WalletsCoverDisk(env, s);
  }

  lemma FailedSaveIsListed(env: Env, s: State, req: Request, ce: CallEnv)
    requires Inv(env, s) && Fresh(s, req) && Reaches(env, req, ce) && !Saved(env, req, ce)
    ensures var t := CallEvents(env, s, req, ce);
      Listed(t, RequestKey(req)) && !OnDisk(t, RequestKey(req)) && t.mem.call.None?
  {
    hide Inv, KeySet, CallEvents, Record, ValidRequest, RequestKey, Saved, KeyOf;
    CallEffect(env, s, req, ce);
    FailedSaveStrandsWallet(env, s, req, ce, ce);
    RecordKey(env, req, ce);
    KeyIn(CallEvents(env, s, req, ce).mem.list, |s.mem.list|);
  }

  lemma AfterCall(env: Env, s: State, req: Request, ce: CallEnv)
    requires Sound(env) && Inv(env, s)
    ensures Inv(env, CallEvents(env, s, req, ce))
    ensures FaithfulClaims(env) && TokenInv(s) ==> TokenInv(CallEvents(env, s, req, ce))
  {
    hide Inv, Sound, CallEvents, RunFrom, TokenInv, FaithfulClaims, HonestFrom;
    var run := CallIsRun(env, s, req, ce);
    RunFromInv(env, s, run);
    if FaithfulClaims(env) && TokenInv(s) {
      RunFromTokens(env, s, run);
    }
  }

  /** Until a crash a listed wallet that is not yet on disk gets no token, not even when it gets there. */
  lemma {:induction false} NoGrantWhileListed(env: Env, s: State, run: seq<Event>, key: string)
    requires Sound(env) && FaithfulClaims(env) && Inv(env, s) && TokenInv(s) && HonestFrom(env, s, run)
    requires Listed(s, key) && !OnDisk(s, key) && Crash !in run
    ensures NoGrant(RunFrom(env, s, run).grants, key)
  {
    if run != [] {
      hide Step, Inv, TokenInv, Sound, Honest, HonestFrom, FaithfulClaims, OnDisk, SavedIn, NoGrant, NoNewGrant, Lapsed, WalletKey;
      var front, e := run[..|run| - 1], run[|run| - 1];
      assert forall d | d in front :: d in run;
      HonestFront(env, s, run);
      RunFromInv(env, s, front);
      RunFromTokens(env, s, front);
      OnDiskIffSaved(env, s, front, key);
      NoGrantWhileListed(env, s, front, key);
      var time := Earliest([e]);
      NoGrantLapsed(RunFrom(env, s, front).grants, key, time);
      GrantSource(env, RunFrom(env, s, front), e, key, time);
      NoNewGrantKeeps(RunFrom(env, s, front).grants, RunFrom(env, s, run).grants, key, time);
    } else {
      NotOnDiskNoGrant(s, key);
    }
  }

  lemma NoGrantLapsed(grants: seq<Grant>, key: string, time: int)
    requires NoGrant(grants, key)
    ensures Lapsed(grants, key, time)
  {}

  // ---- Main results, from every state the service can reach ----

  /** The assumptions on a run up to a state, and what they give. */
  ghost predicate Reachable(env: Env, disk: Disk, before: seq<Event>) {
    Sound(env) && FaithfulClaims(env) && ValidDisk(disk) && HonestRun(env, disk, before)
  }

  /** Nobody can create or restore the wallet with this key. */
  ghost predicate Refused(s: State, key: string) {
    s.mem.Up? ==> key in s.mem.wallets
  }

  /**
   A wallet on disk whose refresh tokens have all expired never gets another token, in any later
   run with its crashes and restarts; it stays registered, so nobody can bootstrap it either.
   */
  lemma NeverRenewed(env: Env, disk: Disk, before: seq<Event>, run: seq<Event>, key: string, time: int)
    requires Reachable(env, disk, before) && HonestFrom(env, Run(env, disk, before), run)
    requires Dormant(Run(env, disk, before), key, time) && RefreshesFrom(run, time)
    ensures var s := Run(env, disk, before);
      var t := RunFrom(env, s, run);
      NoNewGrant(s.grants, t.grants, key) && OnDisk(t, key) && Refused(t, key)
  {
    hide Run, RunFrom, Inv, TokenInv, HonestRun, HonestFrom, Sound, FaithfulClaims, ValidDisk, NoNewGrant, OnDisk, Lapsed, InTheMaking;
    RunTokens(env, disk, before);
    var s := Run(env, disk, before);
    DormantStays(env, s, run, key, time);
    RunFromInv(env, s, run);
    OnDiskRegistered(env, RunFrom(env, s, run), key);
  }

  /** A wallet on disk that was never issued a token never gets one, whenever refreshes come. */
  lemma NeverGranted(env: Env, disk: Disk, before: seq<Event>, run: seq<Event>, key: string)
    requires Reachable(env, disk, before) && HonestFrom(env, Run(env, disk, before), run)
    requires Ungranted(Run(env, disk, before), key)
    ensures var t := RunFrom(env, Run(env, disk, before), run);
      Ungranted(t, key) && Refused(t, key)
  {
    hide Run, RunFrom, Inv, TokenInv, HonestRun, HonestFrom, Sound, FaithfulClaims, ValidDisk, NoGrant, OnDisk, InTheMaking;
    RunTokens(env, disk, before);
    StrandedFrom(env, Run(env, disk, before), run, key);
  }

  lemma StrandedFrom(env: Env, s: State, run: seq<Event>, key: string)
    requires Sound(env) && FaithfulClaims(env) && Inv(env, s) && TokenInv(s) && HonestFrom(env, s, run)
    requires Ungranted(s, key)
    ensures Ungranted(RunFrom(env, s, run), key) && Refused(RunFrom(env, s, run), key)
  {
    hide RunFrom, Inv, TokenInv, HonestFrom, Sound, FaithfulClaims, NoGrant, OnDisk, InTheMaking;
    UngrantedStays(env, s, run, key);
    RunFromInv(env, s, run);
    OnDiskRegistered(env, RunFrom(env, s, run), key);
  }

  /** A crash between a save and its answer strands the wallet: nobody got its tokens, and nobody ever will. */
  lemma CrashBeforeAnswerStrands(env: Env, disk: Disk, before: seq<Event>, run: seq<Event>, key: string)
    requires Reachable(env, disk, before)
    requires var s := Run(env, disk, before); InTheMaking(s, key) && s.mem.call.value.point.Renamed?
    requires HonestFrom(env, Step(env, Run(env, disk, before), Crash), run)
    ensures var w := RunFrom(env, Step(env, Run(env, disk, before), Crash), run);
      Ungranted(w, key) && Refused(w, key)
  {
    hide Run, RunFrom, Inv, TokenInv, HonestRun, HonestFrom, Sound, FaithfulClaims, ValidDisk, Step, Ungranted, Refused;
    RunTokens(env, disk, before);
    var s := Run(env, disk, before);
    CrashBeforeAnswer(env, s, key);
    StepKeepsInv(env, s, Crash);
    NotRefresh(env, s, Crash);
    StepKeepsTokens(env, s, Crash);
    StrandedFrom(env, Step(env, s, Crash), run, key);
  }

  /** So does a call that saves and issues no tokens, because auth is off at the time or signing fails. */
  lemma SavedWithoutTokensStrands(env: Env, disk: Disk, before: seq<Event>, req: Request, ce: CallEnv, run: seq<Event>)
    requires Reachable(env, disk, before) && Fresh(Run(env, disk, before), req) && Saved(env, req, ce)
    requires !Run(env, disk, before).settings.authEnabled || !ce.signOk
    requires HonestFrom(env, CallEvents(env, Run(env, disk, before), req, ce), run)
    ensures var w := RunFrom(env, CallEvents(env, Run(env, disk, before), req, ce), run);
      Ungranted(w, RequestKey(req)) && Refused(w, RequestKey(req))
  {
    hide Run, RunFrom, Inv, TokenInv, HonestRun, HonestFrom, Sound, FaithfulClaims, ValidDisk, CallEvents, Ungranted, Refused;
    RunTokens(env, disk, before);
    var s := Run(env, disk, before);
    AfterCall(env, s, req, ce);
    SavedWithoutTokens(env, s, req, ce);
    StrandedFrom(env, CallEvents(env, s, req, ce), run, RequestKey(req));
  }

  /** A crash-free run, the next crash, and a restart up to the first moment the service is up. */
  ghost predicate Interlude(env: Env, t: State, run: seq<Event>, boot: seq<Event>) {
    Crash !in run && Restarts(env, Step(env, RunFrom(env, t, run), Crash), boot)
  }

  /** A call that attaches its wallet and then fails to save. */
  ghost predicate FailsToSave(env: Env, s: State, req: Request, ce: CallEnv) {
    Fresh(s, req) && Reaches(env, req, ce) && !Saved(env, req, ce)
  }

  /**
   The wallet of a failed save can be created again after the next crash and restart if and
   only if no save of any wallet succeeded in between.
   */
  lemma FailedSaveUndoneByRestart(env: Env, disk: Disk, before: seq<Event>, req: Request, ce: CallEnv,
                                  run: seq<Event>, boot: seq<Event>)
    requires Sound(env) && ValidDisk(disk) && FailsToSave(env, Run(env, disk, before), req, ce)
    requires Interlude(env, CallEvents(env, Run(env, disk, before), req, ce), run, boot)
    ensures var t := CallEvents(env, Run(env, disk, before), req, ce);
      var u := RunFrom(env, Step(env, RunFrom(env, t, run), Crash), boot);
      && (Fresh(u, req) <==> !SavedIn(env, t, run))
      && (RequestKey(req) in u.mem.wallets <==> SavedIn(env, t, run))
      && (OnDisk(u, RequestKey(req)) <==> SavedIn(env, t, run))
  {
    hide Run, Inv, Sound, CallEvents, Step, RunFrom, SavedIn, Listed, KeySet, RequestKey, ValidRequest, ValidDisk;
    RunInv(env, disk, before);
    var s := Run(env, disk, before);
    var t := CallEvents(env, s, req, ce);
    AfterCall(env, s, req, ce);
    FailedSaveIsListed(env, s, req, ce);
    RunFromInv(env, t, run);
    OnDiskIffSaved(env, t, run, RequestKey(req));
    RestartLoadsDisk(env, RunFrom(env, t, run), boot);
  }

  /**
   Otherwise the wallet is stranded for good: from the first save that succeeds on, through any
   crashes and restarts, it is on disk and no token ever names it, while whoever asks to create
   or restore it is refused.
   */
  lemma FailedSaveStrandsForGood(env: Env, disk: Disk, before: seq<Event>, req: Request, ce: CallEnv,
                                 run: seq<Event>, more: seq<Event>)
    requires Reachable(env, disk, before) && FailsToSave(env, Run(env, disk, before), req, ce)
    requires Crash !in run && SavedIn(env, CallEvents(env, Run(env, disk, before), req, ce), run)
    requires var t := CallEvents(env, Run(env, disk, before), req, ce);
      HonestFrom(env, t, run) && HonestFrom(env, RunFrom(env, t, run), more)
    ensures var t := CallEvents(env, Run(env, disk, before), req, ce);
      var w := RunFrom(env, RunFrom(env, t, run), more);
      && Ungranted(w, RequestKey(req)) && Refused(w, RequestKey(req))
      && (w.mem.Up? ==> !Fresh(w, req) && !BootstrapAllowed(w.mem.wallets.Keys, Some(Scope(req.tenantID, req.walletID))))
  {
    hide Run, Inv, TokenInv, Sound, FaithfulClaims, CallEvents, RunFrom, SavedIn, HonestFrom, HonestRun, KeySet, ValidRequest, ValidDisk, NoGrant;
    RunTokens(env, disk, before);
    var s, key := Run(env, disk, before), RequestKey(req);
    var t := CallEvents(env, s, req, ce);
    AfterCall(env, s, req, ce);
    FailedSaveIsListed(env, s, req, ce);
    RunFromInv(env, t, run);
    RunFromTokens(env, t, run);
    OnDiskIffSaved(env, t, run, key);
    NoGrantWhileListed(env, t, run, key);
    StrandedFrom(env, RunFrom(env, t, run), more, key);
  }

  // ---- It happens ----

  /** A CreateWallet of tenant "a" for which everything works, except perhaps the save. */
  function Creation(walletID: string): Request {
    Request(Create, "a", walletID, ([], []))
  }

  function Outcomes(mnemonic: Bytes, nonce: Sealing.Nonce, write: WriteOutcome): CallEnv {
    CallEnv(Some(mnemonic), Randoms(Some(nonce), Some(nonce)), true, write, true, 0, ("", ""), true)
  }

  lemma CreationReaches(env: Env, s: State, walletID: string, mnemonic: Bytes, nonce: Sealing.Nonce, write: WriteOutcome)
    requires |env.vault.dataKey| == Sealing.KEY_SIZE
    ensures Reaches(env, Creation(walletID), Outcomes(mnemonic, nonce, write))
  {
    hide Sealing.SealString;
    Sealing.SealSucceeds(env.vault.aead, env.vault.dataKey, Some(nonce), mnemonic);
    Sealing.SealSucceeds(env.vault.aead, env.vault.dataKey, Some(nonce), []);
  }

  const NO_FILES := Disk(Absent, Absent)

  /** A new service, started once. */
  lemma StartedEmpty(env: Env, boot: Event)
    requires boot.Boot?
    ensures Run(env, NO_FILES, [boot]) == State(NO_FILES, Up(map[], [], None), boot.settings, {}, [])
    ensures HonestRun(env, NO_FILES, [boot]) && ValidDisk(NO_FILES)
  {
    var run := [boot];
    assert run[..0] == [];
    assert LoadAll(env.vault, [], boot.envs) == Ok(Loaded([], map[], false));
    forall n | 0 <= n < |run| ensures Honest(env, RunFrom(env, Initial(NO_FILES), run[..n]), run[n]) {
      assert run[n] == boot;
      NotRefresh(env, RunFrom(env, Initial(NO_FILES), run[..n]), boot);
    }
  }

  /**
   A new service fails to save wallet "b", crashes and starts again: "b" can be created.
   Or it goes on to create wallet "c": then "b" is on disk with it, and stranded.
   */
  lemma FailedSaveExample(env: Env, boot: Event, mnemonic: Bytes, nonce: Sealing.Nonce) returns (run: seq<Event>)
    requires Sound(env) && FaithfulClaims(env) && |env.vault.dataKey| == Sealing.KEY_SIZE && boot.Boot?
    ensures var s := Run(env, NO_FILES, [boot]);
      var t := CallEvents(env, s, Creation("b"), Outcomes(mnemonic, nonce, Failed));
      && Reachable(env, NO_FILES, [boot])
      && FailsToSave(env, s, Creation("b"), Outcomes(mnemonic, nonce, Failed))
      && Interlude(env, t, [], [boot]) && !SavedIn(env, t, [])
      && Crash !in run && HonestFrom(env, t, run) && SavedIn(env, t, run)
      && var w := RunFrom(env, t, run);
         && Ungranted(w, WalletKey("a", "b"))
         && (boot.settings.authEnabled ==> |w.grants| == 1 && w.grants[0].walletID == "c")
  {
    hide CallEvents, RunFrom, Run, HonestFrom, HonestRun, SavedIn, Inv, TokenInv, Sound, FaithfulClaims, Restarts,
         ValidDisk, KeySet, Step, Record, NoGrant;
    StartedEmpty(env, boot);
    RunTokens(env, NO_FILES, [boot]);
    var s := Run(env, NO_FILES, [boot]);
    var req, ce := Creation("b"), Outcomes(mnemonic, nonce, Failed);
    var req2, ce2 := Creation("c"), Outcomes(mnemonic, nonce, Wrote);
    CreationReaches(env, s, "b", mnemonic, nonce, Failed);
    var t := CallEvents(env, s, req, ce);
    CallEffect(env, s, req, ce);
    RecordKey(env, req, ce);
    AfterCall(env, s, req, ce);
    FailedSaveIsListed(env, s, req, ce);
    RestartEmpty(env, t, boot);
    NothingSaved(env, t);
    CreationReaches(env, t, "c", mnemonic, nonce, Wrote);
    WalletKeyInjective("a", "b", "a", "c");
    CallEffect(env, t, req2, ce2);
    run := CallIsRun(env, t, req2, ce2);
    var w := RunFrom(env, t, run);
    assert w.mem.list == t.mem.list + [Record(env, req2, ce2).value];
    KeySetPrefix(t.mem.list, w.mem.list);
    assert OnDisk(w, RequestKey(req));
    OnDiskIffSaved(env, t, run, RequestKey(req));
    NoGrantWhileListed(env, t, run, RequestKey(req));
  }

  lemma NothingSaved(env: Env, t: State)
    ensures !SavedIn(env, t, [])
  {}

  /** A wallet created while auth is off, at a service that may turn it on later. */
  lemma AuthOffExample(env: Env, boot: Event, mnemonic: Bytes, nonce: Sealing.Nonce)
    requires |env.vault.dataKey| == Sealing.KEY_SIZE && boot.Boot? && !boot.settings.authEnabled
    ensures var s := Run(env, NO_FILES, [boot]);
      && Fresh(s, Creation("b")) && Saved(env, Creation("b"), Outcomes(mnemonic, nonce, Wrote))
      && HonestRun(env, NO_FILES, [boot]) && !s.settings.authEnabled
  {
    hide Run, Record, HonestRun;
    StartedEmpty(env, boot);
    CreationReaches(env, Run(env, NO_FILES, [boot]), "b", mnemonic, nonce, Wrote);
  }

  /** From a service whose disk is still empty, a crash and a start lead back to an empty service. */
  lemma RestartEmpty(env: Env, t: State, boot: Event)
    requires boot.Boot? && t.disk == NO_FILES
    ensures Interlude(env, t, [], [boot])
  {
    var run := [boot];
    var down := Step(env, RunFrom(env, t, []), Crash);
    assert run[..0] == [];
    assert LoadAll(env.vault, [], boot.envs) == Ok(Loaded([], map[], false));
    assert RunFrom(env, down, run) == Step(env, RunFrom(env, down, []), boot);
  }
}
