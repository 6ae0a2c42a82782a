/**
 The token pairs the service hands out, over every run of the registry: which wallets they
 name, how many are issued at bootstrap, and what a chain of refreshes can reach. The one
 assumption on presented tokens is that a MAC verifies only over text the service signed.
 */
module Grants {
  import opened Wrappers
  import opened Auth
  import opened Tokens
  import opened Migration
  import opened Registry

  ghost predicate NeverBootstrapped(grants: seq<Grant>, key: string) {
    forall g | g in grants && g.origin.Bootstrapped? :: WalletKey(g.tenantID, g.walletID) != key
  }

  /** Both tokens of a pair name the wallet of the pair, each with its own type. */
  ghost predicate ProperPair(g: Grant) {
    && g.access.tenantID == g.tenantID && g.access.walletID == g.walletID && g.access.typ == "access"
    && g.refresh.tenantID == g.tenantID && g.refresh.walletID == g.walletID && g.refresh.typ == "refresh"
  }

  ghost predicate SameOwner(a: Grant, b: Grant) {
    a.tenantID == b.tenantID && a.walletID == b.walletID
  }

  ghost predicate UniqueBootstraps(grants: seq<Grant>) {
    forall i, j | 0 <= i < j < |grants| && grants[i].origin.Bootstrapped? && grants[j].origin.Bootstrapped? ::
      WalletKey(grants[i].tenantID, grants[i].walletID) != WalletKey(grants[j].tenantID, grants[j].walletID)
  }

  /** Every pair goes back to one issued when its wallet was created or restored. */
  ghost predicate Rooted(grants: seq<Grant>, i: nat)
    requires i < |grants|
  {
    exists j :: 0 <= j <= i && grants[j].origin.Bootstrapped? && SameOwner(grants[j], grants[i])
  }

  ghost predicate GrantInv(grants: seq<Grant>) {
    && (forall g | g in grants :: ProperPair(g))
    && UniqueBootstraps(grants)
    && (forall i | 0 <= i < |grants| :: Rooted(grants, i))
  }

  ghost predicate TokenInv(s: State) {
    && GrantInv(s.grants)
    && (forall g | g in s.grants :: WalletKey(g.tenantID, g.walletID) in KeySet(DiskList(s.disk)))
    && (InCall(s) ==> NeverBootstrapped(s.grants, RequestKey(s.mem.call.value.req)))
  }

  /** Every claims set the service has signed. */
  ghost function Signed(grants: seq<Grant>): set<Claims> {
    (set g | g in grants :: g.access) + (set g | g in grants :: g.refresh)
  }

  /** The assumption on a refresh request: its token verifies only if the service signed it. */
  ghost predicate Honest(env: Env, s: State, e: Event) {
    e.Refresh? ==> Unforged(env.keys, Signed(s.grants), e.token)
  }

  ghost predicate HonestFrom(env: Env, s: State, run: seq<Event>) {
    forall n | 0 <= n < |run| :: Honest(env, RunFrom(env, s, run[..n]), run[n])
  }

  ghost predicate HonestRun(env: Env, disk: Disk, run: seq<Event>) {
    HonestFrom(env, Initial(disk), run)
  }

  /** What is assumed of JSON, for every claims set. */
  ghost predicate FaithfulClaims(env: Env) {
    forall c :: Faithful(env.keys, c)
  }

  lemma UniqueSnoc(grants: seq<Grant>, g: Grant)
    requires UniqueBootstraps(grants)
    requires g.origin.Bootstrapped? ==> NeverBootstrapped(grants, WalletKey(g.tenantID, g.walletID))
    ensures UniqueBootstraps(grants + [g])
  {
    hide WalletKey;
    var more := grants + [g];
    assert forall i | 0 <= i < |grants| :: more[i] == grants[i] && grants[i] in grants;
  }

  lemma RootedStays(grants: seq<Grant>, g: Grant, i: nat)
    requires i < |grants| && Rooted(grants, i)
    ensures Rooted(grants + [g], i)
  {
    var j :| 0 <= j <= i && grants[j].origin.Bootstrapped? && SameOwner(grants[j], grants[i]);
    assert (grants + [g])[j] == grants[j];
  }

  lemma RootedSnoc(grants: seq<Grant>, g: Grant, k: nat)
    requires g.origin.Refreshed? ==> k < |grants| && Rooted(grants, k) && SameOwner(grants[k], g)
    ensures Rooted(grants + [g], |grants|)
  {
    var more := grants + [g];
    if g.origin.Bootstrapped? {
      assert SameOwner(more[|grants|], more[|grants|]);
    } else {
      var j :| 0 <= j <= k && grants[j].origin.Bootstrapped? && SameOwner(grants[j], grants[k]);
      assert more[j] == grants[j] && SameOwner(more[j], g);
    }
  }

  lemma GrantsSnoc(grants: seq<Grant>, g: Grant, k: nat)
    requires GrantInv(grants) && ProperPair(g)
    requires g.origin.Bootstrapped? ==> NeverBootstrapped(grants, WalletKey(g.tenantID, g.walletID))
    requires g.origin.Refreshed? ==> k < |grants| && SameOwner(grants[k], g)
    ensures GrantInv(grants + [g])
  {
    hide ProperPair, UniqueBootstraps, Rooted, NeverBootstrapped;
    UniqueSnoc(grants, g);
    RootedSnoc(grants, g, k);
    forall i | 0 <= i < |grants| ensures Rooted(grants + [g], i) {
      RootedStays(grants, g, i);
    }
  }

  /** A refresh answers for the wallet of a refresh token the service signed. */
  lemma RefreshSource(env: Env, s: State, token: string, now: int) returns (k: nat)
    requires FaithfulClaims(env) && GrantInv(s.grants)
    requires Unforged(env.keys, Signed(s.grants), token)
    requires Validate(env.keys, token, "refresh", Unix(now)).Ok?
    ensures k < |s.grants| && Unix(now) < s.grants[k].refresh.exp
    ensures Validate(env.keys, token, "refresh", Unix(now))
         == Ok(Subject(s.grants[k].tenantID, s.grants[k].walletID, "refresh"))
  {
    hide Validate, Unforged, UniqueBootstraps, Rooted;
    var c := OnlySignedClaims(env.keys, Signed(s.grants), token, "refresh", Unix(now));
    assert |"access"| != |"refresh"|;
    assert forall h | h in s.grants :: h.access != c;
    var g :| g in s.grants && g.refresh == c;
    k :| k < |s.grants| && s.grants[k] == g;
  }

  lemma RefreshKeepsTokens(env: Env, s: State, token: string, now: int, jtis: (string, string))
    requires FaithfulClaims(env) && TokenInv(s) && Honest(env, s, Refresh(token, now, jtis))
    ensures TokenInv(RefreshStep(env, s, token, now, jtis))
  {
    hide KeySet, GrantInv, Validate, WalletKey;
    var t := RefreshStep(env, s, token, now, jtis);
    if t.grants != s.grants {
      var k := RefreshSource(env, s, token, now);
      var made := NewGrant(s.settings.ttl, s.grants[k].tenantID, s.grants[k].walletID, now, jtis, Refreshed);
      assert t.grants == s.grants + [made] && SameOwner(s.grants[k], made);
      assert s.grants[k] in s.grants;
      GrantsSnoc(s.grants, made, k);
    }
  }

  lemma EnterKeepsTokens(env: Env, s: State, req: Request)
    requires Inv(env, s) && TokenInv(s)
    ensures TokenInv(Step(env, s, Enter(req)))
  {
    hide InSync, Distinct, GrantInv, KeySet, OpenSecrets, Extends, ValidRequest;
    if Step(env, s, Enter(req)) != s {
      KeySetPrefix(DiskList(s.disk), s.mem.list);
      InSyncKeys(s.mem.wallets, s.mem.list);
    }
  }

  lemma FinishKeepsTokens(env: Env, s: State, now: int, jtis: (string, string), signOk: bool)
    requires Inv(env, s) && TokenInv(s)
    ensures TokenInv(FinishStep(env, s, now, jtis, signOk))
  {
    hide InSync, Distinct, KeySet, OpenSecrets, Extends, ValidRequest, GrantInv, KeyOf, WalletKey;
    var t := FinishStep(env, s, now, jtis, signOk);
    if t.grants != s.grants {
      var r := s.mem.call.value.req;
      KeyIn(s.mem.list, |s.mem.list| - 1);
      assert RequestKey(r) in KeySet(DiskList(s.disk));
      GrantsSnoc(s.grants, NewGrant(s.settings.ttl, r.tenantID, r.walletID, now, jtis, Bootstrapped), 0);
    }
  }

  lemma RenameKeepsTokens(env: Env, s: State, ok: bool)
    requires Inv(env, s) && TokenInv(s)
    ensures TokenInv(RenameStep(s, ok))
  {
    hide KeySet, GrantInv, Inv, OpenSecrets;
    RenameExtends(env, s, ok);
    KeySetPrefix(DiskList(s.disk), DiskList(RenameStep(s, ok).disk));
  }

  lemma StepKeepsTokens(env: Env, s: State, e: Event)
    requires FaithfulClaims(env) && Inv(env, s) && TokenInv(s) && Honest(env, s, e)
    ensures TokenInv(Step(env, s, e))
  {
    hide Inv, FaithfulClaims, Honest, KeySet, GrantInv, NewMeta, LoadAll, FinishStep, RefreshStep, RenameStep, ValidRequest;
    match e
    case Enter(req) => EnterKeepsTokens(env, s, req);
    case Rename(ok) => RenameKeepsTokens(env, s, ok);
    case Finish(now, jtis, signOk) => FinishKeepsTokens(env, s, now, jtis, signOk);
    case Refresh(token, now, jtis) => RefreshKeepsTokens(env, s, token, now, jtis);
    case _ =>
  }

  lemma HonestFront(env: Env, s: State, run: seq<Event>)
    requires run != [] && HonestFrom(env, s, run)
    ensures HonestFrom(env, s, run[..|run| - 1])
    ensures Honest(env, RunFrom(env, s, run[..|run| - 1]), run[|run| - 1])
  {
    var front := run[..|run| - 1];
    forall n | 0 <= n < |front| ensures Honest(env, RunFrom(env, s, front[..n]), front[n]) {
      assert front[..n] == run[..n];
    }
  }

  lemma {:induction false} RunFromTokens(env: Env, s: State, run: seq<Event>)
    requires Sound(env) && FaithfulClaims(env) && Inv(env, s) && TokenInv(s) && HonestFrom(env, s, run)
    ensures TokenInv(RunFrom(env, s, run))
  {
    if run != [] {
      hide Step, Inv, Sound, Honest, HonestFrom, FaithfulClaims, TokenInv;
      HonestFront(env, s, run);
      RunFromInv(env, s, run[..|run| - 1]);
      RunFromTokens(env, s, run[..|run| - 1]);
      StepKeepsTokens(env, RunFrom(env, s, run[..|run| - 1]), run[|run| - 1]);
    }
  }

  lemma RunTokens(env: Env, disk: Disk, run: seq<Event>)
    requires Sound(env) && FaithfulClaims(env) && ValidDisk(disk) && HonestRun(env, disk, run)
    ensures TokenInv(Run(env, disk, run)) && Inv(env, Run(env, disk, run))
  {
    RunInv(env, disk, []);
    RunInv(env, disk, run);
    RunFromTokens(env, Initial(disk), run);
  }

  // ---- The pairs themselves ----

  const SECOND := 1_000_000_000

  /** The pair for a wallet issued at `now`, spelled out: times are whole seconds, rounded down. */
  predicate PairFor(g: Grant, tenantID: string, walletID: string, now: int, ttl: Lifetimes, jtis: (string, string)) {
    var sub := tenantID + ":" + walletID;
    && g.tenantID == tenantID && g.walletID == walletID
    && g.access == Claims(sub, tenantID, walletID, "access", now / SECOND, (now + ttl.access) / SECOND, jtis.0)
    && g.refresh == Claims(sub, tenantID, walletID, "refresh", now / SECOND, (now + ttl.refresh) / SECOND, jtis.1)
  }

  lemma NewGrantIsPair(ttl: Lifetimes, tenantID: string, walletID: string, now: int, jtis: (string, string), origin: Origin)
    ensures PairFor(NewGrant(ttl, tenantID, walletID, now, jtis, origin), tenantID, walletID, now, ttl, jtis)
    ensures NewGrant(ttl, tenantID, walletID, now, jtis, origin).origin == origin
  {}

  /** What a pair is good for: each token for its own use, until the whole second in which its lifetime ends. */
  ghost predicate Serves(k: Keyring, g: Grant, now: int, ttl: Lifetimes, at: int) {
    && (Validate(k, Sign(k, g.access), "access", at / SECOND) == Ok(Subject(g.tenantID, g.walletID, "access"))
        <==> at / SECOND < (now + ttl.access) / SECOND)
    && (Validate(k, Sign(k, g.refresh), "refresh", at / SECOND) == Ok(Subject(g.tenantID, g.walletID, "refresh"))
        <==> at / SECOND < (now + ttl.refresh) / SECOND)
    && Validate(k, Sign(k, g.access), "refresh", at / SECOND) == Err(WrongType)
    && Validate(k, Sign(k, g.refresh), "access", at / SECOND) == Err(WrongType)
  }

  lemma PairServes(k: Keyring, g: Grant, tenantID: string, walletID: string, now: int, ttl: Lifetimes, jtis: (string, string), at: int)
    requires PairFor(g, tenantID, walletID, now, ttl, jtis) && tenantID != "" && walletID != ""
    requires Faithful(k, g.access) && Faithful(k, g.refresh)
    ensures Serves(k, g, now, ttl, at)
  {
    hide Validate, Sign, Faithful;
    ValidateSigned(k, g.access, "access", at / SECOND);
    ValidateSigned(k, g.access, "refresh", at / SECOND);
    ValidateSigned(k, g.refresh, "refresh", at / SECOND);
    ValidateSigned(k, g.refresh, "access", at / SECOND);
  }

  /** What one event issues. */
  lemma StepIssues(env: Env, s: State, e: Event)
    requires Inv(env, s)
    ensures var t := Step(env, s, e);
      t.grants == s.grants ||
      (&& (e.Finish? || e.Refresh?) && |t.grants| == |s.grants| + 1 && s.grants <= t.grants
       && var g := t.grants[|s.grants|];
          && PairFor(g, g.tenantID, g.walletID, e.now, s.settings.ttl, e.jtis)
          && g.tenantID != "" && g.walletID != "" && (g.origin.Bootstrapped? <==> e.Finish?)
          && (e.Finish? ==> InCall(s) && RequestKey(s.mem.call.value.req) == WalletKey(g.tenantID, g.walletID)))
  {
    hide InSync, KeySet, Distinct, OpenSecrets, Extends, NewMeta, LoadAll, PairFor, NewGrant, WalletKey;
    match e
    case Finish(now, jtis, signOk) =>
      if InCall(s) {
        var r := s.mem.call.value.req;
        NewGrantIsPair(s.settings.ttl, r.tenantID, r.walletID, now, jtis, Bootstrapped);
        NewGrantOwner(s.settings.ttl, r.tenantID, r.walletID, now, jtis, Bootstrapped);
      }
    case Refresh(token, now, jtis) =>
      match Validate(env.keys, token, "refresh", Unix(now)) {
        case Ok(sub) =>
          NewGrantIsPair(s.settings.ttl, sub.tenantID, sub.walletID, now, jtis, Refreshed);
          NewGrantOwner(s.settings.ttl, sub.tenantID, sub.walletID, now, jtis, Refreshed);
        case Err(_) =>
      }
    case _ =>
  }

  lemma NewGrantOwner(ttl: Lifetimes, tenantID: string, walletID: string, now: int, jtis: (string, string), origin: Origin)
    ensures var g := NewGrant(ttl, tenantID, walletID, now, jtis, origin); g.tenantID == tenantID && g.walletID == walletID
  {}

  // ---- Main results ----

  /**
   Every pair issued in a run, at a bootstrap or by a refresh: its claims, and exactly how long
   each token serves its wallet, by the time of the event and the settings of that start.
   */
  lemma PairsServe(env: Env, disk: Disk, run: seq<Event>, n: nat, at: int)
    requires Sound(env) && FaithfulClaims(env) && ValidDisk(disk) && n < |run|
    ensures var s, t := Run(env, disk, run[..n]), Run(env, disk, run[..n + 1]);
      t.grants == s.grants ||
      (&& (run[n].Finish? || run[n].Refresh?) && |t.grants| == |s.grants| + 1 && s.grants <= t.grants
       && var g := t.grants[|s.grants|];
          && PairFor(g, g.tenantID, g.walletID, run[n].now, s.settings.ttl, run[n].jtis)
          && Serves(env.keys, g, run[n].now, s.settings.ttl, at))
  {
    hide Step, Inv, PairFor, Serves, Sound, ValidDisk;
    var s, t := Run(env, disk, run[..n]), Run(env, disk, run[..n + 1]);
    assert run[..n + 1][..n] == run[..n];
    RunInv(env, disk, run[..n]);
    StepIssues(env, s, run[n]);
    if t.grants != s.grants {
      var g := t.grants[|s.grants|];
      PairServes(env.keys, g, g.tenantID, g.walletID, run[n].now, s.settings.ttl, run[n].jtis, at);
    }
  }

  /**
   Every token pair names a wallet on disk, for which each of its two tokens is good for its
   own use only; however many bootstrap requests race and however often the service restarts,
   with whatever settings, creating and restoring issue at most one pair per wallet; and every
   other pair descends from that one, for the same tenant and wallet.
   */
  lemma TokensFollowWallets(env: Env, disk: Disk, run: seq<Event>)
    requires Sound(env) && FaithfulClaims(env) && ValidDisk(disk) && HonestRun(env, disk, run)
    ensures var s := Run(env, disk, run);
      && (forall g | g in s.grants :: WalletKey(g.tenantID, g.walletID) in KeySet(DiskList(s.disk)) && ProperPair(g))
      && UniqueBootstraps(s.grants)
      && (forall i | 0 <= i < |s.grants| :: Rooted(s.grants, i))
  {
    RunTokens(env, disk, run);
  }

  lemma RefreshOutcome(env: Env, s: State, token: string, now: int, jtis: (string, string))
    requires FaithfulClaims(env) && GrantInv(s.grants) && Honest(env, s, Refresh(token, now, jtis))
    ensures var t := RefreshStep(env, s, token, now, jtis);
      if s.mem.Up? && s.settings.authEnabled && Validate(env.keys, token, "refresh", Unix(now)).Ok? then
        && |t.grants| == |s.grants| + 1
        && exists k :: 0 <= k < |s.grants| && Unix(now) < s.grants[k].refresh.exp && SameOwner(t.grants[|s.grants|], s.grants[k])
      else t == s
  {
    hide Validate, GrantInv, FaithfulClaims;
    if s.mem.Up? && s.settings.authEnabled && Validate(env.keys, token, "refresh", Unix(now)).Ok? {
      var k := RefreshSource(env, s, token, now);
      assert SameOwner(RefreshStep(env, s, token, now, jtis).grants[|s.grants|], s.grants[k]);
    }
  }

  /**
   In every run, a refresh issues a new pair exactly when auth is on and its token validates as
   a refresh token, and then for the tenant and wallet of an unexpired refresh token issued before.
   */
  lemma RefreshKeepsIdentity(env: Env, disk: Disk, run: seq<Event>, token: string, now: int, jtis: (string, string))
    requires Sound(env) && FaithfulClaims(env) && ValidDisk(disk) && HonestRun(env, disk, run)
    requires Honest(env, Run(env, disk, run), Refresh(token, now, jtis))
    ensures var s, t := Run(env, disk, run), RefreshStep(env, Run(env, disk, run), token, now, jtis);
      if s.mem.Up? && s.settings.authEnabled && Validate(env.keys, token, "refresh", Unix(now)).Ok? then
        && |t.grants| == |s.grants| + 1
        && exists k :: 0 <= k < |s.grants| && Unix(now) < s.grants[k].refresh.exp && SameOwner(t.grants[|s.grants|], s.grants[k])
      else t == s
  {
    hide Run, Honest, Validate, RefreshStep, GrantInv, HonestRun;
    RunTokens(env, disk, run);
    RefreshOutcome(env, Run(env, disk, run), token, now, jtis);
  }

  /**
   Once a wallet has been issued tokens, an anonymous CreateWallet or RestoreWallet for it is
   refused whenever the service is up with auth on, after any crashes and restarts, also with
   auth off in between.
   */
  lemma BootstrapClosed(env: Env, disk: Disk, run: seq<Event>, g: Grant, name: string, now: int)
    requires Sound(env) && FaithfulClaims(env) && ValidDisk(disk) && HonestRun(env, disk, run)
    requires !IsRefreshMethod(name)
    requires var s := Run(env, disk, run); s.mem.Up? && s.settings.authEnabled && g in s.grants
    ensures var s := Run(env, disk, run);
      Authorize(AuthOf(env, s), s.mem.wallets.Keys, now, Call(name, Some(Scope(g.tenantID, g.walletID)), None)) == Err(MissingMetadata)
  {
    hide HonestRun, Run, GrantInv, KeySet, Inv;
    RunTokens(env, disk, run);
    RunInv(env, disk, run);
    WalletsCoverDisk(env, Run(env, disk, run));
  }
}
