/**
 The wallet registry across crashes and restarts. CreateWallet and RestoreWallet hold the
 service lock from their check to their answer, so at most one is under way; a crash can
 come between any two of its actions and leaves only the disk: the state file and the
 temporary file that is renamed over it. A run is any sequence of events, with every
 failure of the SDK, the stores and the file system; an event that cannot happen leaves
 the state alone.
 */
module Registry {
  import opened Wrappers
  import opened Base64
  import opened Auth
  import opened Tokens
  import opened Migration

  /** Torn: a file that was only partly written and does not parse. */
  datatype File = Absent | Torn | Whole(metas: seq<Meta>)

  datatype Disk = Disk(state: File, tmp: File)

  datatype Kind = Create | Restore

  /** `secrets` are the mnemonic and passphrase of a restore. */
  datatype Request = Request(kind: Kind, tenantID: string, walletID: string, secrets: (Bytes, Bytes))

  /** How far the call that holds the lock has come. */
  datatype Point = Checked | Built(meta: Meta) | Attached(meta: Meta) | Appended(meta: Meta) | Written(meta: Meta) | Renamed(meta: Meta)

  datatype Job = Job(req: Request, point: Point)

  /** Loading: start-up has migrated records and is saving them, before serving any request. */
  datatype Memory =
    | Down
    | Loading(loaded: Loaded, written: bool)
    | Up(wallets: map<string, Meta>, list: seq<Meta>, call: Option<Job>)

  datatype Origin = Bootstrapped | Refreshed

  /** An access and refresh token pair handed to a client. */
  datatype Grant = Grant(tenantID: string, walletID: string, access: Claims, refresh: Claims, origin: Origin)

  /** What a start may configure anew. */
  datatype Settings = Settings(authEnabled: bool, ttl: Lifetimes)

  /**
   `settings` are those of the last start. `succeeded` and `grants` are history: the wallets
   whose call answered with success, and every pair issued.
   */
  datatype State = State(disk: Disk, mem: Memory, settings: Settings, succeeded: set<string>, grants: seq<Grant>)

  /** What stays the same over all starts: the data key, the token key, and how the SDK names wallets. */
  datatype Env = Env(vault: Vault, keys: Keyring, sdkName: (string, string) -> string)

  /** How a running service authorizes requests. */
  function AuthOf(env: Env, s: State): Config {
    Config(s.settings.authEnabled, env.keys)
  }

  datatype Event =
    | Enter(req: Request)
    | Build(sdk: Option<Bytes>, randoms: Randoms)
    | Attach(attachOk: bool)
    | Append
    | WriteTmp(outcome: WriteOutcome)
    | Rename(renameOk: bool)
    | Finish(now: int, jtis: (string, string), signOk: bool)
    | Refresh(token: string, now: int, jtis: (string, string))
    | Crash
    | Boot(settings: Settings, envs: nat -> RecordEnv)

  function RequestKey(r: Request): string {
    WalletKey(r.tenantID, r.walletID)
  }

  predicate ValidRequest(r: Request) {
    ValidID(r.tenantID) && ValidID(r.walletID) && (r.kind.Restore? ==> r.secrets.0 != [])
  }

  predicate InCall(s: State) {
    s.mem.Up? && s.mem.call.Some?
  }

  /** The call goes on to its next point. */
  function Proceed(s: State, p: Point): State
    requires InCall(s)
  {
    s.(mem := s.mem.(call := Some(s.mem.call.value.(point := p))))
  }

  /** The call answers and releases the lock. */
  function Answer(s: State): State
    requires InCall(s)
  {
    s.(mem := s.mem.(call := None))
  }

  function BuildStep(env: Env, s: State, sdk: Option<Bytes>, randoms: Randoms): State {
    if !InCall(s) || !s.mem.call.value.point.Checked? then s
    else if sdk.None? then Answer(s)
    else
      var r := s.mem.call.value.req;
      var secrets := if r.kind.Create? then (sdk.value, []) else r.secrets;
      match NewMeta(env.vault, r.tenantID, r.walletID, env.sdkName(r.tenantID, r.walletID), secrets, randoms)
      case Err(_) => Answer(s)
      case Ok(meta) => Proceed(s, Built(meta))
  }

  function AttachStep(s: State, ok: bool): State {
    if !InCall(s) || !s.mem.call.value.point.Built? then s
    else if !ok then Answer(s)
    else
      var meta := s.mem.call.value.point.meta;
      var t := Proceed(s, Attached(meta));
      t.(mem := t.mem.(wallets := s.mem.wallets[KeyOf(meta) := meta]))
  }

  function AppendStep(s: State): State {
    if !InCall(s) || !s.mem.call.value.point.Attached? then s
    else
      var meta := s.mem.call.value.point.meta;
      var t := Proceed(s, Appended(meta));
      t.(mem := t.mem.(list := s.mem.list + [meta]))
  }

  function TmpAfter(tmp: File, metas: seq<Meta>, outcome: WriteOutcome): File {
    match outcome
    case Wrote => Whole(metas)
    case Failed => tmp
    case Partly(_) => Torn
  }

  function WriteStep(s: State, outcome: WriteOutcome): State {
    if s.mem.Loading? && !s.mem.written then
      s.(disk := s.disk.(tmp := TmpAfter(s.disk.tmp, s.mem.loaded.metas, outcome)),
         mem := if outcome.Wrote? then s.mem.(written := true) else Down)
    else if InCall(s) && s.mem.call.value.point.Appended? then
      var t := if outcome.Wrote? then Proceed(s, Written(s.mem.call.value.point.meta)) else Answer(s);
      t.(disk := s.disk.(tmp := TmpAfter(s.disk.tmp, s.mem.list, outcome)))
    else s
  }

  function RenameStep(s: State, ok: bool): State {
    if s.mem.Loading? && s.mem.written then
      if ok then s.(disk := Disk(s.disk.tmp, Absent), mem := Up(s.mem.loaded.wallets, s.mem.loaded.metas, None))
      else s.(mem := Down)
    else if InCall(s) && s.mem.call.value.point.Written? then
      if ok then Proceed(s, Renamed(s.mem.call.value.point.meta)).(disk := Disk(s.disk.tmp, Absent))
      else Answer(s)
    else s
  }

  function NewGrant(ttl: Lifetimes, tenantID: string, walletID: string, now: int, jtis: (string, string), origin: Origin): Grant {
    var pair := Issue(tenantID, walletID, now, ttl, jtis);
    Grant(tenantID, walletID, pair.0, pair.1, origin)
  }

  function FinishStep(env: Env, s: State, now: int, jtis: (string, string), signOk: bool): State {
    if !InCall(s) || !s.mem.call.value.point.Renamed? then s
    else
      var r := s.mem.call.value.req;
      if !s.settings.authEnabled then Answer(s).(succeeded := s.succeeded + {RequestKey(r)})
      else if !signOk then Answer(s)
      else
        Answer(s).(succeeded := s.succeeded + {RequestKey(r)},
                   grants := s.grants + [NewGrant(s.settings.ttl, r.tenantID, r.walletID, now, jtis, Bootstrapped)])
  }

  function RefreshStep(env: Env, s: State, token: string, now: int, jtis: (string, string)): State {
    if !s.mem.Up? || !s.settings.authEnabled then s
    else
      match Validate(env.keys, token, "refresh", Unix(now))
      case Err(_) => s
      case Ok(sub) => s.(grants := s.grants + [NewGrant(s.settings.ttl, sub.tenantID, sub.walletID, now, jtis, Refreshed)])
  }

  function DiskList(d: Disk): seq<Meta> {
    if d.state.Whole? then d.state.metas else []
  }

  function BootStep(env: Env, s: State, settings: Settings, envs: nat -> RecordEnv): State {
    if !s.mem.Down? || s.disk.state.Torn? then s
    else
      match LoadAll(env.vault, DiskList(s.disk), envs)
      case Err(_) => s
      case Ok(loaded) =>
        s.(settings := settings,
           mem := if loaded.migrated then Loading(loaded, false) else Up(loaded.wallets, loaded.metas, None))
  }

  function Step(env: Env, s: State, e: Event): State {
    match e
    case Enter(req) =>
      if s.mem.Up? && s.mem.call.None? && ValidRequest(req) && RequestKey(req) !in s.mem.wallets then
        s.(mem := s.mem.(call := Some(Job(req, Checked))))
      else s
    case Build(sdk, randoms) => BuildStep(env, s, sdk, randoms)
    case Attach(ok) => AttachStep(s, ok)
    case Append => AppendStep(s)
    case WriteTmp(outcome) => WriteStep(s, outcome)
    case Rename(ok) => RenameStep(s, ok)
    case Finish(now, jtis, signOk) => FinishStep(env, s, now, jtis, signOk)
    case Refresh(token, now, jtis) => RefreshStep(env, s, token, now, jtis)
    case Crash => s.(mem := Down)
    case Boot(settings, envs) => BootStep(env, s, settings, envs)
  }

  /** A service that has never been started; the settings do not matter until it is. */
  function Initial(disk: Disk): State {
    State(disk, Down, Settings(true, Lifetimes(0, 0)), {}, [])
  }

  /** A run on from any state; the service's own runs start from an initial one. */
  function RunFrom(env: Env, s: State, run: seq<Event>): State {
    if run == [] then s
    else Step(env, RunFrom(env, s, run[..|run| - 1]), run[|run| - 1])
  }

  function Run(env: Env, disk: Disk, run: seq<Event>): State {
    RunFrom(env, Initial(disk), run)
  }

  // ---- Invariants ----

  ghost function KeySet(metas: seq<Meta>): set<string> {
    set i | 0 <= i < |metas| :: KeyOf(metas[i])
  }

  /** The map and the list hold the same records, one per key. */
  ghost predicate InSync(wallets: map<string, Meta>, list: seq<Meta>) {
    && Distinct(list)
    && wallets.Keys == KeySet(list)
    && forall i | 0 <= i < |list| :: wallets[KeyOf(list[i])] == list[i]
  }

  ghost predicate CallInv(disk: Disk, wallets: map<string, Meta>, list: seq<Meta>, c: Job) {
    var key := RequestKey(c.req);
    && ValidRequest(c.req)
    && (!c.point.Checked? ==> KeyOf(c.point.meta) == key)
    && match c.point
       case Checked => InSync(wallets, list) && key !in wallets
       case Built(_) => InSync(wallets, list) && key !in wallets
       case Attached(meta) => key !in KeySet(list) && key in wallets && wallets[key] == meta && InSync(wallets - {key}, list)
       case Appended(meta) => InSync(wallets, list) && list != [] && list[|list| - 1] == meta
       case Written(meta) => InSync(wallets, list) && list != [] && list[|list| - 1] == meta && disk.tmp == Whole(list)
       case Renamed(meta) => InSync(wallets, list) && list != [] && list[|list| - 1] == meta && disk.state == Whole(list)
  }

  /** `b` starts with the wallets of `a`, in order, with the same secrets. */
  ghost predicate Extends(v: Vault, a: seq<Meta>, b: seq<Meta>) {
    && |a| <= |b|
    && forall i | 0 <= i < |a| :: SameWallet(b[i], a[i]) && OpenSecrets(v, b[i]) == OpenSecrets(v, a[i])
  }

  ghost predicate MemInv(env: Env, s: State) {
    match s.mem
    case Down => true
    case Loading(l, written) =>
      && InSync(l.wallets, l.metas)
      && |l.metas| == |DiskList(s.disk)| && Extends(env.vault, DiskList(s.disk), l.metas)
      && (written ==> s.disk.tmp == Whole(l.metas))
    case Up(wallets, list, call) =>
      && DiskList(s.disk) <= list
      && match call
         case None => InSync(wallets, list)
         case Some(c) => CallInv(s.disk, wallets, list, c)
  }

  ghost predicate DiskInv(s: State) {
    && !s.disk.state.Torn?
    && Distinct(DiskList(s.disk))
    && s.succeeded <= KeySet(DiskList(s.disk))
  }

  ghost predicate Inv(env: Env, s: State) {
    DiskInv(s) && MemInv(env, s)
  }

  /** What is assumed of AES-GCM. */
  ghost predicate Sound(env: Env) {
    Sealing.Correct(env.vault.aead)
  }

  // ---- Each event keeps the invariant ----

  lemma KeyIn(list: seq<Meta>, i: nat)
    requires i < |list|
    ensures KeyOf(list[i]) in KeySet(list)
  {}

  lemma KeySetSnoc(list: seq<Meta>, m: Meta)
    ensures KeySet(list + [m]) == KeySet(list) + {KeyOf(m)}
  {
    var longer := list + [m];
    forall k | k in KeySet(list) + {KeyOf(m)} ensures k in KeySet(longer) {
      if k in KeySet(list) {
        var i :| 0 <= i < |list| && KeyOf(list[i]) == k;
        assert longer[i] == list[i];
      } else {
        assert longer[|list|] == m;
      }
    }
    forall k | k in KeySet(longer) ensures k in KeySet(list) + {KeyOf(m)} {
      var i :| 0 <= i < |longer| && KeyOf(longer[i]) == k;
      if i < |list| {
        KeyIn(list, i);
      }
    }
  }

  lemma KeySetPrefix(a: seq<Meta>, b: seq<Meta>)
    requires |a| <= |b| && forall i | 0 <= i < |a| :: SameWallet(b[i], a[i])
    ensures KeySet(a) <= KeySet(b)
  {
    forall k | k in KeySet(a) ensures k in KeySet(b) {
      var i :| 0 <= i < |a| && KeyOf(a[i]) == k;
      KeyIn(b, i);
    }
  }

  lemma InSyncSnoc(wallets: map<string, Meta>, list: seq<Meta>, m: Meta)
    requires InSync(wallets - {KeyOf(m)}, list) && KeyOf(m) !in KeySet(list)
    requires KeyOf(m) in wallets && wallets[KeyOf(m)] == m
    ensures InSync(wallets, list + [m])
  {
    KeySetSnoc(list, m);
    var longer := list + [m];
    assert wallets.Keys == (wallets - {KeyOf(m)}).Keys + {KeyOf(m)};
    forall i | 0 <= i < |list| ensures KeyOf(list[i]) != KeyOf(m) && wallets[KeyOf(list[i])] == list[i] {
      KeyIn(list, i);
      assert (wallets - {KeyOf(m)})[KeyOf(list[i])] == list[i];
    }
    forall i, j | 0 <= i < j < |longer| ensures KeyOf(longer[i]) != KeyOf(longer[j]) {
      if j < |list| {
        assert KeyOf(list[i]) != KeyOf(list[j]);
      }
    }
  }

  lemma EnterKeepsInv(env: Env, s: State, req: Request)
    requires Inv(env, s)
    ensures Inv(env, Step(env, s, Enter(req)))
  {
    hide InSync, Distinct, KeySet, OpenSecrets, Extends, ValidRequest;
  }

  lemma InSyncKeys(wallets: map<string, Meta>, list: seq<Meta>)
    requires InSync(wallets, list)
    ensures wallets.Keys == KeySet(list) && Distinct(list)
  {}

  lemma AnswerKeepsInv(env: Env, s: State)
    requires Inv(env, s) && InCall(s) && !s.mem.call.value.point.Attached?
    ensures Inv(env, Answer(s))
  {
    hide InSync, Distinct, KeySet, OpenSecrets, Extends;
  }

  lemma BuildKeepsInv(env: Env, s: State, sdk: Option<Bytes>, randoms: Randoms)
    requires Sound(env) && Inv(env, s)
    ensures Inv(env, BuildStep(env, s, sdk, randoms))
  {
    hide InSync, Distinct, KeySet, OpenSecrets, Extends, ValidRequest, NewMeta;
    if InCall(s) && s.mem.call.value.point.Checked? {
      AnswerKeepsInv(env, s);
      if sdk.Some? {
        var r := s.mem.call.value.req;
        var secrets := if r.kind.Create? then (sdk.value, []) else r.secrets;
        var made := NewMeta(env.vault, r.tenantID, r.walletID, env.sdkName(r.tenantID, r.walletID), secrets, randoms);
        if made.Ok? {
          NewMetaOpens(env.vault, r.tenantID, r.walletID, env.sdkName(r.tenantID, r.walletID), secrets, randoms);
        }
      }
    }
  }

  lemma AttachKeepsInv(env: Env, s: State, ok: bool)
    requires Inv(env, s)
    ensures Inv(env, AttachStep(s, ok))
  {
    hide InSync, Distinct, KeySet, OpenSecrets, Extends, ValidRequest;
    if InCall(s) && s.mem.call.value.point.Built? {
      AnswerKeepsInv(env, s);
      var meta := s.mem.call.value.point.meta;
      assert s.mem.wallets[KeyOf(meta) := meta] - {KeyOf(meta)} == s.mem.wallets;
      InSyncKeys(s.mem.wallets, s.mem.list);
    }
  }

  lemma AppendKeepsInv(env: Env, s: State)
    requires Inv(env, s)
    ensures Inv(env, AppendStep(s))
  {
    hide InSync, Distinct, KeySet, OpenSecrets, Extends, ValidRequest;
    if InCall(s) && s.mem.call.value.point.Attached? {
      var meta := s.mem.call.value.point.meta;
      InSyncSnoc(s.mem.wallets, s.mem.list, meta);
    }
  }

  lemma WriteKeepsInv(env: Env, s: State, outcome: WriteOutcome)
    requires Inv(env, s)
    ensures Inv(env, WriteStep(s, outcome))
  {
    hide InSync, Distinct, KeySet, OpenSecrets, Extends, ValidRequest;
  }

  /** What a rename puts on disk holds everything that was there, under the same keys and secrets. */
  lemma RenameExtends(env: Env, s: State, ok: bool)
    requires Inv(env, s)
    ensures Extends(env.vault, DiskList(s.disk), DiskList(RenameStep(s, ok).disk))
    ensures Distinct(DiskList(RenameStep(s, ok).disk)) && !RenameStep(s, ok).disk.state.Torn?
  {
    hide KeySet, OpenSecrets, ValidRequest;
  }

  lemma RenameKeepsInv(env: Env, s: State, ok: bool)
    requires Inv(env, s)
    ensures Inv(env, RenameStep(s, ok))
  {
    hide InSync, Distinct, KeySet, OpenSecrets, ValidRequest;
    var t := RenameStep(s, ok);
    RenameExtends(env, s, ok);
    KeySetPrefix(DiskList(s.disk), DiskList(t.disk));
  }

  lemma FinishKeepsInv(env: Env, s: State, now: int, jtis: (string, string), signOk: bool)
    requires Inv(env, s)
    ensures Inv(env, FinishStep(env, s, now, jtis, signOk))
  {
    hide InSync, Distinct, KeySet, OpenSecrets, Extends, ValidRequest;
    if InCall(s) && s.mem.call.value.point.Renamed? {
      KeyIn(s.mem.list, |s.mem.list| - 1);
      assert RequestKey(s.mem.call.value.req) in KeySet(DiskList(s.disk));
    }
  }

  lemma RefreshKeepsInv(env: Env, s: State, token: string, now: int, jtis: (string, string))
    requires Inv(env, s)
    ensures Inv(env, RefreshStep(env, s, token, now, jtis))
  {
    hide InSync, Distinct, KeySet, OpenSecrets, Extends, ValidRequest, Validate, Issue;
  }

  lemma BootKeepsInv(env: Env, s: State, settings: Settings, envs: nat -> RecordEnv)
    requires Sound(env) && Inv(env, s)
    ensures Inv(env, BootStep(env, s, settings, envs))
  {
    hide OpenSecrets;
    var start := DiskList(s.disk);
    if s.mem.Down? && LoadAll(env.vault, start, envs).Ok? {
      MigrationKeepsSecrets(env.vault, start, envs);
      var loaded := LoadAll(env.vault, start, envs).value;
      SameKeysDistinct(start, loaded.metas);
      assert KeySet(loaded.metas) == KeySet(start) by {
        KeySetPrefix(start, loaded.metas);
        KeySetPrefix(loaded.metas, start);
      }
      assert InSync(loaded.wallets, loaded.metas);
    }
  }

  lemma StepKeepsInv(env: Env, s: State, e: Event)
    requires Sound(env) && Inv(env, s)
    ensures Inv(env, Step(env, s, e))
  {
    hide Inv, Sound, BuildStep, AttachStep, AppendStep, WriteStep, RenameStep, FinishStep, RefreshStep, BootStep;
    match e
    case Enter(req) => EnterKeepsInv(env, s, req);
    case Build(sdk, randoms) => BuildKeepsInv(env, s, sdk, randoms);
    case Attach(ok) => AttachKeepsInv(env, s, ok);
    case Append => AppendKeepsInv(env, s);
    case WriteTmp(outcome) => WriteKeepsInv(env, s, outcome);
    case Rename(ok) => RenameKeepsInv(env, s, ok);
    case Finish(now, jtis, signOk) => FinishKeepsInv(env, s, now, jtis, signOk);
    case Refresh(token, now, jtis) => RefreshKeepsInv(env, s, token, now, jtis);
    case Crash => CrashKeepsInv(env, s);
    case Boot(settings, envs) => BootKeepsInv(env, s, settings, envs);
  }

  lemma CrashKeepsInv(env: Env, s: State)
    requires Inv(env, s)
    ensures Inv(env, s.(mem := Down))
  {}

  /** A state file written whole, listing no wallet twice; the temporary file may hold anything. */
  ghost predicate ValidDisk(d: Disk) {
    !d.state.Torn? && Distinct(DiskList(d))
  }

  lemma {:induction false} RunFromInv(env: Env, s: State, run: seq<Event>)
    requires Sound(env) && Inv(env, s)
    ensures Inv(env, RunFrom(env, s, run))
  {
    if run != [] {
      hide Step, Inv, Sound;
      RunFromInv(env, s, run[..|run| - 1]);
      StepKeepsInv(env, RunFrom(env, s, run[..|run| - 1]), run[|run| - 1]);
    }
  }

  lemma RunInv(env: Env, disk: Disk, run: seq<Event>)
    requires Sound(env) && ValidDisk(disk)
    ensures Inv(env, Run(env, disk, run))
  {
    assert Inv(env, Initial(disk));
    RunFromInv(env, Initial(disk), run);
  }

  // ---- Nothing on disk is ever lost ----

  /** Everything a later state still has of an earlier one. */
  ghost predicate Keeps(env: Env, s: State, t: State) {
    && Extends(env.vault, DiskList(s.disk), DiskList(t.disk))
    && s.succeeded <= t.succeeded
    && s.grants <= t.grants
  }

  lemma StepKeeps(env: Env, s: State, e: Event)
    requires Inv(env, s)
    ensures Keeps(env, s, Step(env, s, e))
  {
    if e.Rename? {
      RenameExtends(env, s, e.renameOk);
    }
    hide Inv, OpenSecrets, Validate, NewMeta, LoadAll, Issue;
    match e
    case Rename(ok) =>
      assert RenameStep(s, ok).grants == s.grants;
    case _ =>
      assert DiskList(Step(env, s, e).disk) == DiskList(s.disk);
  }

  lemma KeepsTransitive(env: Env, s: State, t: State, u: State)
    requires Keeps(env, s, t) && Keeps(env, t, u)
    ensures Keeps(env, s, u)
  {
    hide OpenSecrets;
    var a, b, c := DiskList(s.disk), DiskList(t.disk), DiskList(u.disk);
    forall i | 0 <= i < |a| ensures SameWallet(c[i], a[i]) && OpenSecrets(env.vault, c[i]) == OpenSecrets(env.vault, a[i]) {
      assert SameWallet(b[i], a[i]) && SameWallet(c[i], b[i]);
    }
  }

  /**
   Along every run the disk only grows: whatever fails, crashes or restarts come later, the
   wallets on disk stay there, in order, and open to the same secrets.
   */
  lemma {:induction false} DiskOnlyGrows(env: Env, disk: Disk, run: seq<Event>, n: nat)
    requires Sound(env) && ValidDisk(disk) && n <= |run|
    ensures Keeps(env, Run(env, disk, run[..n]), Run(env, disk, run))
  {
    if n == |run| {
      assert run[..n] == run;
    } else {
      hide Step, Inv, Sound, Keeps;
      var before := run[..|run| - 1];
      assert before[..n] == run[..n];
      DiskOnlyGrows(env, disk, before, n);
      RunInv(env, disk, before);
      StepKeeps(env, Run(env, disk, before), run[|run| - 1]);
      KeepsTransitive(env, Run(env, disk, run[..n]), Run(env, disk, before), Run(env, disk, run));
    }
  }

  /**
   A wallet whose CreateWallet or RestoreWallet answered with success is on disk ever after,
   and registered whenever the service is up; a torn file never becomes the state file.
   */
  lemma SuccessIsDurable(env: Env, disk: Disk, run: seq<Event>, n: nat, key: string)
    requires Sound(env) && ValidDisk(disk) && n <= |run|
    requires key in Run(env, disk, run[..n]).succeeded
    ensures var s := Run(env, disk, run);
      && key in KeySet(DiskList(s.disk))
      && (s.mem.Up? ==> key in s.mem.wallets)
      && !s.disk.state.Torn?
  {
    hide OpenSecrets, Sound;
    DiskOnlyGrows(env, disk, run, n);
    RunInv(env, disk, run);
    var s := Run(env, disk, run);
    if s.mem.Up? {
      WalletsCoverDisk(env, s);
    }
  }

  lemma WalletsCoverDisk(env: Env, s: State)
    requires Inv(env, s) && s.mem.Up?
    ensures KeySet(DiskList(s.disk)) <= s.mem.wallets.Keys
  {
    hide KeySet, OpenSecrets, Distinct;
    KeySetPrefix(DiskList(s.disk), s.mem.list);
    if s.mem.call.Some? && s.mem.call.value.point.Attached? {
      var key := RequestKey(s.mem.call.value.req);
      assert (s.mem.wallets - {key}).Keys == KeySet(s.mem.list);
    }
  }

  /**
   Whenever the lock is free, the map and the list hold the same wallets, each once, and the
   list starts with the list on disk.
   */
  lemma RegistryInSync(env: Env, disk: Disk, run: seq<Event>)
    requires Sound(env) && ValidDisk(disk)
    requires Run(env, disk, run).mem.Up? && Run(env, disk, run).mem.call.None?
    ensures var s := Run(env, disk, run);
      && InSync(s.mem.wallets, s.mem.list)
      && DiskList(s.disk) <= s.mem.list
  {
    RunInv(env, disk, run);
  }

  /** A save that succeeds writes every registered wallet. */
  lemma SaveWritesAll(env: Env, disk: Disk, run: seq<Event>)
    requires Sound(env) && ValidDisk(disk)
    requires var s := Run(env, disk, run); InCall(s) && s.mem.call.value.point.Written?
    ensures var t := Step(env, Run(env, disk, run), Rename(true));
      DiskList(t.disk) == t.mem.list && KeySet(DiskList(t.disk)) == t.mem.wallets.Keys
  {
    RunInv(env, disk, run);
    hide Run, KeySet, Distinct, OpenSecrets, ValidRequest, KeyOf;
  }
}
