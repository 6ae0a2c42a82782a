/**
 CreateWallet, RestoreWallet and start-up as whole calls (service.go), each proved to be
 its sequence of registry events. What the SDK, the stores and the file system answer
 during a call comes in as a `CallEnv` or `StartEnv`.
 */
module Service {
  import opened Wrappers
  import opened Base64
  import opened Auth
  import opened Tokens
  import opened Migration
  import opened Registry
  import opened Grants

  /** `sdk` is the mnemonic of a new SDK wallet (any value for a restore), or absent when the SDK fails. */
  datatype CallEnv = CallEnv(
    sdk: Option<Bytes>,
    randoms: Randoms,
    attachOk: bool,
    write: WriteOutcome,
    renameOk: bool,
    now: int,
    jtis: (string, string),
    signOk: bool)

  /** A CreateWallet answers with the mnemonic of the new wallet too. */
  datatype Response = InvalidArgument | AlreadyExists | Internal | Success(mnemonic: Option<Bytes>, tokens: Option<Grant>)

  /** The events of one call that is not interrupted; those after its answer do nothing. */
  function CallEvents(env: Env, s: State, req: Request, ce: CallEnv): State {
    var entered := Step(env, s, Enter(req));
    var built := BuildStep(env, entered, ce.sdk, ce.randoms);
    var attached := AttachStep(built, ce.attachOk);
    var appended := AppendStep(attached);
    var written := WriteStep(appended, ce.write);
    var renamed := RenameStep(written, ce.renameOk);
    FinishStep(env, renamed, ce.now, ce.jtis, ce.signOk)
  }

  /** The record the call would register. */
  function Record(env: Env, req: Request, ce: CallEnv): Result<Meta, ()> {
    if ce.sdk.None? then Err(())
    else
      match NewMeta(env.vault, req.tenantID, req.walletID, env.sdkName(req.tenantID, req.walletID), WalletSecrets(req, ce), ce.randoms)
      case Err(_) => Err(())
      case Ok(meta) => Ok(meta)
  }

  predicate Fresh(s: State, req: Request) {
    s.mem.Up? && s.mem.call.None? && ValidRequest(req) && RequestKey(req) !in s.mem.wallets
  }

  predicate Reaches(env: Env, req: Request, ce: CallEnv) {
    Record(env, req, ce).Ok? && ce.attachOk
  }

  predicate Saved(env: Env, req: Request, ce: CallEnv) {
    Reaches(env, req, ce) && ce.write.Wrote? && ce.renameOk
  }

  predicate Succeeds(env: Env, settings: Settings, req: Request, ce: CallEnv) {
    Saved(env, req, ce) && (!settings.authEnabled || ce.signOk)
  }

  lemma BuildMakesRecord(env: Env, s: State, req: Request, ce: CallEnv)
    requires Fresh(s, req)
    ensures var entered := Step(env, s, Enter(req));
      BuildStep(env, entered, ce.sdk, ce.randoms)
      == if Record(env, req, ce).Ok? then Proceed(entered, Built(Record(env, req, ce).value)) else Answer(entered)
  {
    hide NewMeta, ValidRequest;
  }

  /**
   Exactly when a call that passed its checks succeeds: the SDK makes the wallet, its mnemonic and
   passphrase can be sealed, its store opens, the save works, and with auth on the signing too.
   */
  lemma SucceedsExact(env: Env, settings: Settings, req: Request, ce: CallEnv)
    ensures Succeeds(env, settings, req, ce) <==>
      && ce.sdk.Some? && ce.attachOk && ce.write.Wrote? && ce.renameOk && (settings.authEnabled ==> ce.signOk)
      && (if req.kind.Create? then CanSeal(env.vault, ce.sdk.value, ce.randoms.mnemonic)
          else CanSeal(env.vault, req.secrets.0, ce.randoms.mnemonic) && CanSeal(env.vault, req.secrets.1, ce.randoms.passphrase))
  {
    hide NewMeta, CanSeal;
    if ce.sdk.Some? {
      NewMetaSucceeds(env.vault, req.tenantID, req.walletID, env.sdkName(req.tenantID, req.walletID), WalletSecrets(req, ce), ce.randoms);
      NothingToSeal(env.vault, ce.randoms.passphrase);
    }
  }

  lemma NothingToSeal(v: Vault, nonce: Option<Sealing.Nonce>)
    ensures CanSeal(v, [], nonce)
  {}

  /** Up to its save, a call either has attached and listed its wallet or has failed and left no trace. */
  lemma CallPrepares(env: Env, s: State, req: Request, ce: CallEnv)
    requires Fresh(s, req)
    ensures AppendStep(AttachStep(BuildStep(env, Step(env, s, Enter(req)), ce.sdk, ce.randoms), ce.attachOk))
         == if Reaches(env, req, ce) then
              var meta := Record(env, req, ce).value;
              s.(mem := Up(s.mem.wallets[KeyOf(meta) := meta], s.mem.list + [meta], Some(Job(req, Appended(meta)))))
            else s
  {
    hide NewMeta, ValidRequest, Record, BuildStep, KeyOf;
    BuildMakesRecord(env, s, req, ce);
  }

  lemma CallSaves(env: Env, s: State, ce: CallEnv)
    requires InCall(s) && s.mem.call.value.point.Appended?
    ensures var t := FinishStep(env, RenameStep(WriteStep(s, ce.write), ce.renameOk), ce.now, ce.jtis, ce.signOk);
      var r, saved := s.mem.call.value.req, ce.write.Wrote? && ce.renameOk;
      var succeeds := saved && (!s.settings.authEnabled || ce.signOk);
      && t.settings == s.settings && t.mem == s.mem.(call := None)
      && t.disk == (if saved then Disk(Whole(s.mem.list), Absent) else s.disk.(tmp := TmpAfter(s.disk.tmp, s.mem.list, ce.write)))
      && t.succeeded == (if succeeds then s.succeeded + {RequestKey(r)} else s.succeeded)
      && t.grants == (if succeeds && s.settings.authEnabled then
                        s.grants + [NewGrant(s.settings.ttl, r.tenantID, r.walletID, ce.now, ce.jtis, Bootstrapped)]
                      else s.grants)
  {
    hide NewGrant, RequestKey;
  }

  /** When no call holds the lock, the last three events do nothing. */
  lemma NothingLeft(env: Env, s: State, ce: CallEnv)
    requires s.mem.Up? && s.mem.call.None?
    ensures FinishStep(env, RenameStep(WriteStep(s, ce.write), ce.renameOk), ce.now, ce.jtis, ce.signOk) == s
  {}

  /** What a call leaves behind, by how far it got. */
  lemma CallEffect(env: Env, s: State, req: Request, ce: CallEnv)
    requires Fresh(s, req)
    ensures var t := CallEvents(env, s, req, ce);
      && t.settings == s.settings
      && t.mem == (if Reaches(env, req, ce) then
                     var meta := Record(env, req, ce).value;
                     Up(s.mem.wallets[KeyOf(meta) := meta], s.mem.list + [meta], None)
                   else s.mem)
      && t.disk == (if Saved(env, req, ce) then Disk(Whole(t.mem.list), Absent)
                    else if Reaches(env, req, ce) then s.disk.(tmp := TmpAfter(s.disk.tmp, t.mem.list, ce.write))
                    else s.disk)
      && t.succeeded == (if Succeeds(env, s.settings, req, ce) then s.succeeded + {RequestKey(req)} else s.succeeded)
      && t.grants == (if Succeeds(env, s.settings, req, ce) && s.settings.authEnabled then
                        s.grants + [NewGrant(s.settings.ttl, req.tenantID, req.walletID, ce.now, ce.jtis, Bootstrapped)]
                      else s.grants)
  {
    hide ValidRequest, Record, BuildStep, AttachStep, AppendStep, WriteStep, RenameStep, FinishStep, NewGrant, TmpAfter, KeyOf, WalletKey, Step;
    CallPrepares(env, s, req, ce);
    if Reaches(env, req, ce) {
      var meta := Record(env, req, ce).value;
      CallSaves(env, s.(mem := Up(s.mem.wallets[KeyOf(meta) := meta], s.mem.list + [meta], Some(Job(req, Appended(meta))))), ce);
    } else {
      NothingLeft(env, s, ce);
    }
  }

  lemma RecordKey(env: Env, req: Request, ce: CallEnv)
    requires Record(env, req, ce).Ok?
    ensures KeyOf(Record(env, req, ce).value) == RequestKey(req)
  {
    hide Sealing.SealString;
  }

  /** The mnemonic and passphrase of the wallet a call makes. */
  function WalletSecrets(req: Request, ce: CallEnv): (Bytes, Bytes)
    requires ce.sdk.Some?
  {
    if req.kind.Create? then (ce.sdk.value, []) else req.secrets
  }

  /** A saved call leaves its wallet last on disk, sealed, under its own ids, opening to the requested secrets. */
  lemma SavedRecordOpens(env: Env, s: State, req: Request, ce: CallEnv)
    requires Sound(env) && Fresh(s, req) && Saved(env, req, ce)
    ensures var t := CallEvents(env, s, req, ce);
      var disk := DiskList(t.disk);
      && disk != []
      && var m := disk[|disk| - 1];
         m.tenantID == req.tenantID && m.walletID == req.walletID && m.sdkName == env.sdkName(req.tenantID, req.walletID)
         && m.mnemonic == [] && m.passphrase == []
         && OpenSecrets(env.vault, m) == Ok(if req.kind.Create? then (ce.sdk.value, []) else req.secrets)
  {
    hide CallEvents, ValidRequest, NewMeta, OpenSecrets;
    CallEffect(env, s, req, ce);
    NewMetaOpens(env.vault, req.tenantID, req.walletID, env.sdkName(req.tenantID, req.walletID), WalletSecrets(req, ce), ce.randoms);
  }

  /**
   A call that fails does not always leave the registry as it found it: it does exactly when
   it failed before the wallet was attached. A failed save or signing comes after that.
   */
  lemma FailedCallRollsBack(env: Env, s: State, req: Request, ce: CallEnv)
    requires Fresh(s, req) && !Succeeds(env, s.settings, req, ce)
    ensures CallEvents(env, s, req, ce).mem == s.mem <==> !Reaches(env, req, ce)
  {
    hide CallEvents, Record, ValidRequest;
    CallEffect(env, s, req, ce);
    var t := CallEvents(env, s, req, ce);
    assert Reaches(env, req, ce) ==> |t.mem.list| == |s.mem.list| + 1;
  }

  /**
   After a failed save the wallet is registered in memory but neither on disk nor granted any
   token, and every retry is turned away and changes nothing.
   */
  lemma FailedSaveStrandsWallet(env: Env, s: State, req: Request, ce: CallEnv, again: CallEnv)
    requires Inv(env, s) && Fresh(s, req) && Reaches(env, req, ce) && !Saved(env, req, ce)
    ensures var t := CallEvents(env, s, req, ce);
      && RequestKey(req) in t.mem.wallets
      && RequestKey(req) !in KeySet(DiskList(t.disk))
      && t.grants == s.grants && t.succeeded == s.succeeded
      && CallEvents(env, t, req, again) == t
      && !BootstrapAllowed(t.mem.wallets.Keys, Some(Scope(req.tenantID, req.walletID)))
  {
    hide Record, Inv, KeySet, ValidRequest;
    RecordKey(env, req, ce);
    CallEffect(env, s, req, ce);
    WalletsCoverDisk(env, s);
    assert DiskList(CallEvents(env, s, req, ce).disk) == DiskList(s.disk);
  }

  // ---- The service object ----

  datatype RefreshError = AuthDisabled | Rejected(cause: TokenError)

  /** The tokens of a successful call: none with auth off, otherwise the wallet's first pair. */
  predicate Answers(tokens: Option<Grant>, settings: Settings, tenantID: string, walletID: string, ce: CallEnv) {
    if settings.authEnabled then
      tokens.Some? && tokens.value.origin == Bootstrapped && PairFor(tokens.value, tenantID, walletID, ce.now, settings.ttl, ce.jtis)
    else tokens == None
  }

  lemma SubjectType(k: Keyring, token: string, now: int)
    ensures Validate(k, token, "refresh", Unix(now)).Ok? ==> Validate(k, token, "refresh", Unix(now)).value.typ == "refresh"
  {}

  class DiskFiles {
    var state: File
    var tmp: File

    function View(): Disk
      reads this
    {
      Disk(state, tmp)
    }

    constructor (state: File, tmp: File)
      ensures this.state == state && this.tmp == tmp
    {
      this.state, this.tmp := state, tmp;
    }

    /** Writes the temporary file, then renames it over the state file. */
    method SaveState(list: seq<Meta>, outcome: WriteOutcome, renameOk: bool) returns (ok: bool)
      modifies this
      ensures ok == (outcome.Wrote? && renameOk)
      ensures tmp == if ok then Absent else match outcome case Wrote => Whole(list) case Failed => old(tmp) case Partly(_) => Torn
      ensures state == if ok then Whole(list) else old(state)
    {
      match outcome {
        case Failed => return false;
        case Partly(_) => tmp := Torn; return false;
        case Wrote => tmp := Whole(list);
      }
      if !renameOk {
        return false;
      }
      state, tmp := tmp, Absent;
      return true;
    }
  }

  class Server {
    const env: Env
    const settings: Settings
    const files: DiskFiles
    var wallets: map<string, Meta>
    var list: seq<Meta>
    ghost var succeeded: set<string>
    ghost var grants: seq<Grant>

    /** The state between calls, when the lock is free. */
    ghost function View(): State
      reads this, files
    {
      State(files.View(), Up(wallets, list, None), settings, succeeded, grants)
    }

    constructor (env: Env, settings: Settings, files: DiskFiles, loaded: Loaded, ghost succeeded: set<string>, ghost grants: seq<Grant>)
      ensures View() == State(files.View(), Up(loaded.wallets, loaded.metas, None), settings, succeeded, grants)
      ensures this.env == env && this.settings == settings && this.files == files
    {
      this.env, this.settings, this.files := env, settings, files;
      wallets, list := loaded.wallets, loaded.metas;
      this.succeeded, this.grants := succeeded, grants;
    }

    /** The part CreateWallet and RestoreWallet share once the record has been made. */
    method Register(req: Request, meta: Meta, ce: CallEnv, mnemonic: Option<Bytes>) returns (resp: Response)
      requires ValidRequest(req) && RequestKey(req) !in wallets && Record(env, req, ce) == Ok(meta)
      modifies this, files
      ensures View() == CallEvents(env, old(View()), req, ce)
      ensures !Succeeds(env, settings, req, ce) ==> resp == Internal
      ensures Succeeds(env, settings, req, ce) ==>
        && resp.Success? && resp.mnemonic == mnemonic
        && Answers(resp.tokens, settings, req.tenantID, req.walletID, ce)
    {
      hide NewMeta, Issue, ValidRequest, CallEvents, Record, NewGrant, PairFor;
      CallEffect(env, View(), req, ce);
      if !ce.attachOk {
        return Internal;
      }
      wallets := wallets[KeyOf(meta) := meta];
      list := list + [meta];
      var saved := files.SaveState(list, ce.write, ce.renameOk);
      if !saved {
        return Internal;
      }
      if !settings.authEnabled {
        succeeded := succeeded + {RequestKey(req)};
        return Success(mnemonic, None);
      }
      if !ce.signOk {
        return Internal;
      }
      var grant := NewGrant(settings.ttl, req.tenantID, req.walletID, ce.now, ce.jtis, Bootstrapped);
      NewGrantIsPair(settings.ttl, req.tenantID, req.walletID, ce.now, ce.jtis, Bootstrapped);
      succeeded := succeeded + {RequestKey(req)};
      grants := grants + [grant];
      return Success(mnemonic, Some(grant));
    }

    method CreateWallet(tenantID: string, walletID: string, ce: CallEnv) returns (resp: Response)
      modifies this, files
      ensures View() == CallEvents(env, old(View()), Request(Create, tenantID, walletID, ([], [])), ce)
      ensures resp == InvalidArgument <==> !ValidID(tenantID) || !ValidID(walletID)
      ensures resp == AlreadyExists <==> ValidID(tenantID) && ValidID(walletID) && WalletKey(tenantID, walletID) in old(wallets)
      ensures resp.Success? <==>
        && ValidID(tenantID) && ValidID(walletID) && WalletKey(tenantID, walletID) !in old(wallets)
        && ce.sdk.Some? && CanSeal(env.vault, ce.sdk.value, ce.randoms.mnemonic)
        && ce.attachOk && ce.write.Wrote? && ce.renameOk && (settings.authEnabled ==> ce.signOk)
      ensures resp.Success? ==> resp.mnemonic == ce.sdk && Answers(resp.tokens, settings, tenantID, walletID, ce)
    {
      hide NewMeta, Issue, CanSeal, PairFor, NewGrant, ValidID, WalletKey;
      var req := Request(Create, tenantID, walletID, ([], []));
      SucceedsExact(env, settings, req, ce);
      if !ValidID(tenantID) || !ValidID(walletID) {
        return InvalidArgument;
      }
      if WalletKey(tenantID, walletID) in wallets {
        return AlreadyExists;
      }
      if ce.sdk.None? {
        return Internal;
      }
      var made := NewMeta(env.vault, tenantID, walletID, env.sdkName(tenantID, walletID), (ce.sdk.value, []), ce.randoms);
      if made.Err? {
        return Internal;
      }
      resp := Register(req, made.value, ce, ce.sdk);
    }

    method RestoreWallet(tenantID: string, walletID: string, mnemonic: Bytes, passphrase: Bytes, ce: CallEnv)
      returns (resp: Response)
      modifies this, files
      ensures View() == CallEvents(env, old(View()), Request(Restore, tenantID, walletID, (mnemonic, passphrase)), ce)
      ensures resp == InvalidArgument <==> !ValidID(tenantID) || !ValidID(walletID) || mnemonic == []
      ensures resp == AlreadyExists <==>
        ValidID(tenantID) && ValidID(walletID) && mnemonic != [] && WalletKey(tenantID, walletID) in old(wallets)
      ensures resp.Success? <==>
        && ValidID(tenantID) && ValidID(walletID) && mnemonic != [] && WalletKey(tenantID, walletID) !in old(wallets)
        && CanSeal(env.vault, mnemonic, ce.randoms.mnemonic) && CanSeal(env.vault, passphrase, ce.randoms.passphrase)
        && ce.sdk.Some? && ce.attachOk && ce.write.Wrote? && ce.renameOk && (settings.authEnabled ==> ce.signOk)
      ensures resp.Success? ==> resp.mnemonic == None && Answers(resp.tokens, settings, tenantID, walletID, ce)
    {
      hide NewMeta, Issue, CanSeal, PairFor, NewGrant, ValidID, WalletKey;
      var req := Request(Restore, tenantID, walletID, (mnemonic, passphrase));
      SucceedsExact(env, settings, req, ce);
      if !ValidID(tenantID) || !ValidID(walletID) {
        return InvalidArgument;
      }
      if mnemonic == [] {
        return InvalidArgument;
      }
      if WalletKey(tenantID, walletID) in wallets {
        return AlreadyExists;
      }
      var made := NewMeta(env.vault, tenantID, walletID, env.sdkName(tenantID, walletID), (mnemonic, passphrase), ce.randoms);
      if made.Err? {
        return Internal;
      }
      if ce.sdk.None? {
        return Internal;
      }
      resp := Register(req, made.value, ce, None);
    }

    /** Refreshing takes no lock and touches neither the registry nor the disk. */
    method RefreshToken(token: string, now: int, jtis: (string, string)) returns (r: Result<Grant, RefreshError>)
      modifies this
      ensures View() == RefreshStep(env, old(View()), token, now, jtis)
      ensures r == if !settings.authEnabled then Err(AuthDisabled)
                   else match Validate(env.keys, token, "refresh", Unix(now))
                        case Err(e) => Err(Rejected(e))
                        case Ok(_) => Ok(grants[|old(grants)|])
      ensures r.Ok? ==>
        && Validate(env.keys, token, "refresh", Unix(now)) == Ok(Subject(r.value.tenantID, r.value.walletID, "refresh"))
        && PairFor(r.value, r.value.tenantID, r.value.walletID, now, settings.ttl, jtis) && r.value.origin == Refreshed
    {
      hide Validate, PairFor, NewGrant;
      if !settings.authEnabled {
        return Err(AuthDisabled);
      }
      var sub;
      match Validate(env.keys, token, "refresh", Unix(now)) {
        case Err(e) => return Err(Rejected(e));
        case Ok(subject) => sub := subject;
      }
      var grant := NewGrant(settings.ttl, sub.tenantID, sub.walletID, now, jtis, Refreshed);
      NewGrantIsPair(settings.ttl, sub.tenantID, sub.walletID, now, jtis, Refreshed);
      NewGrantOwner(settings.ttl, sub.tenantID, sub.walletID, now, jtis, Refreshed);
      SubjectType(env.keys, token, now);
      grants := grants + [grant];
      return Ok(grant);
    }
  }

  /** The configuration of one start, and what happens to its loads and to the save that may end it. */
  datatype StartEnv = StartEnv(settings: Settings, records: nat -> RecordEnv, write: WriteOutcome, renameOk: bool)

  /** The events of one start-up that is not interrupted. */
  function StartEvents(env: Env, s: State, se: StartEnv): State {
    RenameStep(WriteStep(BootStep(env, s, se.settings, se.records), se.write), se.renameOk)
  }

  /** The state file parses, every record loads, and if some record was plaintext the save works. */
  ghost predicate Startable(env: Env, disk: Disk, se: StartEnv) {
    var list := DiskList(disk);
    && !disk.state.Torn?
    && (forall j | 0 <= j < |list| :: Loadable(env.vault, list[j], se.records(j)))
    && ((exists j :: 0 <= j < |list| && (list[j].mnemonic != [] || list[j].passphrase != [])) ==> se.write.Wrote? && se.renameOk)
  }

  /** Exactly when a start-up succeeds. */
  lemma StartSucceeds(env: Env, s: State, se: StartEnv)
    requires Sound(env) && s.mem.Down? && Distinct(DiskList(s.disk))
    ensures StartEvents(env, s, se).mem.Up? <==> Startable(env, s.disk, se)
  {
    hide OpenSecrets, Loadable, Distinct, LoadAll;
    LoadAllSucceeds(env.vault, DiskList(s.disk), se.records);
    if LoadAll(env.vault, DiskList(s.disk), se.records).Ok? {
      MigrationKeepsSecrets(env.vault, DiskList(s.disk), se.records);
    }
  }

  /**
   NewWithOptions: reads the state file, loads every wallet, and saves when a record was
   migrated. There is a server exactly when the model's service is up.
   */
  method Start(env: Env, files: DiskFiles, se: StartEnv, ghost before: Settings, ghost succeeded: set<string>, ghost grants: seq<Grant>)
    returns (server: Server?)
    modifies files
    ensures var s := State(old(files.View()), Down, before, succeeded, grants);
      var t := StartEvents(env, s, se);
      && (server != null <==> t.mem.Up?)
      && (Sound(env) && Distinct(DiskList(old(files.View()))) ==> (server != null <==> Startable(env, old(files.View()), se)))
      && (server != null ==> fresh(server) && server.files == files && server.env == env && server.View() == t)
      && files.View() == t.disk
  {
    hide LoadAll, Startable, Distinct, Sound;
    ghost var down := State(files.View(), Down, before, succeeded, grants);
    if Sound(env) && Distinct(DiskList(files.View())) {
      StartSucceeds(env, down, se);
    }
    server := null;
    var metas;
    match files.state {
      case Absent => metas := [];
      case Torn => return;
      case Whole(m) => metas := m;
    }
    var r := LoadWallets(env.vault, metas, se.records);
    if r.Err? {
      return;
    }
    if r.value.migrated {
      var saved := files.SaveState(r.value.metas, se.write, se.renameOk);
      if !saved {
        return;
      }
    }
    server := new Server(env, se.settings, files, r.value, succeeded, grants);
  }
}
