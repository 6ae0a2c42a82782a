/**
 Wallet records and the start-up migration of legacy plaintext secrets
 (service.go: openWalletSecrets, newWalletMeta, restoreLoadedWallet and the loop around it).
 */
module Migration {
  import opened Wrappers
  import opened Base64
  import opened Sealing
  import Auth

  datatype Meta = Meta(
    tenantID: string,
    walletID: string,
    sdkName: string,
    mnemonic: Bytes,           // legacy plaintext
    passphrase: Bytes,         // legacy plaintext
    mnemonicSealed: string,
    passphraseSealed: string)

  datatype Vault = Vault(aead: Aead, dataKey: Bytes)

  datatype LoadError = Secrets(cause: SealError) | SDK | Attach

  function KeyOf(m: Meta): string {
    Auth.WalletKey(m.tenantID, m.walletID)
  }

  predicate IsPlain(m: Meta) {
    m.mnemonic != [] || m.passphrase != []
  }

  function OpenSecrets(v: Vault, m: Meta): Result<(Bytes, Bytes), SealError> {
    if IsPlain(m) then Ok((m.mnemonic, m.passphrase))
    else
      match (OpenString(v.aead, v.dataKey, m.mnemonicSealed), OpenString(v.aead, v.dataKey, m.passphraseSealed))
      case (Ok(mnemonic), Ok(passphrase)) => Ok((mnemonic, passphrase))
      case (Err(e), _) => Err(e)
      case (_, Err(e)) => Err(e)
  }

  /** The nonces drawn while sealing one record. */
  datatype Randoms = Randoms(mnemonic: Option<Nonce>, passphrase: Option<Nonce>)

  function NewMeta(v: Vault, tenantID: string, walletID: string, sdkName: string, secrets: (Bytes, Bytes), r: Randoms)
    : Result<Meta, SealError>
  {
    match (SealString(v.aead, v.dataKey, r.mnemonic, secrets.0), SealString(v.aead, v.dataKey, r.passphrase, secrets.1))
    case (Ok(m), Ok(p)) => Ok(Meta(tenantID, walletID, sdkName, [], [], m, p))
    case (Err(e), _) => Err(e)
    case (_, Err(e)) => Err(e)
  }

  /** A new record holds no plaintext and opens to the secrets it was made from. */
  lemma NewMetaOpens(v: Vault, tenantID: string, walletID: string, sdkName: string, secrets: (Bytes, Bytes), r: Randoms)
    requires Correct(v.aead)
    requires NewMeta(v, tenantID, walletID, sdkName, secrets, r).Ok?
    ensures var m := NewMeta(v, tenantID, walletID, sdkName, secrets, r).value;
      && !IsPlain(m) && OpenSecrets(v, m) == Ok(secrets)
      && m.tenantID == tenantID && m.walletID == walletID && m.sdkName == sdkName
  {
    OpenUndoesSeal(v.aead, v.dataKey, r.mnemonic, secrets.0);
    OpenUndoesSeal(v.aead, v.dataKey, r.passphrase, secrets.1);
  }

  // ---- Loading one record ----

  /** What the SDK and the random source do while one record is loaded. */
  datatype RecordEnv = RecordEnv(restoreOk: bool, attachOk: bool, randoms: Randoms)

  /** The record as restoreLoadedWallet attaches it: sealed, if it was plaintext. */
  function LoadOne(v: Vault, m: Meta, env: RecordEnv): Result<Meta, LoadError> {
    match OpenSecrets(v, m)
    case Err(e) => Err(Secrets(e))
    case Ok(secrets) =>
      if !env.restoreOk then Err(SDK)
      else if !IsPlain(m) then (if env.attachOk then Ok(m) else Err(Attach))
      else
        match NewMeta(v, m.tenantID, m.walletID, m.sdkName, secrets, env.randoms)
        case Err(e) => Err(Secrets(e))
        case Ok(sealed) => if env.attachOk then Ok(sealed) else Err(Attach)
  }

  lemma LoadOneKeeps(v: Vault, m: Meta, env: RecordEnv)
    requires Correct(v.aead) && LoadOne(v, m, env).Ok?
    ensures var loaded := LoadOne(v, m, env).value;
      && loaded.tenantID == m.tenantID && loaded.walletID == m.walletID && loaded.sdkName == m.sdkName
      && !IsPlain(loaded)
      && OpenSecrets(v, loaded) == OpenSecrets(v, m)
      && (!IsPlain(m) ==> loaded == m)
  {
    if IsPlain(m) {
      NewMetaOpens(v, m.tenantID, m.walletID, m.sdkName, (m.mnemonic, m.passphrase), env.randoms);
    }
  }

  /** The secret can be sealed: it is empty, or there is a proper key and a nonce for it. */
  predicate CanSeal(v: Vault, secret: Bytes, nonce: Option<Nonce>) {
    secret == [] || (|v.dataKey| == 32 && nonce.Some?)
  }

  lemma NewMetaSucceeds(v: Vault, tenantID: string, walletID: string, sdkName: string, secrets: (Bytes, Bytes), r: Randoms)
    ensures NewMeta(v, tenantID, walletID, sdkName, secrets, r).Ok?
       <==> CanSeal(v, secrets.0, r.mnemonic) && CanSeal(v, secrets.1, r.passphrase)
  {
    hide SealString;
    SealSucceeds(v.aead, v.dataKey, r.mnemonic, secrets.0);
    SealSucceeds(v.aead, v.dataKey, r.passphrase, secrets.1);
  }

  /**
   A record can be loaded: its secrets open, the SDK restores the wallet, its store opens, and
   plaintext secrets can be sealed.
   */
  predicate Loadable(v: Vault, m: Meta, env: RecordEnv) {
    && OpenSecrets(v, m).Ok? && env.restoreOk && env.attachOk
    && (m.mnemonic != [] || m.passphrase != [] ==>
          CanSeal(v, m.mnemonic, env.randoms.mnemonic) && CanSeal(v, m.passphrase, env.randoms.passphrase))
  }

  lemma LoadOneSucceeds(v: Vault, m: Meta, env: RecordEnv)
    ensures LoadOne(v, m, env).Ok? <==> Loadable(v, m, env)
  {
    hide CanSeal, NewMeta, OpenString;
    NewMetaSucceeds(v, m.tenantID, m.walletID, m.sdkName, (m.mnemonic, m.passphrase), env.randoms);
  }

  // ---- The loop over the list ----

  ghost predicate Distinct(metas: seq<Meta>) {
    forall i, j | 0 <= i < j < |metas| :: KeyOf(metas[i]) != KeyOf(metas[j])
  }

  predicate SameWallet(a: Meta, b: Meta) {
    a.tenantID == b.tenantID && a.walletID == b.walletID
  }

  /** Every record of the wallet is overwritten, as restoreLoadedWallet does. */
  function Replace(metas: seq<Meta>, m: Meta): (r: seq<Meta>)
    ensures |r| == |metas|
    ensures forall i | 0 <= i < |r| :: r[i] == if SameWallet(metas[i], m) then m else metas[i]
  {
    if metas == [] then []
    else Replace(metas[..|metas| - 1], m) + [if SameWallet(metas[|metas| - 1], m) then m else metas[|metas| - 1]]
  }

  datatype Loaded = Loaded(metas: seq<Meta>, wallets: map<string, Meta>, migrated: bool)

  /** One turn of the loop: record `i` has been loaded as `one`. */
  function Advance(s: Loaded, i: nat, one: Meta): (t: Loaded)
    requires i < |s.metas|
    ensures |t.metas| == |s.metas|
  {
    var plain := IsPlain(s.metas[i]);
    Loaded(if plain then Replace(s.metas, one) else s.metas, s.wallets[KeyOf(one) := one], s.migrated || plain)
  }

  /** Loads the records from position `i` on, reading each from the list as it then stands. */
  function LoadFrom(v: Vault, s: Loaded, i: nat, envs: nat -> RecordEnv): Result<Loaded, LoadError>
    requires i <= |s.metas|
    decreases |s.metas| - i
  {
    if i == |s.metas| then Ok(s)
    else
      match LoadOne(v, s.metas[i], envs(i))
      case Err(e) => Err(e)
      case Ok(one) => LoadFrom(v, Advance(s, i, one), i + 1, envs)
  }

  function LoadAll(v: Vault, metas: seq<Meta>, envs: nat -> RecordEnv): Result<Loaded, LoadError> {
    LoadFrom(v, Loaded(metas, map[], false), 0, envs)
  }

  /** The inner loop of restoreLoadedWallet. */
  method ReplaceRecords(metas: seq<Meta>, m: Meta) returns (list: seq<Meta>)
    ensures list == Replace(metas, m)
  {
    list := metas;
    for i := 0 to |metas|
      invariant |list| == |metas|
      invariant forall j | 0 <= j < i :: list[j] == Replace(metas, m)[j]
      invariant forall j | i <= j < |metas| :: list[j] == metas[j]
    {
      if SameWallet(list[i], m) {
        list := list[i := m];
      }
    }
  }

  /** The start-up loop: every record is read from the list as the earlier turns left it. */
  method LoadWallets(v: Vault, metas: seq<Meta>, envs: nat -> RecordEnv) returns (r: Result<Loaded, LoadError>)
    ensures r == LoadAll(v, metas, envs)
  {
    hide LoadOne, KeyOf, IsPlain, Replace;
    var list, wallets, migrated := metas, map[], false;
    var i := 0;
    while i < |list|
      invariant i <= |list| == |metas|
      invariant LoadAll(v, metas, envs) == LoadFrom(v, Loaded(list, wallets, migrated), i, envs)
    {
      ghost var before := Loaded(list, wallets, migrated);
      var meta := list[i];
      var loaded := LoadOne(v, meta, envs(i));
      if loaded.Err? {
        return Err(loaded.error);
      }
      var one := loaded.value;
      if IsPlain(meta) {
        list := ReplaceRecords(list, one);
        migrated := true;
      }
      wallets := wallets[KeyOf(one) := one];
      assert Loaded(list, wallets, migrated) == Advance(before, i, one);
      i := i + 1;
    }
    return Ok(Loaded(list, wallets, migrated));
  }

  // The state of the loop before position `i`, for a list that started out as `start`.

  ghost predicate RecordsInv(v: Vault, start: seq<Meta>, metas: seq<Meta>, i: nat) {
    && i <= |metas| && |metas| == |start|
    && (forall j | 0 <= j < |start| ::
          && SameWallet(metas[j], start[j])
          && metas[j].sdkName == start[j].sdkName
          && OpenSecrets(v, metas[j]) == OpenSecrets(v, start[j])
          && (!IsPlain(start[j]) ==> metas[j] == start[j]))
    && (forall j | 0 <= j < i :: !IsPlain(metas[j]))
    && (forall j | i <= j < |start| :: metas[j] == start[j])
  }

  ghost predicate WalletsInv(start: seq<Meta>, s: Loaded, i: nat)
    requires i <= |start| == |s.metas|
  {
    && (forall j | 0 <= j < i :: KeyOf(start[j]) in s.wallets && s.wallets[KeyOf(start[j])] == s.metas[j])
    && (forall k | k in s.wallets :: exists j :: 0 <= j < i && k == KeyOf(start[j]))
  }

  ghost predicate LoadInv(v: Vault, start: seq<Meta>, s: Loaded, i: nat) {
    && RecordsInv(v, start, s.metas, i)
    && WalletsInv(start, s, i)
    && (s.migrated <==> exists j :: 0 <= j < i && IsPlain(start[j]))
  }

  /** With distinct keys, loading record `i` changes that record alone. */
  lemma AdvanceChangesOne(start: seq<Meta>, s: Loaded, i: nat, one: Meta)
    requires Distinct(start) && i < |s.metas| && |s.metas| == |start|
    requires forall j | 0 <= j < |start| :: SameWallet(s.metas[j], start[j])
    requires SameWallet(one, start[i]) && (!IsPlain(s.metas[i]) ==> one == s.metas[i])
    ensures Advance(s, i, one).metas == s.metas[i := one]
  {
    forall j | 0 <= j < |start| && j != i ensures !SameWallet(s.metas[j], one) {
      assert KeyOf(start[j]) != KeyOf(start[i]);
      assert SameWallet(s.metas[j], start[j]) && SameWallet(one, start[i]);
    }
  }

  lemma WalletsStepKeeps(start: seq<Meta>, s: Loaded, t: Loaded, i: nat, one: Meta)
    requires Distinct(start) && i < |start| == |s.metas| && WalletsInv(start, s, i)
    requires t.metas == s.metas[i := one] && t.wallets == s.wallets[KeyOf(start[i]) := one]
    ensures WalletsInv(start, t, i + 1)
  {
    hide Distinct;
    DistinctFrom(start, i);
    forall k | k in t.wallets ensures exists j :: 0 <= j < i + 1 && k == KeyOf(start[j]) {
      if k in s.wallets {
        var j :| 0 <= j < i && k == KeyOf(start[j]);
      }
    }
  }

  lemma LoadStepKeeps(v: Vault, start: seq<Meta>, s: Loaded, i: nat, env: RecordEnv)
    requires Correct(v.aead) && Distinct(start) && LoadInv(v, start, s, i) && i < |s.metas|
    requires LoadOne(v, s.metas[i], env).Ok?
    ensures LoadInv(v, start, Advance(s, i, LoadOne(v, s.metas[i], env).value), i + 1)
  {
    hide OpenSecrets, LoadOne, IsPlain, Distinct, WalletsInv;
    var one := LoadOne(v, s.metas[i], env).value;
    LoadOneKeeps(v, s.metas[i], env);
    AdvanceChangesOne(start, s, i, one);
    var t := Advance(s, i, one);
    WalletsStepKeeps(start, s, t, i, one);
    assert RecordsInv(v, start, t.metas, i + 1);
    if t.migrated {
      var j := if IsPlain(start[i]) then i else var j :| 0 <= j < i && IsPlain(start[j]); j;
      assert 0 <= j < i + 1 && IsPlain(start[j]);
    }
  }

  lemma DistinctFrom(start: seq<Meta>, i: nat)
    requires Distinct(start) && i < |start|
    ensures forall j | 0 <= j < |start| && j != i :: KeyOf(start[j]) != KeyOf(start[i])
  {}

  lemma LoadInvLength(v: Vault, start: seq<Meta>, s: Loaded, i: nat)
    requires LoadInv(v, start, s, i)
    ensures i <= |s.metas| == |start|
  {}

  lemma {:induction false} LoadFromKeeps(v: Vault, start: seq<Meta>, s: Loaded, i: nat, envs: nat -> RecordEnv)
    requires Correct(v.aead) && Distinct(start) && LoadInv(v, start, s, i)
    requires LoadFrom(v, s, i, envs).Ok?
    ensures LoadInv(v, start, LoadFrom(v, s, i, envs).value, |start|)
    decreases |s.metas| - i
  {
    hide LoadInv, LoadOne, Advance, Distinct, Correct;
    LoadInvLength(v, start, s, i);
    if i < |s.metas| {
      LoadStepKeeps(v, start, s, i, envs(i));
      LoadFromKeeps(v, start, Advance(s, i, LoadOne(v, s.metas[i], envs(i)).value), i + 1, envs);
    }
  }

  lemma {:induction false} LoadFromSucceeds(v: Vault, start: seq<Meta>, s: Loaded, i: nat, envs: nat -> RecordEnv)
    requires Correct(v.aead) && Distinct(start) && LoadInv(v, start, s, i)
    ensures i <= |s.metas| == |start|
    ensures LoadFrom(v, s, i, envs).Ok? <==> forall j | i <= j < |start| :: Loadable(v, start[j], envs(j))
    decreases |start| - i
  {
    hide LoadOne, Advance, Distinct, Correct, Loadable, WalletsInv, OpenSecrets;
    LoadInvLength(v, start, s, i);
    if i < |s.metas| {
      assert s.metas[i] == start[i];
      LoadOneSucceeds(v, start[i], envs(i));
      if LoadOne(v, s.metas[i], envs(i)).Ok? {
        LoadStepKeeps(v, start, s, i, envs(i));
        LoadFromSucceeds(v, start, Advance(s, i, LoadOne(v, s.metas[i], envs(i)).value), i + 1, envs);
      }
    }
  }

  /** A list with distinct keys loads if and only if each of its records does on its own. */
  lemma LoadAllSucceeds(v: Vault, start: seq<Meta>, envs: nat -> RecordEnv)
    requires Correct(v.aead) && Distinct(start)
    ensures LoadAll(v, start, envs).Ok? <==> forall j | 0 <= j < |start| :: Loadable(v, start[j], envs(j))
  {
    hide Loadable, OpenSecrets, LoadFrom;
    LoadFromSucceeds(v, start, Loaded(start, map[], false), 0, envs);
  }

  /**
   The migration of a list with distinct keys keeps the wallets and their order, leaves no
   plaintext, lets every record open to the same secrets, registers exactly the listed
   wallets, and asks for a save exactly when some record was plaintext.
   */
  lemma MigrationKeepsSecrets(v: Vault, start: seq<Meta>, envs: nat -> RecordEnv)
    requires Correct(v.aead) && Distinct(start) && LoadAll(v, start, envs).Ok?
    ensures var r := LoadAll(v, start, envs).value;
      && |r.metas| == |start|
      && (forall j | 0 <= j < |start| ::
            && SameWallet(r.metas[j], start[j]) && r.metas[j].sdkName == start[j].sdkName
            && !IsPlain(r.metas[j])
            && OpenSecrets(v, r.metas[j]) == OpenSecrets(v, start[j]))
      && (r.migrated <==> exists j :: 0 <= j < |start| && IsPlain(start[j]))
      && r.wallets.Keys == (set j | 0 <= j < |start| :: KeyOf(start[j]))
      && (forall j | 0 <= j < |start| :: r.wallets[KeyOf(start[j])] == r.metas[j])
      && (!r.migrated ==> r.metas == start)
  {
    hide OpenSecrets;
    LoadFromKeeps(v, start, Loaded(start, map[], false), 0, envs);
    var r := LoadAll(v, start, envs).value;
    if !r.migrated {
      forall j | 0 <= j < |start| ensures r.metas[j] == start[j] {}
    }
  }

  lemma SameKeysDistinct(a: seq<Meta>, b: seq<Meta>)
    requires Distinct(a) && |a| == |b| && forall j | 0 <= j < |a| :: SameWallet(b[j], a[j])
    ensures Distinct(b)
  {
    forall i, j | 0 <= i < j < |b| ensures KeyOf(b[i]) != KeyOf(b[j]) {
      assert KeyOf(a[i]) != KeyOf(a[j]);
    }
  }

  /** A second restart finds nothing to migrate and changes nothing. */
  lemma MigrationIdempotent(v: Vault, start: seq<Meta>, envs: nat -> RecordEnv, later: nat -> RecordEnv)
    requires Correct(v.aead) && Distinct(start) && LoadAll(v, start, envs).Ok?
    requires LoadAll(v, LoadAll(v, start, envs).value.metas, later).Ok?
    ensures var once := LoadAll(v, start, envs).value;
      var twice := LoadAll(v, once.metas, later).value;
      !twice.migrated && twice.metas == once.metas && twice.wallets == once.wallets
  {
    var once := LoadAll(v, start, envs).value;
    MigrationKeepsSecrets(v, start, envs);
    SameKeysDistinct(start, once.metas);
    MigrationKeepsSecrets(v, once.metas, later);
    var twice := LoadAll(v, once.metas, later).value;
    SameWallets(start, once.metas, once.wallets, twice.wallets);
  }

  /** Two maps that give the same record for each listed wallet, and have no other keys, are equal. */
  lemma SameWallets(start: seq<Meta>, metas: seq<Meta>, a: map<string, Meta>, b: map<string, Meta>)
    requires |metas| == |start| && forall j | 0 <= j < |start| :: SameWallet(metas[j], start[j])
    requires a.Keys == (set j | 0 <= j < |start| :: KeyOf(start[j]))
    requires b.Keys == (set j | 0 <= j < |metas| :: KeyOf(metas[j]))
    requires forall j | 0 <= j < |start| :: a[KeyOf(start[j])] == metas[j]
    requires forall j | 0 <= j < |metas| :: b[KeyOf(metas[j])] == metas[j]
    ensures a == b
  {
    assert forall j | 0 <= j < |start| :: KeyOf(metas[j]) == KeyOf(start[j]);
    forall k | k in a.Keys ensures k in b.Keys && a[k] == b[k] {
      var j :| 0 <= j < |start| && k == KeyOf(start[j]);
    }
    forall k | k in b.Keys ensures k in a.Keys {
      var j :| 0 <= j < |metas| && k == KeyOf(metas[j]);
    }
  }

  // ---- Records that are partly plaintext ----

  /** Each secret from its own fields: the plaintext when there is one, the sealed text otherwise. */
  function FieldwiseSecrets(v: Vault, m: Meta): Result<(Bytes, Bytes), SealError> {
    var mnemonic := if m.mnemonic != [] then Ok(m.mnemonic) else OpenString(v.aead, v.dataKey, m.mnemonicSealed);
    var passphrase := if m.passphrase != [] then Ok(m.passphrase) else OpenString(v.aead, v.dataKey, m.passphraseSealed);
    match (mnemonic, passphrase)
    case (Ok(a), Ok(b)) => Ok((a, b))
    case (Err(e), _) => Err(e)
    case (_, Err(e)) => Err(e)
  }

  /**
   A record with one plaintext secret is read as if the other were empty, so a sealed secret
   beside a plaintext one is lost. Reading each field on its own would give the same result
   exactly when no plaintext stands beside a sealed text that does not open to the empty secret.
   */
  lemma MixedRecordReads(v: Vault, m: Meta)
    ensures OpenSecrets(v, m) == FieldwiseSecrets(v, m)
      <==>
      && (m.mnemonic != [] && m.passphrase == [] ==> OpenString(v.aead, v.dataKey, m.passphraseSealed) == Ok([]))
      && (m.passphrase != [] && m.mnemonic == [] ==> OpenString(v.aead, v.dataKey, m.mnemonicSealed) == Ok([]))
  {}

  lemma MixedRecordLosesMnemonic(v: Vault, mnemonic: Bytes, random: Nonce)
    requires Correct(v.aead) && |v.dataKey| == Sealing.KEY_SIZE && mnemonic != []
    ensures var sealed := SealString(v.aead, v.dataKey, Some(random), mnemonic);
      && sealed.Ok?
      && var m := Meta("t", "w", "bsvms:w", [], [112], sealed.value, "");
      FieldwiseSecrets(v, m) == Ok((mnemonic, [112])) && OpenSecrets(v, m) == Ok(([], [112]))
  {
    OpenUndoesSeal(v.aead, v.dataKey, Some(random), mnemonic);
  }
}
