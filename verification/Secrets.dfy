/**
 Start-up options and the two key files of the data directory (options.go). A start may
 fail or be cut short anywhere, in particular while a key file is being written.
 */
module Secrets {
  import opened Wrappers
  import opened Base64
  import Sealing

  const KEY_SIZE := Sealing.KEY_SIZE

  datatype SecretError = Unreadable | BadBase64 | NoRandomness | NoDirectory | WriteFailed

  type Key = b: Bytes | |b| == KEY_SIZE witness seq(32, i => 0)

  /** What the file system and the random source do during one loadOrCreateSecret. */
  datatype Env = Env(readable: bool, random: Option<Key>, mkdirOk: bool, write: WriteOutcome)

  /** The first n characters of a text. */
  function Cut(text: string, n: nat): string {
    if n < |text| then text[..n] else text
  }

  /** The file's text afterwards (absent: no file) and the result. */
  function LoadOrCreate(file: Option<string>, env: Env): (Option<string>, Result<Bytes, SecretError>) {
    match file
    case Some(text) =>
      (file,
       if !env.readable then Err(Unreadable)
       else match Decode(Std, text) case Some(key) => Ok(key) case None => Err(BadBase64))
    case None =>
      if !env.readable then (None, Err(Unreadable))
      else if env.random.None? then (None, Err(NoRandomness))
      else if !env.mkdirOk then (None, Err(NoDirectory))
      else
        var text := Encode(Std, env.random.value);
        match env.write
        case Wrote => (Some(text), Ok(env.random.value))
        case Failed => (None, Err(WriteFailed))
        case Partly(n) => (Some(Cut(text, n)), Err(WriteFailed))
  }

  /** What a call leaves: an existing file as it was; otherwise a file exactly when a write began, with what was written. */
  lemma FileAfter(file: Option<string>, env: Env)
    ensures LoadOrCreate(file, env).0 ==
      if file.Some? then file
      else if env.readable && env.random.Some? && env.mkdirOk && env.write != Failed then
        var text := Encode(Std, env.random.value);
        Some(if env.write.Partly? && env.write.n < |text| then text[..env.write.n] else text)
      else None
  {
    hide Encode, Decode;
  }

  /** Once there is a file it is never rewritten, and what a creating start returned is what it holds. */
  lemma LoadAgain(file: Option<string>, first: Env, second: Env)
    requires LoadOrCreate(file, first).1.Ok?
    ensures var (file1, key1) := LoadOrCreate(file, first);
      var (file2, key2) := LoadOrCreate(file1, second);
      && file1.Some? && file2 == file1
      && (key2.Ok? <==> second.readable) && (key2.Ok? ==> key2 == key1)
  {
    if file.None? {
      RoundTrip(Std, first.random.value);
    }
  }

  /** A key file holding the first n characters written reads as a full-size key if and only if n is all of them. */
  lemma TornKeyReads(random: Key, n: nat, env: Env)
    ensures var (file, key) := LoadOrCreate(Some(Cut(Encode(Std, random), n)), env);
      && file == Some(Cut(Encode(Std, random), n))
      && (key.Ok? && |key.value| >= KEY_SIZE <==> env.readable && n >= |Encode(Std, random)|)
      && (key.Ok? && |key.value| >= KEY_SIZE ==> key.value == random)
  {
    hide Encode, Decode;
    RoundTrip(Std, random);
    if n < |Encode(Std, random)| {
      PrefixIsShort(random, n);
    }
  }

  // ---- Options ----

  const MINUTE := 60_000_000_000
  const DEFAULT_ACCESS_TTL := 15 * MINUTE
  const DEFAULT_REFRESH_TTL := 24 * 60 * MINUTE

  datatype Options = Options(authEnabled: bool, jwtSecret: Bytes, dataKey: Bytes, accessTTL: int, refreshTTL: int)

  datatype OptionsError = DataKey(cause: SecretError) | DataKeySize | JWTSecret(cause: SecretError) | JWTSecretSize

  datatype Files = Files(dataKey: Option<string>, jwtSecret: Option<string>)

  /** The environment of one start: one for each key file. */
  datatype StartEnv = StartEnv(dataKey: Env, jwtSecret: Env)

  function Resolve(o: Options, files: Files, env: StartEnv): (Files, Result<Options, OptionsError>) {
    var access := if o.accessTTL == 0 then DEFAULT_ACCESS_TTL else o.accessTTL;
    var refresh := if o.refreshTTL == 0 then DEFAULT_REFRESH_TTL else o.refreshTTL;
    var (dataFile, dataKey) := if o.dataKey == [] then LoadOrCreate(files.dataKey, env.dataKey) else (files.dataKey, Ok(o.dataKey));
    var files1 := files.(dataKey := dataFile);
    if dataKey.Err? then (files1, Err(DataKey(dataKey.error)))
    else if |dataKey.value| != KEY_SIZE then (files1, Err(DataKeySize))
    else
      var (jwtFile, secret) :=
        if o.authEnabled && o.jwtSecret == [] then LoadOrCreate(files.jwtSecret, env.jwtSecret) else (files.jwtSecret, Ok(o.jwtSecret));
      var files2 := files1.(jwtSecret := jwtFile);
      if secret.Err? then (files2, Err(JWTSecret(secret.error)))
      else if o.authEnabled && |secret.value| < KEY_SIZE then (files2, Err(JWTSecretSize))
      else (files2, Ok(Options(o.authEnabled, secret.value, dataKey.value, access, refresh)))
  }

  class KeyFile {
    var text: Option<string>

    /** loadOrCreateSecret */
    method LoadOrCreateSecret(env: Env) returns (r: Result<Bytes, SecretError>)
      modifies this
      ensures (text, r) == LoadOrCreate(old(text), env)
    {
      if !env.readable {
        return Err(Unreadable);
      }
      if text.Some? {
        match Decode(Std, text.value)
        case None => return Err(BadBase64);
        case Some(key) => return Ok(key);
      }
      if env.random.None? {
        return Err(NoRandomness);
      }
      if !env.mkdirOk {
        return Err(NoDirectory);
      }
      var encoded := Encode(Std, env.random.value);
      match env.write {
        case Failed =>
          return Err(WriteFailed);
        case Partly(n) =>
          text := Some(Cut(encoded, n));
          return Err(WriteFailed);
        case Wrote =>
          text := Some(encoded);
      }
      return Ok(env.random.value);
    }
  }

  class DataDir {
    const dataKey: KeyFile
    const jwtSecret: KeyFile

    ghost predicate Valid() {
      dataKey != jwtSecret
    }

    constructor (dataKey: KeyFile, jwtSecret: KeyFile)
      requires dataKey != jwtSecret
      ensures Valid() && this.dataKey == dataKey && this.jwtSecret == jwtSecret
    {
      this.dataKey, this.jwtSecret := dataKey, jwtSecret;
    }

    function Contents(): Files
      reads dataKey, jwtSecret
    {
      Files(dataKey.text, jwtSecret.text)
    }

    /** withDefaults fills in the options one field at a time. */
    method WithDefaults(given: Options, env: StartEnv) returns (r: Result<Options, OptionsError>)
      requires Valid()
      modifies dataKey, jwtSecret
      ensures (Contents(), r) == Resolve(given, old(Contents()), env)
    {
      var o := given;
      if o.accessTTL == 0 {
        o := o.(accessTTL := DEFAULT_ACCESS_TTL);
      }
      if o.refreshTTL == 0 {
        o := o.(refreshTTL := DEFAULT_REFRESH_TTL);
      }
      if |o.dataKey| == 0 {
        var loaded := dataKey.LoadOrCreateSecret(env.dataKey);
        match loaded
        case Err(e) => return Err(DataKey(e));
        case Ok(key) => o := o.(dataKey := key);
      }
      if |o.dataKey| != KEY_SIZE {
        return Err(DataKeySize);
      }
      if o.authEnabled && |o.jwtSecret| == 0 {
        var loaded := jwtSecret.LoadOrCreateSecret(env.jwtSecret);
        match loaded
        case Err(e) => return Err(JWTSecret(e));
        case Ok(secret) => o := o.(jwtSecret := secret);
      }
      if o.authEnabled && |o.jwtSecret| < KEY_SIZE {
        return Err(JWTSecretSize);
      }
      return Ok(o);
    }
  }

  /** One start: its configuration, and what the file system and the random source do. */
  datatype Launch = Launch(options: Options, env: StartEnv)

  function ResolveLaunch(files: Files, l: Launch): (Files, Result<Options, OptionsError>) {
    Resolve(l.options, files, l.env)
  }

  /** The data directory after a series of starts. */
  function FilesAfter(files: Files, launches: seq<Launch>): Files {
    if launches == [] then files
    else ResolveLaunch(FilesAfter(files, launches[..|launches| - 1]), launches[|launches| - 1]).0
  }

  /** The outcome of the i-th start. */
  function Outcome(files: Files, launches: seq<Launch>, i: nat): Result<Options, OptionsError>
    requires i < |launches|
  {
    ResolveLaunch(FilesAfter(files, launches[..i]), launches[i]).1
  }

  // ---- When a start succeeds, and with what ----

  /** A key is to be had: the configured one, the one in the file, or a new one that reaches the disk. */
  predicate Obtains(configured: Bytes, file: Option<string>, env: Env, key: Bytes) {
    if configured != [] then key == configured
    else if file.Some? then env.readable && Decode(Std, file.value) == Some(key)
    else env.readable && env.mkdirOk && env.write == Wrote && env.random.Some? && env.random.value == key
  }

  lemma LoadObtains(file: Option<string>, env: Env, key: Bytes)
    ensures LoadOrCreate(file, env).1 == Ok(key) <==> Obtains([], file, env, key)
  {
    hide Encode, Decode;
  }

  /**
   Exactly when a start gets its options, and which: a data key of 32 bytes, with auth on a secret
   of at least 32, auth as configured, and 15 minutes and a day for lifetimes that are not set.
   */
  lemma ResolveExact(files: Files, l: Launch, r: Options)
    ensures ResolveLaunch(files, l).1 == Ok(r) <==>
      && Obtains(l.options.dataKey, files.dataKey, l.env.dataKey, r.dataKey) && |r.dataKey| == 32
      && r.authEnabled == l.options.authEnabled
      && (if l.options.authEnabled then
            Obtains(l.options.jwtSecret, files.jwtSecret, l.env.jwtSecret, r.jwtSecret) && |r.jwtSecret| >= 32
          else r.jwtSecret == l.options.jwtSecret)
      && r.accessTTL == (if l.options.accessTTL != 0 then l.options.accessTTL else 900 * 1_000_000_000)
      && r.refreshTTL == (if l.options.refreshTTL != 0 then l.options.refreshTTL else 86400 * 1_000_000_000)
  {
    hide LoadOrCreate, Decode;
    var o := l.options;
    LoadObtains(files.dataKey, l.env.dataKey, r.dataKey);
    LoadObtains(files.jwtSecret, l.env.jwtSecret, r.jwtSecret);
    assert o.jwtSecret == [] || |o.jwtSecret| > 0;
    var key := if o.dataKey == [] then LoadOrCreate(files.dataKey, l.env.dataKey).1 else Ok(o.dataKey);
    var secret := if o.authEnabled && o.jwtSecret == [] then LoadOrCreate(files.jwtSecret, l.env.jwtSecret).1 else Ok(o.jwtSecret);
    assert ResolveLaunch(files, l).1.Ok? <==> key.Ok? && |key.value| == 32 && secret.Ok? && (o.authEnabled ==> |secret.value| >= 32);
  }

  // ---- Key files are never rewritten ----

  predicate FileKept(before: Option<string>, after: Option<string>) {
    before.Some? ==> after == before
  }

  lemma CreatedReads(file: Option<string>, env: Env)
    ensures var (after, key) := LoadOrCreate(file, env);
      && (key.Ok? ==> after.Some? && Decode(Std, after.value) == Some(key.value))
      && FileKept(file, after)
  {
    hide Encode, Decode;
    if file.None? && env.random.Some? {
      RoundTrip(Std, env.random.value);
    }
  }

  lemma ResolveKeepsFiles(files: Files, l: Launch)
    ensures var after := ResolveLaunch(files, l).0;
      FileKept(files.dataKey, after.dataKey) && FileKept(files.jwtSecret, after.jwtSecret)
  {
    hide LoadOrCreate;
    CreatedReads(files.dataKey, l.env.dataKey);
    CreatedReads(files.jwtSecret, l.env.jwtSecret);
  }

  lemma {:induction false} FilesKept(files: Files, launches: seq<Launch>, i: nat, j: nat)
    requires i <= j <= |launches|
    ensures FileKept(FilesAfter(files, launches[..i]).dataKey, FilesAfter(files, launches[..j]).dataKey)
    ensures FileKept(FilesAfter(files, launches[..i]).jwtSecret, FilesAfter(files, launches[..j]).jwtSecret)
  {
    if i < j {
      hide ResolveLaunch;
      FilesKept(files, launches, i, j - 1);
      NextFiles(files, launches, j - 1);
      ResolveKeepsFiles(FilesAfter(files, launches[..j - 1]), launches[j - 1]);
    }
  }

  lemma NextFiles(files: Files, launches: seq<Launch>, i: nat)
    requires i < |launches|
    ensures FilesAfter(files, launches[..i + 1]) == ResolveLaunch(FilesAfter(files, launches[..i]), launches[i]).0
  {
    assert launches[..i + 1][..i] == launches[..i];
  }

  /** The data directory holds the keys that a successful start did not get from its configuration. */
  ghost predicate Holds(o: Options, files: Files, r: Options) {
    && (o.dataKey == [] ==> files.dataKey.Some? && Decode(Std, files.dataKey.value) == Some(r.dataKey))
    && (o.authEnabled && o.jwtSecret == [] ==> files.jwtSecret.Some? && Decode(Std, files.jwtSecret.value) == Some(r.jwtSecret))
  }

  lemma ResolveHolds(files: Files, l: Launch)
    requires ResolveLaunch(files, l).1.Ok?
    ensures var (after, r) := ResolveLaunch(files, l);
      && Holds(l.options, after, r.value)
      && |r.value.dataKey| == KEY_SIZE && (l.options.authEnabled ==> |r.value.jwtSecret| >= KEY_SIZE)
      && (l.options.dataKey != [] ==> r.value.dataKey == l.options.dataKey)
      && (l.options.jwtSecret != [] ==> r.value.jwtSecret == l.options.jwtSecret)
  {
    hide Decode;
    CreatedReads(files.dataKey, l.env.dataKey);
    CreatedReads(files.jwtSecret, l.env.jwtSecret);
  }

  lemma OutcomeHolds(files: Files, launches: seq<Launch>, i: nat, j: nat)
    requires i < j <= |launches| && Outcome(files, launches, i).Ok?
    ensures Holds(launches[i].options, FilesAfter(files, launches[..j]), Outcome(files, launches, i).value)
  {
    hide ResolveLaunch, FilesAfter, Decode;
    ResolveHolds(FilesAfter(files, launches[..i]), launches[i]);
    NextFiles(files, launches, i);
    FilesKept(files, launches, i + 1, j);
  }

  /**
   Whatever the configurations of the starts are, and whatever fails or is cut short in
   between: two successful starts configured alike as to a key run with the same key. The data
   key has 32 bytes and, with auth on, the secret at least 32; a configured key is used as given.
   */
  lemma KeysSurviveRestarts(files: Files, launches: seq<Launch>, i: nat, j: nat)
    requires i <= j < |launches| && Outcome(files, launches, i).Ok? && Outcome(files, launches, j).Ok?
    ensures var o, p := launches[i].options, launches[j].options;
      var r, q := Outcome(files, launches, i).value, Outcome(files, launches, j).value;
      && (o.dataKey == p.dataKey ==> r.dataKey == q.dataKey)
      && (o.authEnabled && p.authEnabled && o.jwtSecret == p.jwtSecret ==> r.jwtSecret == q.jwtSecret)
      && |q.dataKey| == KEY_SIZE && (p.authEnabled ==> |q.jwtSecret| >= KEY_SIZE)
      && (p.dataKey != [] ==> q.dataKey == p.dataKey) && (p.jwtSecret != [] ==> q.jwtSecret == p.jwtSecret)
  {
    hide ResolveLaunch, FilesAfter, Decode;
    OutcomeHolds(files, launches, i, j + 1);
    OutcomeHolds(files, launches, j, j + 1);
    ResolveHolds(FilesAfter(files, launches[..i]), launches[i]);
    ResolveHolds(FilesAfter(files, launches[..j]), launches[j]);
  }

  /**
   What was sealed under the data key of one start opens to the same bytes under that of any
   later one, as long as both leave the data key unset, or set the same one.
   */
  lemma SealedSurvivesRestarts(a: Sealing.Aead, files: Files, launches: seq<Launch>, i: nat, j: nat,
                               random: Sealing.Nonce, plaintext: Bytes)
    requires Sealing.Correct(a)
    requires i <= j < |launches| && Outcome(files, launches, i).Ok? && Outcome(files, launches, j).Ok?
    requires launches[i].options.dataKey == launches[j].options.dataKey
    ensures var sealed := Sealing.SealString(a, Outcome(files, launches, i).value.dataKey, Some(random), plaintext);
      && sealed.Ok?
      && Sealing.OpenString(a, Outcome(files, launches, j).value.dataKey, sealed.value) == Ok(plaintext)
  {
    hide Outcome, Sealing.SealString, Sealing.OpenString, Sealing.Correct;
    KeysSurviveRestarts(files, launches, i, i);
    KeysSurviveRestarts(files, launches, i, j);
    var key := Outcome(files, launches, i).value.dataKey;
    Sealing.SealSucceeds(a, key, Some(random), plaintext);
    Sealing.OpenUndoesSeal(a, key, Some(random), plaintext);
  }

  // ---- Key files cut short ----

  /** The start got past the data key. */
  predicate PastDataKey(r: Result<Options, OptionsError>) {
    r.Ok? || r.error.JWTSecret? || r.error.JWTSecretSize?
  }

  lemma TornResolves(files: Files, l: Launch, random: Key, n: nat)
    ensures var (after, r) := ResolveLaunch(files, l);
      && (l.options.dataKey == [] && files.dataKey == Some(Cut(Encode(Std, random), n)) ==>
            (PastDataKey(r) <==> l.env.dataKey.readable && n >= |Encode(Std, random)|))
      && (l.options.authEnabled && l.options.jwtSecret == [] && files.jwtSecret == Some(Cut(Encode(Std, random), n)) ==>
            (r.Ok? <==> PastDataKey(r) && l.env.jwtSecret.readable && n >= |Encode(Std, random)|))
  {
    hide LoadOrCreate, Encode, Cut;
    TornKeyReads(random, n, l.env.dataKey);
    TornKeyReads(random, n, l.env.jwtSecret);
    var torn := Some(Cut(Encode(Std, random), n));
    var key, secret := LoadOrCreate(torn, l.env.dataKey).1, LoadOrCreate(torn, l.env.jwtSecret).1;
    if l.options.dataKey == [] && files.dataKey == torn {
      assert PastDataKey(ResolveLaunch(files, l).1) <==> key.Ok? && |key.value| == KEY_SIZE;
    }
    if l.options.authEnabled && l.options.jwtSecret == [] && files.jwtSecret == torn {
      var r := ResolveLaunch(files, l).1;
      assert r.Ok? <==> PastDataKey(r) && secret.Ok? && |secret.value| >= KEY_SIZE;
    }
  }

  /** What a start leaves when it is cut short while writing a key file. */
  predicate TearsDataKey(files: Files, l: Launch, random: Key, n: nat) {
    files.dataKey == None && l.options.dataKey == [] && l.env.dataKey == Env(true, Some(random), true, Partly(n))
  }

  predicate TearsJWTSecret(files: Files, l: Launch, random: Key, n: nat) {
    && files.jwtSecret == None && l.options.authEnabled && l.options.jwtSecret == []
    && l.env.jwtSecret == Env(true, Some(random), true, Partly(n))
    && PastDataKey(ResolveLaunch(files, l).1)
  }

  lemma TearLeaves(files: Files, l: Launch, random: Key, n: nat)
    ensures var torn := Some(Cut(Encode(Std, random), n));
      && (TearsDataKey(files, l, random, n) ==> ResolveLaunch(files, l).0.dataKey == torn)
      && (TearsJWTSecret(files, l, random, n) ==> ResolveLaunch(files, l).0.jwtSecret == torn)
  {
    hide Encode, Cut;
  }

  /**
   A start cut short while writing the data key stops every later start that uses the file, if
   and only if characters are missing (or the file is unreadable); no start repairs the file.
   */
  lemma TornDataKeyStopsStarts(files: Files, launches: seq<Launch>, i: nat, j: nat, random: Key, n: nat)
    requires i < j < |launches| && launches[j].options.dataKey == []
    requires TearsDataKey(FilesAfter(files, launches[..i]), launches[i], random, n)
    ensures PastDataKey(Outcome(files, launches, j))
       <==> launches[j].env.dataKey.readable && n >= |Encode(Std, random)|
    ensures FilesAfter(files, launches[..j]).dataKey == Some(Cut(Encode(Std, random), n))
  {
    hide ResolveLaunch, FilesAfter, Encode, Cut, TearsDataKey;
    TearLeaves(FilesAfter(files, launches[..i]), launches[i], random, n);
    NextFiles(files, launches, i);
    FilesKept(files, launches, i + 1, j);
    TornResolves(FilesAfter(files, launches[..j]), launches[j], random, n);
  }

  /** The same for the token secret, of every later start with auth on that uses the file. */
  lemma TornSecretStopsStarts(files: Files, launches: seq<Launch>, i: nat, j: nat, random: Key, n: nat)
    requires i < j < |launches| && launches[j].options.authEnabled && launches[j].options.jwtSecret == []
    requires TearsJWTSecret(FilesAfter(files, launches[..i]), launches[i], random, n)
    ensures Outcome(files, launches, j).Ok?
       <==> PastDataKey(Outcome(files, launches, j)) && launches[j].env.jwtSecret.readable && n >= |Encode(Std, random)|
    ensures FilesAfter(files, launches[..j]).jwtSecret == Some(Cut(Encode(Std, random), n))
  {
    hide ResolveLaunch, FilesAfter, Encode, Cut, TearsJWTSecret;
    TearLeaves(FilesAfter(files, launches[..i]), launches[i], random, n);
    NextFiles(files, launches, i);
    FilesKept(files, launches, i + 1, j);
    TornResolves(FilesAfter(files, launches[..j]), launches[j], random, n);
  }
}
