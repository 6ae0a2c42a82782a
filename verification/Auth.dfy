/**
 Request authorization (auth.go): the bootstrap exemption, the bearer header, the
 closed-by-default scope check, and the wrapper that checks a stream's first message.
 */
module Auth {
  import opened Wrappers
  import opened Tokens

  // ---- Identifiers and wallet keys ----

  predicate IsIDStart(c: char) {
    'A' <= c <= 'Z' || 'a' <= c <= 'z' || '0' <= c <= '9'
  }

  /** idRE: [A-Za-z0-9][A-Za-z0-9_.-]{0,127} */
  predicate ValidID(s: string) {
    && 1 <= |s| <= 128
    && IsIDStart(s[0])
    && forall i | 1 <= i < |s| :: IsIDStart(s[i]) || s[i] in {'_', '.', '-'}
  }

  /** Letters, digits and "_.-", by code point; the first is a letter or a digit; at most 128 of them. */
  lemma ValidIDExact(s: string)
    ensures ValidID(s) <==>
      && s != "" && |s| <= 128 && s[0] !in "_.-"
      && forall i | 0 <= i < |s| ::
           var n := s[i] as int; 48 <= n <= 57 || 65 <= n <= 90 || 97 <= n <= 122 || n == 95 || n == 46 || n == 45
  {}

  function WalletKey(tenantID: string, walletID: string): string {
    tenantID + "\0" + walletID
  }

  lemma KeySeparator(tenantID: string, walletID: string)
    requires '\0' !in tenantID
    ensures WalletKey(tenantID, walletID)[|tenantID|] == '\0'
    ensures forall i | 0 <= i < |tenantID| :: WalletKey(tenantID, walletID)[i] != '\0'
  {
    forall i | 0 <= i < |tenantID| ensures WalletKey(tenantID, walletID)[i] != '\0' {
      assert tenantID[i] in tenantID;
    }
  }

  lemma KeyDetermined(t1: string, w1: string, t2: string, w2: string)
    requires '\0' !in t1 && '\0' !in t2
    requires WalletKey(t1, w1) == WalletKey(t2, w2)
    ensures t1 == t2 && w1 == w2
  {
    var key := WalletKey(t1, w1);
    KeySeparator(t1, w1);
    KeySeparator(t2, w2);
    assert |t1| == |t2|;
    assert t1 == key[..|t1|] == t2;
    assert w1 == key[|t1| + 1..] == w2;
  }

  /** Validated identifiers give different wallets different keys. */
  lemma WalletKeyInjective(t1: string, w1: string, t2: string, w2: string)
    requires ValidID(t1) && ValidID(w1) && ValidID(t2) && ValidID(w2)
    ensures WalletKey(t1, w1) == WalletKey(t2, w2) <==> t1 == t2 && w1 == w2
  {
    if WalletKey(t1, w1) == WalletKey(t2, w2) {
      KeyDetermined(t1, w1, t2, w2);
    }
  }

  /** Without validation they need not: the separator can be part of an identifier. */
  lemma WalletKeyCollides()
    ensures WalletKey("a\0b", "c") == WalletKey("a", "b\0c") && !ValidID("a\0b") && !ValidID("b\0c")
  {
    assert "a\0b"[1] == '\0' && "b\0c"[1] == '\0';
  }

  // ---- The bearer header ----

  function Lower(c: char): char {
    if 'A' <= c <= 'Z' then c + 32 as char else c
  }

  const BEARER := "bearer "

  predicate HasBearerPrefix(value: string) {
    |value| >= |BEARER| && forall i | 0 <= i < |BEARER| :: Lower(value[i]) == BEARER[i]
  }

  /** unicode.IsSpace */
  predicate IsSpace(c: char) {
    || '\U{0009}' <= c <= '\U{000D}' || c == ' ' || c == '\U{0085}' || c == '\U{00A0}' || c == '\U{1680}'
    || '\U{2000}' <= c <= '\U{200A}' || c == '\U{2028}' || c == '\U{2029}' || c == '\U{202F}' || c == '\U{205F}' || c == '\U{3000}'
  }

  function TrimSpace(s: string): string {
    if s == "" then ""
    else if IsSpace(s[0]) then TrimSpace(s[1..])
    else if IsSpace(s[|s| - 1]) then TrimSpace(s[..|s| - 1])
    else s
  }

  predicate AllSpaces(s: string) {
    forall c | c in s :: IsSpace(c)
  }

  lemma TrimOne(s: string)
    ensures s != "" && IsSpace(s[0]) ==> TrimSpace(s) == TrimSpace(s[1..])
    ensures s != "" && !IsSpace(s[0]) && IsSpace(s[|s| - 1]) ==> TrimSpace(s) == TrimSpace(s[..|s| - 1])
    ensures s == "" || (!IsSpace(s[0]) && !IsSpace(s[|s| - 1])) ==> TrimSpace(s) == s
  {
    hide IsSpace;
  }

  /** Trimming takes off a run of spaces at each end, and all of it. */
  lemma {:induction false} TrimSpaceExact(s: string) returns (lead: string, trail: string)
    ensures s == lead + TrimSpace(s) + trail && AllSpaces(lead) && AllSpaces(trail)
    ensures TrimSpace(s) != "" ==> !IsSpace(TrimSpace(s)[0]) && !IsSpace(TrimSpace(s)[|TrimSpace(s)| - 1])
  {
    TrimOne(s);
    hide IsSpace, TrimSpace;
    if s != "" && IsSpace(s[0]) {
      var l, t := TrimSpaceExact(s[1..]);
      assert s == [s[0]] + s[1..] == ([s[0]] + l) + TrimSpace(s) + t;
      lead, trail := [s[0]] + l, t;
    } else if s != "" && IsSpace(s[|s| - 1]) {
      var l, t := TrimSpaceExact(s[..|s| - 1]);
      assert s == s[..|s| - 1] + [s[|s| - 1]] == l + TrimSpace(s) + (t + [s[|s| - 1]]);
      lead, trail := l, t + [s[|s| - 1]];
    } else {
      lead, trail := "", "";
    }
  }

  /** Seven characters, in whatever case. */
  lemma BearerPrefixExact(value: string)
    ensures HasBearerPrefix(value) <==>
      && |value| >= 7
      && value[0] in "bB" && value[1] in "eE" && value[2] in "aA" && value[3] in "rR" && value[4] in "eE" && value[5] in "rR"
      && value[6] == ' '
  {
    var b := BEARER;
    assert b[0] == 'b' && b[1] == 'e' && b[2] == 'a' && b[3] == 'r' && b[4] == 'e' && b[5] == 'r' && b[6] == ' ' && |b| == 7;
  }

  /** The token of the first "bearer" value, or "" when there is none. */
  function BearerToken(values: seq<string>): string {
    if values == [] then ""
    else if HasBearerPrefix(values[0]) then TrimSpace(values[0][|BEARER|..])
    else BearerToken(values[1..])
  }

  /** The scan in authSubjectFromContext. */
  method FindBearer(values: seq<string>) returns (token: string)
    ensures token == BearerToken(values)
  {
    token := "";
    var i := 0;
    while i < |values|
      invariant 0 <= i <= |values| && token == ""
      invariant BearerToken(values) == BearerToken(values[i..])
    {
      if HasBearerPrefix(values[i]) {
        token := TrimSpace(values[i][|BEARER|..]);
        return;
      }
      i := i + 1;
    }
  }

  // ---- Methods ----

  const SERVICE_PREFIX := "/bsvms.v1.BSVMS/"

  predicate HasSuffix(s: string, suffix: string) {
    |s| >= |suffix| && s[|s| - |suffix|..] == suffix
  }

  predicate IsBSVMSMethod(m: string) {
    SERVICE_PREFIX <= m
  }

  predicate IsBootstrapMethod(m: string) {
    HasSuffix(m, "/CreateWallet") || HasSuffix(m, "/RestoreWallet")
  }

  predicate IsRefreshMethod(m: string) {
    HasSuffix(m, "/RefreshToken")
  }

  /** What follows the last '/'. */
  function ShortMethod(m: string): string {
    if '/' in m then
      if m[|m| - 1] == '/' then "" else ShortMethod(m[..|m| - 1]) + [m[|m| - 1]]
    else m
  }

  const NODE_SCOPED_METHODS: set<string> := {
    "Status", "RefreshToken", "ConnectPeer", "BroadcastCustomSpend", "P2PKHOutput", "OpReturnOutput",
    "AnyoneCanSpendOutput", "ParseTransaction", "BroadcastRaw", "ExecuteScript", "DecodeOutputAddress",
    "PendingTransactions", "RebroadcastPendingTransactions", "StreamTransactions", "StreamBlocks",
    "StreamP2PTraffic", "StreamRejects", "VerifyTxSeen", "WaitForTxRelay"
  }

  // ---- Authorization ----

  /** The tenant_id and wallet_id a request carries; a request without the field has no scope. */
  datatype Scope = Scope(tenantID: string, walletID: string)

  datatype AuthError =
    | MissingMetadata
    | MissingBearer
    | BadToken(cause: TokenError)
    | AccessTokenRequired
    | NotTenantScoped
    | TenantRequired
    | TenantMismatch
    | WalletMismatch

  datatype Config = Config(enabled: bool, keys: Keyring)

  /** A request as the interceptor sees it; `headers` is absent when there is no metadata. */
  datatype Call = Call(name: string, scope: Option<Scope>, headers: Option<seq<string>>)

  predicate BootstrapAllowed(registered: set<string>, scope: Option<Scope>) {
    && scope.Some?
    && ValidID(scope.value.tenantID)
    && ValidID(scope.value.walletID)
    && WalletKey(scope.value.tenantID, scope.value.walletID) !in registered
  }

  function SubjectOf(keys: Keyring, now: int, headers: Option<seq<string>>): Result<Subject, AuthError> {
    if headers.None? then Err(MissingMetadata)
    else
      var token := BearerToken(headers.value);
      if token == "" then Err(MissingBearer)
      else
        match Validate(keys, token, "access", now)
        case Ok(sub) => Ok(sub)
        case Err(e) => Err(BadToken(e))
  }

  function CheckScope(call: Call, sub: Subject): Result<(), AuthError> {
    if sub.typ != "access" then Err(AccessTokenRequired)
    else if !IsBSVMSMethod(call.name) then Ok(())
    else if call.scope.None? then
      if ShortMethod(call.name) in NODE_SCOPED_METHODS then Ok(()) else Err(NotTenantScoped)
    else if call.scope.value.tenantID == "" then Err(TenantRequired)
    else if call.scope.value.tenantID != sub.tenantID then Err(TenantMismatch)
    else if call.scope.value.walletID != "" && call.scope.value.walletID != sub.walletID then Err(WalletMismatch)
    else Ok(())
  }

  /** `now` is in Unix seconds; `registered` holds the keys of the wallets in memory. */
  function Authorize(cfg: Config, registered: set<string>, now: int, call: Call): Result<(), AuthError> {
    if !cfg.enabled then Ok(())
    else if IsBootstrapMethod(call.name) && BootstrapAllowed(registered, call.scope) then Ok(())
    else if IsRefreshMethod(call.name) then Ok(())
    else
      match SubjectOf(cfg.keys, now, call.headers)
      case Err(e) => Err(e)
      case Ok(sub) => CheckScope(call, sub)
  }

  /** The method name after the service prefix is the short name the node-scoped list is searched for. */
  lemma {:induction false} ShortMethodOf(service: string, name: string)
    requires '/' !in name
    ensures ShortMethod(service + "/" + name) == name
  {
    var m := service + "/" + name;
    assert m[|service|] == '/';
    if name != "" {
      var n := |name| - 1;
      assert name[n] in name;
      ShortMethodOf(service, name[..n]);
      assert m[..|m| - 1] == service + "/" + name[..n];
      assert name == name[..n] + [name[n]];
    }
  }

  /**
   The short name is what follows the last '/', and the whole name when there is none: a name
   without '/' that the full name ends in.
   */
  lemma {:induction false} ShortMethodExact(m: string, name: string)
    ensures ShortMethod(m) == name <==> '/' !in name && (HasSuffix(m, "/" + name) || m == name)
  {
    SuffixHasSlash(m, name);
    if '/' in m {
      ShortMethodEnds(m);
      if '/' !in name && HasSuffix(m, "/" + name) {
        var service := m[..|m| - |name| - 1];
        assert m == service + "/" + name;
        ShortMethodOf(service, name);
      }
    }
  }

  lemma SuffixHasSlash(m: string, name: string)
    ensures HasSuffix(m, "/" + name) ==> '/' in m
  {
    if HasSuffix(m, "/" + name) {
      assert m[|m| - |"/" + name|..][0] == '/';
    }
  }

  lemma {:induction false} ShortMethodEnds(m: string)
    requires '/' in m
    ensures '/' !in ShortMethod(m) && HasSuffix(m, "/" + ShortMethod(m))
  {
    var n := |m| - 1;
    if m[n] != '/' {
      assert m == m[..n] + [m[n]];
      ShortMethodEnds(m[..n]);
      var short := "/" + ShortMethod(m[..n]);
      assert m[|m| - |short| - 1..] == m[..n][n - |short|..] + [m[n]];
      assert "/" + ShortMethod(m) == short + [m[n]];
    } else {
      assert m[n..] == "/" == "/" + ShortMethod(m);
    }
  }

  // ---- Which calls need no token ----

  /** RefreshToken, and CreateWallet or RestoreWallet of a validly named wallet that is not registered. */
  predicate NeedsNoToken(registered: set<string>, name: string, scope: Option<Scope>) {
    '/' in name &&
    (|| ShortMethod(name) == "RefreshToken"
     || (&& (ShortMethod(name) == "CreateWallet" || ShortMethod(name) == "RestoreWallet")
         && scope.Some? && ValidID(scope.value.tenantID) && ValidID(scope.value.walletID)
         && WalletKey(scope.value.tenantID, scope.value.walletID) !in registered))
  }

  lemma SuffixIsShort(m: string, name: string)
    requires '/' !in name
    ensures HasSuffix(m, "/" + name) <==> '/' in m && ShortMethod(m) == name
  {
    ShortMethodExact(m, name);
    SuffixHasSlash(m, name);
  }

  lemma ExemptNeedsNoToken(registered: set<string>, call: Call)
    ensures IsRefreshMethod(call.name) || (IsBootstrapMethod(call.name) && BootstrapAllowed(registered, call.scope))
       <==> NeedsNoToken(registered, call.name, call.scope)
  {
    hide ShortMethod, HasSuffix, ValidID, WalletKey;
    SuffixIsShort(call.name, "RefreshToken");
    SuffixIsShort(call.name, "CreateWallet");
    SuffixIsShort(call.name, "RestoreWallet");
    assert "/" + "RefreshToken" == "/RefreshToken" && "/" + "CreateWallet" == "/CreateWallet"
        && "/" + "RestoreWallet" == "/RestoreWallet";
  }

  /**
   Exactly which calls pass without any metadata: all when auth is off, otherwise those that
   need no token; the others are told that metadata is missing.
   */
  lemma AnonymousDecision(cfg: Config, registered: set<string>, now: int, name: string, scope: Option<Scope>)
    ensures Authorize(cfg, registered, now, Call(name, scope, None))
         == if !cfg.enabled || NeedsNoToken(registered, name, scope) then Ok(()) else Err(MissingMetadata)
  {
    ExemptNeedsNoToken(registered, Call(name, scope, None));
  }

  /** Headers without a bearer value are told so. */
  lemma {:induction false} NoBearer(values: seq<string>)
    requires forall v | v in values :: !HasBearerPrefix(v)
    ensures BearerToken(values) == ""
  {
    if values != [] {
      assert values[0] in values && forall v | v in values[1..] :: v in values;
      NoBearer(values[1..]);
    }
  }

  lemma BearerMissing(cfg: Config, registered: set<string>, now: int, name: string, scope: Option<Scope>, values: seq<string>)
    requires cfg.enabled && !NeedsNoToken(registered, name, scope)
    requires forall v | v in values :: !HasBearerPrefix(v)
    ensures Authorize(cfg, registered, now, Call(name, scope, Some(values))) == Err(MissingBearer)
  {
    NoBearer(values);
    ExemptNeedsNoToken(registered, Call(name, scope, None));
  }

  /** A call that needs no token passes whatever headers it carries, and so does every call with auth off. */
  lemma NoTokenAsked(cfg: Config, registered: set<string>, now: int, call: Call)
    requires !cfg.enabled || NeedsNoToken(registered, call.name, call.scope)
    ensures Authorize(cfg, registered, now, call) == Ok(())
  {
    ExemptNeedsNoToken(registered, call);
  }

  // ---- Soundness: what a passed check means ----

  /** The scope `c` grants: its tenant always, and its wallet when one is named. */
  predicate Within(scope: Scope, c: Claims) {
    scope.tenantID != "" && scope.tenantID == c.tenantID && (scope.walletID == "" || scope.walletID == c.walletID)
  }

  /** The token this call presents, if any. */
  function Presented(call: Call): string {
    if call.headers.Some? then BearerToken(call.headers.value) else ""
  }

  /**
   With auth on, a call to this service that needs a token and passes was made with a live
   access token the service signed; it stays inside that token's tenant and wallet, or it is
   one of the listed node-scoped methods and carries no tenant at all.
   */
  lemma AuthorizeSound(cfg: Config, signed: set<Claims>, registered: set<string>, now: int, call: Call) returns (c: Claims)
    requires cfg.enabled && IsBSVMSMethod(call.name) && !NeedsNoToken(registered, call.name, call.scope)
    requires forall c | c in signed :: Faithful(cfg.keys, c)
    requires Unforged(cfg.keys, signed, Presented(call))
    requires Authorize(cfg, registered, now, call).Ok?
    ensures c in signed && c.typ == "access" && now < c.exp
    ensures call.scope.Some? ==> Within(call.scope.value, c)
    ensures call.scope.None? ==> ShortMethod(call.name) in NODE_SCOPED_METHODS
  {
    ExemptNeedsNoToken(registered, call);
    c := OnlySignedClaims(cfg.keys, signed, Presented(call), "access", now);
  }

  // ---- Completeness: the holder of a token can use it ----

  predicate NoSpaces(s: string) {
    forall i | 0 <= i < |s| :: !IsSpace(s[i])
  }

  lemma SignedHasNoSpaces(k: Keyring, c: Claims)
    ensures NoSpaces(Sign(k, c)) && Sign(k, c) != ""
  {
    var head, body, mac := k.prims.head, k.prims.marshal(c), Mac(k, Unsigned(k, c));
    Base64.EncodedChars(Base64.RawURL, head);
    Base64.EncodedChars(Base64.RawURL, body);
    Base64.EncodedChars(Base64.RawURL, mac);
    forall i | 0 <= i < |Sign(k, c)| ensures !IsSpace(Sign(k, c)[i]) {
      var ch := Sign(k, c)[i];
      assert ch == '.' || ch in Base64.Encode(Base64.RawURL, head) || ch in Base64.Encode(Base64.RawURL, body)
          || ch in Base64.Encode(Base64.RawURL, mac);
    }
  }

  /** The token is read from the first bearer value, whatever stands around it. */
  lemma {:induction false} HeaderRoundTrip(k: Keyring, c: Claims, others: seq<string>, rest: seq<string>)
    requires forall v | v in others :: !HasBearerPrefix(v)
    ensures BearerToken(others + ["Bearer " + Sign(k, c)] + rest) == Sign(k, c)
  {
    var value := "Bearer " + Sign(k, c);
    var values := others + [value] + rest;
    if others == [] {
      SignedHasNoSpaces(k, c);
      var lead := "Bearer ";
      forall i | 0 <= i < |BEARER| ensures Lower(value[i]) == BEARER[i] {
        assert value[i] == lead[i];
      }
      assert value[|BEARER|..] == Sign(k, c);
      assert values[0] == value;
    } else {
      HeaderRoundTrip(k, c, others[1..], rest);
      assert values[0] == others[0] && values[1..] == others[1..] + [value] + rest;
    }
  }

  /** What a live access token opens: a scope within its own, a node-scoped method, or a method of another service. */
  predicate Opens(call: Call, c: Claims) {
    !IsBSVMSMethod(call.name) ||
    match call.scope
    case None => ShortMethod(call.name) in NODE_SCOPED_METHODS
    case Some(scope) => Within(scope, c)
  }

  /**
   Exactly when the bearer of a signed token may make a call, through the header, the split,
   base64 and JSON: with auth off, when no token is needed, or with a live and complete access
   token that opens the call.
   */
  lemma CallDecision(cfg: Config, registered: set<string>, now: int, name: string, scope: Option<Scope>,
                     c: Claims, others: seq<string>, rest: seq<string>)
    requires Faithful(cfg.keys, c)
    requires forall v | v in others :: !HasBearerPrefix(v)
    ensures var call := Call(name, scope, Some(others + ["Bearer " + Sign(cfg.keys, c)] + rest));
      Authorize(cfg, registered, now, call).Ok? <==>
        || !cfg.enabled
        || NeedsNoToken(registered, name, scope)
        || (c.typ == "access" && now < c.exp && c.tenantID != "" && c.walletID != "" && Opens(call, c))
  {
    CallJudged(cfg, registered, now, name, scope, c, others, rest);
    if !cfg.enabled || NeedsNoToken(registered, name, scope) {
      NoTokenAsked(cfg, registered, now, Call(name, scope, Some(others + ["Bearer " + Sign(cfg.keys, c)] + rest)));
    }
  }

  /** Why the bearer of a signed token is refused, where a token is needed. */
  lemma CallJudged(cfg: Config, registered: set<string>, now: int, name: string, scope: Option<Scope>,
                   c: Claims, others: seq<string>, rest: seq<string>)
    requires Faithful(cfg.keys, c)
    requires forall v | v in others :: !HasBearerPrefix(v)
    ensures var call := Call(name, scope, Some(others + ["Bearer " + Sign(cfg.keys, c)] + rest));
      var r := Authorize(cfg, registered, now, call);
      cfg.enabled && !NeedsNoToken(registered, name, scope) ==>
        && (r == Err(BadToken(WrongType)) <==> c.typ != "access")
        && (r == Err(BadToken(Expired)) <==> c.typ == "access" && c.exp <= now)
        && (r == Err(BadToken(MissingSubject)) <==> Current(c, now) && (c.tenantID == "" || c.walletID == ""))
        && (Current(c, now) && c.tenantID != "" && c.walletID != "" ==>
              && (r == Ok(()) <==> Opens(call, c))
              && (r == Err(NotTenantScoped) <==> IsBSVMSMethod(name) && scope.None? && ShortMethod(name) !in NODE_SCOPED_METHODS)
              && (r == Err(TenantRequired) <==> IsBSVMSMethod(name) && scope.Some? && scope.value.tenantID == "")
              && (r == Err(TenantMismatch) <==> IsBSVMSMethod(name) && scope.Some? && scope.value.tenantID !in {"", c.tenantID})
              && (r == Err(WalletMismatch) <==>
                    && IsBSVMSMethod(name) && scope.Some? && scope.value.tenantID == c.tenantID
                    && scope.value.walletID !in {"", c.walletID}))
  {
    HeaderRoundTrip(cfg.keys, c, others, rest);
    SignedHasNoSpaces(cfg.keys, c);
    ValidateCanonical(cfg.keys, c, "access", now);
    ExemptNeedsNoToken(registered, Call(name, scope, None));
  }

  predicate Current(c: Claims, now: int) {
    c.typ == "access" && now < c.exp
  }

  // ---- Every RPC of the service ----

  /** The RPCs whose request carries a tenant_id, and those whose request does not. */
  const WALLET_RPCS: set<string> := {
    "ListWallets", "CreateWallet", "RestoreWallet", "GetWallet", "NewAddress", "BatchNewAddresses",
    "DeriveAt", "PubKeyAt", "SignHashAt", "NextIndex", "Balance"
  }

  const COIN_RPCS: set<string> := {
    "ListUTXOs", "ImportUTXO", "ProcessRawTx", "ClearUTXOs", "ReloadFromStore", "WipeWallet",
    "PruneUnknownUTXOs", "IgnoreOutpoint", "IsOutpointIgnored", "UntrackUTXO", "CanCover"
  }

  const SPENDING_RPCS: set<string> := {
    "Send", "SendAll", "SpendToOutputs", "StreamPayments", "StreamWalletTransactions", "TxState",
    "AbandonTransaction", "ClearIgnoredOutpoints", "OwnsScript", "Rescan", "GetIncompleteCursor"
  }

  const TENANT_RPCS := WALLET_RPCS + COIN_RPCS + SPENDING_RPCS

  const TRANSACTION_RPCS: set<string> := {
    "Status", "RefreshToken", "ConnectPeer", "BroadcastCustomSpend", "P2PKHOutput", "OpReturnOutput",
    "AnyoneCanSpendOutput", "ParseTransaction", "BroadcastRaw", "ExecuteScript"
  }

  const FEED_RPCS: set<string> := {
    "DecodeOutputAddress", "PendingTransactions", "RebroadcastPendingTransactions", "StreamTransactions",
    "StreamBlocks", "StreamP2PTraffic", "StreamRejects", "VerifyTxSeen", "WaitForTxRelay"
  }

  const NODE_RPCS := TRANSACTION_RPCS + FEED_RPCS

  lemma SameLists()
    ensures NODE_SCOPED_METHODS == NODE_RPCS
  {}

  lemma WalletApart(name: string)
    requires name in WALLET_RPCS
    ensures name !in TRANSACTION_RPCS && name !in FEED_RPCS
  {}

  lemma CoinApart(name: string)
    requires name in COIN_RPCS
    ensures name !in TRANSACTION_RPCS && name !in FEED_RPCS
  {}

  lemma SpendingApart(name: string)
    requires name in SPENDING_RPCS
    ensures name !in TRANSACTION_RPCS && name !in FEED_RPCS
  {}

  lemma ListsApart(name: string)
    ensures name in TENANT_RPCS ==> name !in NODE_RPCS
  {
    hide WALLET_RPCS, COIN_RPCS, SPENDING_RPCS, TRANSACTION_RPCS, FEED_RPCS;
    if name in WALLET_RPCS {
      WalletApart(name);
    } else if name in COIN_RPCS {
      CoinApart(name);
    } else if name in SPENDING_RPCS {
      SpendingApart(name);
    }
  }

  /** The node-scoped list is exactly the RPCs whose request carries no tenant_id. */
  lemma NodeScopedExact(name: string)
    requires name in TENANT_RPCS || name in NODE_RPCS
    ensures name in NODE_SCOPED_METHODS <==> name !in TENANT_RPCS
    ensures NODE_SCOPED_METHODS == NODE_RPCS
  {
    hide *;
    SameLists();
    ListsApart(name);
  }

  predicate NoSlash(name: string) {
    '/' !in name
  }

  lemma WalletNoSlash()
    ensures forall name | name in WALLET_RPCS :: NoSlash(name)
  {}

  lemma CoinNoSlash()
    ensures forall name | name in COIN_RPCS :: NoSlash(name)
  {}

  lemma SpendingNoSlash()
    ensures forall name | name in SPENDING_RPCS :: NoSlash(name)
  {}

  lemma TransactionNoSlash()
    ensures forall name | name in TRANSACTION_RPCS :: NoSlash(name)
  {}

  lemma FeedNoSlash()
    ensures forall name | name in FEED_RPCS :: NoSlash(name)
  {}

  lemma RPCsNoSlash(name: string)
    requires name in TENANT_RPCS || name in NODE_RPCS
    ensures NoSlash(name)
  {
    hide WALLET_RPCS, COIN_RPCS, SPENDING_RPCS, TRANSACTION_RPCS, FEED_RPCS, NoSlash;
    WalletNoSlash();
    CoinNoSlash();
    SpendingNoSlash();
    TransactionNoSlash();
    FeedNoSlash();
  }

  /**
   No RPC is closed to those it is for: with a live access token, every RPC of the service passes
   whose request has the fields its type has and stays inside the token's tenant and wallet.
   */
  lemma EveryRPCOpens(cfg: Config, registered: set<string>, now: int, rpc: string, scope: Option<Scope>,
                      c: Claims, others: seq<string>, rest: seq<string>)
    requires Faithful(cfg.keys, c) && Current(c, now) && c.tenantID != "" && c.walletID != ""
    requires forall v | v in others :: !HasBearerPrefix(v)
    requires if scope.Some? then rpc in TENANT_RPCS && Within(scope.value, c) else rpc in NODE_RPCS
    ensures Authorize(cfg, registered, now, Call("/bsvms.v1.BSVMS/" + rpc, scope, Some(others + ["Bearer " + Sign(cfg.keys, c)] + rest))).Ok?
  {
    hide Authorize, NeedsNoToken, ShortMethod, NODE_SCOPED_METHODS, TENANT_RPCS, NODE_RPCS;
    NodeScopedExact(rpc);
    RPCsNoSlash(rpc);
    assert "/bsvms.v1.BSVMS/" + rpc == "/bsvms.v1.BSVMS" + "/" + rpc;
    ShortMethodOf("/bsvms.v1.BSVMS", rpc);
    CallDecision(cfg, registered, now, "/bsvms.v1.BSVMS/" + rpc, scope, c, others, rest);
  }

  // ---- Streams: the first message is checked ----

  datatype RecvError = Transport | Refused(cause: AuthError)

  /** authServerStream: authorizes the first message a stream receives. */
  class AuthStream {
    const cfg: Config
    const name: string
    const headers: Option<seq<string>>
    var checked: bool

    constructor (cfg: Config, name: string, headers: Option<seq<string>>)
      ensures this.cfg == cfg && this.name == name && this.headers == headers && !checked
    {
      this.cfg, this.name, this.headers, checked := cfg, name, headers, false;
    }

    /** `message` is absent when the transport fails; otherwise it is the request's scope. */
    method RecvMsg(message: Option<Option<Scope>>, registered: set<string>, now: int) returns (r: Result<(), RecvError>)
      modifies this`checked
      ensures checked == (old(checked) || message.Some?)
      ensures message.None? ==> r == Err(Transport)
      ensures message.Some? && old(checked) ==> r == Ok(())
      ensures message.Some? && !old(checked) ==>
        r == match Authorize(cfg, registered, now, Call(name, message.value, headers))
             case Ok(_) => Ok(())
             case Err(e) => Err(Refused(e))
    {
      if message.None? {
        return Err(Transport);
      }
      if checked {
        return Ok(());
      }
      checked := true;
      match Authorize(cfg, registered, now, Call(name, message.value, headers))
      case Ok(_) => r := Ok(());
      case Err(e) => r := Err(Refused(e));
    }
  }
}
