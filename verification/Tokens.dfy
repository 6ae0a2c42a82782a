/**
 The HS256 tokens of auth.go: signing, validation and issuing. JSON and HMAC-SHA256
 are parameters (`Primitives`); the base64 text and the three dot-separated parts
 (RFC 7515 section 7.1) are concrete.
 */
module Tokens {
  import opened Wrappers
  import opened Base64

  datatype Claims = Claims(
    sub: string,
    tenantID: string,
    walletID: string,
    typ: string,
    iat: int,
    exp: int,
    jti: string)

  datatype Subject = Subject(tenantID: string, walletID: string, typ: string)

  datatype TokenError =
    | InvalidToken
    | InvalidSignature
    | InvalidBody
    | InvalidClaims
    | WrongType
    | Expired
    | MissingSubject

  /** The JSON header, the claims' JSON codec, and the keyed MAC. */
  datatype Primitives = Primitives(
    head: Bytes,
    marshal: Claims -> Bytes,
    unmarshal: Bytes -> Option<Claims>,
    mac: (Bytes, string) -> Bytes)

  datatype Keyring = Keyring(prims: Primitives, secret: Bytes)

  /** JSON gives these claims back. */
  ghost predicate Faithful(k: Keyring, c: Claims) {
    k.prims.unmarshal(k.prims.marshal(c)) == Some(c)
  }

  // ---- Splitting at dots ----

  /** strings.Split(s, "."). */
  function Split(s: string): (parts: seq<string>)
    ensures |parts| >= 1
  {
    if s == "" then [""]
    else
      var rest := Split(s[1..]);
      if s[0] == '.' then [""] + rest else [[s[0]] + rest[0]] + rest[1..]
  }

  lemma {:induction false} SplitHead(a: string, s: string)
    requires '.' !in a
    ensures Split(a + "." + s) == [a] + Split(s)
  {
    if a == "" {
      assert a + "." + s == ['.'] + s;
    } else {
      SplitHead(a[1..], s);
      assert (a + "." + s)[1..] == a[1..] + "." + s;
      assert a == [a[0]] + a[1..];
    }
  }

  lemma {:induction false} SplitWhole(a: string)
    requires '.' !in a
    ensures Split(a) == [a]
  {
    if a != "" {
      SplitWhole(a[1..]);
      assert a == [a[0]] + a[1..];
    }
  }

  lemma SplitThree(a: string, b: string, c: string)
    requires '.' !in a && '.' !in b && '.' !in c
    ensures Split(a + "." + b + "." + c) == [a, b, c]
  {
    assert a + "." + b + "." + c == a + "." + (b + "." + c);
    SplitHead(a, b + "." + c);
    SplitHead(b, c);
    SplitWhole(c);
  }

  // ---- Signing and validation ----

  function Unsigned(k: Keyring, c: Claims): string {
    Encode(RawURL, k.prims.head) + "." + Encode(RawURL, k.prims.marshal(c))
  }

  function Mac(k: Keyring, text: string): Bytes {
    k.prims.mac(k.secret, text)
  }

  function Sign(k: Keyring, c: Claims): string {
    Unsigned(k, c) + "." + Encode(RawURL, Mac(k, Unsigned(k, c)))
  }

  /** The claims checks that follow the signature check. `now` is in Unix seconds. */
  function CheckClaims(c: Claims, typ: string, now: int): Result<Subject, TokenError> {
    if c.typ != typ then Err(WrongType)
    else if now >= c.exp then Err(Expired)
    else if c.tenantID == "" || c.walletID == "" then Err(MissingSubject)
    else Ok(Subject(c.tenantID, c.walletID, c.typ))
  }

  function Validate(k: Keyring, token: string, typ: string, now: int): Result<Subject, TokenError> {
    var parts := Split(token);
    if |parts| != 3 then Err(InvalidToken)
    else if Decode(RawURL, parts[2]) != Some(Mac(k, parts[0] + "." + parts[1])) then Err(InvalidSignature)
    else
      match Decode(RawURL, parts[1])
      case None => Err(InvalidBody)
      case Some(body) =>
        match k.prims.unmarshal(body)
        case None => Err(InvalidClaims)
        case Some(claims) => CheckClaims(claims, typ, now)
  }

  /** A token is three base64 parts: the header, the claims, and the MAC of the two joined by a dot. */
  lemma SignedParts(k: Keyring, c: Claims)
    ensures var head, body := Encode(RawURL, k.prims.head), Encode(RawURL, k.prims.marshal(c));
      Split(Sign(k, c)) == [head, body, Encode(RawURL, k.prims.mac(k.secret, head + "." + body))]
  {
    var head, body := Encode(RawURL, k.prims.head), Encode(RawURL, k.prims.marshal(c));
    NoDot(k.prims.head);
    NoDot(k.prims.marshal(c));
    NoDot(Mac(k, Unsigned(k, c)));
    SplitThree(head, body, Encode(RawURL, Mac(k, Unsigned(k, c))));
  }

  /**
   Every text that carries the signed parts of `c` is judged by its signature text alone:
   it is accepted exactly when that text decodes to the MAC and the claims are current,
   of the right type and complete. The canonical signature is one such text.
   */
  lemma ValidateForms(k: Keyring, c: Claims, sig: string, typ: string, now: int)
    requires Faithful(k, c) && '.' !in sig
    ensures Validate(k, Unsigned(k, c) + "." + sig, typ, now)
         == if Spells(RawURL, StripNewlines(sig), Mac(k, Unsigned(k, c))) then CheckClaims(c, typ, now) else Err(InvalidSignature)
  {
    var head, body := Encode(RawURL, k.prims.head), Encode(RawURL, k.prims.marshal(c));
    NoDot(k.prims.head);
    NoDot(k.prims.marshal(c));
    SplitThree(head, body, sig);
    RoundTrip(RawURL, k.prims.marshal(c));
    DecodeExact(RawURL, sig, Mac(k, Unsigned(k, c)));
  }

  lemma ValidateCanonical(k: Keyring, c: Claims, typ: string, now: int)
    requires Faithful(k, c)
    ensures Validate(k, Sign(k, c), typ, now) == CheckClaims(c, typ, now)
  {
    var mac := Mac(k, Unsigned(k, c));
    NoDot(mac);
    RoundTrip(RawURL, mac);
    DecodeExact(RawURL, Encode(RawURL, mac), mac);
    ValidateForms(k, c, Encode(RawURL, mac), typ, now);
  }

  /** Exactly when a signed token validates: its own type, strictly before `exp`, complete. */
  lemma ValidateSigned(k: Keyring, c: Claims, typ: string, now: int)
    requires Faithful(k, c)
    ensures Validate(k, Sign(k, c), typ, now) == Ok(Subject(c.tenantID, c.walletID, c.typ))
       <==> typ == c.typ && now < c.exp && c.tenantID != "" && c.walletID != ""
    ensures typ != c.typ ==> Validate(k, Sign(k, c), typ, now) == Err(WrongType)
    ensures typ == c.typ && now >= c.exp ==> Validate(k, Sign(k, c), typ, now) == Err(Expired)
  {
    ValidateCanonical(k, c, typ, now);
  }

  lemma {:induction false} StripAppended(s: string)
    ensures StripNewlines(s + "\n") == StripNewlines(s)
  {
    if s == "" {
      assert s + "\n" == ['\n'];
    } else {
      StripAppended(s[1..]);
      assert (s + "\n")[1..] == s[1..] + "\n";
    }
  }

  /** Token text is not unique: appending a newline to a signed token changes nothing. */
  lemma TokenTextNotUnique(k: Keyring, c: Claims, typ: string, now: int)
    requires Faithful(k, c)
    ensures Sign(k, c) + "\n" != Sign(k, c)
    ensures Validate(k, Sign(k, c) + "\n", typ, now) == Validate(k, Sign(k, c), typ, now)
  {
    var sig := Encode(RawURL, Mac(k, Unsigned(k, c)));
    NoDot(Mac(k, Unsigned(k, c)));
    StripAppended(sig);
    ValidateForms(k, c, sig, typ, now);
    ValidateForms(k, c, sig + "\n", typ, now);
    assert Sign(k, c) + "\n" == Unsigned(k, c) + "." + (sig + "\n");
  }

  // ---- Unforgeability ----

  predicate MacVerifies(k: Keyring, token: string) {
    var parts := Split(token);
    |parts| == 3 && Decode(RawURL, parts[2]) == Some(Mac(k, parts[0] + "." + parts[1]))
  }

  /** The assumption on HMAC: a presented token verifies only if its signed text was signed here. */
  ghost predicate Unforged(k: Keyring, signed: set<Claims>, token: string) {
    MacVerifies(k, token) ==>
      exists c | c in signed :: Unsigned(k, c) == Split(token)[0] + "." + Split(token)[1]
  }

  lemma {:induction false} PartsHaveNoDot(s: string)
    ensures forall i | 0 <= i < |Split(s)| :: '.' !in Split(s)[i]
  {
    if s != "" {
      PartsHaveNoDot(s[1..]);
    }
  }

  /** Two dot-free parts are determined by the text that joins them. */
  lemma JoinInjective(a: string, b: string, c: string, d: string)
    requires '.' !in a && '.' !in b && '.' !in c && '.' !in d
    requires a + "." + b == c + "." + d
    ensures a == c && b == d
  {
    SplitHead(a, b);
    SplitHead(c, d);
    SplitWhole(b);
    SplitWhole(d);
    assert [a, b] == Split(a + "." + b) == Split(c + "." + d) == [c, d];
    assert [a, b][0] == [c, d][0] && [a, b][1] == [c, d][1];
  }

  /** Validation reveals claims the service signed: same tenant, wallet and type, not yet expired. */
  lemma OnlySignedClaims(k: Keyring, signed: set<Claims>, token: string, typ: string, now: int) returns (c: Claims)
    requires forall c | c in signed :: Faithful(k, c)
    requires Unforged(k, signed, token)
    requires Validate(k, token, typ, now).Ok?
    ensures c in signed && c.typ == typ && now < c.exp
    ensures c.tenantID != "" && c.walletID != ""
    ensures Validate(k, token, typ, now) == Ok(Subject(c.tenantID, c.walletID, typ))
  {
    var parts := Split(token);
    c :| c in signed && Unsigned(k, c) == parts[0] + "." + parts[1];
    PartsHaveNoDot(token);
    NoDot(k.prims.head);
    NoDot(k.prims.marshal(c));
    JoinInjective(Encode(RawURL, k.prims.head), Encode(RawURL, k.prims.marshal(c)), parts[0], parts[1]);
    RoundTrip(RawURL, k.prims.marshal(c));
  }

  // ---- Issuing ----

  const NANOS_PER_SECOND := 1_000_000_000

  /** time.Time.Unix for a time in nanoseconds since the epoch: seconds, rounded down. */
  function Unix(nanos: int): int {
    nanos / NANOS_PER_SECOND
  }

  datatype Lifetimes = Lifetimes(access: int, refresh: int)

  function NewClaims(tenantID: string, walletID: string, typ: string, now: int, ttl: int, jti: string): Claims {
    Claims(tenantID + ":" + walletID, tenantID, walletID, typ, Unix(now), Unix(now + ttl), jti)
  }

  /** The access and refresh claims of issueTokens; `now` and the lifetimes are in nanoseconds. */
  function Issue(tenantID: string, walletID: string, now: int, ttl: Lifetimes, jtis: (string, string)): (Claims, Claims) {
    (NewClaims(tenantID, walletID, "access", now, ttl.access, jtis.0),
     NewClaims(tenantID, walletID, "refresh", now, ttl.refresh, jtis.1))
  }

  /**
   The pair serves its wallet, each token only for its own use, until the whole second
   in which its lifetime ends.
   */
  lemma IssuedPairWindow(k: Keyring, tenantID: string, walletID: string, issuedAt: int, ttl: Lifetimes,
                         jtis: (string, string), at: int)
    requires tenantID != "" && walletID != ""
    requires var pair := Issue(tenantID, walletID, issuedAt, ttl, jtis); Faithful(k, pair.0) && Faithful(k, pair.1)
    ensures var pair := Issue(tenantID, walletID, issuedAt, ttl, jtis);
      && (Validate(k, Sign(k, pair.0), "access", Unix(at)) == Ok(Subject(tenantID, walletID, "access"))
          <==> Unix(at) < Unix(issuedAt + ttl.access))
      && (Validate(k, Sign(k, pair.1), "refresh", Unix(at)) == Ok(Subject(tenantID, walletID, "refresh"))
          <==> Unix(at) < Unix(issuedAt + ttl.refresh))
      && Validate(k, Sign(k, pair.0), "refresh", Unix(at)) == Err(WrongType)
      && Validate(k, Sign(k, pair.1), "access", Unix(at)) == Err(WrongType)
  {
    var pair := Issue(tenantID, walletID, issuedAt, ttl, jtis);
    ValidateSigned(k, pair.0, "access", Unix(at));
    ValidateSigned(k, pair.0, "refresh", Unix(at));
    ValidateSigned(k, pair.1, "refresh", Unix(at));
    ValidateSigned(k, pair.1, "access", Unix(at));
  }
}
