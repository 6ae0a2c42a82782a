/**
 Sealing of secrets at rest (encryption.go): "v1:" followed by the unpadded URL-safe
 base64 of nonce and ciphertext. AES-256-GCM itself is a parameter.
 */
module Sealing {
  import opened Wrappers
  import opened Base64

  const NONCE_SIZE := 12
  const KEY_SIZE := 32
  const SEALED_PREFIX := "v1:"

  type Nonce = b: Bytes | |b| == NONCE_SIZE witness [0, 0, 0, 0, 0, 0, 0, 0, 0, 0, 0, 0]

  /** seal(key, nonce, plaintext) and open(key, nonce, ciphertext). */
  datatype Aead = Aead(
    seal: (Bytes, Nonce, Bytes) -> Bytes,
    open: (Bytes, Nonce, Bytes) -> Option<Bytes>)

  datatype SealError = BadKey | NoRandomness | Unsupported | BadBase64 | TooShort | NotAuthentic

  /** Opening undoes sealing under the same key and nonce. */
  ghost predicate Correct(a: Aead) {
    forall key, nonce, p {:trigger a.seal(key, nonce, p)} :: a.open(key, nonce, a.seal(key, nonce, p)) == Some(p)
  }

  /** `random` is the nonce drawn, or absent when the random source fails. */
  function SealString(a: Aead, key: Bytes, random: Option<Nonce>, plaintext: Bytes): Result<string, SealError> {
    if plaintext == [] then Ok("")
    else if |key| != KEY_SIZE then Err(BadKey)
    else if random.None? then Err(NoRandomness)
    else Ok(SEALED_PREFIX + Encode(RawURL, random.value + a.seal(key, random.value, plaintext)))
  }

  function OpenString(a: Aead, key: Bytes, sealed: string): Result<Bytes, SealError> {
    if sealed == "" then Ok([])
    else if !(SEALED_PREFIX <= sealed) then Err(Unsupported)
    else
      match Decode(RawURL, sealed[|SEALED_PREFIX|..])
      case None => Err(BadBase64)
      case Some(raw) =>
        if |key| != KEY_SIZE then Err(BadKey)
        else if |raw| < NONCE_SIZE then Err(TooShort)
        else
          match a.open(key, raw[..NONCE_SIZE], raw[NONCE_SIZE..])
          case None => Err(NotAuthentic)
          case Some(p) => Ok(p)
  }

  /** Whatever was sealed opens to the same bytes, the empty secret included. */
  lemma OpenUndoesSeal(a: Aead, key: Bytes, random: Option<Nonce>, plaintext: Bytes)
    requires Correct(a)
    requires SealString(a, key, random, plaintext).Ok?
    ensures OpenString(a, key, SealString(a, key, random, plaintext).value) == Ok(plaintext)
  {
    if plaintext != [] {
      var ciphertext := a.seal(key, random.value, plaintext);
      var raw: Bytes := random.value + ciphertext;
      var sealed := SealString(a, key, random, plaintext).value;
      RoundTrip(RawURL, raw);
      assert sealed[|SEALED_PREFIX|..] == Encode(RawURL, raw);
      assert raw[..NONCE_SIZE] == random.value && raw[NONCE_SIZE..] == ciphertext;
    }
  }

  /** Sealing fails only for want of a proper key or of randomness, and never for the empty secret. */
  lemma SealSucceeds(a: Aead, key: Bytes, random: Option<Nonce>, plaintext: Bytes)
    ensures SealString(a, key, random, plaintext).Ok? <==> plaintext == [] || (|key| == KEY_SIZE && random.Some?)
    ensures SealString(a, key, random, plaintext) == Ok("") <==> plaintext == []
  {}

  /**
   Exactly which texts open, and to what: the empty text to the empty secret; otherwise "v1:" and
   a text that decodes to twelve bytes of nonce and a ciphertext that authenticates under a
   32-byte key. Everything else is refused.
   */
  lemma OpenExact(a: Aead, key: Bytes, sealed: string, p: Bytes)
    ensures OpenString(a, key, sealed) == Ok(p) <==>
      if sealed == "" then p == []
      else
        && |key| == 32 && |sealed| >= 3 && sealed[0] == 'v' && sealed[1] == '1' && sealed[2] == ':'
        && var text := Decode(RawURL, sealed[3..]);
           && text.Some? && |text.value| >= 12
           && a.open(key, text.value[..12], text.value[12..]) == Some(p)
  {
    hide Decode;
  }
}
