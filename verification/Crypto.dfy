/** At-rest encryption (app/crypto.py) over an abstract authenticated cipher.

    The case splits on stored text are the program's; Fernet itself is a record of
    functions about which `Sound` is all that is assumed. */
module Crypto {
  import opened Wrappers

  type Key = nat

  const PREFIX := "fernet1:"
  const BLOB_PREFIX := "gAAAA"

  /** `enc` takes a nonce, because the same plaintext never encrypts to the same text twice.
      `framed` is the base64, length and version part of the wire-format test. */
  datatype Cipher = Cipher(
    enc: (Key, nat, string) -> string,
    dec: (Key, string) -> Option<string>,
    framed: string -> bool)

  datatype Failure = TokenDecryptionError | EncryptedDataError

  ghost predicate Sound(c: Cipher) {
    && (forall k, n, p :: c.dec(k, c.enc(k, n, p)) == Some(p))
    && (forall k, k', n, p :: k != k' ==> c.dec(k', c.enc(k, n, p)) == None)
    && (forall k, n, p :: IsFernetFormat(c, c.enc(k, n, p)))
  }

  /** Both parts of the wire-format test used to tell ciphertext from plaintext. */
  predicate IsFernetFormat(c: Cipher, text: string) {
    BLOB_PREFIX <= text && c.framed(text)
  }

  function EncryptToken(c: Cipher, k: Key, nonce: nat, plain: string): string {
    if plain == "" then "" else PREFIX + c.enc(k, nonce, plain)
  }

  /** Only a `fernet1:` value whose remainder looks like ciphertext fails closed; every
      other value that does not decrypt is a plaintext token from older deployments. */
  function DecryptToken(c: Cipher, k: Key, stored: string): Result<string, Failure> {
    if stored == "" then Ok("")
    else if PREFIX <= stored then
      var blob := stored[|PREFIX|..];
      match c.dec(k, blob)
      case Some(plain) => Ok(plain)
      case None => if IsFernetFormat(c, blob) then Err(TokenDecryptionError) else Ok(stored)
    else if IsFernetFormat(c, stored) then
      match c.dec(k, stored)
      case Some(plain) => Ok(plain)
      case None => Ok(stored)
    else Ok(stored)
  }

  function EncryptData(c: Cipher, k: Key, nonce: nat, plain: string): string {
    PREFIX + c.enc(k, nonce, plain)
  }

  function DecryptData(c: Cipher, k: Key, stored: string): Result<string, Failure> {
    if PREFIX <= stored then
      match c.dec(k, stored[|PREFIX|..])
      case Some(plain) => Ok(plain)
      case None => Err(EncryptedDataError)
    else Err(EncryptedDataError)
  }

  /** A token stored here comes back unchanged under the same key, the empty one included;
      under any other key a non-empty one is an error and never its own ciphertext. */
  lemma TokenRoundTrip(c: Cipher, k: Key, k': Key, nonce: nat, plain: string)
    requires Sound(c)
    ensures DecryptToken(c, k, EncryptToken(c, k, nonce, plain)) == Ok(plain)
    ensures k != k' && plain != ""
            ==> DecryptToken(c, k', EncryptToken(c, k, nonce, plain)) == Err(TokenDecryptionError)
  {
    if plain != "" {
      var stored := EncryptToken(c, k, nonce, plain);
      assert stored[|PREFIX|..] == c.enc(k, nonce, plain);
    }
  }

  /** Sensitive data has no plaintext fallback: it opens only as what was sealed, under its own key. */
  lemma DataRoundTrip(c: Cipher, k: Key, k': Key, nonce: nat, plain: string)
    requires Sound(c)
    ensures DecryptData(c, k', EncryptData(c, k, nonce, plain))
            == if k == k' then Ok(plain) else Err(EncryptedDataError)
  {
    var stored := EncryptData(c, k, nonce, plain);
    assert stored[|PREFIX|..] == c.enc(k, nonce, plain);
  }

  /** A token saved before encryption existed is never lost: text without the prefix always
      decrypts, to itself unless it is ciphertext under the current key. */
  lemma LegacyTokenNeverFails(c: Cipher, k: Key, stored: string)
    requires !(PREFIX <= stored)
    ensures var r := DecryptToken(c, k, stored);
            r.Ok? && (c.dec(k, stored) == None ==> r.value == stored)
  {}

  /** Ciphertext stored without the prefix opens under its key, and under another is taken as it is. */
  lemma UnprefixedOpens(c: Cipher, k: Key, k': Key, nonce: nat, plain: string)
    requires Sound(c) && !(PREFIX <= c.enc(k, nonce, plain))
    ensures DecryptToken(c, k', c.enc(k, nonce, plain)) == Ok(if k == k' then plain else c.enc(k, nonce, plain))
  {
    assert IsFernetFormat(c, c.enc(k, nonce, plain));
  }

  /** A prefixed token that does not decrypt is an error if it looks like ciphertext, and itself if not. */
  lemma PrefixedFails(c: Cipher, k: Key, blob: string)
    requires c.dec(k, blob).None?
    ensures DecryptToken(c, k, PREFIX + blob)
            == if BLOB_PREFIX <= blob && c.framed(blob) then Err(TokenDecryptionError) else Ok(PREFIX + blob)
  {
    assert (PREFIX + blob)[|PREFIX|..] == blob;
  }

  // ----- the assumptions can be met -----

  function Repeat(n: nat): (s: string)
    ensures |s| == n && forall i :: 0 <= i < n ==> s[i] == '1'
  {
    seq(n, _ => '1')
  }

  function ToyEnc(k: Key, nonce: nat, plain: string): string {
    BLOB_PREFIX + Repeat(k) + "0" + plain
  }

  predicate ToyFramed(k: Key, text: string) {
    |text| > |BLOB_PREFIX| + k && BLOB_PREFIX + Repeat(k) + "0" <= text
  }

  function ToyDec(k: Key, text: string): Option<string> {
    if ToyFramed(k, text) then Some(text[|BLOB_PREFIX| + k + 1..]) else None
  }

  /** `Sound` is satisfiable: a cipher that writes the key in unary has every property asked of it. */
  lemma SoundCipherExists() returns (c: Cipher)
    ensures Sound(c)
  {
    c := Cipher(ToyEnc, ToyDec, _ => true);
    forall k, n, p ensures c.dec(k, c.enc(k, n, p)) == Some(p) {
      var head := BLOB_PREFIX + Repeat(k) + "0";
      assert ToyEnc(k, n, p) == head + p;
      assert (head + p)[..|head|] == head && (head + p)[|head|..] == p;
    }
    forall k, k', n, p | k != k' ensures c.dec(k', c.enc(k, n, p)) == None {
      var text, least := ToyEnc(k, n, p), if k < k' then k else k';
      assert text[|BLOB_PREFIX| + k] == '0' && (least < k ==> text[|BLOB_PREFIX| + least] == '1');
      assert !ToyFramed(k', text);
    }
    forall k, n, p ensures IsFernetFormat(c, c.enc(k, n, p)) {
      assert BLOB_PREFIX <= ToyEnc(k, n, p);
    }
  }
}
