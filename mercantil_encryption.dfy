/** `Mercantil_Encryption` and its two helper functions: key derivation from the merchant's
    secret, key normalisation to 16 bytes, and AES-128-ECB encryption of one field with a
    base64 envelope. The primitives (SHA-256, AES-128-ECB, base64, `openssl_error_string`)
    are supplied as a `Crypto` value; `Lawful` states the only facts about them the
    model relies on. PHP exceptions are `Thrown` results. */
module MercantilEncryption {
  import opened Prelude
  import opened Php

  const KeyLength := 16

  const EmptyKeyMessage := "La clave secreta no puede estar vacía"
  const EmptyDataMessage := "Los datos a encriptar no pueden estar vacíos"
  const EmptyEncryptedMessage := "Los datos encriptados no pueden estar vacíos"

  /** The cryptographic library, as seen by the plugin. */
  datatype Crypto = Crypto(
    sha256: string -> string,                       // hash("sha256", m, true)
    aesEncrypt: (string, string) -> Option<string>, // (key, data): openssl_encrypt(data, 'aes-128-ecb', key, OPENSSL_RAW_DATA); None for false
    aesDecrypt: (string, string) -> Option<string>, // (key, raw): openssl_decrypt(raw, 'aes-128-ecb', key, OPENSSL_RAW_DATA); None for false
    base64Encode: string -> string,
    base64Decode: string -> string,
    lastError: string)                              // openssl_error_string()

  /** The facts assumed about the primitives: a SHA-256 digest has 32 bytes; an AES-128
      ciphertext under a 16-byte key is non-empty and decrypts to its plaintext; base64
      decoding inverts encoding, and an encoding has 4 characters per 3 bytes, rounded up. */
  ghost predicate Lawful(c: Crypto) {
    && (forall m :: |c.sha256(m)| == 32)
    && (forall k, d :: |k| == KeyLength && c.aesEncrypt(k, d).Some? ==>
          |c.aesEncrypt(k, d).value| > 0 && c.aesDecrypt(k, c.aesEncrypt(k, d).value) == Some(d))
    && (forall b :: c.base64Decode(c.base64Encode(b)) == b)
    && (forall b :: |c.base64Encode(b)| == (|b| + 2) / 3 * 4)
  }

  /** `create_key_hash`: the first 16 bytes of the binary SHA-256 digest of the secret;
      an empty secret (including "0") throws. */
  function CreateKeyHash(c: Crypto, key: string): (r: Result<string>)
    ensures r.Thrown? <==> Empty(key)
    ensures r.Thrown? ==> r.message == EmptyKeyMessage
    ensures r.Ok? ==> r.value == Prefix(c.sha256(key), KeyLength)
  {
    if Empty(key) then Thrown(EmptyKeyMessage) else Ok(Prefix(c.sha256(key), KeyLength))
  }

  /** With a 32-byte digest, the derived key has exactly 16 bytes, the digest's first 16. */
  lemma KeyHashLength(c: Crypto, key: string)
    requires Lawful(c) && !Empty(key)
    ensures |CreateKeyHash(c, key).value| == KeyLength
    ensures CreateKeyHash(c, key).value == c.sha256(key)[..KeyLength]
  {
    assert |c.sha256(key)| == 32;
  }

  function Repeat(ch: char, n: nat): (r: string)
    ensures |r| == n && forall i :: 0 <= i < n ==> r[i] == ch
  {
    if n == 0 then "" else Repeat(ch, n - 1) + [ch]
  }

  /** `fix_key_length`: `str_pad` with '0' up to 16 bytes, or `substr` down to 16. */
  function FixKeyLength(key: string): (r: string)
    ensures |r| == KeyLength
    ensures |key| <= KeyLength ==> r[..|key|] == key && forall i :: |key| <= i < KeyLength ==> r[i] == '0'
    ensures |key| >= KeyLength ==> r == key[..KeyLength]
  {
    if |key| < KeyLength then key + Repeat('0', KeyLength - |key|)
    else if |key| > KeyLength then key[..KeyLength]
    else key
  }

  /** Normalising a normalised key changes nothing. */
  lemma FixKeyLengthIdempotent(key: string)
    ensures FixKeyLength(FixKeyLength(key)) == FixKeyLength(key)
  {
    var k := FixKeyLength(key);
    assert k[..KeyLength] == k;
  }

  /** `Mercantil_Encryption::encrypt`: throws on empty data or when the cipher fails;
      otherwise the base64 of the raw ciphertext under the normalised key. */
  function Encrypt(c: Crypto, key: string, data: string): (r: Result<string>)
    ensures Empty(data) ==> r == Thrown(EmptyDataMessage)
    ensures !Empty(data) ==> (r.Ok? <==> c.aesEncrypt(FixKeyLength(key), data).Some?)
    ensures r.Ok? ==> exists raw :: c.aesEncrypt(FixKeyLength(key), data) == Some(raw) && r.value == c.base64Encode(raw)
  {
    if Empty(data) then Thrown(EmptyDataMessage)
    else
      match c.aesEncrypt(FixKeyLength(key), data)
      case None => Thrown("Error en la encriptación: " + c.lastError)
      case Some(raw) => Ok(c.base64Encode(raw))
  }

  /** `Mercantil_Encryption::decrypt`: throws on empty input or when the cipher fails;
      otherwise the plaintext of the base64-decoded input under the normalised key. */
  function Decrypt(c: Crypto, key: string, encrypted: string): (r: Result<string>)
    ensures Empty(encrypted) ==> r == Thrown(EmptyEncryptedMessage)
    ensures !Empty(encrypted) ==> (r.Ok? <==> c.aesDecrypt(FixKeyLength(key), c.base64Decode(encrypted)).Some?)
    ensures r.Ok? ==> c.aesDecrypt(FixKeyLength(key), c.base64Decode(encrypted)) == Some(r.value)
  {
    if Empty(encrypted) then Thrown(EmptyEncryptedMessage)
    else
      match c.aesDecrypt(FixKeyLength(key), c.base64Decode(encrypted))
      case None => Thrown("Error en la desencriptación: " + c.lastError)
      case Some(plain) => Ok(plain)
  }

  /** A base64 envelope of a non-empty ciphertext is at least 4 characters, so PHP's
      `empty()` never sees it as empty. */
  lemma CiphertextNotEmpty(c: Crypto, raw: string)
    requires Lawful(c) && |raw| > 0
    ensures !Empty(c.base64Encode(raw))
  {
    assert |c.base64Encode(raw)| == (|raw| + 2) / 3 * 4;
  }

  /** Round trip: whatever `encrypt` returns, `decrypt` with the same key turns back into
      the original data. */
  lemma DecryptEncrypt(c: Crypto, key: string, data: string)
    requires Lawful(c)
    requires Encrypt(c, key, data).Ok?
    ensures Decrypt(c, key, Encrypt(c, key, data).value) == Ok(data)
  {
    var k := FixKeyLength(key);
    var raw := c.aesEncrypt(k, data).value;
    assert |raw| > 0 && c.aesDecrypt(k, raw) == Some(data);
    CiphertextNotEmpty(c, raw);
    assert c.base64Decode(c.base64Encode(raw)) == raw;
  }

  /** A key derived by `create_key_hash` already has 16 bytes, so the cipher is keyed with
      it unchanged. */
  lemma DerivedKeyUnchanged(c: Crypto, secret: string)
    requires Lawful(c) && !Empty(secret)
    ensures FixKeyLength(CreateKeyHash(c, secret).value) == CreateKeyHash(c, secret).value
  {
    KeyHashLength(c, secret);
    var k := CreateKeyHash(c, secret).value;
    assert k[..KeyLength] == k;
  }

  /** `mercantil_encrypt_data`: never throws; every failure becomes "". */
  function EncryptData(c: Crypto, data: string, secret: string): (r: string)
    ensures Empty(secret) || Empty(data) ==> r == ""
    ensures !Empty(secret) && !Empty(data) && c.aesEncrypt(FixKeyLength(CreateKeyHash(c, secret).value), data).None? ==> r == ""
  {
    match CreateKeyHash(c, secret)
    case Thrown(_) => ""
    case Ok(keyHash) =>
      match Encrypt(c, keyHash, data)
      case Thrown(_) => ""
      case Ok(encrypted) => encrypted
  }

  /** `mercantil_decrypt_data`: never throws; every failure becomes "". */
  function DecryptData(c: Crypto, encrypted: string, secret: string): (r: string)
    ensures Empty(secret) || Empty(encrypted) ==> r == ""
    ensures var k := CreateKeyHash(c, secret);
      k.Ok? && Decrypt(c, k.value, encrypted).Ok? ==> r == Decrypt(c, k.value, encrypted).value
    ensures var k := CreateKeyHash(c, secret);
      k.Ok? && Decrypt(c, k.value, encrypted).Thrown? ==> r == ""
  {
    match CreateKeyHash(c, secret)
    case Thrown(_) => ""
    case Ok(keyHash) =>
      match Decrypt(c, keyHash, encrypted)
      case Thrown(_) => ""
      case Ok(plain) => plain
  }

  /** The helper returns "" exactly when the secret or the data is empty or the cipher
      refuses the data under the key derived from the secret. */
  lemma EncryptDataEmptyIff(c: Crypto, data: string, secret: string)
    requires Lawful(c)
    ensures EncryptData(c, data, secret) == "" <==>
              Empty(secret) || Empty(data) || c.aesEncrypt(CreateKeyHash(c, secret).value, data).None?
  {
    if !Empty(secret) && !Empty(data) {
      var k := CreateKeyHash(c, secret).value;
      DerivedKeyUnchanged(c, secret);
      if c.aesEncrypt(k, data).Some? {
        KeyHashLength(c, secret);
        CiphertextNotEmpty(c, c.aesEncrypt(k, data).value);
      }
    }
  }

  /** Round trip through the helpers: a non-empty encryption of `data` under `secret`
      decrypts to `data` under the same secret. */
  lemma DecryptDataEncryptData(c: Crypto, data: string, secret: string)
    requires Lawful(c)
    requires EncryptData(c, data, secret) != ""
    ensures DecryptData(c, EncryptData(c, data, secret), secret) == data
  {
    var k := CreateKeyHash(c, secret).value;
    DecryptEncrypt(c, k, data);
  }
}
