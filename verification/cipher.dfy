/**
 * The AES-256-CBC envelope of the session store: a fresh 32-byte key and
 * 16-byte IV per write, the stored blob being `iv || ciphertext`. The block
 * cipher itself (AES-256 in CBC mode with PKCS#7 padding, NIST SP 800-38A
 * section 6.2) is foreign code and is a parameter; all the model assumes of
 * it is the round-trip law `Lawful`.
 */
module Cipher {
  import opened Wrappers
  import opened Hex

  const KEY_SIZE: nat := 32
  const IV_SIZE: nat := 16

  type Key = b: Bytes | |b| == KEY_SIZE witness seq(32, _ => 0)

  type Iv = b: Bytes | |b| == IV_SIZE witness seq(16, _ => 0)

  /** What `randomKey()` draws for one write. */
  datatype KeyMaterial = KeyMaterial(key: Key, iv: Iv)

  /**
   * `seal` is cipher.update + cipher.final; `open` is decipher.update +
   * decipher.final, `None` when it throws (bad padding after a wrong key or
   * tampering).
   */
  datatype BlockCipher = BlockCipher(
    seal: (Key, Iv, Bytes) -> Bytes,
    open: (Key, Iv, Bytes) -> Option<Bytes>)

  /** Decrypting with the key and IV used to encrypt returns the plaintext. */
  ghost predicate Lawful(c: BlockCipher) {
    forall key: Key, iv: Iv, p: Bytes :: c.open(key, iv, c.seal(key, iv, p)) == Some(p)
  }

  /** `encrypt(key, iv, data)`: the IV followed by the cipher output. */
  function Encrypt(c: BlockCipher, key: Key, iv: Iv, data: Bytes): (blob: Bytes)
    ensures |blob| >= IV_SIZE
    ensures blob[..IV_SIZE] == iv
    ensures blob[IV_SIZE..] == c.seal(key, iv, data)
  {
    iv + c.seal(key, iv, data)
  }

  /**
   * `decrypt(key, data)`: the first 16 bytes are the IV. createDecipheriv
   * throws for a key that is not 32 bytes or an IV that is not 16 bytes,
   * which the caller's catch turns into absence.
   */
  function Decrypt(c: BlockCipher, key: Bytes, blob: Bytes): (r: Option<Bytes>)
    ensures |key| != KEY_SIZE ==> r.None?
    ensures |blob| < IV_SIZE ==> r.None?
    ensures r.Some? ==> r == c.open(key, blob[..IV_SIZE], blob[IV_SIZE..])
  {
    if |key| != KEY_SIZE || |blob| < IV_SIZE then None
    else c.open(key, blob[..IV_SIZE], blob[IV_SIZE..])
  }

  /** Decryption undoes encryption under the same key. */
  lemma RoundTrip(c: BlockCipher, key: Key, iv: Iv, p: Bytes)
    requires Lawful(c)
    ensures Decrypt(c, key, Encrypt(c, key, iv, p)) == Some(p)
  {
    var blob := Encrypt(c, key, iv, p);
    assert blob[..IV_SIZE] == iv && blob[IV_SIZE..] == c.seal(key, iv, p);
  }
}
