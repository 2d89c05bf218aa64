/** security/EncryptionManager.kt: key lookup, key derivation, salts, the
    `iv ++ sealed` framing of ciphertexts, and wiping buffers.

    AES-GCM and the UTF-8 codec are platform code: they appear here as
    function-valued fields of `Platform`, with nothing assumed about them
    except where a lemma says so (`AeadSound`, `Utf8Sound`). */
module Encryption {
  import opened Results

  type byte = x: int | 0 <= x < 256

  const MasterKeyAlias: string := "RAVaultMasterKey"
  const IvLength: nat := 12
  const SaltLength: nat := 32
  /** Declared by the manager; no code path uses it. */
  const Pbkdf2Iterations: nat := 100000

  /** A key held by the Android KeyStore: its alias, and a handle telling
      one generated key from another (the key material never leaves the store). */
  datatype SecretKey = SecretKey(alias: string, handle: nat)

  /** `EncryptedData`: the stored blob, the IV and the salt. */
  datatype EncryptedData = EncryptedData(ciphertext: seq<byte>, iv: seq<byte>, salt: seq<byte>)

  /** Why `decryptPassword` throws: the length check, or a failed GCM tag
      check inside `doFinal`. */
  datatype CryptoError = TooShort | AuthenticationFailed

  /** The calls the manager makes into the platform.
      `seal(key, iv, plaintext)` is `doFinal` in encrypt mode (ciphertext and
      tag); `open(key, iv, sealed)` is `doFinal` in decrypt mode, `None` when
      the tag does not verify. */
  datatype Platform = Platform(
    seal: (SecretKey, seq<byte>, seq<byte>) -> seq<byte>,
    open: (SecretKey, seq<byte>, seq<byte>) -> Option<seq<byte>>,
    encodeUtf8: string -> seq<byte>,
    decodeUtf8: seq<byte> -> string)

  /** An `EncryptionManager`: the platform and the master key its
      initialiser fetched or created. */
  datatype Manager = Manager(platform: Platform, master: SecretKey)

  /** Opening what was sealed under the same key and IV gives the plaintext back. */
  ghost predicate AeadSound(p: Platform)
  {
    forall k, iv, pt :: p.open(k, iv, p.seal(k, iv, pt)) == Some(pt)
  }

  /** Decoding what was encoded gives the string back. */
  ghost predicate Utf8Sound(p: Platform)
  {
    forall s :: p.decodeUtf8(p.encodeUtf8(s)) == s
  }

  // ---- the master key ----

  /** `generateOrRetrieveMasterKey` over the key store's alias table: the
      stored key when the alias is present, else `generated` (the key the key
      generator makes), which the key store then holds under the alias. */
  function MasterKey(store: map<string, SecretKey>, generated: SecretKey): (r: (SecretKey, map<string, SecretKey>))
    ensures MasterKeyAlias in r.1 && r.1[MasterKeyAlias] == r.0
    ensures MasterKeyAlias in store ==> r == (store[MasterKeyAlias], store)
    ensures MasterKeyAlias !in store ==> r.0 == generated
    ensures forall a :: a != MasterKeyAlias ==> (a in r.1 <==> a in store)
    ensures forall a :: a in store && a != MasterKeyAlias ==> r.1[a] == store[a]
  {
    if MasterKeyAlias in store then (store[MasterKeyAlias], store)
    else (generated, store[MasterKeyAlias := generated])
  }

  /** Once the key exists, every later lookup returns the same key and
      leaves the store alone, whatever key generation would have made. */
  lemma MasterKeyStable(store: map<string, SecretKey>, generated1: SecretKey, generated2: SecretKey)
    ensures var (k, s) := MasterKey(store, generated1); MasterKey(s, generated2) == (k, s)
  {
  }

  // ---- keys and salts ----

  /** `deriveKey`: the master key itself; the salt plays no part and no
      PBKDF2 runs. */
  function DeriveKey(master: SecretKey, salt: seq<byte>): SecretKey
  {
    master
  }

  /** Every record is encrypted under one key: the master key, whatever its salt. */
  lemma DeriveKeyIgnoresSalt(master: SecretKey, salt1: seq<byte>, salt2: seq<byte>)
    ensures DeriveKey(master, salt1) == DeriveKey(master, salt2) == master
  {
  }

  /** `generateSalt`: 32 bytes from the random source, call `k` onwards. */
  function GenerateSalt(rng: nat -> nat, k: nat): (salt: seq<byte>)
    ensures |salt| == SaltLength
  {
    seq(SaltLength, i requires 0 <= i < SaltLength => rng(k + i) % 256)
  }

  // ---- framing ----

  /** The stored blob: the IV followed by the sealed bytes. */
  function Frame(iv: seq<byte>, sealed: seq<byte>): (blob: seq<byte>)
    ensures |blob| == |iv| + |sealed|
    ensures blob[..|iv|] == iv && blob[|iv|..] == sealed
  {
    iv + sealed
  }

  /** The split `decryptPassword` does: refuse a blob shorter than the IV,
      else bytes [0, 12) are the IV and the rest the sealed bytes. */
  function Unframe(blob: seq<byte>): (r: Result<(seq<byte>, seq<byte>), CryptoError>)
    ensures r.Err? <==> |blob| < IvLength
    ensures r.Err? ==> r.error == TooShort
    ensures r.Ok? ==> |r.value.0| == IvLength && r.value.0 + r.value.1 == blob
  {
    if |blob| < IvLength then Err(TooShort)
    else Ok((blob[..IvLength], blob[IvLength..]))
  }

  /** Splitting a framed blob gives back its IV and sealed bytes. */
  lemma UnframeFrame(iv: seq<byte>, sealed: seq<byte>)
    requires |iv| == IvLength
    ensures Unframe(Frame(iv, sealed)) == Ok((iv, sealed))
  {
  }

  /** Framing the parts of a split blob gives back the blob. */
  lemma FrameUnframe(blob: seq<byte>)
    requires |blob| >= IvLength
    ensures Unframe(blob).Ok?
    ensures Frame(Unframe(blob).value.0, Unframe(blob).value.1) == blob
  {
  }

  // ---- encrypt and decrypt ----

  /** `encryptPassword`. `iv` is the IV the cipher picked when it was
      initialised for encryption. */
  function EncryptPassword(m: Manager, plaintext: string, salt: seq<byte>, iv: seq<byte>): (r: EncryptedData)
    ensures r.iv == iv && r.salt == salt
    ensures |r.ciphertext| >= |iv| && r.ciphertext[..|iv|] == iv
    ensures r.ciphertext[|iv|..] == m.platform.seal(m.master, iv, m.platform.encodeUtf8(plaintext))
  {
    var key := DeriveKey(m.master, salt);
    var sealed := m.platform.seal(key, iv, m.platform.encodeUtf8(plaintext));
    EncryptedData(Frame(iv, sealed), iv, salt)
  }

  /** `decryptPassword`. Only the blob is read for the IV; `data.iv` is not
      consulted, and the salt only feeds `deriveKey`. */
  function DecryptPassword(m: Manager, data: EncryptedData): (r: Result<string, CryptoError>)
    ensures |data.ciphertext| < IvLength ==> r == Err(TooShort)
    ensures |data.ciphertext| >= IvLength ==>
              (r.Ok? <==> m.platform.open(m.master, data.ciphertext[..IvLength], data.ciphertext[IvLength..]).Some?)
    ensures |data.ciphertext| >= IvLength && r.Err? ==> r.error == AuthenticationFailed
    ensures r.Ok? ==>
              |data.ciphertext| >= IvLength
              && m.platform.open(m.master, data.ciphertext[..IvLength], data.ciphertext[IvLength..]).Some?
              && r.value == m.platform.decodeUtf8(m.platform.open(m.master, data.ciphertext[..IvLength], data.ciphertext[IvLength..]).value)
  {
    var key := DeriveKey(m.master, data.salt);
    match Unframe(data.ciphertext)
    case Err(e) => Err(e)
    case Ok((iv, sealed)) =>
      match m.platform.open(key, iv, sealed)
      case None => Err(AuthenticationFailed)
      case Some(plain) => Ok(m.platform.decodeUtf8(plain))
  }

  /** Decryption depends on the blob alone: neither the `iv` field nor the
      salt changes its outcome. */
  lemma DecryptReadsOnlyBlob(m: Manager, data: EncryptedData, iv: seq<byte>, salt: seq<byte>)
    ensures DecryptPassword(m, data) == DecryptPassword(m, EncryptedData(data.ciphertext, iv, salt))
  {
  }

  /** What `encryptPassword` returns decrypts to the plaintext, given a
      sound cipher and codec and a 12-byte IV; this holds also when only the
      blob is kept and the IV field and salt are replaced, as the repository
      does. */
  lemma EncryptThenDecrypt(m: Manager, plaintext: string, salt: seq<byte>, iv: seq<byte>, iv2: seq<byte>, salt2: seq<byte>)
    requires AeadSound(m.platform) && Utf8Sound(m.platform)
    requires |iv| == IvLength
    ensures DecryptPassword(m, EncryptPassword(m, plaintext, salt, iv)) == Ok(plaintext)
    ensures DecryptPassword(m, EncryptedData(EncryptPassword(m, plaintext, salt, iv).ciphertext, iv2, salt2)) == Ok(plaintext)
  {
    var sealed := m.platform.seal(m.master, iv, m.platform.encodeUtf8(plaintext));
    var blob := EncryptPassword(m, plaintext, salt, iv).ciphertext;
    assert blob == Frame(iv, sealed);
    UnframeFrame(iv, sealed);
    assert m.platform.open(m.master, iv, sealed) == Some(m.platform.encodeUtf8(plaintext));
    DecryptReadsOnlyBlob(m, EncryptPassword(m, plaintext, salt, iv), iv2, salt2);
  }

  /** If the IV the cipher picked is not 12 bytes long, the split takes the
      wrong bytes as the IV: with a shorter IV the blob can even be refused
      outright. */
  lemma ShortIvBreaksFraming(m: Manager, plaintext: string, salt: seq<byte>, iv: seq<byte>)
    requires |iv| + |m.platform.seal(m.master, iv, m.platform.encodeUtf8(plaintext))| < IvLength
    ensures DecryptPassword(m, EncryptPassword(m, plaintext, salt, iv)) == Err(TooShort)
  {
  }

  // ---- wiping ----

  /** `clearSensitiveData(ByteArray)`: every byte zero, same length. */
  function ClearBytes(data: seq<byte>): (r: seq<byte>)
    ensures |r| == |data|
    ensures forall i :: 0 <= i < |r| ==> r[i] == 0
  {
    seq(|data|, _ => 0)
  }

  /** `clearSensitiveData(CharArray)`: every character NUL, same length. */
  function ClearChars(data: seq<char>): (r: seq<char>)
    ensures |r| == |data|
    ensures forall i :: 0 <= i < |r| ==> r[i] == '\0'
  {
    seq(|data|, _ => '\0')
  }

  /** Wiping depends only on the length, so wiping twice is wiping once. */
  lemma ClearIdempotent(b: seq<byte>, c: seq<char>)
    ensures ClearBytes(ClearBytes(b)) == ClearBytes(b)
    ensures ClearChars(ClearChars(c)) == ClearChars(c)
  {
  }
}
