/**
 * The cryptographic primitives the engine calls into, as uninterpreted
 * constants: nothing about them is known to the verifier except what a
 * lemma takes as a precondition from one of the predicates at the end of this
 * module (AEAD correctness, X25519 key agreement, ML-KEM correctness and
 * secp256k1 public-key recovery).
 */
module Primitives {
  import opened Wrappers
  import opened Bytes

  // ---------------------------------------------------------------- hashing

  /** HKDF-SHA256 of RFC 5869: input key material, optional salt, info, output length. */
  const HkdfSha256: (Bytes, Option<Bytes>, Bytes, nat) -> Bytes

  /** SHA-256. */
  const Sha256Digest: Bytes -> Bytes

  /**
   * `hkdf(sha256, ikm, salt, info, length)`. The primitive always returns
   * `length` bytes (RFC 5869 section 2.3); the guard only tells the verifier so.
   */
  function Hkdf(ikm: Bytes, salt: Option<Bytes>, info: Bytes, length: nat): (okm: Bytes)
    ensures |okm| == length
  {
    var out := HkdfSha256(ikm, salt, info, length);
    if |out| == length then out else Zeros(length)
  }

  /** `sha256(data)`: a 32-byte digest (the guard only tells the verifier so). */
  function Sha256(data: Bytes): (digest: Bytes)
    ensures |digest| == 32
  {
    var out := Sha256Digest(data);
    if |out| == 32 then out else Zeros(32)
  }

  /** `createHash` of utilities/Hash.ts: double SHA-256. */
  function CreateHash(data: Bytes): (h: Bytes)
    ensures |h| == 32
  {
    Sha256(Sha256(data))
  }

  /** `createShortHash` of utilities/Hash.ts: the first 20 bytes of `CreateHash`. */
  function CreateShortHash(data: Bytes): (h: Bytes)
    ensures |h| == 20 && h <= CreateHash(data)
  {
    CreateHash(data)[..20]
  }

  // ----------------------------------------------------------------- X25519

  /** `x25519.getPublicKey(secretKey)`. */
  const X25519PublicKey: Bytes -> Bytes

  /** The X25519 function of RFC 7748, section 5: a secret scalar times a u-coordinate. */
  const X25519: (Bytes, Bytes) -> Bytes

  /**
   * `x25519.getSharedSecret(secretKey, publicKey)` returns `X25519(secretKey,
   * publicKey)` exactly when this holds, and throws otherwise: both keys
   * must be 32 bytes, and the result must not be all zero, which is what a
   * low-order public key yields.
   */
  predicate X25519Accepts(secretKey: Bytes, publicKey: Bytes)
  {
    |secretKey| == 32 && |publicKey| == 32 && X25519(secretKey, publicKey) != Zeros(32)
  }

  // ------------------------------------------------------------ ML-KEM-1024

  datatype KemKeyPair = KemKeyPair(encryptionKey: Bytes, decryptionKey: Bytes)
  datatype Encapsulation = Encapsulation(cipherText: Bytes, sharedSecret: Bytes)

  /** Deterministic key generation from a 64-byte seed. */
  const MlKemKeyGen: Bytes -> KemKeyPair

  /** `ml_kem1024.encapsulate(encryptionKey)` with its random coins made explicit. */
  const MlKemEncapsulate: (Bytes, Bytes) -> Encapsulation

  /** The size of an ML-KEM-1024 encapsulation key (FIPS 203, section 8, table 3). */
  const ML_KEM_1024_ENCAPSULATION_KEY_SIZE: nat := 1568

  /**
   * The modulus check of FIPS 203, section 7.2: every 12-bit coefficient
   * encoded in the key is below q = 3329.
   */
  const MlKemModulusCheck: Bytes -> bool

  /**
   * `ml_kem1024.encapsulate(encryptionKey)` returns `MlKemEncapsulate` exactly
   * when this holds, and throws otherwise: the key must be 1568 bytes and
   * pass the modulus check.
   */
  predicate KemAccepts(encryptionKey: Bytes)
  {
    |encryptionKey| == ML_KEM_1024_ENCAPSULATION_KEY_SIZE && MlKemModulusCheck(encryptionKey)
  }

  /** `ml_kem1024.decapsulate(cipherText, decryptionKey)`. */
  const MlKemDecapsulate: (Bytes, Bytes) -> Bytes

  // ------------------------------------------------ XChaCha20-Poly1305 AEAD

  /** Sealing: key, 24-byte nonce, plaintext. */
  const AeadSeal: (Bytes, Bytes, Bytes) -> Bytes

  /** Opening: key, nonce, ciphertext; `None` where the library throws. */
  const AeadOpen: (Bytes, Bytes, Bytes) -> Option<Bytes>

  /** `CipherData`: the nonce and the sealed data. */
  datatype CipherData = CipherData(nonce: Bytes, data: Bytes)

  /** `CipherData.encrypt(secret, data)` with the random nonce made explicit. */
  function CipherEncrypt(secret: Bytes, data: Bytes, nonce: Bytes): (cd: CipherData)
    ensures cd.nonce == nonce
  {
    CipherData(nonce, AeadSeal(secret, nonce, data))
  }

  /** `cipherData.decrypt(secret)`; `None` where it throws. */
  function CipherDecrypt(cd: CipherData, secret: Bytes): Option<Bytes> {
    AeadOpen(secret, cd.nonce, cd.data)
  }

  // -------------------------------------------------------------- secp256k1

  /** A recoverable signature: recovery bit and 64-byte compact signature. */
  datatype RSignature = RSignature(recoveryBit: int, signature: Bytes)

  /** `secp256k1.getPublicKey(secretKey, true)`: the compressed public key. */
  const Secp256k1PublicKey: Bytes -> Bytes

  /** `secp256k1.sign(message, secretKey)` with its recovery bit. */
  const Secp256k1RSign: (Bytes, Bytes) -> RSignature

  /** Public-key recovery from a signature and message; `None` where it throws. */
  const Secp256k1Recover: (RSignature, Bytes) -> Option<Bytes>

  // ---------------------------------------------------- hypotheses on primitives

  /** Opening a sealed message under the same key and nonce yields the plaintext. */
  ghost predicate AeadCorrect() {
    forall key, nonce, plaintext :: AeadOpen(key, nonce, AeadSeal(key, nonce, plaintext)) == Some(plaintext)
  }

  /**
   * X25519 key agreement: public keys are 32 bytes, dh(a, pub(b)) ==
   * dh(b, pub(a)), and two generated keys never agree on the all-zero
   * secret (a clamped scalar times a point of the prime-order subgroup).
   */
  ghost predicate DhAgreement() {
    && (forall b :: |X25519PublicKey(b)| == 32)
    && (forall a, b :: X25519(a, X25519PublicKey(b)) == X25519(b, X25519PublicKey(a)))
    && (forall a, b :: X25519(a, X25519PublicKey(b)) != Zeros(32))
  }

  /** Under key agreement, `getSharedSecret` never throws on 32-byte secrets and generated public keys. */
  lemma GeneratedKeysAccepted(a: Bytes, b: Bytes)
    requires DhAgreement()
    requires |a| == 32 && |b| == 32
    ensures X25519Accepts(a, X25519PublicKey(b)) && X25519Accepts(b, X25519PublicKey(a))
    ensures X25519(a, X25519PublicKey(b)) == X25519(b, X25519PublicKey(a))
  {
  }

  /**
   * ML-KEM correctness: a generated encryption key passes the input checks,
   * and decapsulating an encapsulation against a generated key pair yields
   * its shared secret.
   */
  ghost predicate KemCorrect() {
    && (forall seed :: KemAccepts(MlKemKeyGen(seed).encryptionKey))
    && (forall seed, coins ::
          MlKemDecapsulate(MlKemEncapsulate(MlKemKeyGen(seed).encryptionKey, coins).cipherText, MlKemKeyGen(seed).decryptionKey)
          == MlKemEncapsulate(MlKemKeyGen(seed).encryptionKey, coins).sharedSecret)
  }

  /** Recovering from an honest signature yields the signer's public key. */
  ghost predicate RecoveryCorrect() {
    forall secretKey, message :: Secp256k1Recover(Secp256k1RSign(secretKey, message), message) == Some(Secp256k1PublicKey(secretKey))
  }
}
