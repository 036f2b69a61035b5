/**
 * Ratchet prekeys (src/models/RatchetKeys): the public bundle a peer publishes
 * (key id, ML-KEM-1024 encryption key, X25519 public key) with its JSON form,
 * and the secret bundle it is derived from.
 */
module RatchetKeys {
  import opened Bytes
  import opened Primitives

  /** Fixed sizes of src/models/RatchetKeys/MlKemCodec.ts. */
  const ML_KEM_SEED_SIZE: nat := 64
  const ML_KEM_PUBLIC_KEY_SIZE: nat := 1568
  const ML_KEM_SECRET_KEY_SIZE: nat := 3168
  const ML_KEM_CIPHERTEXT_SIZE: nat := 1568
  /** Size of a key id (KeyIdCodec). */
  const KEY_ID_SIZE: nat := 8

  /** `RatchetPublicKeys`: the constructor stores its three fields without checking their lengths. */
  datatype RatchetPublicKeys = RatchetPublicKeys(keyId: Bytes, encryptionKey: Bytes, dhPublicKey: Bytes)

  /** `RatchetPublicKeys.Json`: every byte array as an array of numbers. */
  datatype Json = Json(keyId: seq<int>, encryptionKey: seq<int>, dhPublicKey: seq<int>)

  /** `Array.from(bytes)`: each byte as the number it denotes. */
  function ToNumbers(b: Bytes): (ns: seq<int>)
    ensures |ns| == |b|
    ensures forall i :: 0 <= i < |b| ==> ns[i] == b[i] as int && 0 <= ns[i] < 256
  {
    seq(|b|, i requires 0 <= i < |b| => b[i] as int)
  }

  /** `new Uint8Array(numbers)`: each number reduced modulo 256 (ToUint8 on integers). */
  function FromNumbers(ns: seq<int>): (b: Bytes)
    ensures |b| == |ns|
    ensures forall i :: 0 <= i < |ns| ==> b[i] as int == ns[i] % 256
  {
    seq(|ns|, i requires 0 <= i < |ns| => (ns[i] % 256) as byte)
  }

  function ToJson(k: RatchetPublicKeys): Json
  {
    Json(ToNumbers(k.keyId), ToNumbers(k.encryptionKey), ToNumbers(k.dhPublicKey))
  }

  function FromJson(j: Json): RatchetPublicKeys
  {
    RatchetPublicKeys(FromNumbers(j.keyId), FromNumbers(j.encryptionKey), FromNumbers(j.dhPublicKey))
  }

  /** Converting bytes to numbers and back gives the same bytes. */
  lemma NumbersRoundTrip(b: Bytes)
    ensures FromNumbers(ToNumbers(b)) == b
  {
    var r := FromNumbers(ToNumbers(b));
    assert forall i :: 0 <= i < |b| ==> r[i] == b[i];
  }

  /** `fromJson(toJson(x))` has the same key id, encryption key and DH key as x. */
  lemma JsonRoundTrip(k: RatchetPublicKeys)
    ensures FromJson(ToJson(k)) == k
  {
    NumbersRoundTrip(k.keyId);
    NumbersRoundTrip(k.encryptionKey);
    NumbersRoundTrip(k.dhPublicKey);
  }

  /** Every array of byte-valued numbers survives the opposite trip. */
  lemma JsonBytesRoundTrip(j: Json)
    requires forall i :: 0 <= i < |j.keyId| ==> 0 <= j.keyId[i] < 256
    requires forall i :: 0 <= i < |j.encryptionKey| ==> 0 <= j.encryptionKey[i] < 256
    requires forall i :: 0 <= i < |j.dhPublicKey| ==> 0 <= j.dhPublicKey[i] < 256
    ensures ToJson(FromJson(j)) == j
  {
  }

  /**
   * The secret prekey bundle of src/models/RatchetKeys/index.ts: every public
   * part is derived from the X25519 secret and the ML-KEM seed.
   */
  datatype SecretRatchetKeys = SecretRatchetKeys(
    keyId: Bytes,
    dhSecretKey: Bytes,
    dhPublicKey: Bytes,
    mlKemSeed: Bytes,
    encryptionKey: Bytes,
    decryptionKey: Bytes)

  /** `RatchetKeys.computeKeyId`: the first 8 bytes of sha256(encryptionKey ‖ dhPublicKey). */
  function ComputeKeyId(encryptionKey: Bytes, dhPublicKey: Bytes): (keyId: Bytes)
    ensures |keyId| == KEY_ID_SIZE
  {
    Sha256(encryptionKey + dhPublicKey)[..KEY_ID_SIZE]
  }

  /** `new RatchetKeys({ dhSecretKey, mlKemSeed })`. */
  function NewSecretRatchetKeys(dhSecretKey: Bytes, mlKemSeed: Bytes): SecretRatchetKeys
  {
    var pair := MlKemKeyGen(mlKemSeed);
    var dhPublicKey := X25519PublicKey(dhSecretKey);
    SecretRatchetKeys(ComputeKeyId(pair.encryptionKey, dhPublicKey), dhSecretKey, dhPublicKey,
                      mlKemSeed, pair.encryptionKey, pair.decryptionKey)
  }

  /** The `publicKeys` getter. */
  function PublicKeysOf(k: SecretRatchetKeys): RatchetPublicKeys
  {
    RatchetPublicKeys(k.keyId, k.encryptionKey, k.dhPublicKey)
  }
}
