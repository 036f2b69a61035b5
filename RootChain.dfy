/**
 * The root ratchet (src/models/RootChain): the root key, the local X25519
 * secret, the peer's X25519 public key, and the two symmetric chains it seeds.
 */
module RootChains {
  import opened Wrappers
  import opened Bytes
  import opened Primitives
  import opened KeyChains
  import opened RatchetKeys

  const ROOT_KEY_INFO: Bytes := Ascii("DICES-v1-root")
  const ROOT_KEY_SIZE: nat := 32
  const CHAIN_KEY_SIZE: nat := 32
  const HKDF_OUTPUT_SIZE: nat := ROOT_KEY_SIZE + CHAIN_KEY_SIZE

  datatype DerivedKeys = DerivedKeys(newRootKey: Bytes, newChainKey: Bytes)

  /** The input key material of a root step: `dh ‖ kem` with a KEM secret, `dh` alone otherwise. */
  function SharedSecret(dhSharedSecret: Bytes, mlKemSharedSecret: Option<Bytes>): Bytes
  {
    match mlKemSharedSecret
    case Some(kem) => dhSharedSecret + kem
    case None => dhSharedSecret
  }

  /**
   * `deriveRootKey`: one 64-byte HKDF output salted with the root key, whose
   * first half is the new root key and whose second half is the new chain key.
   */
  function DeriveRootKey(rootKey: Bytes, dhSharedSecret: Bytes, mlKemSharedSecret: Option<Bytes>): (d: DerivedKeys)
    ensures |d.newRootKey| == ROOT_KEY_SIZE && |d.newChainKey| == CHAIN_KEY_SIZE
    ensures d.newRootKey + d.newChainKey
         == Hkdf(SharedSecret(dhSharedSecret, mlKemSharedSecret), Some(rootKey), ROOT_KEY_INFO, HKDF_OUTPUT_SIZE)
  {
    var derived := Hkdf(SharedSecret(dhSharedSecret, mlKemSharedSecret), Some(rootKey), ROOT_KEY_INFO, HKDF_OUTPUT_SIZE);
    var d := DerivedKeys(Slice(derived, 0, ROOT_KEY_SIZE), Slice(derived, ROOT_KEY_SIZE, HKDF_OUTPUT_SIZE));
    assert d.newRootKey + d.newChainKey == derived;
    d
  }

  /** The value of a root chain. */
  datatype Root = Root(
    rootKey: Bytes,
    dhSecretKey: Bytes,
    remoteDhPublicKey: Bytes,
    sending: Chain,
    receiving: Chain)

  /** The `dhPublicKey` getter. */
  function DhPublicKey(r: Root): Bytes
  {
    X25519PublicKey(r.dhSecretKey)
  }

  /**
   * `performDhRatchet(remote)` with the fresh X25519 secret made explicit:
   * refused for the stored remote key, and thrown out by X25519 for a key it
   * rejects; otherwise a receiving step with the old secret, then a sending
   * step with the fresh one. Nothing is assigned before both agreements ran.
   */
  function DhRatchet(r: Root, remoteDhPublicKey: Bytes, freshSecret: Bytes): Result<Root>
  {
    if Compare(remoteDhPublicKey, r.remoteDhPublicKey) == 0 then
      Err(SameRemoteDhKey)
    else if !X25519Accepts(r.dhSecretKey, remoteDhPublicKey) || !X25519Accepts(freshSecret, remoteDhPublicKey) then
      Err(X25519Rejected)
    else
      var receiving := DeriveRootKey(r.rootKey, X25519(r.dhSecretKey, remoteDhPublicKey), None);
      var sending := DeriveRootKey(receiving.newRootKey, X25519(freshSecret, remoteDhPublicKey), None);
      Ok(Root(sending.newRootKey, freshSecret, remoteDhPublicKey,
              Chain(Some(sending.newChainKey), 0), Chain(Some(receiving.newChainKey), 0)))
  }

  /**
   * `performMlKemRatchet(keys)` with the fresh X25519 secret and the
   * encapsulation coins made explicit; yields the new root and the KEM
   * ciphertext. Past the two length guards, encapsulation can still throw on
   * a key failing the modulus check, and the agreement on a rejected DH key.
   */
  function MlKemRatchet(r: Root, keys: RatchetPublicKeys, freshSecret: Bytes, coins: Bytes): Result<(Root, Bytes)>
  {
    if |keys.encryptionKey| != ML_KEM_PUBLIC_KEY_SIZE then
      Err(InvalidMlKemPublicKeyLength)
    else if |keys.dhPublicKey| != 32 then
      Err(InvalidDhKeyLength)
    else if !KemAccepts(keys.encryptionKey) then
      Err(KemRejected)
    else if !X25519Accepts(freshSecret, keys.dhPublicKey) then
      Err(X25519Rejected)
    else
      var encapsulation := MlKemEncapsulate(keys.encryptionKey, coins);
      var d := DeriveRootKey(r.rootKey, X25519(freshSecret, keys.dhPublicKey), Some(encapsulation.sharedSecret));
      Ok((Root(d.newRootKey, freshSecret, keys.dhPublicKey, Chain(Some(d.newChainKey), 0), Chain(None, 0)),
          encapsulation.cipherText))
  }

  /**
   * The DH ratchet is refused for the stored key and rejected for a key
   * X25519 throws on, with either secret; in every other case it succeeds.
   */
  lemma DhRatchetRefusals(r: Root, remoteDhPublicKey: Bytes, freshSecret: Bytes)
    ensures var res := DhRatchet(r, remoteDhPublicKey, freshSecret);
      && (res.Ok? <==> remoteDhPublicKey != r.remoteDhPublicKey
                       && X25519Accepts(r.dhSecretKey, remoteDhPublicKey) && X25519Accepts(freshSecret, remoteDhPublicKey))
      && (remoteDhPublicKey == r.remoteDhPublicKey ==> res == Err(SameRemoteDhKey))
      && (remoteDhPublicKey != r.remoteDhPublicKey && res.Err? ==> res == Err(X25519Rejected))
  {
    CompareZeroIffEqual(remoteDhPublicKey, r.remoteDhPublicKey);
  }

  /**
   * A successful DH ratchet adopts the offered key and the fresh secret, so
   * the public key the peer sees next is that of the fresh secret, and both
   * chains restart at 0 with keys.
   */
  lemma DhRatchetResets(r: Root, remoteDhPublicKey: Bytes, freshSecret: Bytes)
    requires remoteDhPublicKey != r.remoteDhPublicKey
    requires X25519Accepts(r.dhSecretKey, remoteDhPublicKey) && X25519Accepts(freshSecret, remoteDhPublicKey)
    ensures DhRatchet(r, remoteDhPublicKey, freshSecret).Ok?
    ensures var r' := DhRatchet(r, remoteDhPublicKey, freshSecret).value;
      && r'.remoteDhPublicKey == remoteDhPublicKey
      && DhPublicKey(r') == X25519PublicKey(freshSecret)
      && r'.sending.messageNumber == 0 && r'.receiving.messageNumber == 0
      && r'.sending.chainKey.Some? && r'.receiving.chainKey.Some?
      && |r'.rootKey| == ROOT_KEY_SIZE
  {
    CompareZeroIffEqual(remoteDhPublicKey, r.remoteDhPublicKey);
  }

  /**
   * The KEM ratchet rejects a malformed prekey with the error of the first
   * failing check (ML-KEM key length, DH key length, then encapsulation and
   * X25519 themselves);
   * otherwise it sends on a new chain, leaves the receiving chain with no
   * key and adopts the prekey's DH key as the remote key.
   */
  lemma MlKemRatchetOutcome(r: Root, keys: RatchetPublicKeys, freshSecret: Bytes, coins: Bytes)
    ensures var res := MlKemRatchet(r, keys, freshSecret, coins);
      && (res.Ok? <==> |keys.encryptionKey| == ML_KEM_PUBLIC_KEY_SIZE && |keys.dhPublicKey| == 32
                       && KemAccepts(keys.encryptionKey) && X25519Accepts(freshSecret, keys.dhPublicKey))
      && (|keys.encryptionKey| != ML_KEM_PUBLIC_KEY_SIZE ==> res == Err(InvalidMlKemPublicKeyLength))
      && (|keys.encryptionKey| == ML_KEM_PUBLIC_KEY_SIZE && |keys.dhPublicKey| != 32 ==> res == Err(InvalidDhKeyLength))
      && ((|keys.encryptionKey| == ML_KEM_PUBLIC_KEY_SIZE && |keys.dhPublicKey| == 32
           && !KemAccepts(keys.encryptionKey)) ==> res == Err(KemRejected))
      && ((|keys.encryptionKey| == ML_KEM_PUBLIC_KEY_SIZE && |keys.dhPublicKey| == 32 && KemAccepts(keys.encryptionKey)
           && !X25519Accepts(freshSecret, keys.dhPublicKey)) ==> res == Err(X25519Rejected))
      && (res.Ok? ==>
            && res.value.1 == MlKemEncapsulate(keys.encryptionKey, coins).cipherText
            && res.value.0.remoteDhPublicKey == keys.dhPublicKey
            && res.value.0.sending.chainKey.Some? && res.value.0.sending.messageNumber == 0
            && res.value.0.receiving == Chain(None, 0))
  {
  }

  class RootChain {
    var rootKey: Bytes
    var dhSecretKey: Bytes
    var remoteDhPublicKey: Bytes
    var sendingChain: KeyChain
    var receivingChain: KeyChain

    /** Two distinct chain objects, each with a consistent memoised secret. */
    ghost predicate Valid()
      reads this, sendingChain, receivingChain
    {
      sendingChain != receivingChain && sendingChain.Valid() && receivingChain.Valid()
    }

    function View(): Root
      reads this, sendingChain, receivingChain
    {
      Root(rootKey, dhSecretKey, remoteDhPublicKey, sendingChain.View(), receivingChain.View())
    }

    constructor(rootKey: Bytes, dhSecretKey: Bytes, remoteDhPublicKey: Bytes, sendingChain: KeyChain, receivingChain: KeyChain)
      requires sendingChain != receivingChain && sendingChain.Valid() && receivingChain.Valid()
      ensures Valid()
      ensures this.sendingChain == sendingChain && this.receivingChain == receivingChain
      ensures View() == Root(rootKey, dhSecretKey, remoteDhPublicKey, sendingChain.View(), receivingChain.View())
    {
      this.rootKey := rootKey;
      this.dhSecretKey := dhSecretKey;
      this.remoteDhPublicKey := remoteDhPublicKey;
      this.sendingChain := sendingChain;
      this.receivingChain := receivingChain;
    }

    /** The `dhPublicKey` getter: always the public key of the current secret. */
    function PublicKey(): (pk: Bytes)
      reads this, sendingChain, receivingChain
      ensures pk == DhPublicKey(View())
    {
      X25519PublicKey(dhSecretKey)
    }

    /**
     * `performDhRatchet`: on success all five fields are replaced, both
     * chains by new objects; a refusal or an X25519 throw changes nothing.
     */
    method PerformDhRatchet(remoteDhPublicKey: Bytes, freshSecret: Bytes) returns (o: Outcome)
      requires Valid()
      modifies this
      ensures Valid()
      ensures match DhRatchet(old(View()), remoteDhPublicKey, freshSecret)
        case Ok(r) => o == Pass && View() == r && fresh(sendingChain) && fresh(receivingChain)
        case Err(e) => o == Fail(e) && unchanged(this)
    {
      if Compare(remoteDhPublicKey, this.remoteDhPublicKey) == 0 {
        return Fail(SameRemoteDhKey);
      }
      if !X25519Accepts(dhSecretKey, remoteDhPublicKey) {
        return Fail(X25519Rejected);
      }
      var receiving := DeriveRootKey(rootKey, X25519(dhSecretKey, remoteDhPublicKey), None);
      if !X25519Accepts(freshSecret, remoteDhPublicKey) {
        return Fail(X25519Rejected);
      }
      var sending := DeriveRootKey(receiving.newRootKey, X25519(freshSecret, remoteDhPublicKey), None);
      rootKey := sending.newRootKey;
      dhSecretKey := freshSecret;
      this.remoteDhPublicKey := remoteDhPublicKey;
      sendingChain := new KeyChain(Some(sending.newChainKey), None);
      receivingChain := new KeyChain(Some(receiving.newChainKey), None);
      o := Pass;
    }

    /**
     * `performMlKemRatchet`: both length checks, the encapsulation and the
     * X25519 agreement run before any field changes; on success the KEM ciphertext is returned.
     */
    method PerformMlKemRatchet(keys: RatchetPublicKeys, freshSecret: Bytes, coins: Bytes) returns (r: Result<Bytes>)
      requires Valid()
      modifies this
      ensures Valid()
      ensures match MlKemRatchet(old(View()), keys, freshSecret, coins)
        case Ok(res) => r == Ok(res.1) && View() == res.0 && fresh(sendingChain) && fresh(receivingChain)
        case Err(e) => r == Err(e) && unchanged(this)
    {
      if |keys.encryptionKey| != ML_KEM_PUBLIC_KEY_SIZE {
        return Err(InvalidMlKemPublicKeyLength);
      }
      if |keys.dhPublicKey| != 32 {
        return Err(InvalidDhKeyLength);
      }
      if !KemAccepts(keys.encryptionKey) {
        return Err(KemRejected);
      }
      var encapsulation := MlKemEncapsulate(keys.encryptionKey, coins);
      if !X25519Accepts(freshSecret, keys.dhPublicKey) {
        return Err(X25519Rejected);
      }
      var d := DeriveRootKey(rootKey, X25519(freshSecret, keys.dhPublicKey), Some(encapsulation.sharedSecret));
      rootKey := d.newRootKey;
      dhSecretKey := freshSecret;
      remoteDhPublicKey := keys.dhPublicKey;
      sendingChain := new KeyChain(Some(d.newChainKey), None);
      receivingChain := new KeyChain(None, None);
      r := Ok(encapsulation.cipherText);
    }
  }
}
