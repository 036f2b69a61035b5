/**
 * What the pieces promise together: two peers that run the handshake and
 * then exchange messages, in order and across DH ratchets, keep their
 * chains in agreement and deliver each plaintext. Every lemma here holds
 * whenever the primitives are correct (AEAD round trip, X25519 key
 * agreement, ML-KEM correctness).
 */
module ProtocolProperties {
  import opened Wrappers
  import opened Bytes
  import opened Primitives
  import opened KeyChains
  import opened RootChains
  import opened RatchetKeys
  import opened Envelopes
  import opened RatchetSessions
  import opened RatchetStateItems
  import opened EnvelopeFlows

  /**
   * `sender` ratcheted toward `receiver`'s current key pair: from the
   * receiver's root key and their shared secret the sender derived its root
   * key and the sending chain key `k`, and it points at the receiver's
   * public key.
   */
  ghost predicate RatchetedToward(sender: Root, k: Bytes, receiver: Root)
  {
    && sender.remoteDhPublicKey == DhPublicKey(receiver)
    && DeriveRootKey(receiver.rootKey, X25519(sender.dhSecretKey, sender.remoteDhPublicKey), None)
       == DerivedKeys(sender.rootKey, k)
  }

  /**
   * The DH ratchet alternates: when the receiver sees the sender's new
   * public key, its new receiving chain is the sender's sending chain at 0,
   * and it has in turn ratcheted toward the sender.
   */
  lemma DhRatchetAlternates(sender: Root, k: Bytes, receiver: Root, freshSecret: Bytes)
    requires DhAgreement()
    requires |receiver.dhSecretKey| == 32 && |sender.dhSecretKey| == 32 && |freshSecret| == 32
    requires RatchetedToward(sender, k, receiver)
    requires DhPublicKey(sender) != receiver.remoteDhPublicKey
    ensures DhRatchet(receiver, DhPublicKey(sender), freshSecret).Ok?
    ensures var r := DhRatchet(receiver, DhPublicKey(sender), freshSecret).value;
      && r.receiving == Chain(Some(k), 0)
      && r.sending.chainKey.Some? && r.sending.messageNumber == 0
      && RatchetedToward(r, r.sending.chainKey.value, sender)
  {
    GeneratedKeysAccepted(receiver.dhSecretKey, sender.dhSecretKey);
    GeneratedKeysAccepted(freshSecret, sender.dhSecretKey);
    DhRatchetRefusals(receiver, DhPublicKey(sender), freshSecret);
  }

  /**
   * In-order delivery keeps two peers in lock step: if the receiver's
   * receiving chain is the sender's sending chain and no stored skipped key
   * carries the next number, the receiver opens the next message, its chain
   * again equals the sender's, and its skipped-key list is unchanged.
   */
  lemma InOrderDelivery(p: Policy, sender: Session, receiver: Session, data: Bytes, kemCiphertext: Option<Bytes>,
                        nonce: Bytes, freshSecret: Bytes, now: int)
    requires AeadCorrect()
    requires sender.root.sending.chainKey.Some? && sender.remoteKeyId.Some?
    requires receiver.root.receiving == sender.root.sending
    requires receiver.root.remoteDhPublicKey == DhPublicKey(sender.root)
    requires forall i :: 0 <= i < |receiver.skippedKeys| ==>
      receiver.skippedKeys[i].messageNumber != sender.root.sending.messageNumber
    requires p.validateMessageNumber ==> 0 <= sender.root.sending.messageNumber && IsSafeInteger(sender.root.sending.messageNumber)
    requires 0 <= p.maxMessageSkip
    ensures var (s', f) := Encrypt(sender, data, kemCiphertext, nonce);
      f.Ok? &&
      var (r', d) := Decrypt(p, receiver, f.value.messageNumber, f.value.dhPublicKey, f.value.cipherData, freshSecret, now);
      && d == Ok(data)
      && r'.root.receiving == s'.root.sending
      && r'.root.remoteDhPublicKey == DhPublicKey(s'.root)
      && r'.skippedKeys == receiver.skippedKeys
  {
    var (s', f) := Encrypt(sender, data, kemCiphertext, nonce);
    var fields := f.value;
    CompareZeroIffEqual(fields.dhPublicKey, receiver.root.remoteDhPublicKey);
    assert TrySkipped(receiver.skippedKeys, fields.messageNumber, fields.cipherData).None?;
    assert RatchetCheck(receiver, fields.dhPublicKey, freshSecret, now) == (receiver, Pass);
    var k := sender.root.sending.chainKey.value;
    var secret := DeriveMessageSecret(k);
    assert fields.cipherData == CipherData(nonce, AeadSeal(secret, nonce, data));
    assert CipherDecrypt(fields.cipherData, secret) == Some(data);
    assert SkippedRun(k, fields.messageNumber, 0, now) == [];
    assert receiver.skippedKeys + [] == receiver.skippedKeys;
  }

  /**
   * The first message after a DH ratchet: the receiver sees the sender's
   * new key, ratchets, opens message 0 of the sender's new chain, and has
   * then ratcheted toward the sender.
   */
  lemma RatchetedDelivery(p: Policy, sender: Session, k: Bytes, receiver: Session, data: Bytes,
                          kemCiphertext: Option<Bytes>, nonce: Bytes, freshSecret: Bytes, now: int)
    requires AeadCorrect() && DhAgreement()
    requires RatchetedToward(sender.root, k, receiver.root)
    requires |receiver.root.dhSecretKey| == 32 && |sender.root.dhSecretKey| == 32 && |freshSecret| == 32
    requires sender.root.sending == Chain(Some(k), 0) && sender.remoteKeyId.Some?
    requires DhPublicKey(sender.root) != receiver.root.remoteDhPublicKey
    requires forall i :: 0 <= i < |receiver.skippedKeys| ==> receiver.skippedKeys[i].messageNumber != 0
    requires 0 <= p.maxMessageSkip
    ensures var (s', f) := Encrypt(sender, data, kemCiphertext, nonce);
      f.Ok? &&
      var (r', d) := Decrypt(p, receiver, f.value.messageNumber, f.value.dhPublicKey, f.value.cipherData, freshSecret, now);
      && d == Ok(data)
      && r'.root.receiving == s'.root.sending
      && r'.previousChainLength == receiver.root.sending.messageNumber
      && r'.root.sending.chainKey.Some?
      && RatchetedToward(r'.root, r'.root.sending.chainKey.value, s'.root)
  {
    var (s', f) := Encrypt(sender, data, kemCiphertext, nonce);
    var fields := f.value;
    assert TrySkipped(receiver.skippedKeys, fields.messageNumber, fields.cipherData).None?;
    DhRatchetAlternates(sender.root, k, receiver.root, freshSecret);
    DecryptRatchetsOnNewKey(receiver, fields.dhPublicKey, freshSecret, now);
    GeneratedKeysAccepted(receiver.root.dhSecretKey, sender.root.dhSecretKey);
    GeneratedKeysAccepted(freshSecret, sender.root.dhSecretKey);
    var (r1, o) := RatchetCheck(receiver, fields.dhPublicKey, freshSecret, now);
    assert o == Pass && r1.root.receiving == Chain(Some(k), 0);
    var secret := DeriveMessageSecret(k);
    assert CipherDecrypt(fields.cipherData, secret) == Some(data);
    assert SkippedRun(k, 0, 0, now) == [];
  }

  /**
   * The handshake: the responder accepts the initiator's first envelope, its
   * receiving chain is the initiator's sending chain before that chain's
   * first step, both sides hold the same ratchet id, the first message opens,
   * and the responder has ratcheted toward the initiator.
   */
  lemma HandshakeAgreement(initiatorId: Bytes, responderId: Bytes, prekeySecret: Bytes, mlKemSeed: Bytes,
                           data: Bytes, ephemeralSecret: Bytes, coins: Bytes, nonce: Bytes, now: int,
                           responderSecret: Bytes, later: int, freshSecret: Bytes)
    requires DhAgreement() && KemCorrect() && AeadCorrect()
    requires |prekeySecret| == 32 && |ephemeralSecret| == 32 && |responderSecret| == 32
    requires var local := NewSecretRatchetKeys(prekeySecret, mlKemSeed);
      |MlKemEncapsulate(local.encryptionKey, coins).cipherText| == ML_KEM_CIPHERTEXT_SIZE
    ensures var local := NewSecretRatchetKeys(prekeySecret, mlKemSeed);
      var i := Initiate(initiatorId, responderId, PublicKeysOf(local), data, ephemeralSecret, coins, nonce, now);
      i.Ok? &&
      var (initiator, fields) := i.value;
      var r := Respond(fields, responderId, local, initiatorId, responderSecret, later);
      && r.Ok?
      && Advanced(r.value.root.receiving) == initiator.root.sending
      && r.value.ratchetId == initiator.ratchetId
      && DecryptFlow(r.value, fields.messageNumber, fields.dhPublicKey, fields.cipherData, freshSecret, later).1 == Ok(data)
      && RatchetedToward(r.value.root, r.value.root.sending.chainKey.value, initiator.root)
  {
    var local := NewSecretRatchetKeys(prekeySecret, mlKemSeed);
    var remote := PublicKeysOf(local);
    GeneratedKeysAccepted(ephemeralSecret, prekeySecret);
    GeneratedKeysAccepted(responderSecret, ephemeralSecret);
    var (initiator, fields) := Initiate(initiatorId, responderId, remote, data, ephemeralSecret, coins, nonce, now).value;
    var encapsulation := MlKemEncapsulate(remote.encryptionKey, coins);
    assert MlKemDecapsulate(encapsulation.cipherText, local.decryptionKey) == encapsulation.sharedSecret;
    var d := DeriveRootKey(Zeros(ROOT_KEY_SIZE), X25519(ephemeralSecret, remote.dhPublicKey),
                           Some(encapsulation.sharedSecret));
    var r := Respond(fields, responderId, local, initiatorId, responderSecret, later).value;
    assert r.root.receiving == Chain(Some(d.newChainKey), 0);
    RatchetIds.RatchetIdSymmetric(initiatorId, responderId);
    assert RatchetCheck(r, fields.dhPublicKey, freshSecret, later) == (r, Pass) by {
      CompareZeroIffEqual(fields.dhPublicKey, r.root.remoteDhPublicKey);
    }
    assert CipherDecrypt(fields.cipherData, DeriveMessageSecret(d.newChainKey)) == Some(data);
    assert TrySkipped(r.skippedKeys, fields.messageNumber, fields.cipherData).None?;
    assert SkippedRun(d.newChainKey, 0, 0, later) == [];
  }
}
