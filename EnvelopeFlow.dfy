/**
 * The envelope-level orchestration of src/models/Envelope/methods/encrypt.ts
 * and decrypt.ts over the functional session state: the rotation decision
 * before sending, and a DH ratchet before delegating a received envelope.
 */
module EnvelopeFlows {
  import opened Wrappers
  import opened Bytes
  import opened Primitives
  import opened KeyChains
  import opened RootChains
  import opened RatchetKeys
  import opened SigningKeys
  import opened Envelopes
  import opened RatchetSessions
  import opened RatchetStateItems

  /** The optional bounds of `encryptEnvelope`. */
  datatype EncryptOptions = EncryptOptions(messageBound: Option<int>, timeBound: Option<int>)

  /**
   * `encryptEnvelope` on values: an ML-KEM ratchet exactly when rotation is
   * due and prekeys are supplied (its error propagates), then the message
   * carrying the ratchet's ciphertext, or none.
   */
  function EncryptFlow(s: Session, data: Bytes, initiationKeys: Option<RatchetPublicKeys>, options: EncryptOptions,
                       freshSecret: Bytes, coins: Bytes, nonce: Bytes, now: int): (Session, Result<UnsignedFields>)
  {
    var rotate := ShouldRatchet(s.root.sending.messageNumber, s.ratchetAt, now,
                                OrElse(options.messageBound, DEFAULT_MESSAGE_BOUND),
                                OrElse(options.timeBound, DEFAULT_TIME_BOUND_MS));
    if rotate && initiationKeys.Some? then
      var (s1, kem) := SessionMlKemRatchet(s, initiationKeys.value, freshSecret, coins, now);
      if kem.Err? then (s1, Err(kem.error)) else Encrypt(s1, data, Some(kem.value), nonce)
    else
      Encrypt(s, data, None, nonce)
  }

  /**
   * Without prekeys, or when no bound is reached, the message goes out on
   * the current chain with no KEM ciphertext; a rotation that succeeds sends
   * message 0 of the new chain with the old counter as
   * `previousChainLength` and the encapsulation's ciphertext attached.
   */
  lemma EncryptFlowRotation(s: Session, data: Bytes, initiationKeys: Option<RatchetPublicKeys>, options: EncryptOptions,
                            freshSecret: Bytes, coins: Bytes, nonce: Bytes, now: int)
    ensures var rotate := ShouldRatchet(s.root.sending.messageNumber, s.ratchetAt, now,
                                        OrElse(options.messageBound, DEFAULT_MESSAGE_BOUND),
                                        OrElse(options.timeBound, DEFAULT_TIME_BOUND_MS));
      var (s', r) := EncryptFlow(s, data, initiationKeys, options, freshSecret, coins, nonce, now);
      && (!(rotate && initiationKeys.Some?) ==> (s', r) == Encrypt(s, data, None, nonce))
      && (rotate && initiationKeys.Some? && r.Ok? ==>
            var keys := initiationKeys.value;
            && |keys.encryptionKey| == ML_KEM_PUBLIC_KEY_SIZE && |keys.dhPublicKey| == 32
            && KemAccepts(keys.encryptionKey) && X25519Accepts(freshSecret, keys.dhPublicKey)
            && r.value.messageNumber == 0
            && r.value.previousChainLength == s.root.sending.messageNumber
            && r.value.kemCiphertext == Some(MlKemEncapsulate(keys.encryptionKey, coins).cipherText)
            && s'.root.sending.messageNumber == 1 && s'.ratchetAt == now)
  {
    if initiationKeys.Some? {
      SessionMlKemRatchetBookkeeping(s, initiationKeys.value, freshSecret, coins, now);
    }
  }

  /**
   * `encryptEnvelope`: the rotation decision, the optional ML-KEM ratchet,
   * then `encryptMessage`.
   */
  method EncryptEnvelope(data: Bytes, state: RatchetStateItem, keys: Keys, initiationKeys: Option<RatchetPublicKeys>,
                         options: EncryptOptions, freshSecret: Bytes, coins: Bytes, nonce: Bytes, now: int)
    returns (r: Result<Envelope>)
    requires state.Valid()
    modifies state.Repr()
    ensures state.Valid() && fresh(state.Repr() - old(state.Repr()))
    ensures var (s', spec) := EncryptFlow(old(state.View()), data, initiationKeys, options, freshSecret, coins, nonce, now);
      && state.View() == s'
      && (spec.Err? ==> r == Err(spec.error))
      && (spec.Ok? ==> r.Ok? && fresh(r.value) && r.value.Fields() == spec.value
                       && r.value.rSignature == RSign(keys, HashFields(spec.value)))
  {
    var kemCiphertext: Option<Bytes> := None;
    var shouldRotate := ShouldRatchetState(state, options.messageBound, options.timeBound, now);
    if shouldRotate && initiationKeys.Some? {
      var kem := PerformMlKemRatchet(state, initiationKeys.value, freshSecret, coins, now);
      if kem.Err? {
        return Err(kem.error);
      }
      kemCiphertext := Some(kem.value);
    }
    r := EncryptMessage(state, data, keys, kemCiphertext, nonce);
  }

  /**
   * `decryptEnvelope` on values: a DH ratchet when the sender's key is new,
   * whose failure ends the call, then the item's decrypt. The remote node id
   * plays no part.
   */
  function DecryptFlow(s: Session, messageNumber: int, dhPublicKey: Bytes, cipherData: CipherData,
                       freshSecret: Bytes, now: int): (Session, Result<Bytes>)
  {
    var (s1, o) := RatchetCheck(s, dhPublicKey, freshSecret, now);
    if o.Fail? then (s1, Err(o.error))
    else Decrypt(ITEM_POLICY, s1, messageNumber, dhPublicKey, cipherData, freshSecret, now)
  }

  /**
   * The delegated decrypt never ratchets a second time; since the ratchet
   * comes first, an envelope with a new, accepted key moves the root ratchet
   * even when a skipped key then opens it; and a key X25519 rejects ends the
   * call with only `previousChainLength` changed.
   */
  lemma DecryptFlowRatchetsFirst(s: Session, messageNumber: int, dhPublicKey: Bytes, cipherData: CipherData,
                                 freshSecret: Bytes, now: int)
    ensures var (s1, o) := RatchetCheck(s, dhPublicKey, freshSecret, now);
      o.Pass? ==> RatchetCheck(s1, dhPublicKey, freshSecret, now) == (s1, Pass)
    ensures dhPublicKey != s.root.remoteDhPublicKey
            && X25519Accepts(s.root.dhSecretKey, dhPublicKey) && X25519Accepts(freshSecret, dhPublicKey)
            && TrySkipped(s.skippedKeys, messageNumber, cipherData).Some? ==>
      var (s', r) := DecryptFlow(s, messageNumber, dhPublicKey, cipherData, freshSecret, now);
      && r.Ok?
      && DhRatchet(s.root, dhPublicKey, freshSecret) == Ok(s'.root)
      && s'.previousChainLength == s.root.sending.messageNumber
    ensures dhPublicKey != s.root.remoteDhPublicKey
            && !(X25519Accepts(s.root.dhSecretKey, dhPublicKey) && X25519Accepts(freshSecret, dhPublicKey)) ==>
      DecryptFlow(s, messageNumber, dhPublicKey, cipherData, freshSecret, now)
      == (s.(previousChainLength := s.root.sending.messageNumber), Err(X25519Rejected))
  {
    DecryptRatchetsOnNewKey(s, dhPublicKey, freshSecret, now);
    var (s1, o) := RatchetCheck(s, dhPublicKey, freshSecret, now);
    DecryptRatchetsOnNewKey(s1, dhPublicKey, freshSecret, now);
  }

  /** `decryptEnvelope`: the DH ratchet when the key changed, then `decryptMessage`. */
  method DecryptEnvelope(envelope: Envelope, remoteNodeId: Bytes, state: RatchetStateItem, freshSecret: Bytes, now: int)
    returns (r: Result<Bytes>)
    requires state.Valid()
    modifies state.Repr()
    ensures state.Valid() && fresh(state.Repr() - old(state.Repr()))
    ensures (state.View(), r) == DecryptFlow(old(state.View()), envelope.messageNumber, envelope.dhPublicKey,
                                             envelope.cipherData, freshSecret, now)
  {
    ghost var s0 := state.View();
    if Compare(envelope.dhPublicKey, state.rootChain.remoteDhPublicKey) != 0 {
      var o := PerformDhRatchet(state, envelope.dhPublicKey, freshSecret, now);
      if o.Fail? {
        return Err(o.error);
      }
    }
    assert (state.View(), Pass) == RatchetCheck(s0, envelope.dhPublicKey, freshSecret, now);
    r := DecryptMessage(state, envelope, freshSecret, now);
  }
}
