/**
 * The functional twin of the session state, src/models/RatchetStateItem:
 * a plain record class whose operations live in separate method files and
 * take the state as their first argument. Its bounds are module constants,
 * its decrypt does not validate the message number and its pruning only
 * ages entries out.
 */
module RatchetStateItems {
  import opened Wrappers
  import opened Bytes
  import opened Primitives
  import opened KeyChains
  import opened RootChains
  import opened RatchetKeys
  import opened SigningKeys
  import opened Envelopes
  import opened RatchetIds
  import opened RatchetSessions

  const DEFAULT_MESSAGE_BOUND: int := 100
  const DEFAULT_TIME_BOUND_MS: int := 60 * 60 * 1000
  const MAX_MESSAGE_SKIP: int := 1000
  const SKIPPED_KEY_MAX_AGE_MS: int := 24 * 60 * 60 * 1000

  /** No message-number validation; the static skip bound. */
  const ITEM_POLICY: Policy := Policy(false, MAX_MESSAGE_SKIP)

  /** `properties.ratchetAt || now`: an absent or zero timestamp is replaced by the clock. */
  function RatchetAtOrNow(ratchetAt: Option<int>, now: int): (at: int)
    ensures ratchetAt.Some? && ratchetAt.value != 0 ==> at == ratchetAt.value
    ensures ratchetAt.None? || ratchetAt.value == 0 ==> at == now
  {
    if ratchetAt.Some? && ratchetAt.value != 0 then ratchetAt.value else now
  }

  class RatchetStateItem {
    var ratchetId: Bytes
    var remoteKeyId: Option<Bytes>
    const rootChain: RootChain
    var previousChainLength: int
    var skippedKeys: seq<SkippedKey>
    var ratchetAt: int

    ghost function Repr(): set<object>
      reads this, rootChain
    {
      {this, rootChain, rootChain.sendingChain, rootChain.receivingChain}
    }

    ghost predicate Valid()
      reads this, rootChain, rootChain.sendingChain, rootChain.receivingChain
    {
      rootChain.Valid()
    }

    function View(): Session
      reads this, rootChain, rootChain.sendingChain, rootChain.receivingChain
    {
      Session(ratchetId, remoteKeyId, rootChain.View(), previousChainLength, skippedKeys, ratchetAt)
    }

    /** `skippedKeys || []` (a list is always truthy) and `ratchetAt || now`. */
    constructor(ratchetId: Bytes, remoteKeyId: Option<Bytes>, rootChain: RootChain, previousChainLength: int,
                skippedKeys: Option<seq<SkippedKey>>, ratchetAt: Option<int>, now: int)
      requires rootChain.Valid()
      ensures Valid() && this.rootChain == rootChain
      ensures View() == Session(ratchetId, remoteKeyId, rootChain.View(), previousChainLength,
                                OrElse(skippedKeys, []), RatchetAtOrNow(ratchetAt, now))
    {
      this.ratchetId := ratchetId;
      this.remoteKeyId := remoteKeyId;
      this.rootChain := rootChain;
      this.previousChainLength := previousChainLength;
      this.skippedKeys := OrElse(skippedKeys, []);
      this.ratchetAt := RatchetAtOrNow(ratchetAt, now);
    }
  }

  /** `storeRatchetStateSkippedKey`: one entry appended, stamped `now`. */
  method StoreSkippedKey(state: RatchetStateItem, messageNumber: int, secret: Bytes, now: int)
    modifies state`skippedKeys
    ensures state.skippedKeys == Store(old(state.skippedKeys), messageNumber, secret, now)
  {
    state.skippedKeys := state.skippedKeys + [SkippedKey(messageNumber, secret, now)];
  }

  /**
   * `tryRatchetStateSkippedKey`: tries every candidate with the message
   * number, keeps the first success and removes exactly that entry.
   */
  method TrySkippedKey(state: RatchetStateItem, envelope: Envelope) returns (r: Option<Bytes>)
    modifies state`skippedKeys
    ensures match TrySkipped(old(state.skippedKeys), envelope.messageNumber, envelope.cipherData)
      case Some(hit) => r == Some(hit.1) && state.skippedKeys == hit.0
      case None => r == None && state.skippedKeys == old(state.skippedKeys)
  {
    var keys := state.skippedKeys;
    var found: Option<nat> := None;
    var data: Bytes := [];
    for i := 0 to |keys|
      invariant found == FirstOpenable(keys[..i], envelope.messageNumber, envelope.cipherData)
      invariant found.Some? ==> CipherDecrypt(envelope.cipherData, keys[found.value].secret) == Some(data)
    {
      assert keys[..i + 1][..i] == keys[..i];
      if keys[i].messageNumber == envelope.messageNumber {
        var attempt := CipherDecrypt(envelope.cipherData, keys[i].secret);
        if attempt.Some? && found.None? {
          found := Some(i);
          data := attempt.value;
        }
      }
    }
    assert keys[..|keys|] == keys;
    if found.None? {
      return None;
    }
    state.skippedKeys := keys[..found.value] + keys[found.value + 1..];
    r := Some(data);
  }

  /** `performRatchetStateDhRatchet`. */
  method PerformDhRatchet(state: RatchetStateItem, remoteDhPublicKey: Bytes, freshSecret: Bytes, now: int)
    returns (o: Outcome)
    requires state.Valid()
    modifies state`previousChainLength, state`ratchetAt, state.rootChain
    ensures state.Valid()
    ensures (state.View(), o) == SessionDhRatchet(old(state.View()), remoteDhPublicKey, freshSecret, now)
    ensures fresh(state.Repr() - old(state.Repr()))
  {
    state.previousChainLength := state.rootChain.sendingChain.messageNumber;
    o := state.rootChain.PerformDhRatchet(remoteDhPublicKey, freshSecret);
    if o.Pass? {
      state.ratchetAt := now;
    }
  }

  /** `performRatchetStateMlKemRatchet`. */
  method PerformMlKemRatchet(state: RatchetStateItem, initiationKeys: RatchetPublicKeys, freshSecret: Bytes,
                             coins: Bytes, now: int) returns (r: Result<Bytes>)
    requires state.Valid()
    modifies state`previousChainLength, state`ratchetAt, state.rootChain
    ensures state.Valid()
    ensures (state.View(), r) == SessionMlKemRatchet(old(state.View()), initiationKeys, freshSecret, coins, now)
    ensures fresh(state.Repr() - old(state.Repr()))
  {
    state.previousChainLength := state.rootChain.sendingChain.messageNumber;
    state.ratchetAt := now;
    r := state.rootChain.PerformMlKemRatchet(initiationKeys, freshSecret, coins);
  }

  /** The `while` loop of `decryptRatchetStateMessage`. */
  method SkipTo(state: RatchetStateItem, messageNumber: int, now: int)
    requires state.Valid() && state.rootChain.receivingChain.chainKey.Some?
    modifies state`skippedKeys, state.rootChain.receivingChain
    ensures state.Valid()
    ensures var from := old(state.rootChain.receivingChain.messageNumber);
      var k := old(state.rootChain.receivingChain.chainKey.value);
      var gap: nat := if messageNumber > from then messageNumber - from else 0;
      state.View() == old(state.View()).(root := old(state.View()).root.(receiving := Chain(Some(ChainKeyAfter(k, gap)), from + gap)),
                                         skippedKeys := old(state.skippedKeys) + SkippedRun(k, from, gap, now))
  {
    var chain := state.rootChain.receivingChain;
    ghost var k := chain.chainKey.value;
    ghost var from := chain.messageNumber;
    ghost var gap: nat := if messageNumber > from then messageNumber - from else 0;
    ghost var before := state.skippedKeys;
    while chain.messageNumber < messageNumber
      invariant state.Valid()
      invariant from <= chain.messageNumber <= from + gap
      invariant chain.chainKey == Some(ChainKeyAfter(k, chain.messageNumber - from))
      invariant state.skippedKeys == before + SkippedRun(k, from, chain.messageNumber - from, now)
      decreases messageNumber - chain.messageNumber
    {
      SkipOne(state, now);
    }
  }

  /** One pass of that loop: store the current number's secret, then step the receiving chain. */
  method SkipOne(state: RatchetStateItem, now: int)
    requires state.Valid() && state.rootChain.receivingChain.chainKey.Some?
    modifies state`skippedKeys, state.rootChain.receivingChain
    ensures state.Valid()
    ensures state.rootChain.receivingChain.View() == Advanced(old(state.rootChain.receivingChain.View()))
    ensures state.skippedKeys == old(state.skippedKeys) + [SkippedKey(old(state.rootChain.receivingChain.messageNumber),
                                                                      DeriveMessageSecret(old(state.rootChain.receivingChain.chainKey.value)), now)]
  {
    var chain := state.rootChain.receivingChain;
    var secret := chain.Secret();
    StoreSkippedKey(state, chain.messageNumber, secret.value, now);
    var _ := chain.Next();
  }

  /** The part of `decryptRatchetStateMessage` after the ratchet trigger. */
  method DecryptOnReceivingChain(state: RatchetStateItem, envelope: Envelope, now: int) returns (r: Result<Bytes>)
    requires state.Valid()
    modifies state`skippedKeys, state.rootChain.receivingChain
    ensures state.Valid()
    ensures (state.View(), r) == DecryptOnChain(ITEM_POLICY, old(state.View()), envelope.messageNumber, envelope.cipherData, now)
  {
    var chain := state.rootChain.receivingChain;
    if chain.chainKey.None? {
      return Err(ReceivingChainUninitialized);
    }
    if envelope.messageNumber - chain.messageNumber > MAX_MESSAGE_SKIP {
      return Err(SkipTooLarge);
    }
    SkipTo(state, envelope.messageNumber, now);
    var secret := chain.Secret();
    var data := CipherDecrypt(envelope.cipherData, secret.value);
    if data.None? {
      return Err(DecryptionFailed);
    }
    var _ := chain.Next();
    r := Ok(data.value);
  }

  /** `decryptRatchetStateMessage`: the skipped-key lookup, the ratchet trigger, then the receiving chain. */
  method DecryptMessage(state: RatchetStateItem, envelope: Envelope, freshSecret: Bytes, now: int) returns (r: Result<Bytes>)
    requires state.Valid()
    modifies state.Repr()
    ensures state.Valid()
    ensures (state.View(), r) == Decrypt(ITEM_POLICY, old(state.View()), envelope.messageNumber,
                                         envelope.dhPublicKey, envelope.cipherData, freshSecret, now)
    ensures fresh(state.Repr() - old(state.Repr()))
  {
    var skipped := TrySkippedKey(state, envelope);
    if skipped.Some? {
      return Ok(skipped.value);
    }
    ghost var s0 := state.View();
    if Compare(envelope.dhPublicKey, state.rootChain.remoteDhPublicKey) != 0 {
      var o := PerformDhRatchet(state, envelope.dhPublicKey, freshSecret, now);
      if o.Fail? {
        return Err(o.error);
      }
    }
    assert (state.View(), Pass) == RatchetCheck(s0, envelope.dhPublicKey, freshSecret, now);
    r := DecryptOnReceivingChain(state, envelope, now);
  }

  /** `encryptRatchetStateMessage` with the AEAD nonce explicit. */
  method EncryptMessage(state: RatchetStateItem, data: Bytes, keys: Keys, kemCiphertext: Option<Bytes>, nonce: Bytes)
    returns (r: Result<Envelope>)
    requires state.Valid()
    modifies state.rootChain.sendingChain
    ensures state.Valid()
    ensures var (s', spec) := Encrypt(old(state.View()), data, kemCiphertext, nonce);
      && state.View() == s'
      && (spec.Err? ==> r == Err(spec.error))
      && (spec.Ok? ==> r.Ok? && fresh(r.value) && r.value.Fields() == spec.value
                       && r.value.rSignature == RSign(keys, HashFields(spec.value)))
  {
    var sending := state.rootChain.sendingChain;
    if sending.chainKey.None? {
      return Err(SendingChainUninitialized);
    }
    if state.remoteKeyId.None? {
      return Err(RemoteKeyIdMissing);
    }
    var secret := sending.Secret();
    var cipherData := CipherEncrypt(secret.value, data, nonce);
    var dhPublicKey := state.rootChain.PublicKey();
    var envelope := Envelope.Create(
      CreateProperties(Some(PROTOCOL_VERSION), state.remoteKeyId.value, dhPublicKey, sending.messageNumber,
                       state.previousChainLength, kemCiphertext, cipherData),
      keys);
    var _ := sending.Next();
    r := Ok(envelope);
  }

  /** `pruneRatchetStateSkippedKeys`: the 24-hour age filter and nothing else. */
  method PruneSkippedKeys(state: RatchetStateItem, now: int)
    modifies state`skippedKeys
    ensures state.skippedKeys == KeepFresh(old(state.skippedKeys), now, SKIPPED_KEY_MAX_AGE_MS)
  {
    state.skippedKeys := KeepFresh(state.skippedKeys, now, SKIPPED_KEY_MAX_AGE_MS);
  }

  /** `shouldRatchetStateRatchet` with its default bounds. */
  function ShouldRatchetState(state: RatchetStateItem, messageBound: Option<int>, timeBound: Option<int>, now: int): (due: bool)
    reads state, state.rootChain, state.rootChain.sendingChain
    ensures due <==> state.rootChain.sendingChain.messageNumber >= OrElse(messageBound, DEFAULT_MESSAGE_BOUND)
                     || now - state.ratchetAt >= OrElse(timeBound, DEFAULT_TIME_BOUND_MS)
  {
    ShouldRatchetIff(state.rootChain.sendingChain.messageNumber, state.ratchetAt, now,
                     OrElse(messageBound, DEFAULT_MESSAGE_BOUND), OrElse(timeBound, DEFAULT_TIME_BOUND_MS));
    ShouldRatchet(state.rootChain.sendingChain.messageNumber, state.ratchetAt, now,
                  OrElse(messageBound, DEFAULT_MESSAGE_BOUND), OrElse(timeBound, DEFAULT_TIME_BOUND_MS))
  }

  // ------------------------------------------------------------ initialisation

  /**
   * The value of `initializeRatchetStateAsInitiator` with the ephemeral X25519
   * secret, the encapsulation coins, the AEAD nonce and the clock explicit:
   * the new session and the unsigned fields of the first envelope, or the
   * throw of encapsulation on the bundle's ML-KEM key (it runs first, with no
   * length guard before it) or of X25519 on the bundle's DH key.
   */
  function Initiate(localNodeId: Bytes, remoteNodeId: Bytes, remote: RatchetPublicKeys, data: Bytes,
                    dhSecretKey: Bytes, coins: Bytes, nonce: Bytes, now: int): Result<(Session, UnsignedFields)>
  {
    if !KemAccepts(remote.encryptionKey) then Err(KemRejected)
    else if !X25519Accepts(dhSecretKey, remote.dhPublicKey) then Err(X25519Rejected)
    else
      var encapsulation := MlKemEncapsulate(remote.encryptionKey, coins);
      var d := DeriveRootKey(Zeros(ROOT_KEY_SIZE), X25519(dhSecretKey, remote.dhPublicKey),
                             Some(encapsulation.sharedSecret));
      var cipherData := CipherEncrypt(DeriveMessageSecret(d.newChainKey), data, nonce);
      var root := Root(d.newRootKey, dhSecretKey, remote.dhPublicKey, Advanced(Chain(Some(d.newChainKey), 0)), Chain(None, 0));
      Ok((Session(ComputeRatchetId(localNodeId, remoteNodeId), Some(remote.keyId), root, 0, [], now),
          UnsignedFields(PROTOCOL_VERSION, remote.keyId, X25519PublicKey(dhSecretKey), 0, 0,
                         Some(encapsulation.cipherText), cipherData)))
  }

  /**
   * The initiator fails exactly when encapsulation rejects the prekey
   * bundle's ML-KEM key or X25519 its DH key, reporting the first. Otherwise the first envelope is message 0 sealed under the
   * message-0 secret of the new sending chain, which then stands at 1; the
   * receiving chain is empty and the session points at the prekey bundle.
   */
  lemma InitiateOutcome(localNodeId: Bytes, remoteNodeId: Bytes, remote: RatchetPublicKeys, data: Bytes,
                        dhSecretKey: Bytes, coins: Bytes, nonce: Bytes, now: int)
    ensures var r := Initiate(localNodeId, remoteNodeId, remote, data, dhSecretKey, coins, nonce, now);
      && (r.Ok? <==> KemAccepts(remote.encryptionKey) && X25519Accepts(dhSecretKey, remote.dhPublicKey))
      && (!KemAccepts(remote.encryptionKey) ==> r == Err(KemRejected))
      && (KemAccepts(remote.encryptionKey) && r.Err? ==> r == Err(X25519Rejected))
    ensures var r := Initiate(localNodeId, remoteNodeId, remote, data, dhSecretKey, coins, nonce, now);
      r.Ok? ==>
      var (s, f) := r.value;
      var d := DeriveRootKey(Zeros(ROOT_KEY_SIZE), X25519(dhSecretKey, remote.dhPublicKey),
                             Some(MlKemEncapsulate(remote.encryptionKey, coins).sharedSecret));
      && s.root.sending == AdvancedBy(Chain(Some(d.newChainKey), 0), 1)
      && s.root.sending.messageNumber == 1
      && f.cipherData == CipherEncrypt(ChainSecret(Chain(Some(d.newChainKey), 0)).value, data, nonce)
      && s.root.receiving.chainKey.None? && s.root.remoteDhPublicKey == remote.dhPublicKey
      && s.remoteKeyId == Some(remote.keyId) && s.previousChainLength == 0 && s.skippedKeys == []
      && s.ratchetId == ComputeRatchetId(localNodeId, remoteNodeId)
      && f.messageNumber == 0 && f.previousChainLength == 0 && f.keyId == remote.keyId
      && f.dhPublicKey == X25519PublicKey(dhSecretKey) && f.dhPublicKey == DhPublicKey(s.root)
      && f.kemCiphertext == Some(MlKemEncapsulate(remote.encryptionKey, coins).cipherText)
  {
    var d := DeriveRootKey(Zeros(ROOT_KEY_SIZE), X25519(dhSecretKey, remote.dhPublicKey),
                           Some(MlKemEncapsulate(remote.encryptionKey, coins).sharedSecret));
    AdvancedByClosedForm(d.newChainKey, 0, 1);
  }

  /**
   * The value of `initializeRatchetStateAsResponder` with the fresh X25519
   * secret and the clock explicit: the two guards on the KEM ciphertext,
   * then a receiving key from the prekeys and a sending key from a second
   * derivation without KEM; either X25519 agreement may throw.
   */
  function Respond(fields: UnsignedFields, localNodeId: Bytes, local: SecretRatchetKeys, remoteNodeId: Bytes,
                   dhSecretKey: Bytes, now: int): Result<Session>
  {
    if fields.kemCiphertext.None? then Err(KemCiphertextMissing)
    else if |fields.kemCiphertext.value| != ML_KEM_CIPHERTEXT_SIZE then Err(InvalidKemCiphertextLength)
    else if !X25519Accepts(local.dhSecretKey, fields.dhPublicKey) || !X25519Accepts(dhSecretKey, fields.dhPublicKey) then
      Err(X25519Rejected)
    else
      var kemSecret := MlKemDecapsulate(fields.kemCiphertext.value, local.decryptionKey);
      var first := DeriveRootKey(Zeros(ROOT_KEY_SIZE), X25519(local.dhSecretKey, fields.dhPublicKey), Some(kemSecret));
      var second := DeriveRootKey(first.newRootKey, X25519(dhSecretKey, fields.dhPublicKey), None);
      var root := Root(second.newRootKey, dhSecretKey, fields.dhPublicKey,
                       Chain(Some(second.newChainKey), 0), Chain(Some(first.newChainKey), 0));
      Ok(Session(ComputeRatchetId(localNodeId, remoteNodeId), None, root, 0, [], now))
  }

  /**
   * The responder refuses a missing ciphertext, then one of the wrong
   * length, then a DH key X25519 rejects; otherwise both chains start at 0,
   * the remote key is the envelope's, and no key id is set.
   */
  lemma RespondOutcome(fields: UnsignedFields, localNodeId: Bytes, local: SecretRatchetKeys, remoteNodeId: Bytes,
                       dhSecretKey: Bytes, now: int)
    ensures var r := Respond(fields, localNodeId, local, remoteNodeId, dhSecretKey, now);
      && (fields.kemCiphertext.None? ==> r == Err(KemCiphertextMissing))
      && (fields.kemCiphertext.Some? && |fields.kemCiphertext.value| != ML_KEM_CIPHERTEXT_SIZE ==> r == Err(InvalidKemCiphertextLength))
      && (r.Ok? <==> fields.kemCiphertext.Some? && |fields.kemCiphertext.value| == ML_KEM_CIPHERTEXT_SIZE
                     && X25519Accepts(local.dhSecretKey, fields.dhPublicKey) && X25519Accepts(dhSecretKey, fields.dhPublicKey))
      && (r.Err? && fields.kemCiphertext.Some? && |fields.kemCiphertext.value| == ML_KEM_CIPHERTEXT_SIZE ==> r == Err(X25519Rejected))
      && (r.Ok? ==> r.value.root.sending.messageNumber == 0 && r.value.root.receiving.messageNumber == 0
                    && r.value.root.sending.chainKey.Some? && r.value.root.receiving.chainKey.Some?
                    && r.value.root.remoteDhPublicKey == fields.dhPublicKey && r.value.remoteKeyId.None?
                    && r.value.previousChainLength == 0 && r.value.skippedKeys == []
                    && r.value.ratchetId == ComputeRatchetId(localNodeId, remoteNodeId))
  {
  }

  /** `initializeRatchetStateAsInitiator`: encapsulation and the X25519 agreement, then the new state and the signed first envelope. */
  method InitializeAsInitiator(localNodeId: Bytes, remoteNodeId: Bytes, remote: RatchetPublicKeys, data: Bytes,
                               keys: Keys, dhSecretKey: Bytes, coins: Bytes, nonce: Bytes, now: int)
    returns (r: Result<(RatchetStateItem, Envelope)>)
    ensures var spec := Initiate(localNodeId, remoteNodeId, remote, data, dhSecretKey, coins, nonce, now);
      spec.Err? ==> r == Err(spec.error)
    ensures var spec := Initiate(localNodeId, remoteNodeId, remote, data, dhSecretKey, coins, nonce, now);
      spec.Ok? ==> r.Ok? && fresh(r.value.0.Repr()) && fresh(r.value.1) && r.value.0.Valid()
                   && r.value.0.View() == spec.value.0 && r.value.1.Fields() == spec.value.1
                   && r.value.1.rSignature == RSign(keys, HashFields(spec.value.1))
  {
    if !KemAccepts(remote.encryptionKey) {
      return Err(KemRejected);
    }
    if !X25519Accepts(dhSecretKey, remote.dhPublicKey) {
      return Err(X25519Rejected);
    }
    var state, envelope := BuildInitiator(localNodeId, remoteNodeId, remote, data, keys, dhSecretKey, coins, nonce, now);
    r := Ok((state, envelope));
  }

  /** The part of `initializeRatchetStateAsInitiator` after encapsulation and the X25519 agreement succeeded. */
  method BuildInitiator(localNodeId: Bytes, remoteNodeId: Bytes, remote: RatchetPublicKeys, data: Bytes,
                        keys: Keys, dhSecretKey: Bytes, coins: Bytes, nonce: Bytes, now: int)
    returns (state: RatchetStateItem, envelope: Envelope)
    requires KemAccepts(remote.encryptionKey) && X25519Accepts(dhSecretKey, remote.dhPublicKey)
    ensures fresh(state.Repr()) && fresh(envelope) && state.Valid()
    ensures var spec := Initiate(localNodeId, remoteNodeId, remote, data, dhSecretKey, coins, nonce, now);
      spec.Ok? && state.View() == spec.value.0 && envelope.Fields() == spec.value.1
      && envelope.rSignature == RSign(keys, HashFields(spec.value.1))
  {
    ghost var spec := Initiate(localNodeId, remoteNodeId, remote, data, dhSecretKey, coins, nonce, now).value;
    var encapsulation := MlKemEncapsulate(remote.encryptionKey, coins);
    var dhPublicKey := X25519PublicKey(dhSecretKey);
    var d := DeriveRootKey(Zeros(ROOT_KEY_SIZE), X25519(dhSecretKey, remote.dhPublicKey),
                           Some(encapsulation.sharedSecret));
    var sendingChain := new KeyChain(Some(d.newChainKey), None);
    var secret := sendingChain.Secret();
    var cipherData := CipherEncrypt(secret.value, data, nonce);
    var _ := sendingChain.Next();
    var receivingChain := new KeyChain(None, None);
    var rootChain := new RootChain(d.newRootKey, dhSecretKey, remote.dhPublicKey, sendingChain, receivingChain);
    state := new RatchetStateItem(ComputeRatchetId(localNodeId, remoteNodeId), Some(remote.keyId), rootChain, 0,
                                  Some([]), Some(now), now);
    assert state.View() == spec.0;
    envelope := Envelope.Create(
      CreateProperties(Some(PROTOCOL_VERSION), remote.keyId, dhPublicKey, 0, 0, Some(encapsulation.cipherText), cipherData),
      keys);
  }

  /** `initializeRatchetStateAsResponder`: the guards, then the new state. */
  method InitializeAsResponder(envelope: Envelope, localNodeId: Bytes, local: SecretRatchetKeys, remoteNodeId: Bytes,
                               dhSecretKey: Bytes, now: int) returns (r: Result<RatchetStateItem>)
    ensures var spec := Respond(envelope.Fields(), localNodeId, local, remoteNodeId, dhSecretKey, now);
      && (spec.Err? ==> r == Err(spec.error))
      && (spec.Ok? ==> r.Ok? && fresh(r.value.Repr()) && r.value.Valid() && r.value.View() == spec.value)
  {
    if envelope.kemCiphertext.None? {
      return Err(KemCiphertextMissing);
    }
    if |envelope.kemCiphertext.value| != ML_KEM_CIPHERTEXT_SIZE {
      return Err(InvalidKemCiphertextLength);
    }
    var kemSecret := MlKemDecapsulate(envelope.kemCiphertext.value, local.decryptionKey);
    var ratchetId := ComputeRatchetId(localNodeId, remoteNodeId);
    if !X25519Accepts(local.dhSecretKey, envelope.dhPublicKey) {
      return Err(X25519Rejected);
    }
    var first := DeriveRootKey(Zeros(ROOT_KEY_SIZE), X25519(local.dhSecretKey, envelope.dhPublicKey), Some(kemSecret));
    if !X25519Accepts(dhSecretKey, envelope.dhPublicKey) {
      return Err(X25519Rejected);
    }
    var second := DeriveRootKey(first.newRootKey, X25519(dhSecretKey, envelope.dhPublicKey), None);
    var sendingChain := new KeyChain(Some(second.newChainKey), None);
    var receivingChain := new KeyChain(Some(first.newChainKey), None);
    var rootChain := new RootChain(second.newRootKey, dhSecretKey, envelope.dhPublicKey, sendingChain, receivingChain);
    var state := new RatchetStateItem(ratchetId, None, rootChain, 0, Some([]), Some(now), now);
    r := Ok(state);
  }
}
