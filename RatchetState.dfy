/**
 * The class-based session state of src/models/RatchetState/index.ts: bounds
 * fixed per instance, message numbers validated on decrypt, and a pruning
 * step that both ages out and caps the skipped-key list.
 */
module RatchetStates {
  import opened Wrappers
  import opened Bytes
  import opened Primitives
  import opened KeyChains
  import opened RootChains
  import opened RatchetKeys
  import opened SigningKeys
  import opened Envelopes
  import opened RatchetSessions

  const DEFAULT_MESSAGE_BOUND: int := 100
  const DEFAULT_TIME_BOUND_MS: int := 60 * 60 * 1000
  const MAX_MESSAGE_SKIP: int := 1000
  const MAX_STORED_SKIPPED_KEYS: int := 2000
  const SKIPPED_KEY_MAX_AGE_MS: int := 24 * 60 * 60 * 1000

  /** The constructor's optional bounds. */
  datatype Options = Options(
    messageBound: Option<int>,
    timeBound: Option<int>,
    maxMessageSkip: Option<int>,
    maxStoredSkippedKeys: Option<int>,
    skippedKeyMaxAge: Option<int>)

  class RatchetState {
    var ratchetId: Bytes
    var remoteKeyId: Option<Bytes>
    const rootChain: RootChain
    var previousChainLength: int
    var skippedKeys: seq<SkippedKey>
    var ratchetAt: int

    const messageBound: int
    const timeBound: int
    const maxMessageSkip: int
    const maxStoredSkippedKeys: int
    const skippedKeyMaxAge: int

    /** The objects whose fields the state owns. */
    ghost function Repr(): set<object>
      reads this, rootChain
    {
      {this, rootChain, rootChain.sendingChain, rootChain.receivingChain}
    }

    ghost predicate Valid()
      reads this, rootChain, rootChain.sendingChain, rootChain.receivingChain
    {
      rootChain.Valid()
    }

    function View(): Session
      reads this, rootChain, rootChain.sendingChain, rootChain.receivingChain
    {
      Session(ratchetId, remoteKeyId, rootChain.View(), previousChainLength, skippedKeys, ratchetAt)
    }

    /** This class validates message numbers and uses its own skip bound. */
    function DecryptPolicy(): Policy
    {
      Policy(true, maxMessageSkip)
    }

    /** Absent list and timestamp default to `[]` and `now`; absent bounds to the class constants. */
    constructor(ratchetId: Bytes, remoteKeyId: Option<Bytes>, rootChain: RootChain, previousChainLength: int,
                skippedKeys: Option<seq<SkippedKey>>, ratchetAt: Option<int>, options: Options, now: int)
      requires rootChain.Valid()
      ensures Valid() && this.rootChain == rootChain
      ensures View() == Session(ratchetId, remoteKeyId, rootChain.View(), previousChainLength,
                                OrElse(skippedKeys, []), OrElse(ratchetAt, now))
      ensures messageBound == OrElse(options.messageBound, DEFAULT_MESSAGE_BOUND)
      ensures timeBound == OrElse(options.timeBound, DEFAULT_TIME_BOUND_MS)
      ensures maxMessageSkip == OrElse(options.maxMessageSkip, MAX_MESSAGE_SKIP)
      ensures maxStoredSkippedKeys == OrElse(options.maxStoredSkippedKeys, MAX_STORED_SKIPPED_KEYS)
      ensures skippedKeyMaxAge == OrElse(options.skippedKeyMaxAge, SKIPPED_KEY_MAX_AGE_MS)
    {
      this.ratchetId := ratchetId;
      this.remoteKeyId := remoteKeyId;
      this.rootChain := rootChain;
      this.previousChainLength := previousChainLength;
      this.skippedKeys := OrElse(skippedKeys, []);
      this.ratchetAt := OrElse(ratchetAt, now);
      this.messageBound := OrElse(options.messageBound, DEFAULT_MESSAGE_BOUND);
      this.timeBound := OrElse(options.timeBound, DEFAULT_TIME_BOUND_MS);
      this.maxMessageSkip := OrElse(options.maxMessageSkip, MAX_MESSAGE_SKIP);
      this.maxStoredSkippedKeys := OrElse(options.maxStoredSkippedKeys, MAX_STORED_SKIPPED_KEYS);
      this.skippedKeyMaxAge := OrElse(options.skippedKeyMaxAge, SKIPPED_KEY_MAX_AGE_MS);
    }

    /** `storeSkippedKeys`: one entry appended, stamped `now`. */
    method StoreSkippedKeys(messageNumber: int, secret: Bytes, now: int)
      modifies this`skippedKeys
      ensures skippedKeys == Store(old(skippedKeys), messageNumber, secret, now)
    {
      skippedKeys := skippedKeys + [SkippedKey(messageNumber, secret, now)];
    }

    /**
     * `trySkippedKey`: every entry with the message number is tried, the
     * first that opens the payload is remembered and, after the scan,
     * removed; the list is untouched when none opens it.
     */
    method TrySkippedKey(envelope: Envelope) returns (r: Option<Bytes>)
      modifies this`skippedKeys
      ensures match TrySkipped(old(skippedKeys), envelope.messageNumber, envelope.cipherData)
        case Some(hit) => r == Some(hit.1) && skippedKeys == hit.0
        case None => r == None && skippedKeys == old(skippedKeys)
    {
      var found: Option<nat> := None;
      var data: Bytes := [];
      for i := 0 to |skippedKeys|
        invariant found == FirstOpenable(skippedKeys[..i], envelope.messageNumber, envelope.cipherData)
        invariant found.Some? ==> CipherDecrypt(envelope.cipherData, skippedKeys[found.value].secret) == Some(data)
      {
        assert skippedKeys[..i + 1][..i] == skippedKeys[..i];
        if skippedKeys[i].messageNumber == envelope.messageNumber {
          var attempt := CipherDecrypt(envelope.cipherData, skippedKeys[i].secret);
          if attempt.Some? && found.None? {
            found := Some(i);
            data := attempt.value;
          }
        }
      }
      assert skippedKeys[..|skippedKeys|] == skippedKeys;
      if found.None? {
        return None;
      }
      skippedKeys := skippedKeys[..found.value] + skippedKeys[found.value + 1..];
      r := Some(data);
    }

    /** `performDhRatchet`: bookkeeping around the root ratchet. */
    method PerformDhRatchet(remoteDhPublicKey: Bytes, freshSecret: Bytes, now: int) returns (o: Outcome)
      requires Valid()
      modifies this`previousChainLength, this`ratchetAt, rootChain
      ensures Valid()
      ensures (View(), o) == SessionDhRatchet(old(View()), remoteDhPublicKey, freshSecret, now)
      ensures rootChain.sendingChain == old(rootChain.sendingChain) || fresh(rootChain.sendingChain)
      ensures rootChain.receivingChain == old(rootChain.receivingChain) || fresh(rootChain.receivingChain)
    {
      previousChainLength := rootChain.sendingChain.messageNumber;
      o := rootChain.PerformDhRatchet(remoteDhPublicKey, freshSecret);
      if o.Pass? {
        ratchetAt := now;
      }
    }

    /** `performMlKemRatchet`: the bookkeeping happens before the root ratchet's checks. */
    method PerformMlKemRatchet(initiationKeys: RatchetPublicKeys, freshSecret: Bytes, coins: Bytes, now: int)
      returns (r: Result<Bytes>)
      requires Valid()
      modifies this`previousChainLength, this`ratchetAt, rootChain
      ensures Valid()
      ensures (View(), r) == SessionMlKemRatchet(old(View()), initiationKeys, freshSecret, coins, now)
      ensures rootChain.sendingChain == old(rootChain.sendingChain) || fresh(rootChain.sendingChain)
      ensures rootChain.receivingChain == old(rootChain.receivingChain) || fresh(rootChain.receivingChain)
    {
      previousChainLength := rootChain.sendingChain.messageNumber;
      ratchetAt := now;
      r := rootChain.PerformMlKemRatchet(initiationKeys, freshSecret, coins);
    }

    /**
     * The `while` loop of `decrypt`: walks the receiving chain up to
     * `messageNumber`, storing the secret of every number it passes.
     */
    method SkipTo(messageNumber: int, now: int)
      requires Valid() && rootChain.receivingChain.chainKey.Some?
      modifies this`skippedKeys, rootChain.receivingChain
      ensures Valid()
      ensures var from := old(rootChain.receivingChain.messageNumber);
        var gap: nat := if messageNumber > from then messageNumber - from else 0;
        View() == old(View()).(root := old(View()).root.(receiving := Chain(Some(ChainKeyAfter(old(rootChain.receivingChain.chainKey.value), gap)), from + gap)),
                               skippedKeys := old(skippedKeys) + SkippedRun(old(rootChain.receivingChain.chainKey.value), from, gap, now))
    {
      var chain := rootChain.receivingChain;
      ghost var k := chain.chainKey.value;
      ghost var from := chain.messageNumber;
      ghost var gap: nat := if messageNumber > from then messageNumber - from else 0;
      ghost var before := skippedKeys;
      while chain.messageNumber < messageNumber
        invariant Valid()
        invariant from <= chain.messageNumber <= from + gap
        invariant chain.chainKey == Some(ChainKeyAfter(k, chain.messageNumber - from))
        invariant skippedKeys == before + SkippedRun(k, from, chain.messageNumber - from, now)
        decreases messageNumber - chain.messageNumber
      {
        SkipOne(now);
      }
    }

    /** One pass of that loop: store the current number's secret, then step the receiving chain. */
    method SkipOne(now: int)
      requires Valid() && rootChain.receivingChain.chainKey.Some?
      modifies this`skippedKeys, rootChain.receivingChain
      ensures Valid()
      ensures rootChain.receivingChain.View() == Advanced(old(rootChain.receivingChain.View()))
      ensures skippedKeys == old(skippedKeys) + [SkippedKey(old(rootChain.receivingChain.messageNumber),
                                                            DeriveMessageSecret(old(rootChain.receivingChain.chainKey.value)), now)]
    {
      var chain := rootChain.receivingChain;
      var secret := chain.Secret();
      StoreSkippedKeys(chain.messageNumber, secret.value, now);
      var _ := chain.Next();
    }

    /** The part of `decrypt` after the ratchet trigger: chain checks, the walk, the AEAD call, one more step. */
    method DecryptOnReceivingChain(envelope: Envelope, now: int) returns (r: Result<Bytes>)
      requires Valid()
      modifies this`skippedKeys, rootChain.receivingChain
      ensures Valid()
      ensures (View(), r) == DecryptOnChain(Policy(true, maxMessageSkip), old(View()), envelope.messageNumber, envelope.cipherData, now)
    {
      var chain := rootChain.receivingChain;
      if chain.chainKey.None? {
        return Err(ReceivingChainUninitialized);
      }
      if envelope.messageNumber - chain.messageNumber > maxMessageSkip {
        return Err(SkipTooLarge);
      }
      r := WalkAndOpen(envelope.messageNumber, envelope.cipherData, now);
    }

    /** Past both guards: the walk, the AEAD call, and the final step when it opened. */
    method WalkAndOpen(messageNumber: int, cipherData: CipherData, now: int) returns (r: Result<Bytes>)
      requires Valid() && rootChain.receivingChain.chainKey.Some?
      requires messageNumber - rootChain.receivingChain.messageNumber <= maxMessageSkip
      modifies this`skippedKeys, rootChain.receivingChain
      ensures Valid()
      ensures (View(), r) == DecryptOnChain(Policy(true, maxMessageSkip), old(View()), messageNumber, cipherData, now)
    {
      var chain := rootChain.receivingChain;
      SkipTo(messageNumber, now);
      var secret := chain.Secret();
      var data := CipherDecrypt(cipherData, secret.value);
      if data.None? {
        return Err(DecryptionFailed);
      }
      var _ := chain.Next();
      r := Ok(data.value);
    }

    /**
     * `decrypt(envelope)`: validation, the skipped-key lookup, the DH
     * ratchet trigger, then the receiving chain.
     */
    method Decrypt(envelope: Envelope, freshSecret: Bytes, now: int) returns (r: Result<Bytes>)
      requires Valid()
      modifies Repr()
      ensures Valid()
      ensures (View(), r) == RatchetSessions.Decrypt(DecryptPolicy(), old(View()), envelope.messageNumber,
                                                      envelope.dhPublicKey, envelope.cipherData, freshSecret, now)
      ensures fresh(Repr() - old(Repr()))
    {
      if envelope.messageNumber < 0 || !IsSafeInteger(envelope.messageNumber) {
        return Err(InvalidMessageNumber);
      }
      var skipped := TrySkippedKey(envelope);
      if skipped.Some? {
        return Ok(skipped.value);
      }
      ghost var s0 := View();
      if Compare(envelope.dhPublicKey, rootChain.remoteDhPublicKey) != 0 {
        var o := PerformDhRatchet(envelope.dhPublicKey, freshSecret, now);
        if o.Fail? {
          return Err(o.error);
        }
      }
      assert (View(), Pass) == RatchetCheck(s0, envelope.dhPublicKey, freshSecret, now);
      r := DecryptOnReceivingChain(envelope, now);
    }

    /**
     * `encrypt(data, keys, kemCiphertext)` with the AEAD nonce explicit:
     * builds and signs the envelope, then steps the sending chain.
     */
    method Encrypt(data: Bytes, keys: Keys, kemCiphertext: Option<Bytes>, nonce: Bytes) returns (r: Result<Envelope>)
      requires Valid()
      modifies rootChain.sendingChain
      ensures Valid()
      ensures var (s', spec) := RatchetSessions.Encrypt(old(View()), data, kemCiphertext, nonce);
        && View() == s'
        && (spec.Err? ==> r == Err(spec.error))
        && (spec.Ok? ==> r.Ok? && fresh(r.value) && r.value.Fields() == spec.value
                         && r.value.rSignature == RSign(keys, HashFields(spec.value)))
    {
      var sending := rootChain.sendingChain;
      if sending.chainKey.None? {
        return Err(SendingChainUninitialized);
      }
      if remoteKeyId.None? {
        return Err(RemoteKeyIdMissing);
      }
      var secret := sending.Secret();
      var cipherData := CipherEncrypt(secret.value, data, nonce);
      var dhPublicKey := rootChain.PublicKey();
      var envelope := Envelope.Create(
        CreateProperties(Some(PROTOCOL_VERSION), remoteKeyId.value, dhPublicKey, sending.messageNumber,
                         previousChainLength, kemCiphertext, cipherData),
        keys);
      var _ := sending.Next();
      r := Ok(envelope);
    }

    /** `pruneSkippedKeys`: the age filter, then the newest-first cap. */
    method PruneSkippedKeys(now: int)
      modifies this`skippedKeys
      ensures skippedKeys == PruneCapped(old(skippedKeys), now, skippedKeyMaxAge, maxStoredSkippedKeys)
    {
      skippedKeys := KeepFresh(skippedKeys, now, skippedKeyMaxAge);
      if |skippedKeys| > maxStoredSkippedKeys {
        skippedKeys := SortNewestFirst(skippedKeys);
        skippedKeys := Slice(skippedKeys, 0, maxStoredSkippedKeys);
      }
    }

    /** `shouldRatchet(messageBound?, timeBound?)`: absent bounds fall back to the instance's. */
    function ShouldRatchet(messageBound: Option<int>, timeBound: Option<int>, now: int): (due: bool)
      reads this, rootChain, rootChain.sendingChain
      ensures due <==> rootChain.sendingChain.messageNumber >= OrElse(messageBound, this.messageBound)
                       || now - ratchetAt >= OrElse(timeBound, this.timeBound)
    {
      ShouldRatchetIff(rootChain.sendingChain.messageNumber, ratchetAt, now,
                       OrElse(messageBound, this.messageBound), OrElse(timeBound, this.timeBound));
      RatchetSessions.ShouldRatchet(rootChain.sendingChain.messageNumber, ratchetAt, now,
                                    OrElse(messageBound, this.messageBound), OrElse(timeBound, this.timeBound))
    }
  }
}
