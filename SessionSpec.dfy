/**
 * The value-level behaviour shared by the two session-state implementations
 * (src/models/RatchetState and src/models/RatchetStateItem): the skipped-key
 * store, the ratchet bookkeeping, decryption, encryption, rotation and pruning.
 * The two classes differ only in the `Policy` they decrypt under and in how
 * they prune.
 */
module RatchetSessions {
  import opened Wrappers
  import opened Bytes
  import opened Primitives
  import opened KeyChains
  import opened RootChains
  import opened RatchetKeys
  import opened Envelopes

  /** A stored message secret for a message that was skipped over. */
  datatype SkippedKey = SkippedKey(messageNumber: int, secret: Bytes, createdAt: int)

  /** The value of a session state. */
  datatype Session = Session(
    ratchetId: Bytes,
    remoteKeyId: Option<Bytes>,
    root: Root,
    previousChainLength: int,
    skippedKeys: seq<SkippedKey>,
    ratchetAt: int)

  /**
   * How `decrypt` screens a message: whether it rejects negative or unsafe
   * message numbers first, and the largest gap it walks.
   */
  datatype Policy = Policy(validateMessageNumber: bool, maxMessageSkip: int)

  // ------------------------------------------------------------ skipped keys

  /**
   * The entries the receiving loop stores when it walks `count` steps from
   * chain key `chainKey` at counter `from`, all stamped `now`.
   */
  function SkippedRun(chainKey: Bytes, from: int, count: nat, now: int): (run: seq<SkippedKey>)
    ensures |run| == count
  {
    if count == 0 then []
    else SkippedRun(chainKey, from, count - 1, now)
         + [SkippedKey(from + count - 1, DeriveMessageSecret(ChainKeyAfter(chainKey, count - 1)), now)]
  }

  /** Entry i of the run is number `from + i`, keyed by the chain key after i steps. */
  lemma {:induction false} SkippedRunEntries(chainKey: Bytes, from: int, count: nat, now: int)
    ensures forall i :: 0 <= i < count ==>
      SkippedRun(chainKey, from, count, now)[i] == SkippedKey(from + i, DeriveMessageSecret(ChainKeyAfter(chainKey, i)), now)
  {
    if count > 0 {
      SkippedRunEntries(chainKey, from, count - 1, now);
    }
  }

  /**
   * With separated labels, no secret the walk stores for a skipped message
   * is the chain key that follows it: the stored keys never include a key
   * of the chain itself.
   */
  lemma SkippedSecretsAreNotChainKeys(chainKey: Bytes, from: int, count: nat, now: int)
    requires LabelsSeparate()
    ensures forall i :: 0 <= i < count ==> SkippedRun(chainKey, from, count, now)[i].secret != ChainKeyAfter(chainKey, i + 1)
  {
    SkippedRunEntries(chainKey, from, count, now);
    forall i | 0 <= i < count
      ensures SkippedRun(chainKey, from, count, now)[i].secret != ChainKeyAfter(chainKey, i + 1)
    {
      MessageSecretIsNotNextChainKey(chainKey, i);
    }
  }

  /** The `storeSkippedKeys` append: exactly one new entry at the end, no deduplication. */
  function Store(keys: seq<SkippedKey>, messageNumber: int, secret: Bytes, now: int): (r: seq<SkippedKey>)
    ensures |r| == |keys| + 1 && r[..|keys|] == keys
    ensures r[|keys|] == SkippedKey(messageNumber, secret, now)
  {
    keys + [SkippedKey(messageNumber, secret, now)]
  }

  /** An entry is a candidate for the message and its secret opens the payload. */
  predicate Opens(k: SkippedKey, messageNumber: int, cipherData: CipherData)
  {
    k.messageNumber == messageNumber && CipherDecrypt(cipherData, k.secret).Some?
  }

  /** The position of the first candidate, in list order, whose secret opens the payload. */
  function FirstOpenable(keys: seq<SkippedKey>, messageNumber: int, cipherData: CipherData): (r: Option<nat>)
    ensures r.Some? ==> r.value < |keys| && Opens(keys[r.value], messageNumber, cipherData)
    ensures r.Some? ==> forall j :: 0 <= j < r.value ==> !Opens(keys[j], messageNumber, cipherData)
    ensures r.None? ==> forall j :: 0 <= j < |keys| ==> !Opens(keys[j], messageNumber, cipherData)
  {
    if |keys| == 0 then None
    else
      match FirstOpenable(keys[..|keys| - 1], messageNumber, cipherData)
      case Some(i) => Some(i)
      case None =>
        if Opens(keys[|keys| - 1], messageNumber, cipherData) then Some(|keys| - 1) else None
  }

  /** The list without the entry at position i, the others in order. */
  function RemoveAt<T>(s: seq<T>, i: nat): (r: seq<T>)
    requires i < |s|
    ensures |r| == |s| - 1
    ensures forall j :: 0 <= j < i ==> r[j] == s[j]
    ensures forall j :: i <= j < |r| ==> r[j] == s[j + 1]
  {
    s[..i] + s[i + 1..]
  }

  /**
   * `trySkippedKey`: the first candidate that opens the payload is consumed
   * and its plaintext returned; nothing changes when none does.
   */
  function TrySkipped(keys: seq<SkippedKey>, messageNumber: int, cipherData: CipherData): Option<(seq<SkippedKey>, Bytes)>
  {
    match FirstOpenable(keys, messageNumber, cipherData)
    case None => None
    case Some(i) => Some((RemoveAt(keys, i), CipherDecrypt(cipherData, keys[i].secret).value))
  }

  /**
   * A hit removes exactly one entry that opens the payload and yields its
   * plaintext, keeping every other entry (other entries with the same number
   * included) in order; a miss means no entry both matches and opens.
   */
  lemma TrySkippedRemovesExactlyOne(keys: seq<SkippedKey>, messageNumber: int, cipherData: CipherData)
    ensures match TrySkipped(keys, messageNumber, cipherData)
      case None => forall j :: 0 <= j < |keys| ==> !Opens(keys[j], messageNumber, cipherData)
      case Some(hit) =>
        exists i :: 0 <= i < |keys| && Opens(keys[i], messageNumber, cipherData)
          && hit.0 == keys[..i] + keys[i + 1..]
          && Some(hit.1) == CipherDecrypt(cipherData, keys[i].secret)
          && multiset(hit.0) + multiset{keys[i]} == multiset(keys)
  {
    match FirstOpenable(keys, messageNumber, cipherData) {
      case None =>
      case Some(i) =>
        assert keys == keys[..i] + [keys[i]] + keys[i + 1..];
        assert multiset(keys) == multiset(keys[..i]) + multiset{keys[i]} + multiset(keys[i + 1..]);
    }
  }

  // ------------------------------------------------------- ratchet bookkeeping

  /**
   * `performDhRatchet` of a session: `previousChainLength` takes the sending
   * counter first, then the root ratchet runs, and only when it succeeds is
   * `ratchetAt` stamped. A refused ratchet keeps the new `previousChainLength`.
   */
  function SessionDhRatchet(s: Session, remoteDhPublicKey: Bytes, freshSecret: Bytes, now: int): (Session, Outcome)
  {
    var s1 := s.(previousChainLength := s.root.sending.messageNumber);
    match DhRatchet(s.root, remoteDhPublicKey, freshSecret)
    case Ok(root) => (s1.(root := root, ratchetAt := now), Pass)
    case Err(e) => (s1, Fail(e))
  }

  /**
   * `performMlKemRatchet` of a session: `previousChainLength` and `ratchetAt`
   * are set before the root ratchet's length checks, so a rejected prekey
   * still updates them.
   */
  function SessionMlKemRatchet(s: Session, keys: RatchetPublicKeys, freshSecret: Bytes, coins: Bytes, now: int): (Session, Result<Bytes>)
  {
    var s1 := s.(previousChainLength := s.root.sending.messageNumber, ratchetAt := now);
    match MlKemRatchet(s.root, keys, freshSecret, coins)
    case Ok(res) => (s1.(root := res.0), Ok(res.1))
    case Err(e) => (s1, Err(e))
  }

  /**
   * The DH ratchet of a session records the old sending counter whatever
   * happens, succeeds exactly when the key is new and X25519 accepts it with
   * both secrets, and on failure leaves everything else as it was.
   */
  lemma SessionDhRatchetBookkeeping(s: Session, remoteDhPublicKey: Bytes, freshSecret: Bytes, now: int)
    ensures var (s', o) := SessionDhRatchet(s, remoteDhPublicKey, freshSecret, now);
      && s'.previousChainLength == s.root.sending.messageNumber
      && (o.Pass? <==> remoteDhPublicKey != s.root.remoteDhPublicKey
                       && X25519Accepts(s.root.dhSecretKey, remoteDhPublicKey) && X25519Accepts(freshSecret, remoteDhPublicKey))
      && (o.Pass? ==> s'.ratchetAt == now && s'.root == DhRatchet(s.root, remoteDhPublicKey, freshSecret).value)
      && (o.Fail? ==> s' == s.(previousChainLength := s.root.sending.messageNumber)
                      && o.error == (if remoteDhPublicKey == s.root.remoteDhPublicKey then SameRemoteDhKey else X25519Rejected))
      && s'.skippedKeys == s.skippedKeys && s'.remoteKeyId == s.remoteKeyId && s'.ratchetId == s.ratchetId
  {
    DhRatchetRefusals(s.root, remoteDhPublicKey, freshSecret);
  }

  /**
   * The KEM ratchet of a session records the old sending counter and the
   * clock whatever happens, succeeds exactly when the prekey passes the two
   * length checks, encapsulation accepts its ML-KEM key and X25519 its DH
   * key, and on failure keeps the root.
   */
  lemma SessionMlKemRatchetBookkeeping(s: Session, keys: RatchetPublicKeys, freshSecret: Bytes, coins: Bytes, now: int)
    ensures var (s', r) := SessionMlKemRatchet(s, keys, freshSecret, coins, now);
      && s'.previousChainLength == s.root.sending.messageNumber && s'.ratchetAt == now
      && (r.Ok? <==> |keys.encryptionKey| == ML_KEM_PUBLIC_KEY_SIZE && |keys.dhPublicKey| == 32
                     && KemAccepts(keys.encryptionKey) && X25519Accepts(freshSecret, keys.dhPublicKey))
      && ((|keys.encryptionKey| == ML_KEM_PUBLIC_KEY_SIZE && |keys.dhPublicKey| == 32
           && !KemAccepts(keys.encryptionKey)) ==> r == Err(KemRejected))
      && (r.Ok? ==> r.value == MlKemEncapsulate(keys.encryptionKey, coins).cipherText
                    && s'.root.sending.messageNumber == 0 && s'.root.receiving == Chain(None, 0))
      && (r.Err? ==> s'.root == s.root)
  {
    MlKemRatchetOutcome(s.root, keys, freshSecret, coins);
  }

  // ---------------------------------------------------------------- decrypt

  /**
   * The ratchet trigger of `decrypt`: a DH ratchet exactly when the
   * sender's key differs from the stored one.
   */
  function RatchetCheck(s: Session, dhPublicKey: Bytes, freshSecret: Bytes, now: int): (Session, Outcome)
  {
    if Compare(dhPublicKey, s.root.remoteDhPublicKey) != 0 then SessionDhRatchet(s, dhPublicKey, freshSecret, now) else (s, Pass)
  }

  /**
   * The receiving half of `decrypt`: checks the chain and the gap, walks the
   * chain to the message number storing one skipped entry per step, opens
   * the payload, and advances once more only if it opened.
   */
  function DecryptOnChain(p: Policy, s: Session, messageNumber: int, cipherData: CipherData, now: int): (Session, Result<Bytes>)
  {
    var receiving := s.root.receiving;
    if receiving.chainKey.None? then (s, Err(ReceivingChainUninitialized))
    else if messageNumber - receiving.messageNumber > p.maxMessageSkip then (s, Err(SkipTooLarge))
    else
      var k := receiving.chainKey.value;
      var gap: nat := if messageNumber > receiving.messageNumber then messageNumber - receiving.messageNumber else 0;
      var target := ChainKeyAfter(k, gap);
      var walked := s.(root := s.root.(receiving := Chain(Some(target), receiving.messageNumber + gap)),
                       skippedKeys := s.skippedKeys + SkippedRun(k, receiving.messageNumber, gap, now));
      match CipherDecrypt(cipherData, DeriveMessageSecret(target))
      case None => (walked, Err(DecryptionFailed))
      case Some(data) => (walked.(root := walked.root.(receiving := Advanced(walked.root.receiving))), Ok(data))
  }

  /** `decrypt(envelope)` with the fresh X25519 secret and the clock made explicit. */
  function Decrypt(p: Policy, s: Session, messageNumber: int, dhPublicKey: Bytes, cipherData: CipherData,
                   freshSecret: Bytes, now: int): (Session, Result<Bytes>)
  {
    if p.validateMessageNumber && (messageNumber < 0 || !IsSafeInteger(messageNumber)) then
      (s, Err(InvalidMessageNumber))
    else
      match TrySkipped(s.skippedKeys, messageNumber, cipherData)
      case Some(hit) => (s.(skippedKeys := hit.0), Ok(hit.1))
      case None =>
        var (s1, o) := RatchetCheck(s, dhPublicKey, freshSecret, now);
        if o.Fail? then (s1, Err(o.error)) else DecryptOnChain(p, s1, messageNumber, cipherData, now)
  }

  /** A skipped-key hit returns at once: no ratchet, neither chain moves. */
  lemma DecryptSkippedHitTouchesNoChain(p: Policy, s: Session, messageNumber: int, dhPublicKey: Bytes,
                                        cipherData: CipherData, freshSecret: Bytes, now: int)
    requires !p.validateMessageNumber || (0 <= messageNumber && IsSafeInteger(messageNumber))
    requires TrySkipped(s.skippedKeys, messageNumber, cipherData).Some?
    ensures var (s', r) := Decrypt(p, s, messageNumber, dhPublicKey, cipherData, freshSecret, now);
      && r.Ok? && s'.root == s.root && s'.previousChainLength == s.previousChainLength
      && s'.ratchetAt == s.ratchetAt && |s'.skippedKeys| == |s.skippedKeys| - 1
  {
  }

  /**
   * On a cache miss a DH ratchet runs exactly when the sender's key differs
   * from the stored one. It records the old sending counter; when X25519
   * accepts the key it stamps the clock and adopts the sender's key,
   * otherwise it fails and the root is untouched.
   */
  lemma DecryptRatchetsOnNewKey(s: Session, dhPublicKey: Bytes, freshSecret: Bytes, now: int)
    ensures var (s', o) := RatchetCheck(s, dhPublicKey, freshSecret, now);
      && (dhPublicKey == s.root.remoteDhPublicKey ==> s' == s && o == Pass)
      && (dhPublicKey != s.root.remoteDhPublicKey ==>
            && s'.previousChainLength == s.root.sending.messageNumber
            && (o.Pass? <==> X25519Accepts(s.root.dhSecretKey, dhPublicKey) && X25519Accepts(freshSecret, dhPublicKey))
            && (o.Pass? ==> s'.ratchetAt == now && DhRatchet(s.root, dhPublicKey, freshSecret) == Ok(s'.root)
                            && s'.root.remoteDhPublicKey == dhPublicKey)
            && (o.Fail? ==> o == Fail(X25519Rejected) && s'.root == s.root && s'.ratchetAt == s.ratchetAt))
  {
    CompareZeroIffEqual(dhPublicKey, s.root.remoteDhPublicKey);
    DhRatchetRefusals(s.root, dhPublicKey, freshSecret);
  }

  /**
   * `decrypt` is not atomic across a rejected key either: when X25519 throws
   * on the sender's new key, the call fails with `previousChainLength`
   * already overwritten and nothing else changed.
   */
  lemma DecryptAbortsOnRejectedKey(p: Policy, s: Session, messageNumber: int, dhPublicKey: Bytes,
                                   cipherData: CipherData, freshSecret: Bytes, now: int)
    requires !p.validateMessageNumber || (0 <= messageNumber && IsSafeInteger(messageNumber))
    requires TrySkipped(s.skippedKeys, messageNumber, cipherData).None?
    requires dhPublicKey != s.root.remoteDhPublicKey
    requires !X25519Accepts(s.root.dhSecretKey, dhPublicKey) || !X25519Accepts(freshSecret, dhPublicKey)
    ensures Decrypt(p, s, messageNumber, dhPublicKey, cipherData, freshSecret, now)
         == (s.(previousChainLength := s.root.sending.messageNumber), Err(X25519Rejected))
  {
    DecryptRatchetsOnNewKey(s, dhPublicKey, freshSecret, now);
  }

  /**
   * The gap bound: with a receiving key, `decrypt` refuses exactly when the
   * message number is more than `maxMessageSkip` past the receiving counter.
   */
  lemma DecryptSkipBound(p: Policy, s: Session, messageNumber: int, cipherData: CipherData, now: int)
    requires s.root.receiving.chainKey.Some?
    ensures DecryptOnChain(p, s, messageNumber, cipherData, now).1 == Err(SkipTooLarge)
        <==> messageNumber - s.root.receiving.messageNumber > p.maxMessageSkip
  {
  }

  /**
   * A successful walk stores one entry per skipped number, from the old
   * counter up to the message number minus one, in ascending order, and
   * leaves the receiving counter one past the message number.
   */
  lemma DecryptOnChainSuccess(p: Policy, s: Session, messageNumber: int, cipherData: CipherData, now: int)
    requires s.root.receiving.chainKey.Some?
    requires s.root.receiving.messageNumber <= messageNumber
    requires DecryptOnChain(p, s, messageNumber, cipherData, now).1.Ok?
    ensures var (s', _) := DecryptOnChain(p, s, messageNumber, cipherData, now);
      var from := s.root.receiving.messageNumber;
      && s'.root.receiving.messageNumber == messageNumber + 1
      && s'.root.receiving.chainKey == Some(ChainKeyAfter(s.root.receiving.chainKey.value, messageNumber - from + 1))
      && |s'.skippedKeys| == |s.skippedKeys| + (messageNumber - from)
      && s'.skippedKeys[..|s.skippedKeys|] == s.skippedKeys
      && (forall i :: |s.skippedKeys| <= i < |s'.skippedKeys| ==>
            s'.skippedKeys[i].messageNumber == from + (i - |s.skippedKeys|)
            && s'.skippedKeys[i].createdAt == now)
      && s'.root.sending == s.root.sending && s'.root.rootKey == s.root.rootKey
  {
    var from := s.root.receiving.messageNumber;
    SkippedRunEntries(s.root.receiving.chainKey.value, from, messageNumber - from, now);
  }

  /**
   * `decrypt` is not atomic: when the payload does not open, the skipped
   * entries are already stored and the receiving counter already equals the
   * message number.
   */
  lemma DecryptOnChainFailureKeepsWalk(p: Policy, s: Session, messageNumber: int, cipherData: CipherData, now: int)
    requires s.root.receiving.chainKey.Some?
    requires s.root.receiving.messageNumber <= messageNumber
    requires DecryptOnChain(p, s, messageNumber, cipherData, now).1 == Err(DecryptionFailed)
    ensures var (s', _) := DecryptOnChain(p, s, messageNumber, cipherData, now);
      && s'.root.receiving.messageNumber == messageNumber
      && |s'.skippedKeys| == |s.skippedKeys| + (messageNumber - s.root.receiving.messageNumber)
  {
  }

  // ---------------------------------------------------------------- encrypt

  /**
   * `encrypt(data, keys, kemCiphertext)` with the AEAD nonce made explicit:
   * the unsigned envelope fields, then one step of the sending chain.
   */
  function Encrypt(s: Session, data: Bytes, kemCiphertext: Option<Bytes>, nonce: Bytes): (Session, Result<UnsignedFields>)
  {
    if s.root.sending.chainKey.None? then (s, Err(SendingChainUninitialized))
    else if s.remoteKeyId.None? then (s, Err(RemoteKeyIdMissing))
    else
      var cipherData := CipherEncrypt(DeriveMessageSecret(s.root.sending.chainKey.value), data, nonce);
      var fields := UnsignedFields(PROTOCOL_VERSION, s.remoteKeyId.value, DhPublicKey(s.root),
                                   s.root.sending.messageNumber, s.previousChainLength, kemCiphertext, cipherData);
      (s.(root := s.root.(sending := Advanced(s.root.sending))), Ok(fields))
  }

  /**
   * `encrypt` fails, changing nothing, without a sending key or a remote key
   * id; otherwise the envelope carries the pre-call counter, the local DH
   * key, the state's `previousChainLength` and the given KEM ciphertext, is
   * sealed under the pre-advance secret, and only the sending chain moves,
   * by exactly one.
   */
  lemma EncryptOutcome(s: Session, data: Bytes, kemCiphertext: Option<Bytes>, nonce: Bytes)
    ensures var (s', r) := Encrypt(s, data, kemCiphertext, nonce);
      && (r.Err? <==> s.root.sending.chainKey.None? || s.remoteKeyId.None?)
      && (r.Err? ==> s' == s)
      && (r.Ok? ==>
            && r.value.messageNumber == s.root.sending.messageNumber
            && r.value.keyId == s.remoteKeyId.value
            && r.value.dhPublicKey == X25519PublicKey(s.root.dhSecretKey)
            && r.value.previousChainLength == s.previousChainLength
            && r.value.kemCiphertext == kemCiphertext
            && ChainSecret(s.root.sending) == Ok(DeriveMessageSecret(s.root.sending.chainKey.value))
            && r.value.cipherData == CipherEncrypt(ChainSecret(s.root.sending).value, data, nonce)
            && s'.root.sending.messageNumber == s.root.sending.messageNumber + 1
            && s'.root.receiving == s.root.receiving && s'.root.rootKey == s.root.rootKey
            && s'.skippedKeys == s.skippedKeys && s'.previousChainLength == s.previousChainLength)
  {
  }

  // --------------------------------------------------------------- rotation

  /** `shouldRatchet`: the message bound first, then the time bound. */
  function ShouldRatchet(sendingCounter: int, ratchetAt: int, now: int, messageBound: int, timeBound: int): bool
  {
    if sendingCounter >= messageBound then true
    else now - ratchetAt >= timeBound
  }

  /** Rotation is due exactly when either bound is reached. */
  lemma ShouldRatchetIff(sendingCounter: int, ratchetAt: int, now: int, messageBound: int, timeBound: int)
    ensures ShouldRatchet(sendingCounter, ratchetAt, now, messageBound, timeBound)
        <==> sendingCounter >= messageBound || now - ratchetAt >= timeBound
  {
  }

  /** More messages, a later clock or tighter bounds never turn a due rotation off. */
  lemma ShouldRatchetMonotone(c: int, at: int, now: int, mb: int, tb: int, c': int, now': int, mb': int, tb': int)
    requires c <= c' && now <= now' && mb' <= mb && tb' <= tb
    requires ShouldRatchet(c, at, now, mb, tb)
    ensures ShouldRatchet(c', at, now', mb', tb')
  {
  }

  // ---------------------------------------------------------------- pruning

  /** The age filter: an entry stays while `now - createdAt <= maxAge` (the boundary age stays). */
  function KeepFresh(keys: seq<SkippedKey>, now: int, maxAge: int): seq<SkippedKey>
  {
    if |keys| == 0 then []
    else (if now - keys[0].createdAt <= maxAge then [keys[0]] else []) + KeepFresh(keys[1..], now, maxAge)
  }

  /** The filter keeps exactly the entries young enough, and never adds one. */
  lemma {:induction false} KeepFreshExactly(keys: seq<SkippedKey>, now: int, maxAge: int)
    ensures forall k :: k in KeepFresh(keys, now, maxAge) <==> k in keys && now - k.createdAt <= maxAge
    ensures multiset(KeepFresh(keys, now, maxAge)) <= multiset(keys)
    ensures |KeepFresh(keys, now, maxAge)| <= |keys|
  {
    if |keys| > 0 {
      KeepFreshExactly(keys[1..], now, maxAge);
      assert keys == [keys[0]] + keys[1..];
    }
  }

  /** The filter preserves order: it distributes over concatenation. */
  lemma {:induction false} KeepFreshConcat(a: seq<SkippedKey>, b: seq<SkippedKey>, now: int, maxAge: int)
    ensures KeepFresh(a + b, now, maxAge) == KeepFresh(a, now, maxAge) + KeepFresh(b, now, maxAge)
  {
    if |a| == 0 {
      assert a + b == b;
    } else {
      var head := if now - a[0].createdAt <= maxAge then [a[0]] else [];
      assert (a + b)[0] == a[0];
      assert (a + b)[1..] == a[1..] + b;
      assert KeepFresh(a + b, now, maxAge) == head + KeepFresh(a[1..] + b, now, maxAge);
      KeepFreshConcat(a[1..], b, now, maxAge);
      assert KeepFresh(a, now, maxAge) == head + KeepFresh(a[1..], now, maxAge);
    }
  }

  /** Pruning twice at the same instant is pruning once. */
  lemma {:induction false} KeepFreshIdempotent(keys: seq<SkippedKey>, now: int, maxAge: int)
    ensures KeepFresh(KeepFresh(keys, now, maxAge), now, maxAge) == KeepFresh(keys, now, maxAge)
  {
    if |keys| > 0 {
      var head := if now - keys[0].createdAt <= maxAge then [keys[0]] else [];
      KeepFreshConcat(head, KeepFresh(keys[1..], now, maxAge), now, maxAge);
      KeepFreshIdempotent(keys[1..], now, maxAge);
    }
  }

  /** Newest first: `createdAt` never increases along the list. */
  ghost predicate NewestFirst(keys: seq<SkippedKey>)
  {
    forall i, j :: 0 <= i < j < |keys| ==> keys[i].createdAt >= keys[j].createdAt
  }

  /** Stable insertion of an entry that preceded every entry of a newest-first list. */
  function InsertNewestFirst(k: SkippedKey, sorted: seq<SkippedKey>): seq<SkippedKey>
  {
    if |sorted| == 0 then [k]
    else if k.createdAt >= sorted[0].createdAt then [k] + sorted
    else [sorted[0]] + InsertNewestFirst(k, sorted[1..])
  }

  /**
   * `sort((a, b) => b.createdAt - a.createdAt)`: the stable sort of the
   * language, newest first, entries of equal age in their original order.
   */
  function SortNewestFirst(keys: seq<SkippedKey>): seq<SkippedKey>
  {
    if |keys| == 0 then [] else InsertNewestFirst(keys[0], SortNewestFirst(keys[1..]))
  }

  /** Insertion adds exactly the one entry. */
  lemma {:induction false} InsertNewestFirstPermutes(k: SkippedKey, sorted: seq<SkippedKey>)
    ensures multiset(InsertNewestFirst(k, sorted)) == multiset(sorted) + multiset{k}
    ensures |InsertNewestFirst(k, sorted)| == |sorted| + 1
  {
    if |sorted| > 0 && k.createdAt < sorted[0].createdAt {
      InsertNewestFirstPermutes(k, sorted[1..]);
      assert sorted == [sorted[0]] + sorted[1..];
    }
  }

  /** An entry at least as new as every entry of a newest-first list may lead it. */
  lemma ConsNewestFirst(x: SkippedKey, rest: seq<SkippedKey>)
    requires NewestFirst(rest)
    requires forall k :: k in multiset(rest) ==> x.createdAt >= k.createdAt
    ensures NewestFirst([x] + rest)
  {
    forall i, j | 0 <= i < j < |[x] + rest|
      ensures ([x] + rest)[i].createdAt >= ([x] + rest)[j].createdAt
    {
      if i == 0 {
        assert ([x] + rest)[j] == rest[j - 1];
        assert rest[j - 1] in multiset(rest);
      }
    }
  }

  lemma {:induction false} InsertNewestFirstSorted(k: SkippedKey, sorted: seq<SkippedKey>)
    requires NewestFirst(sorted)
    ensures NewestFirst(InsertNewestFirst(k, sorted))
  {
    if |sorted| > 0 {
      if k.createdAt >= sorted[0].createdAt {
        forall m: SkippedKey | m in multiset(sorted)
          ensures k.createdAt >= m.createdAt
        {
          var j :| 0 <= j < |sorted| && sorted[j] == m;
        }
        ConsNewestFirst(k, sorted);
      } else {
        var rest := InsertNewestFirst(k, sorted[1..]);
        InsertNewestFirstSorted(k, sorted[1..]);
        InsertNewestFirstPermutes(k, sorted[1..]);
        forall m: SkippedKey | m in multiset(rest)
          ensures sorted[0].createdAt >= m.createdAt
        {
          if m != k {
            assert m in multiset(sorted[1..]);
            var j :| 0 <= j < |sorted[1..]| && sorted[1..][j] == m;
            assert sorted[j + 1] == m;
          }
        }
        ConsNewestFirst(sorted[0], rest);
      }
    }
  }

  /** The sort is a permutation of its input. */
  lemma {:induction false} SortNewestFirstPermutes(keys: seq<SkippedKey>)
    ensures multiset(SortNewestFirst(keys)) == multiset(keys)
    ensures |SortNewestFirst(keys)| == |keys|
  {
    if |keys| > 0 {
      SortNewestFirstPermutes(keys[1..]);
      InsertNewestFirstPermutes(keys[0], SortNewestFirst(keys[1..]));
      assert keys == [keys[0]] + keys[1..];
    }
  }

  /** The sort yields a newest-first permutation of its input. */
  lemma {:induction false} SortNewestFirstSound(keys: seq<SkippedKey>)
    ensures NewestFirst(SortNewestFirst(keys))
    ensures multiset(SortNewestFirst(keys)) == multiset(keys)
    ensures |SortNewestFirst(keys)| == |keys|
  {
    SortNewestFirstPermutes(keys);
    if |keys| > 0 {
      SortNewestFirstSound(keys[1..]);
      InsertNewestFirstSorted(keys[0], SortNewestFirst(keys[1..]));
    }
  }

  /**
   * `pruneSkippedKeys` of the instance-bounded state: the age filter, then,
   * when more than `maxStored` entries remain, the first `maxStored` of the
   * newest-first order (`slice(0, maxStored)`).
   */
  function PruneCapped(keys: seq<SkippedKey>, now: int, maxAge: int, maxStored: int): seq<SkippedKey>
  {
    var kept := KeepFresh(keys, now, maxAge);
    if |kept| > maxStored then Slice(SortNewestFirst(kept), 0, maxStored) else kept
  }

  /** In a newest-first list every entry of a prefix is at least as new as every entry after it. */
  lemma PrefixNoOlderThanSuffix(sorted: seq<SkippedKey>, n: nat)
    requires NewestFirst(sorted) && n <= |sorted|
    ensures multiset(sorted) == multiset(sorted[..n]) + multiset(sorted[n..])
    ensures forall x, y :: x in sorted[..n] && y in multiset(sorted[n..]) ==> x.createdAt >= y.createdAt
  {
    assert sorted == sorted[..n] + sorted[n..];
    forall x, y | x in sorted[..n] && y in multiset(sorted[n..])
      ensures x.createdAt >= y.createdAt
    {
      var i :| 0 <= i < n && sorted[..n][i] == x;
      var j :| 0 <= j < |sorted[n..]| && sorted[n..][j] == y;
      assert sorted[i] == x && sorted[n + j] == y;
    }
  }

  /** Capping a list at `maxStored` newest entries keeps at most that many, all taken from it. */
  lemma CapTakesFrom(kept: seq<SkippedKey>, maxStored: int)
    requires maxStored >= 0
    ensures var r := if |kept| > maxStored then Slice(SortNewestFirst(kept), 0, maxStored) else kept;
      |r| <= maxStored && multiset(r) <= multiset(kept)
  {
    if |kept| > maxStored {
      var sorted := SortNewestFirst(kept);
      SortNewestFirstPermutes(kept);
      var r := sorted[..maxStored];
      assert sorted == r + sorted[maxStored..];
      assert multiset(sorted) == multiset(r) + multiset(sorted[maxStored..]);
    }
  }

  /**
   * With a non-negative cap the pruned list holds at most `maxStored`
   * entries, all of them young enough and taken from the young entries of
   * the input.
   */
  lemma PruneCappedBounded(keys: seq<SkippedKey>, now: int, maxAge: int, maxStored: int)
    requires maxStored >= 0
    ensures var r := PruneCapped(keys, now, maxAge, maxStored);
      var kept := KeepFresh(keys, now, maxAge);
      && |r| <= maxStored
      && multiset(r) <= multiset(kept) && multiset(kept) <= multiset(keys)
      && (forall k :: k in r ==> now - k.createdAt <= maxAge)
  {
    var kept := KeepFresh(keys, now, maxAge);
    KeepFreshExactly(keys, now, maxAge);
    CapTakesFrom(kept, maxStored);
    var r := PruneCapped(keys, now, maxAge, maxStored);
    forall k | k in r
      ensures now - k.createdAt <= maxAge
    {
      assert k in multiset(r);
      assert k in multiset(kept);
    }
  }

  /**
   * Every young entry the cap evicts is no newer than any entry it keeps:
   * the pruned list keeps the newest keys.
   */
  lemma PruneCappedKeepsNewest(keys: seq<SkippedKey>, now: int, maxAge: int, maxStored: int)
    requires maxStored >= 0
    ensures var r := PruneCapped(keys, now, maxAge, maxStored);
      forall x, y :: x in r && y in multiset(KeepFresh(keys, now, maxAge)) - multiset(r) ==> x.createdAt >= y.createdAt
  {
    var kept := KeepFresh(keys, now, maxAge);
    if |kept| > maxStored {
      var sorted := SortNewestFirst(kept);
      SortNewestFirstSound(kept);
      PrefixNoOlderThanSuffix(sorted, maxStored);
      var r := sorted[..maxStored];
      assert PruneCapped(keys, now, maxAge, maxStored) == r;
      assert multiset(kept) - multiset(r) == multiset(sorted[maxStored..]);
    }
  }
}
