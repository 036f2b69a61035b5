# Triple-ratchet engine, modelled in Dafny

This project models the ratchet engine of a TypeScript end-to-end encryption
library. Each pair of nodes shares a session, identified by a ratchet id that
does not depend on argument order. A session advances in three ways:

- **Symmetric chains.** A `KeyChain` holds a chain key and a message counter.
  Every message derives one message secret from the chain key and then replaces
  the chain key by its HKDF successor.
- **Root chain with an X25519 ratchet.** A `RootChain` holds the root key, the
  local X25519 secret, the remote X25519 public key and the two symmetric
  chains. A new remote DH key triggers a two-step derivation that reseeds both
  chains.
- **ML-KEM-1024 ratchet.** The sender encapsulates against the peer's prekey
  and mixes the KEM secret into the root key. It runs when the sending counter
  or the time since the last ratchet reaches a bound.

Messages travel in signed `Envelope`s. An envelope carries:

- the prekey id, the sender's X25519 key, the message number and the previous
  chain length;
- an optional ML-KEM ciphertext;
- the XChaCha20-Poly1305 ciphertext;
- a recoverable secp256k1 signature over the hash of all other fields.

Received envelopes are checked for field lengths, safe integers, five X25519
low-order points and the signer's identity. Skipped message keys are kept in a
list that is pruned by age and, in the class variant, capped by count.

There are two session implementations:

- `RatchetState`, a class;
- `RatchetStateItem`, a data object plus free functions.

The model gives both the same value semantics, `RatchetSessions`, with a
`Policy` for their differences:

- Only the class validates the message number.
- The class has per-instance bounds; the item variant has static bounds.
- The class's prune caps the count; the item variant's prune filters by age only.

How the model is built:

- **Crypto as uninterpreted functions.** HKDF-SHA256, SHA-256, X25519,
  ML-KEM-1024, XChaCha20-Poly1305 and secp256k1 are uninterpreted functions in
  `Primitives`.
- **Axioms as ghost predicates.** The properties the protocol relies on are
  ghost predicates: AEAD correctness, X25519 agreement, KEM correctness,
  domain separation of the two chain labels, and signature recovery. They
  appear only as lemma preconditions, never as axioms.
- **Key agreement and encapsulation can refuse.** `x25519.getSharedSecret`
  throws when the secret or the public key is not 32 bytes, or when the shared
  secret is all zeros; `X25519Accepts` states the opposite. Every agreement in
  the model (the two of the DH ratchet, the one of the KEM ratchet and those
  of both handshakes) fails with `X25519Rejected` where it does not hold.
  `ml_kem1024.encapsulate` throws on a key that is not 1568 bytes or fails the
  modulus check of FIPS 203, section 7.2; `KemAccepts` states the opposite,
  and the KEM ratchet and the initiator fail with `KemRejected` where it does
  not hold. Each failure keeps whatever the source had already written
  before the call.
- **Clock and randomness as parameters.** The clock (`Date.now()`), fresh X25519
  secrets, KEM coins and AEAD nonces are method parameters.
- **Numbers.** JavaScript numbers are `int`. The safe-integer bound
  2^53 − 1 is checked explicitly wherever the source checks it.
- **Classes and their specifications.** `KeyChain`, `RootChain`,
  `RatchetState`, `RatchetStateItem` and `Envelope` are classes whose methods
  update fields in place. Each method is proved against a value function
  (`Chain`, `Root`, `Session`) of the state before the call. The protocol
  properties are lemmas about those functions, in `ProtocolProperties`.

## Model

| member | source | states |
|---|---|---|
| Bytes.Compare | src/utilities/computeRatchetId.ts:5 | uint8array-tools `compare` returns -1, 0 or 1, deciding by the first differing byte, with a proper prefix first |
| Bytes.CompareZeroIffEqual | src/utilities/check.ts:21 | `compare` returns 0 exactly when the two byte strings are equal, so every `=== 0` / `!== 0` test in the engine is an equality test |
| Bytes.CompareAntisymmetric | src/utilities/computeRatchetId.ts:5 | swapping the arguments of `compare` negates the result, so exactly one argument order puts a given id first |
| Bytes.RelativeIndex | src/utilities/check.ts:14-17 | a `subarray` index resolves into 0..length: in-range indices are kept and negative ones count from the end, clamped at 0 |
| Bytes.Slice | src/utilities/check.ts:8-17 | `subarray`/`slice` never lengthen their input and, on in-range bounds, return exactly that sub-sequence |
| Checks.CreateCheck | src/utilities/check.ts:7-11 | the result is the key followed by the first 4 bytes of its SHA-256, so its length is the key's length plus 4 |
| Checks.ValidateCheckSplits | src/utilities/check.ts:13-22 | for inputs of at least 4 bytes, validation accepts exactly when the last 4 bytes equal the SHA-256 prefix of everything before them |
| Checks.CheckRoundTrip | src/utilities/check.ts:7-22 | every checked key produced by createCheck is accepted by validateCheck |
| Checks.ShortInputRejected | src/utilities/check.ts:13-22 | an input shorter than the 4-byte check is always rejected (JS negative-index slicing included) |
| Checks.TamperedCheckRejected | src/utilities/check.ts:13-22 | a key followed by any 4 bytes other than its real check is rejected |
| SigningKeys.ConstantTimeEqual | src/models/Keys/index.ts:15-25 | the XOR/OR accumulator loop, which visits every index, returns true exactly when both byte arrays are equal; different lengths give false |
| SigningKeys.Recover | src/models/Keys/index.ts:41-46 | recovery succeeds exactly when secp256k1 recovers a key, and otherwise fails with the recovery error instead of throwing |
| SigningKeys.IsRVerified | src/models/Keys/index.ts:31-39 | true exactly when recovery succeeds and yields the given public key; a failed recovery yields false instead of an error |
| SigningKeys.RSignRecovers | src/models/Keys/index.ts:41-78 | under the recovery axiom, recovering a signature made with a key pair yields that pair's public key |
| SigningKeys.NewKeys | src/models/Keys/index.ts:51-54 | the public key is the secp256k1 public key of the given secret |
| SigningKeys.BitXorZeroIffEqual | src/models/Keys/index.ts:21 | a byte XOR is 0 exactly when the two bytes are equal, which the accumulator relies on |
| SigningKeys.BitOrZeroIffBothZero | src/models/Keys/index.ts:21 | an OR into the accumulator stays 0 exactly when both operands are 0 |
| Primitives.CreateHash | src/utilities/Hash.ts:6 | the double SHA-256 is 32 bytes |
| Primitives.CreateShortHash | src/utilities/Hash.ts:9 | the short hash is 20 bytes long and is a prefix of the double SHA-256 |
| Primitives.GeneratedKeysAccepted | src/models/RootChain/index.ts:68-72 | under the X25519 agreement axiom, an agreement between a 32-byte secret and a generated public key is never refused, and both sides compute the same shared secret |
| RatchetIds.RatchetIdInput | src/utilities/computeRatchetId.ts:5-7 | the hashed input has length \|a\|+\|b\| and holds both ids unchanged, the lexicographically smaller one first |
| RatchetIds.ComputeRatchetId | src/utilities/computeRatchetId.ts:4-10 | the id is the 32-byte double SHA-256 of the ordered concatenation |
| RatchetIds.RatchetIdSymmetric | src/utilities/computeRatchetId.ts:4-10 | swapping the two node ids yields the same ratchet id |
| RatchetKeys.ToNumbers | src/models/RatchetKeys/Public.ts:36-42 | the JSON number array has the byte array's length and values, each in 0..255 |
| RatchetKeys.FromNumbers | src/models/RatchetKeys/Public.ts:18-24 | the byte array has the number array's length; each value is reduced modulo 256 like a Uint8Array store |
| RatchetKeys.NumbersRoundTrip | src/models/RatchetKeys/Public.ts:18-42 | bytes to numbers to bytes is the identity |
| RatchetKeys.JsonRoundTrip | src/models/RatchetKeys/Public.ts:18-42 | fromJson(toJson(k)) has the same keyId, encryptionKey and dhPublicKey as k |
| RatchetKeys.JsonBytesRoundTrip | src/models/RatchetKeys/Public.ts:18-42 | toJson(fromJson(j)) is j whenever every number of j is a byte value |
| RatchetKeys.ComputeKeyId | src/models/RatchetKeys/index.ts:15-17 | the key id is 8 bytes |
| KeyChains.DeriveChainKey | src/models/KeyChain/index.ts:16-18 | the next chain key is a 32-byte HKDF output |
| KeyChains.DeriveMessageSecret | src/models/KeyChain/index.ts:20-22 | the message secret is a 32-byte HKDF output |
| KeyChains.MessageSecretIsNotNextChainKey | src/models/KeyChain/index.ts:13-22 | when HKDF keeps the chain label and the message label apart over the same key, the message secret at any step of a chain differs from the chain key that follows it |
| KeyChains.ChainKeyAfterAdd | src/models/KeyChain/index.ts:45-51 | m steps followed by n steps of the chain reach the same key as m+n steps |
| KeyChains.AdvancedByClosedForm | src/models/KeyChain/index.ts:45-51 | n successful next() calls from key k give the key derived n times from k and counter m+n |
| KeyChains.SecretAfterSteps | src/models/KeyChain/index.ts:39-51 | after n steps the secret is the message secret of the n-times derived key |
| KeyChains.KeyChain.constructor | src/models/KeyChain/index.ts:28-31 | the chain key is taken as given; an absent message number starts at 0; the cache is empty |
| KeyChains.KeyChain.Secret | src/models/KeyChain/index.ts:33-43 | fails with no chain key and changes nothing; otherwise returns the message secret of the current key, memoised, with key and counter unchanged |
| KeyChains.KeyChain.Next | src/models/KeyChain/index.ts:33-51 | fails with no chain key and changes nothing; otherwise derives the next key, adds exactly 1 to the counter and clears the cache, keeping the cache invariant |
| KeyChains.KeyChain.Reset | src/models/KeyChain/index.ts:53-57 | whatever the prior state, the chain key becomes the argument, the counter 0 and the cache empty |
| RootChains.DeriveRootKey | src/models/RootChain/index.ts:21-29 | both keys are 32 bytes and together form one 64-byte HKDF output over dh‖kem (or dh alone), salted with the old root key |
| RootChains.DhRatchetRefusals | src/models/RootChain/index.ts:63-72 | the DH ratchet succeeds exactly when the remote key differs from the stored one and X25519 accepts it with both the current and the fresh secret; a repeated key fails with the repeated-key error, and any other failure is an X25519 refusal |
| RootChains.DhRatchetResets | src/models/RootChain/index.ts:63-80 | on a new remote key that X25519 accepts, the remote key becomes the argument, the local DH key becomes the fresh one, both chains get keys and both counters restart at 0 |
| RootChains.MlKemRatchetOutcome | src/models/RootChain/index.ts:82-106 | the KEM ratchet succeeds exactly when the encryption key is 1568 bytes, the DH key 32 bytes, encapsulation accepts the encryption key and X25519 accepts the DH key with the fresh secret; each failure reports its own error, in the source's order (key length, DH length, encapsulation, agreement); on success it returns the ciphertext, adopts the prekey's DH key, restarts sending at 0 and leaves receiving without a key |
| RootChains.RootChain.constructor | src/models/RootChain/index.ts:37-43 | the five fields are stored as given |
| RootChains.RootChain.PublicKey | src/models/RootChain/index.ts:59-61 | the public key is always the X25519 public key of the current DH secret |
| RootChains.RootChain.PerformDhRatchet | src/models/RootChain/index.ts:63-80 | the new state is the DH ratchet of the old state, and nothing changes when it is refused, whether for a repeated key or by X25519 |
| RootChains.RootChain.PerformMlKemRatchet | src/models/RootChain/index.ts:82-106 | the new state and returned ciphertext are the KEM ratchet of the old state, and nothing changes when a length guard or X25519 fails |
| Envelopes.FieldsOf | src/models/Envelope/index.ts:78-98 | the stored version is always 1, absent counters default to 0, and every other field is copied |
| Envelopes.HashFields | src/models/Envelope/index.ts:74-76 | the hash of the unsigned fields is 32 bytes |
| Envelopes.MatchesAnyIffMember | src/models/Envelope/index.ts:147-151 | the loop over the low-order points fails exactly when the key is one of them |
| Envelopes.CheckFieldsAcceptsWellFormed | src/models/Envelope/index.ts:134-169 | the ordered checks pass exactly when the version is 1; keyId is 8 bytes; the DH key is 32 bytes and not a low-order point; both counters are non-negative safe integers (with the 1,000,000 ceiling in the class validator); any KEM ciphertext is 1568 bytes |
| Envelopes.UnitPointNotListed | src/models/Envelope/index.ts:27-40 | the entry built by `fill(1)` is the byte string 01…01, not the point u = 1 (01 followed by 31 zero bytes), and u = 1 is not rejected by the low-order check |
| Envelopes.LowOrderPointRejected | src/models/Envelope/index.ts:28-40 | with version and keyId valid, any of the five listed points is rejected with the low-order error |
| Envelopes.ValidatorsDifferOnlyByCeiling | src/models/Envelope/methods/verify.ts:53-91 | the standalone verifier's field checks accept the same envelopes as the class validator, except that they have no previousChainLength ceiling |
| Envelopes.VerifyPassesIff | src/models/Envelope/index.ts:174-180 | verify(pk) passes exactly when validate passes and the recovered signer key equals pk |
| Envelopes.VerifyNodePassesIff | src/models/Envelope/methods/verify.ts:53-98 | verifyEnvelope passes exactly when the fields are well formed (no ceiling) and the node id of the recovered signer equals the expected one |
| Envelopes.NodeId | src/models/Envelope/methods/verify.ts:95 | a node id is the 20-byte short hash of the public key |
| Envelopes.Merge | src/models/Envelope/methods/update.ts:11 | an absent kemCiphertext override keeps the original ciphertext |
| Envelopes.MergeOverrides | src/models/Envelope/methods/update.ts:4-15 | an empty patch changes nothing; for each of the eight fields a supplied override wins and an absent one keeps the original |
| Envelopes.Envelope.constructor | src/models/Envelope/index.ts:87-98 | fields follow the defaulting rules, including version 1, and the given cache is kept |
| Envelopes.Envelope.Validate | src/models/Envelope/index.ts:134-169 | validate passes exactly when the envelope's fields are well formed with the ceiling |
| Envelopes.Envelope.Buffer | src/models/Envelope/index.ts:100-102 | returns the cached encoding when present, otherwise encodes and caches it |
| Envelopes.Envelope.ByteLength | src/models/Envelope/index.ts:104-106 | returns the cached length when present, otherwise computes and caches it |
| Envelopes.Envelope.Hash | src/models/Envelope/index.ts:108-110 | returns the cached hash when present, otherwise hashes the unsigned fields and caches the result |
| Envelopes.Envelope.PublicKey | src/models/Envelope/index.ts:112-114 | returns the cached signer key when present, otherwise recovers it from the signature over the hash and caches it; a failed recovery caches only the hash |
| Envelopes.Envelope.Verify | src/models/Envelope/index.ts:174-180 | the outcome is validate followed by the signer check, with the memoised hash and key used when present |
| Envelopes.Envelope.Create | src/models/Envelope/index.ts:45-72 | the envelope has the given fields with version 1, is signed over the hash of the fields with the defaulted version, and caches that hash and the signer's public key |
| Envelopes.Update | src/models/Envelope/methods/update.ts:4-15 | a fresh envelope whose fields are the field-wise override of the original, with an empty cache |
| Envelopes.UpdateWithEmptyPatch | src/models/Envelope/methods/update.ts:4-15 | updating with no overrides reproduces the envelope's fields and signature |
| Envelopes.VerifyEnvelope | src/models/Envelope/methods/verify.ts:53-98 | runs the checks in source order; the first failing one gives the error, and only the memo cache may change |
| Envelopes.CreatedEnvelopeVerifies | src/models/Envelope/methods/create.ts:6-38 | under the recovery axiom, a created well-formed version-1 envelope passes verify against its signer's key, with or without the cache, and verifyEnvelope against the signer's node id |
| RatchetSessions.SkippedRunEntries | src/models/RatchetState/index.ts:218-221 | the keys stored by the skip loop: entry i has number from+i, holds the secret of the chain key derived i times, and is stamped now |
| RatchetSessions.SkippedSecretsAreNotChainKeys | src/models/RatchetState/index.ts:218-221 | with the two chain labels kept apart, no secret the skip loop stores is the chain key that follows it, so the stored keys never hold a key of the chain itself |
| RatchetSessions.Store | src/models/RatchetStateItem/methods/storeSkippedKeys.ts:3-9 | exactly one entry is appended with the given number, secret and now; earlier entries are unchanged and nothing is deduplicated |
| RatchetSessions.FirstOpenable | src/models/RatchetStateItem/methods/trySkippedKey.ts:13-24 | the index of the first entry with the message number whose secret opens the ciphertext; when there is none, no entry opens it |
| RatchetSessions.RemoveAt | src/models/RatchetStateItem/methods/trySkippedKey.ts:26-28 | removing one position keeps every other entry, in order |
| RatchetSessions.TrySkippedRemovesExactlyOne | src/models/RatchetStateItem/methods/trySkippedKey.ts:4-32 | with no opening candidate the list is unchanged; otherwise exactly one opening entry is removed, the rest keep their order and the plaintext is that entry's decryption |
| RatchetSessions.SessionDhRatchetBookkeeping | src/models/RatchetStateItem/methods/performDhRatchet.ts:3-7 | previousChainLength always becomes the old sending counter; the ratchet passes exactly when the key is new and X25519 accepts it with both secrets, and only then do the root change and ratchetAt become now; a failure reports the repeated-key error or the X25519 refusal |
| RatchetSessions.SessionMlKemRatchetBookkeeping | src/models/RatchetStateItem/methods/performMlKemRatchet.ts:4-9 | previousChainLength and ratchetAt are updated even when the root's guards or encapsulation fail; the ratchet succeeds exactly when both lengths are right, encapsulation accepts the ML-KEM key and X25519 the DH key; a key failing the modulus check gives the encapsulation error; on success the KEM ciphertext is returned and the sending chain restarts |
| RatchetSessions.DecryptSkippedHitTouchesNoChain | src/models/RatchetState/index.ts:196-203 | a skipped-key hit returns the plaintext without ratcheting or walking either chain, and removes exactly one entry |
| RatchetSessions.DecryptRatchetsOnNewKey | src/models/RatchetState/index.ts:205-207 | a DH ratchet runs exactly when the envelope's key differs from the stored one, recording the old sending counter first; when it succeeds the root is the DH ratchet's and ratchetAt is now, and when X25519 refuses the key the check fails with the root and ratchetAt unchanged |
| RatchetSessions.DecryptAbortsOnRejectedKey | src/models/RatchetState/index.ts:205-207 | when X25519 refuses a new sender key, decrypt fails with the X25519 error and leaves the session changed only in previousChainLength |
| RatchetSessions.DecryptSkipBound | src/models/RatchetState/index.ts:213-216 | decryption fails with the skip error exactly when the gap exceeds maxMessageSkip, so a gap of 1000 passes and 1001 fails |
| RatchetSessions.DecryptOnChainSuccess | src/models/RatchetState/index.ts:218-226 | a successful decrypt appends one entry per skipped number in ascending order, stamped now, and leaves the receiving counter at target+1 with the matching derived key |
| RatchetSessions.DecryptOnChainFailureKeepsWalk | src/models/RatchetStateItem/methods/decryptMessage.ts:27-33 | when the AEAD fails at the target, the skipped entries stay stored and the receiving counter equals the target |
| RatchetSessions.EncryptOutcome | src/models/RatchetStateItem/methods/encryptMessage.ts:7-37 | fails with no change exactly when the sending chain or remoteKeyId is missing; otherwise the envelope carries the prekey id, the current DH key, the pre-call counter, previousChainLength, the KEM ciphertext, and the data sealed with the pre-advance secret; only the sending chain advances, by 1 |
| RatchetSessions.ShouldRatchetIff | src/models/RatchetStateItem/methods/shouldRatchet.ts:29-41 | rotation is due exactly when the sending counter reaches the message bound or the time since the last ratchet reaches the time bound |
| RatchetSessions.ShouldRatchetMonotone | src/models/RatchetStateItem/methods/shouldRatchet.ts:30-38 | raising the counter or the clock, or lowering either bound, never turns a due rotation off |
| RatchetSessions.KeepFreshExactly | src/models/RatchetStateItem/methods/pruneSkippedKeys.ts:6 | an entry survives exactly when its age is at most the limit, the boundary included; the result is a sub-multiset of the input |
| RatchetSessions.KeepFreshConcat | src/models/RatchetStateItem/methods/pruneSkippedKeys.ts:6 | the age filter distributes over concatenation, so it keeps the input order |
| RatchetSessions.KeepFreshIdempotent | src/models/RatchetStateItem/methods/pruneSkippedKeys.ts:6 | pruning twice at the same time equals pruning once |
| RatchetSessions.InsertNewestFirstPermutes | src/models/RatchetState/index.ts:293 | inserting into the newest-first order adds exactly that entry |
| RatchetSessions.InsertNewestFirstSorted | src/models/RatchetState/index.ts:293 | inserting into a newest-first list keeps it newest first |
| RatchetSessions.ConsNewestFirst | src/models/RatchetState/index.ts:293 | an entry no older than every entry of a newest-first list can be put in front of it |
| RatchetSessions.SortNewestFirstPermutes | src/models/RatchetState/index.ts:293 | the sort by descending createdAt loses and adds no entry |
| RatchetSessions.SortNewestFirstSound | src/models/RatchetState/index.ts:293 | the sort by descending createdAt is ordered newest first and is a permutation of its input |
| RatchetSessions.PrefixNoOlderThanSuffix | src/models/RatchetState/index.ts:295-299 | in a newest-first list every kept prefix entry is at least as new as every dropped suffix entry |
| RatchetSessions.CapTakesFrom | src/models/RatchetState/index.ts:290-299 | the sort-and-slice count cap keeps at most the cap's number of entries, all taken from its input |
| RatchetSessions.PruneCappedBounded | src/models/RatchetState/index.ts:272-301 | with a non-negative cap the pruned list has at most maxStoredSkippedKeys entries, all within maxSkippedKeyAge, and is a sub-multiset of the young entries, which are a sub-multiset of the input |
| RatchetSessions.PruneCappedKeepsNewest | src/models/RatchetState/index.ts:290-299 | every young entry evicted by the cap is no newer than any entry kept: the newest keys survive |
| RatchetStates.RatchetState.constructor | src/models/RatchetState/index.ts:153-180 | each absent bound takes its default (100 messages, 1 hour, skip 1000, 2000 stored keys, 24 hours); skipped keys default to empty |
| RatchetStates.RatchetState.StoreSkippedKeys | src/models/RatchetState/index.ts:345-351 | the list becomes the old list with one entry appended |
| RatchetStates.RatchetState.TrySkippedKey | src/models/RatchetState/index.ts:353-383 | the for loop's result and the new list are those of the first opening candidate, or none and an unchanged list |
| RatchetStates.RatchetState.PerformDhRatchet | src/models/RatchetState/index.ts:259-263 | the new session and outcome are the session-level DH ratchet of the old session |
| RatchetStates.RatchetState.PerformMlKemRatchet | src/models/RatchetState/index.ts:265-270 | the new session and ciphertext are the session-level KEM ratchet of the old session |
| RatchetStates.RatchetState.SkipOne | src/models/RatchetState/index.ts:219-220 | one pass of the skip loop appends the current number's message secret, stamped now, and advances the receiving chain by exactly one step |
| RatchetStates.RatchetState.SkipTo | src/models/RatchetState/index.ts:218-221 | the while loop walks the receiving chain to the target number and appends the skipped run, changing nothing else |
| RatchetStates.RatchetState.DecryptOnReceivingChain | src/models/RatchetState/index.ts:209-226 | the chain guard, the skip bound, the walk and the final decrypt-and-advance follow the session specification |
| RatchetStates.RatchetState.WalkAndOpen | src/models/RatchetState/index.ts:218-226 | past both guards, the walk, the AEAD call and the final step give the session specification's state and result |
| RatchetStates.RatchetState.Decrypt | src/models/RatchetState/index.ts:196-227 | the new session and result are the session-level decrypt with message-number validation and the instance skip bound, including the state left by a failed AEAD |
| RatchetStates.RatchetState.Encrypt | src/models/RatchetState/index.ts:229-257 | the new session and the error or envelope fields are the session-level encrypt; the envelope is signed over their hash |
| RatchetStates.RatchetState.PruneSkippedKeys | src/models/RatchetState/index.ts:272-301 | the new list is the age filter followed by the newest-first count cap |
| RatchetStates.RatchetState.ShouldRatchet | src/models/RatchetState/index.ts:328-343 | due exactly when the counter reaches the given or instance message bound, or the elapsed time reaches the given or instance time bound |
| RatchetStateItems.RatchetAtOrNow | src/models/RatchetStateItem/index.ts:57 | an absent or zero ratchetAt is replaced by now, as the `\|\|` default does |
| RatchetStateItems.RatchetStateItem.constructor | src/models/RatchetStateItem/index.ts:40-58 | fields are stored as given; skipped keys default to empty and ratchetAt to now |
| RatchetStateItems.StoreSkippedKey | src/models/RatchetStateItem/methods/storeSkippedKeys.ts:3-9 | the list becomes the old list with one entry appended |
| RatchetStateItems.TrySkippedKey | src/models/RatchetStateItem/methods/trySkippedKey.ts:4-32 | every candidate is tried and the first success is kept; the result and new list are those of the first opening candidate, or none and an unchanged list |
| RatchetStateItems.PerformDhRatchet | src/models/RatchetStateItem/methods/performDhRatchet.ts:3-7 | the new session and outcome are the session-level DH ratchet of the old session |
| RatchetStateItems.PerformMlKemRatchet | src/models/RatchetStateItem/methods/performMlKemRatchet.ts:4-9 | the new session and ciphertext are the session-level KEM ratchet of the old session |
| RatchetStateItems.SkipOne | src/models/RatchetStateItem/methods/decryptMessage.ts:28-29 | one pass of the skip loop appends the current number's message secret, stamped now, and advances the receiving chain by exactly one step |
| RatchetStateItems.SkipTo | src/models/RatchetStateItem/methods/decryptMessage.ts:27-30 | the while loop walks the receiving chain to the target number and appends the skipped run, changing nothing else |
| RatchetStateItems.DecryptOnReceivingChain | src/models/RatchetStateItem/methods/decryptMessage.ts:16-35 | the chain guard, the static skip bound of 1000, the walk and the final decrypt-and-advance follow the session specification |
| RatchetStateItems.DecryptMessage | src/models/RatchetStateItem/methods/decryptMessage.ts:6-36 | the new session and result are the session-level decrypt without message-number validation and with the static bound |
| RatchetStateItems.EncryptMessage | src/models/RatchetStateItem/methods/encryptMessage.ts:7-37 | the new session and the error or envelope fields are the session-level encrypt; the envelope is signed over their hash |
| RatchetStateItems.PruneSkippedKeys | src/models/RatchetStateItem/methods/pruneSkippedKeys.ts:3-7 | the new list is the 24-hour age filter alone, with no count cap |
| RatchetStateItems.ShouldRatchetState | src/models/RatchetStateItem/methods/shouldRatchet.ts:29-41 | due exactly when the counter reaches the message bound (default 100) or the elapsed time reaches the time bound (default 3,600,000 ms) |
| RatchetStateItems.InitiateOutcome | src/models/RatchetStateItem/methods/initializeAsInitiator.ts:12-71 | the handshake succeeds exactly when encapsulation accepts the prekey's ML-KEM key and X25519 its DH key; a rejected ML-KEM key gives the encapsulation error, and otherwise a failure is the X25519 error; on success the first message is sealed with the message-0 secret of the chain from the initial derivation, and the sending chain ends at 1; the receiving chain is empty; the remote DH key and keyId are the prekey's; the envelope has number 0, previous length 0, the ephemeral key and the encapsulation ciphertext; the ratchet id is computed from both node ids |
| RatchetStateItems.RespondOutcome | src/models/RatchetStateItem/methods/initializeAsResponder.ts:12-53 | succeeds exactly when the KEM ciphertext is present and 1568 bytes and X25519 accepts the envelope's DH key with both the static and the fresh secret; each failure reports its matching error; otherwise both chains are keyed at 0, the remote DH key is the envelope's, remoteKeyId is unset and the ratchet id is computed from both node ids |
| RatchetStateItems.InitializeAsInitiator | src/models/RatchetStateItem/methods/initializeAsInitiator.ts:12-71 | fails exactly as the initiator specification does; otherwise the fresh state and the signed first envelope are exactly the specification's |
| RatchetStateItems.BuildInitiator | src/models/RatchetStateItem/methods/initializeAsInitiator.ts:22-71 | once encapsulation and the agreement are accepted, the built state and the envelope signed over the hash of its fields are the initiator specification's success value |
| RatchetStateItems.InitializeAsResponder | src/models/RatchetStateItem/methods/initializeAsResponder.ts:12-53 | the guards' errors and the fresh state are exactly the responder specification |
| EnvelopeFlows.EncryptFlowRotation | src/models/Envelope/methods/encrypt.ts:11-21 | a KEM ratchet runs exactly when rotation is due and prekeys are supplied, with absent options taking the defaults; a rotation that succeeds had prekeys of the right lengths that encapsulation and X25519 accept, and the message goes out at number 0 with the old counter as previous length and the new ciphertext attached |
| EnvelopeFlows.EncryptEnvelope | src/models/Envelope/methods/encrypt.ts:11-21 | the new state and the envelope are exactly the rotation-then-encrypt flow |
| EnvelopeFlows.DecryptFlowRatchetsFirst | src/models/Envelope/methods/decrypt.ts:17-25 | the delegated decrypt never ratchets a second time; a late message with an earlier DH key that X25519 accepts ratchets the state before its skipped key is used; a key X25519 refuses aborts the call with only previousChainLength changed, before any skipped key is tried |
| EnvelopeFlows.DecryptEnvelope | src/models/Envelope/methods/decrypt.ts:17-25 | the new state and result are the ratchet-then-delegate flow; the node id argument is unused |
| ProtocolProperties.DhRatchetAlternates | src/models/RootChain/index.ts:63-80 | under the X25519 agreement axiom, when one side's sending chain was derived toward the other's key, the other side's DH ratchet on the sender's key yields a receiving chain equal to that sending chain |
| ProtocolProperties.InOrderDelivery | src/models/RatchetStateItem/methods/decryptMessage.ts:6-36 | under AEAD correctness, a message encrypted on a chain the receiver mirrors decrypts to the original data, and both sides stay mirrored |
| ProtocolProperties.RatchetedDelivery | src/models/RatchetState/index.ts:205-224 | under AEAD correctness and the X25519 agreement axiom, the first message after a DH ratchet decrypts to the original data, and the receiver's chain then mirrors the sender's |
| ProtocolProperties.HandshakeAgreement | src/models/RatchetStateItem/methods/initializeAsResponder.ts:12-53 | under the three axioms, the responder's receiving chain agrees with the initiator's first sending chain, both compute the same ratchet id, and the first message decrypts to its data |

## Left out

- Cryptography is not modelled. HKDF-SHA256 (RFC 5869), SHA-256, X25519 (RFC 7748), ML-KEM-1024 (FIPS 203), XChaCha20-Poly1305 and secp256k1 are uninterpreted functions. Their only assumed properties are the ghost predicates `AeadCorrect`, `DhAgreement`, `KemCorrect`, `LabelsSeparate` and `RecoveryCorrect`. `KemCorrect` also states that generated ML-KEM keys pass encapsulation's checks. `LabelsSeparate` asks only that the chain label and the message label never give the same HKDF output over the same key. `DhAgreement` states that generated public keys are 32 bytes, that the agreement is symmetric and that it never yields the all-zero secret for generated keys; `X25519Accepts` follows noble's `getSharedSecret`, which throws on a secret or public key that is not 32 bytes, or on an all-zero result. The protocol lemmas take the X25519 secrets to be 32 bytes, as `randomSecretKey` makes them.
- Codecs (bufferfy schemas, varints and the binary envelope layout) are not modelled. The envelope encoding is an uninterpreted function of the unsigned fields and the signature, and its hash is the double SHA-256 of that encoding.
- `secureZero` and the secret copy made by `secret.slice()` are not modelled. The model works on values, so buffer erasure and the item variant's by-reference storage of secrets are not observable.
- Removal in `trySkippedKey` is by the position of the first successful candidate, not by object identity. The two differ only when the same entry object appears twice in the list, which neither storage path can produce.
- Only integer numbers are modelled. NaN, fractional and infinite JavaScript numbers are not. `Number.isSafeInteger` is the symmetric range check `-(2^53 - 1) <= x <= 2^53 - 1` on integers; where the source also demands a non-negative value it tests `< 0` separately, and so does the model.
- Above 2^53 a JavaScript number loses precision, so `this.messageNumber += 1` and `now - createdAt` would round; `int` never does. The envelope checks keep received counters below 2^53, but the local counters and clock values are not bounded in the model.
- Envelopes.NodeId: `envelope.nodeId`, read by `verifyEnvelope`, is not defined in any modelled file; the model takes it to be the 20-byte short hash of the recovered signer key.
- The low-order list's second entry, built by `fill(1)`, is 01…01 rather than the point u = 1, and the list omits the encodings of p and p + 1. The model keeps the list as written (see `Envelopes.UnitPointNotListed`); an all-zero shared secret is refused by X25519 in any case.
- Each operation reads the clock once, through its `now` parameter.
- RatchetSessions.SortNewestFirst: the cap's sort is proved ordered (newest first) and a permutation of its input. Its stability, which is JavaScript's `Array.prototype.sort` guarantee, is not stated.
- RootChains.RootChain.constructor: it requires the sending and receiving chains to be distinct objects. The source never shares one chain between the two slots, and the frames need this to keep the two chains independent.
- The static initializers of `RatchetState` are not modelled. Those of `RatchetStateItem` are, and they perform the same handshake.
- Envelopes.ValidatorsDifferOnlyByCeiling: it compares only the accept/reject verdicts of the two validators, not which error each reports.
- `ml_kem1024.decapsulate` also checks the decryption key. The responder's key is its own generated one, so that check is not modelled and decapsulation is total.
- ProtocolProperties.HandshakeAgreement: it assumes the encapsulation ciphertext is 1568 bytes. This is a property of ML-KEM-1024 itself, not of this code.
- The source describes `deriveRootKey` as deterministic. In Dafny every function is deterministic, so that property holds by construction and has no lemma.
- `RatchetPublicKeys.properties` returns the three public fields. On datatype values this projection is the identity, so it has no member of its own.
- The session layer, the control channel, message types, transaction ids and persistence (`toBuffer`/`fromBuffer`) are not part of this model.
