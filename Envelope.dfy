/**
 * The signed message envelope (src/models/Envelope): protocol version, prekey
 * id, sender's X25519 ratchet key, counters, optional ML-KEM ciphertext, AEAD
 * payload and a recoverable secp256k1 signature over everything else.
 */
module Envelopes {
  import opened Wrappers
  import opened Bytes
  import opened Primitives
  import opened SigningKeys
  import opened RatchetKeys

  const PROTOCOL_VERSION: int := 0x01
  /** Upper bound the class validator puts on `previousChainLength`. */
  const MAX_PREVIOUS_CHAIN_LENGTH: int := 1_000_000

  /** The X25519 public keys of small order that validation rejects, as listed by the source. */
  const LOW_ORDER_POINTS: seq<Bytes> := [
    Zeros(32),
    Filled(32, 1),
    [0x5f, 0x9c, 0x95, 0xbc, 0xa3, 0x50, 0x8c, 0x24, 0xb1, 0xd0, 0xb1, 0x55, 0x9c, 0x83, 0xef, 0x5b,
     0x04, 0x44, 0x5c, 0xc4, 0x58, 0x1c, 0x8e, 0x86, 0xd8, 0x22, 0x4e, 0xdd, 0xd0, 0x9f, 0x11, 0x57],
    [0xe0, 0xeb, 0x7a, 0x7c, 0x3b, 0x41, 0xb8, 0xae, 0x16, 0x56, 0xe3, 0xfa, 0xf1, 0x9f, 0xc4, 0x6a,
     0xda, 0x09, 0x8d, 0xeb, 0x9c, 0x32, 0xb1, 0xfd, 0x86, 0x62, 0x05, 0x16, 0x5f, 0x49, 0xb8, 0x00],
    [0xec, 0xff, 0xff, 0xff, 0xff, 0xff, 0xff, 0xff, 0xff, 0xff, 0xff, 0xff, 0xff, 0xff, 0xff, 0xff,
     0xff, 0xff, 0xff, 0xff, 0xff, 0xff, 0xff, 0xff, 0xff, 0xff, 0xff, 0xff, 0xff, 0xff, 0xff, 0x7f]
  ]

  /** Every envelope property except the signature: what the signature covers. */
  datatype UnsignedFields = UnsignedFields(
    version: int,
    keyId: Bytes,
    dhPublicKey: Bytes,
    messageNumber: int,
    previousChainLength: int,
    kemCiphertext: Option<Bytes>,
    cipherData: CipherData)

  /** The arguments of the constructor: version, counters and ciphertext may be absent. */
  datatype Properties = Properties(
    version: Option<int>,
    keyId: Bytes,
    dhPublicKey: Bytes,
    messageNumber: Option<int>,
    previousChainLength: Option<int>,
    kemCiphertext: Option<Bytes>,
    cipherData: CipherData,
    rSignature: RSignature)

  /** The arguments of `create`: only the version and the KEM ciphertext may be absent. */
  datatype CreateProperties = CreateProperties(
    version: Option<int>,
    keyId: Bytes,
    dhPublicKey: Bytes,
    messageNumber: int,
    previousChainLength: int,
    kemCiphertext: Option<Bytes>,
    cipherData: CipherData)

  /** The argument of `update`: any subset of the properties. */
  datatype Patch = Patch(
    version: Option<int>,
    keyId: Option<Bytes>,
    dhPublicKey: Option<Bytes>,
    messageNumber: Option<int>,
    previousChainLength: Option<int>,
    kemCiphertext: Option<Bytes>,
    cipherData: Option<CipherData>,
    rSignature: Option<RSignature>)

  const EMPTY_PATCH: Patch := Patch(None, None, None, None, None, None, None, None)

  /** The memoised getter values. */
  datatype Cache = Cache(buffer: Option<Bytes>, byteLength: Option<int>, hash: Option<Bytes>, publicKey: Option<Bytes>)

  const EMPTY_CACHE: Cache := Cache(None, None, None, None)

  /** The envelope codec without the signature field. */
  const EncodeFields: UnsignedFields -> Bytes

  /** The full envelope codec. */
  const EncodeEnvelope: (UnsignedFields, RSignature) -> Bytes

  /** `Envelope.hash`: double SHA-256 of the encoded unsigned fields. */
  function HashFields(f: UnsignedFields): (h: Bytes)
    ensures |h| == 32
  {
    CreateHash(EncodeFields(f))
  }

  /** The fields the constructor stores: the version is always 1 whatever is supplied; counters default to 0. */
  function FieldsOf(p: Properties): (f: UnsignedFields)
    ensures f.version == PROTOCOL_VERSION
    ensures f.messageNumber == OrElse(p.messageNumber, 0) && f.previousChainLength == OrElse(p.previousChainLength, 0)
    ensures f.keyId == p.keyId && f.dhPublicKey == p.dhPublicKey
    ensures f.kemCiphertext == p.kemCiphertext && f.cipherData == p.cipherData
  {
    UnsignedFields(PROTOCOL_VERSION, p.keyId, p.dhPublicKey, OrElse(p.messageNumber, 0),
           OrElse(p.previousChainLength, 0), p.kemCiphertext, p.cipherData)
  }

  /** The fields `create` hashes and signs: the version defaults to 1, the rest is copied. */
  function SignedFields(p: CreateProperties): UnsignedFields
  {
    UnsignedFields(OrElse(p.version, PROTOCOL_VERSION), p.keyId, p.dhPublicKey, p.messageNumber,
           p.previousChainLength, p.kemCiphertext, p.cipherData)
  }

  /** The `for … of LOW_ORDER_POINTS` scan: does `compare` report equality with some listed point? */
  function MatchesAny(dhPublicKey: Bytes, points: seq<Bytes>): bool
  {
    |points| > 0 && (Compare(dhPublicKey, points[0]) == 0 || MatchesAny(dhPublicKey, points[1..]))
  }

  lemma {:induction false} MatchesAnyIffMember(dhPublicKey: Bytes, points: seq<Bytes>)
    ensures MatchesAny(dhPublicKey, points) <==> dhPublicKey in points
  {
    if |points| > 0 {
      CompareZeroIffEqual(dhPublicKey, points[0]);
      MatchesAnyIffMember(dhPublicKey, points[1..]);
      assert points == [points[0]] + points[1..];
    }
  }

  /**
   * The second listed key is 32 bytes of 0x01; the encoding of the point
   * u = 1 is 0x01 followed by 31 zero bytes, which the scan lets through.
   */
  lemma UnitPointNotListed()
    ensures Filled(32, 1) != [1] + Zeros(31)
    ensures !MatchesAny([1] + Zeros(31), LOW_ORDER_POINTS)
  {
    var u: Bytes := [1] + Zeros(31);
    assert Filled(32, 1)[1] != u[1];
    MatchesAnyIffMember(u, LOW_ORDER_POINTS);
    assert LOW_ORDER_POINTS[0][0] != u[0];
    assert LOW_ORDER_POINTS[1][1] != u[1];
    assert LOW_ORDER_POINTS[2][0] != u[0];
    assert LOW_ORDER_POINTS[3][0] != u[0];
    assert LOW_ORDER_POINTS[4][0] != u[0];
  }

  /**
   * The checks shared by `validate` (with the 1,000,000 ceiling) and
   * `verifyEnvelope` (without it), in their order: the first failing check
   * names the error.
   */
  function CheckFields(f: UnsignedFields, withCeiling: bool): Outcome
  {
    if f.version != PROTOCOL_VERSION then Fail(UnsupportedVersion)
    else if |f.keyId| != KEY_ID_SIZE then Fail(InvalidKeyIdLength)
    else if |f.dhPublicKey| != 32 then Fail(InvalidDhPublicKeyLength)
    else if MatchesAny(f.dhPublicKey, LOW_ORDER_POINTS) then Fail(LowOrderPoint)
    else if f.messageNumber < 0 || !IsSafeInteger(f.messageNumber) then Fail(InvalidMessageNumber)
    else if f.previousChainLength < 0 || !IsSafeInteger(f.previousChainLength) then Fail(InvalidPreviousChainLength)
    else if withCeiling && f.previousChainLength > MAX_PREVIOUS_CHAIN_LENGTH then Fail(PreviousChainLengthTooLarge)
    else if f.kemCiphertext.Some? && |f.kemCiphertext.value| != ML_KEM_CIPHERTEXT_SIZE then Fail(InvalidKemCiphertextLength)
    else Pass
  }

  /** What a well-formed envelope is, stated declaratively. */
  ghost predicate WellFormed(f: UnsignedFields, withCeiling: bool)
  {
    && f.version == PROTOCOL_VERSION
    && |f.keyId| == KEY_ID_SIZE
    && |f.dhPublicKey| == 32
    && f.dhPublicKey !in LOW_ORDER_POINTS
    && 0 <= f.messageNumber <= MAX_SAFE_INTEGER
    && 0 <= f.previousChainLength <= MAX_SAFE_INTEGER
    && (withCeiling ==> f.previousChainLength <= MAX_PREVIOUS_CHAIN_LENGTH)
    && (f.kemCiphertext.Some? ==> |f.kemCiphertext.value| == ML_KEM_CIPHERTEXT_SIZE)
  }

  /** The sequence of checks accepts exactly the well-formed envelopes. */
  lemma CheckFieldsAcceptsWellFormed(f: UnsignedFields, withCeiling: bool)
    ensures CheckFields(f, withCeiling) == Pass <==> WellFormed(f, withCeiling)
  {
    MatchesAnyIffMember(f.dhPublicKey, LOW_ORDER_POINTS);
  }

  /** Every listed low-order point is rejected, once version and key id pass. */
  lemma LowOrderPointRejected(f: UnsignedFields, withCeiling: bool)
    requires f.version == PROTOCOL_VERSION && |f.keyId| == KEY_ID_SIZE
    requires f.dhPublicKey in LOW_ORDER_POINTS
    ensures CheckFields(f, withCeiling) == Fail(LowOrderPoint)
  {
    MatchesAnyIffMember(f.dhPublicKey, LOW_ORDER_POINTS);
  }

  /** The two validators differ only by the ceiling on `previousChainLength`. */
  lemma ValidatorsDifferOnlyByCeiling(f: UnsignedFields)
    ensures CheckFields(f, true) == Pass <==> CheckFields(f, false) == Pass && f.previousChainLength <= MAX_PREVIOUS_CHAIN_LENGTH
    ensures CheckFields(f, false).Fail? ==> CheckFields(f, true).Fail?
  {
  }

  /** The hash the `hash` getter yields for a cache. */
  function CachedHash(c: Cache, f: UnsignedFields): Bytes
  {
    OrElse(c.hash, HashFields(f))
  }

  /** What the `publicKey` getter yields for a cache: the cached key, else the key recovered over the hash. */
  function CachedPublicKey(c: Cache, f: UnsignedFields, rSignature: RSignature): Result<Bytes>
  {
    if c.publicKey.Some? then Ok(c.publicKey.value) else Recover(rSignature, CachedHash(c, f))
  }

  /** The cache after the `publicKey` getter ran. */
  function AfterPublicKey(c: Cache, f: UnsignedFields, rSignature: RSignature): Cache
  {
    if c.publicKey.Some? then c
    else
      var withHash := c.(hash := Some(CachedHash(c, f)));
      match Recover(rSignature, CachedHash(c, f))
      case Ok(pk) => withHash.(publicKey := Some(pk))
      case Err(_) => withHash
  }

  /** `envelope.verify(publicKey)`: validation, then the recovered signer key must equal the given one. */
  function VerifyOutcome(f: UnsignedFields, rSignature: RSignature, c: Cache, publicKey: Bytes): Outcome
  {
    match CheckFields(f, true)
    case Fail(e) => Fail(e)
    case Pass =>
      match CachedPublicKey(c, f, rSignature)
      case Err(e) => Fail(e)
      case Ok(recovered) => if Compare(recovered, publicKey) != 0 then Fail(SignatureMismatch) else Pass
  }

  /** The node id of a public key: its short hash. */
  function NodeId(publicKey: Bytes): (id: Bytes)
    ensures |id| == 20
  {
    CreateShortHash(publicKey)
  }

  /** `verifyEnvelope(envelope, remoteNodeId)`: validation without ceiling, then the signer's node id must match. */
  function VerifyNodeOutcome(f: UnsignedFields, rSignature: RSignature, c: Cache, remoteNodeId: Bytes): Outcome
  {
    match CheckFields(f, false)
    case Fail(e) => Fail(e)
    case Pass =>
      match CachedPublicKey(c, f, rSignature)
      case Err(e) => Fail(e)
      case Ok(recovered) => if Compare(NodeId(recovered), remoteNodeId) != 0 then Fail(SignatureMismatch) else Pass
  }

  /** `verify(pk)` passes exactly for well-formed envelopes whose signer key is `pk`. */
  lemma VerifyPassesIff(f: UnsignedFields, rSignature: RSignature, c: Cache, publicKey: Bytes)
    ensures VerifyOutcome(f, rSignature, c, publicKey) == Pass
        <==> WellFormed(f, true) && CachedPublicKey(c, f, rSignature) == Ok(publicKey)
  {
    CheckFieldsAcceptsWellFormed(f, true);
    if CachedPublicKey(c, f, rSignature).Ok? {
      CompareZeroIffEqual(CachedPublicKey(c, f, rSignature).value, publicKey);
    }
  }

  /** `verifyEnvelope` passes exactly for well-formed envelopes whose signer has the given node id. */
  lemma VerifyNodePassesIff(f: UnsignedFields, rSignature: RSignature, c: Cache, remoteNodeId: Bytes)
    ensures VerifyNodeOutcome(f, rSignature, c, remoteNodeId) == Pass
        <==> WellFormed(f, false) && CachedPublicKey(c, f, rSignature).Ok?
             && NodeId(CachedPublicKey(c, f, rSignature).value) == remoteNodeId
  {
    CheckFieldsAcceptsWellFormed(f, false);
    if CachedPublicKey(c, f, rSignature).Ok? {
      CompareZeroIffEqual(NodeId(CachedPublicKey(c, f, rSignature).value), remoteNodeId);
    }
  }

  /** `update`: each property from the patch when present, from the envelope otherwise. */
  function Merge(current: Properties, patch: Patch): (p: Properties)
    ensures patch.kemCiphertext.None? ==> p.kemCiphertext == current.kemCiphertext
  {
    Properties(
      if patch.version.Some? then patch.version else current.version,
      OrElse(patch.keyId, current.keyId),
      OrElse(patch.dhPublicKey, current.dhPublicKey),
      if patch.messageNumber.Some? then patch.messageNumber else current.messageNumber,
      if patch.previousChainLength.Some? then patch.previousChainLength else current.previousChainLength,
      if patch.kemCiphertext.Some? then patch.kemCiphertext else current.kemCiphertext,
      OrElse(patch.cipherData, current.cipherData),
      OrElse(patch.rSignature, current.rSignature))
  }

  /**
   * An empty patch changes nothing; each of the eight properties comes from
   * the patch where the patch supplies it and from the envelope where it
   * does not.
   */
  lemma MergeOverrides(current: Properties, patch: Patch)
    ensures Merge(current, EMPTY_PATCH) == current
    ensures var m := Merge(current, patch);
      && (patch.version.Some? ==> m.version == patch.version)
      && (patch.keyId.Some? ==> m.keyId == patch.keyId.value)
      && (patch.dhPublicKey.Some? ==> m.dhPublicKey == patch.dhPublicKey.value)
      && (patch.messageNumber.Some? ==> m.messageNumber == patch.messageNumber)
      && (patch.previousChainLength.Some? ==> m.previousChainLength == patch.previousChainLength)
      && (patch.kemCiphertext.Some? ==> m.kemCiphertext == patch.kemCiphertext)
      && (patch.cipherData.Some? ==> m.cipherData == patch.cipherData.value)
      && (patch.rSignature.Some? ==> m.rSignature == patch.rSignature.value)
    ensures var m := Merge(current, patch);
      && (patch.version.None? ==> m.version == current.version)
      && (patch.keyId.None? ==> m.keyId == current.keyId)
      && (patch.dhPublicKey.None? ==> m.dhPublicKey == current.dhPublicKey)
      && (patch.messageNumber.None? ==> m.messageNumber == current.messageNumber)
      && (patch.previousChainLength.None? ==> m.previousChainLength == current.previousChainLength)
      && (patch.kemCiphertext.None? ==> m.kemCiphertext == current.kemCiphertext)
      && (patch.cipherData.None? ==> m.cipherData == current.cipherData)
      && (patch.rSignature.None? ==> m.rSignature == current.rSignature)
  {
  }

  class Envelope {
    const version: int := PROTOCOL_VERSION
    const keyId: Bytes
    const dhPublicKey: Bytes
    const messageNumber: int
    const previousChainLength: int
    const kemCiphertext: Option<Bytes>
    const cipherData: CipherData
    const rSignature: RSignature
    var cache: Cache

    function Fields(): UnsignedFields
    {
      UnsignedFields(version, keyId, dhPublicKey, messageNumber, previousChainLength, kemCiphertext, cipherData)
    }

    /** The `properties` getter. */
    function AsProperties(): Properties
    {
      Properties(Some(version), keyId, dhPublicKey, Some(messageNumber), Some(previousChainLength),
                 kemCiphertext, cipherData, rSignature)
    }

    constructor(properties: Properties, cache: Cache)
      ensures Fields() == FieldsOf(properties) && rSignature == properties.rSignature
      ensures this.cache == cache
    {
      keyId := properties.keyId;
      dhPublicKey := properties.dhPublicKey;
      messageNumber := OrElse(properties.messageNumber, 0);
      previousChainLength := OrElse(properties.previousChainLength, 0);
      kemCiphertext := properties.kemCiphertext;
      cipherData := properties.cipherData;
      rSignature := properties.rSignature;
      this.cache := cache;
    }

    /** `validate()`. */
    function Validate(): (o: Outcome)
      ensures o == Pass <==> WellFormed(Fields(), true)
    {
      CheckFieldsAcceptsWellFormed(Fields(), true);
      CheckFields(Fields(), true)
    }

    /** The `buffer` getter: encoded once, then served from the cache. */
    method Buffer() returns (b: Bytes)
      modifies this`cache
      ensures b == OrElse(old(cache.buffer), EncodeEnvelope(Fields(), rSignature))
      ensures cache == old(cache).(buffer := Some(b))
    {
      if cache.buffer.None? {
        cache := cache.(buffer := Some(EncodeEnvelope(Fields(), rSignature)));
      }
      b := cache.buffer.value;
    }

    /** The `byteLength` getter: measured once, then served from the cache. */
    method ByteLength() returns (n: int)
      modifies this`cache
      ensures n == OrElse(old(cache.byteLength), |EncodeEnvelope(Fields(), rSignature)|)
      ensures cache == old(cache).(byteLength := Some(n))
    {
      if cache.byteLength.None? {
        cache := cache.(byteLength := Some(|EncodeEnvelope(Fields(), rSignature)|));
      }
      n := cache.byteLength.value;
    }

    /** The `hash` getter: hashed once, then served from the cache. */
    method Hash() returns (h: Bytes)
      modifies this`cache
      ensures h == CachedHash(old(cache), Fields())
      ensures cache == old(cache).(hash := Some(h))
    {
      if cache.hash.None? {
        cache := cache.(hash := Some(HashFields(Fields())));
      }
      h := cache.hash.value;
    }

    /** The `publicKey` getter: recovered once over the (cached) hash, then served from the cache. */
    method PublicKey() returns (r: Result<Bytes>)
      modifies this`cache
      ensures r == CachedPublicKey(old(cache), Fields(), rSignature)
      ensures cache == AfterPublicKey(old(cache), Fields(), rSignature)
    {
      if cache.publicKey.Some? {
        return Ok(cache.publicKey.value);
      }
      var h := Hash();
      r := Recover(rSignature, h);
      if r.Ok? {
        cache := cache.(publicKey := Some(r.value));
      }
    }

    /** `verify(publicKey)`: no field changes; only the getters' cache may fill in. */
    method Verify(publicKey: Bytes) returns (o: Outcome)
      modifies this`cache
      ensures o == VerifyOutcome(Fields(), rSignature, old(cache), publicKey)
    {
      var v := Validate();
      if v.Fail? {
        return v;
      }
      var recovered := PublicKey();
      if recovered.Err? {
        return Fail(recovered.error);
      }
      if Compare(recovered.value, publicKey) != 0 {
        return Fail(SignatureMismatch);
      }
      o := Pass;
    }

    /**
     * `Envelope.create` (also src/models/Envelope/methods/create.ts): signs the
     * hash of the unsigned fields and pre-fills the hash and signer key.
     */
    static method Create(properties: CreateProperties, keys: Keys) returns (e: Envelope)
      ensures fresh(e)
      ensures e.Fields() == SignedFields(properties).(version := PROTOCOL_VERSION)
      ensures e.rSignature == RSign(keys, HashFields(SignedFields(properties)))
      ensures e.cache == Cache(None, None, Some(HashFields(SignedFields(properties))), Some(keys.publicKey))
    {
      var fields := SignedFields(properties);
      var hash := HashFields(fields);
      var rSignature := RSign(keys, hash);
      e := new Envelope(
        Properties(Some(fields.version), fields.keyId, fields.dhPublicKey, Some(fields.messageNumber),
                   Some(fields.previousChainLength), fields.kemCiphertext, fields.cipherData, rSignature),
        Cache(None, None, Some(hash), Some(keys.publicKey)));
    }
  }

  /** `updateEnvelope(e, patch)`: a new envelope from the merged properties, with an empty cache. */
  method Update(envelope: Envelope, patch: Patch) returns (r: Envelope)
    ensures fresh(r)
    ensures r.Fields() == FieldsOf(Merge(envelope.AsProperties(), patch))
    ensures r.rSignature == Merge(envelope.AsProperties(), patch).rSignature
    ensures r.cache == EMPTY_CACHE
  {
    r := new Envelope(Merge(envelope.AsProperties(), patch), EMPTY_CACHE);
  }

  /** Updating with an empty patch reproduces the envelope's fields and signature. */
  lemma UpdateWithEmptyPatch(envelope: Envelope)
    ensures FieldsOf(Merge(envelope.AsProperties(), EMPTY_PATCH)) == envelope.Fields()
    ensures Merge(envelope.AsProperties(), EMPTY_PATCH).rSignature == envelope.rSignature
  {
  }

  /** `verifyEnvelope(envelope, remoteNodeId)`: never changes a field. */
  method VerifyEnvelope(envelope: Envelope, remoteNodeId: Bytes) returns (o: Outcome)
    modifies envelope`cache
    ensures o == VerifyNodeOutcome(envelope.Fields(), envelope.rSignature, old(envelope.cache), remoteNodeId)
  {
    var v := CheckFields(envelope.Fields(), false);
    if v.Fail? {
      return v;
    }
    var recovered := envelope.PublicKey();
    if recovered.Err? {
      return Fail(recovered.error);
    }
    if Compare(NodeId(recovered.value), remoteNodeId) != 0 {
      return Fail(SignatureMismatch);
    }
    o := Pass;
  }

  /**
   * An envelope created by an honest key pair with version 1 and valid fields
   * passes `verify` against the signer's key and `verifyEnvelope` against its
   * node id, both with the pre-filled cache and with an empty one (as after
   * decoding).
   */
  lemma CreatedEnvelopeVerifies(properties: CreateProperties, keys: Keys)
    requires RecoveryCorrect()
    requires keys == NewKeys(keys.secretKey)
    requires OrElse(properties.version, PROTOCOL_VERSION) == PROTOCOL_VERSION
    requires WellFormed(SignedFields(properties), true)
    ensures var f := SignedFields(properties);
      var rSignature := RSign(keys, HashFields(f));
      && VerifyOutcome(f, rSignature, Cache(None, None, Some(HashFields(f)), Some(keys.publicKey)), keys.publicKey) == Pass
      && VerifyOutcome(f, rSignature, EMPTY_CACHE, keys.publicKey) == Pass
      && VerifyNodeOutcome(f, rSignature, EMPTY_CACHE, NodeId(keys.publicKey)) == Pass
  {
    var f := SignedFields(properties);
    var rSignature := RSign(keys, HashFields(f));
    RSignRecovers(keys, HashFields(f));
    VerifyPassesIff(f, rSignature, Cache(None, None, Some(HashFields(f)), Some(keys.publicKey)), keys.publicKey);
    VerifyPassesIff(f, rSignature, EMPTY_CACHE, keys.publicKey);
    ValidatorsDifferOnlyByCeiling(f);
    VerifyNodePassesIff(f, rSignature, EMPTY_CACHE, NodeId(keys.publicKey));
  }
}
