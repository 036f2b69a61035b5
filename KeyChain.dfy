/**
 * The symmetric-key chain (src/models/KeyChain): a chain key that is replaced
 * by its HKDF successor on every message, a message counter, and a memoised
 * message secret.
 */
module KeyChains {
  import opened Wrappers
  import opened Bytes
  import opened Primitives

  const CHAIN_KEY_INFO: Bytes := Ascii("DICES-v1-chain")
  const MESSAGE_KEY_INFO: Bytes := Ascii("DICES-v1-message")

  /** The next chain key: HKDF over the chain key, no salt, the chain label, 32 bytes. */
  function DeriveChainKey(chainKey: Bytes): (next: Bytes)
    ensures |next| == 32
  {
    Hkdf(chainKey, None, CHAIN_KEY_INFO, 32)
  }

  /** The message secret of a chain key: the same HKDF under the message label. */
  function DeriveMessageSecret(chainKey: Bytes): (secret: Bytes)
    ensures |secret| == 32
  {
    Hkdf(chainKey, None, MESSAGE_KEY_INFO, 32)
  }

  /** The chain key after `n` steps from `chainKey`: `DeriveChainKey` iterated n times. */
  function ChainKeyAfter(chainKey: Bytes, n: nat): Bytes
  {
    if n == 0 then chainKey else DeriveChainKey(ChainKeyAfter(chainKey, n - 1))
  }

  /** Stepping m times and then n times is stepping m + n times. */
  lemma {:induction false} ChainKeyAfterAdd(chainKey: Bytes, m: nat, n: nat)
    ensures ChainKeyAfter(ChainKeyAfter(chainKey, m), n) == ChainKeyAfter(chainKey, m + n)
  {
    if n > 0 {
      ChainKeyAfterAdd(chainKey, m, n - 1);
    }
  }

  /** The value of a chain: its key (absent when uninitialised) and its counter. */
  datatype Chain = Chain(chainKey: Option<Bytes>, messageNumber: int)

  /** What the `secret` accessor yields for a chain. */
  function ChainSecret(c: Chain): Result<Bytes>
  {
    match c.chainKey
    case None => Err(NoChainKey)
    case Some(k) => Ok(DeriveMessageSecret(k))
  }

  /**
   * Domain separation of this module's two labels, the hypothesis the
   * distinct labels stand for: over the same chain key, HKDF under the chain
   * label and under the message label never yields the same 32 bytes.
   */
  ghost predicate LabelsSeparate() {
    forall chainKey :: Hkdf(chainKey, None, CHAIN_KEY_INFO, 32) != Hkdf(chainKey, None, MESSAGE_KEY_INFO, 32)
  }

  /**
   * With separated labels, the secret a message is sealed with at any step
   * is never the chain key the chain moves to next.
   */
  lemma MessageSecretIsNotNextChainKey(k: Bytes, n: nat)
    requires LabelsSeparate()
    ensures DeriveMessageSecret(ChainKeyAfter(k, n)) != ChainKeyAfter(k, n + 1)
  {
  }

  /** A chain after one successful `next()`. */
  function Advanced(c: Chain): Chain
    requires c.chainKey.Some?
  {
    Chain(Some(DeriveChainKey(c.chainKey.value)), c.messageNumber + 1)
  }

  /** A chain after `n` successful `next()` calls. */
  function AdvancedBy(c: Chain, n: nat): (r: Chain)
    requires c.chainKey.Some?
    ensures r.chainKey.Some?
  {
    if n == 0 then c else Advanced(AdvancedBy(c, n - 1))
  }

  /**
   * After n calls of `next()` from key k at counter m, the key is k stepped n
   * times and the counter is m + n.
   */
  lemma {:induction false} AdvancedByClosedForm(k: Bytes, m: int, n: nat)
    ensures AdvancedBy(Chain(Some(k), m), n) == Chain(Some(ChainKeyAfter(k, n)), m + n)
  {
    if n > 0 {
      AdvancedByClosedForm(k, m, n - 1);
    }
  }

  /** The secret read at any point of a chain is the message secret of the key reached. */
  lemma {:induction false} SecretAfterSteps(k: Bytes, m: int, n: nat)
    ensures ChainSecret(AdvancedBy(Chain(Some(k), m), n)) == Ok(DeriveMessageSecret(ChainKeyAfter(k, n)))
  {
    AdvancedByClosedForm(k, m, n);
  }

  class KeyChain {
    var chainKey: Option<Bytes>
    var messageNumber: int
    var cachedSecret: Option<Bytes>

    /** The memoised secret, when present, belongs to the current chain key. */
    ghost predicate Valid()
      reads this
    {
      cachedSecret.Some? ==> chainKey.Some? && cachedSecret.value == DeriveMessageSecret(chainKey.value)
    }

    function View(): Chain
      reads this
    {
      Chain(chainKey, messageNumber)
    }

    /** `new KeyChain({ chainKey, messageNumber })`: an absent counter starts at 0. */
    constructor(chainKey: Option<Bytes>, messageNumber: Option<int>)
      ensures Valid() && cachedSecret.None?
      ensures View() == Chain(chainKey, if messageNumber.Some? then messageNumber.value else 0)
    {
      this.chainKey := chainKey;
      this.messageNumber := if messageNumber.Some? then messageNumber.value else 0;
      this.cachedSecret := None;
    }

    /**
     * The `secret` accessor: fails without a chain key, otherwise returns the
     * message secret of the current key and remembers it.
     */
    method Secret() returns (r: Result<Bytes>)
      requires Valid()
      modifies this`cachedSecret
      ensures Valid() && View() == old(View())
      ensures r == ChainSecret(View())
      ensures r.Ok? ==> cachedSecret == Some(r.value)
      ensures r.Err? ==> cachedSecret == old(cachedSecret)
    {
      match chainKey {
        case None =>
          r := Err(NoChainKey);
        case Some(k) =>
          if cachedSecret.None? {
            cachedSecret := Some(DeriveMessageSecret(k));
          }
          r := Ok(cachedSecret.value);
      }
    }

    /** `next()`: steps the key, bumps the counter and drops the memoised secret. */
    method Next() returns (o: Outcome)
      requires Valid()
      modifies this
      ensures Valid()
      ensures o == (if old(chainKey).Some? then Pass else Fail(NoChainKey))
      ensures o.Pass? ==> View() == Advanced(old(View())) && cachedSecret.None?
      ensures o.Fail? ==> unchanged(this)
    {
      match chainKey {
        case None =>
          o := Fail(NoChainKey);
        case Some(k) =>
          chainKey := Some(DeriveChainKey(k));
          messageNumber := messageNumber + 1;
          cachedSecret := None;
          o := Pass;
      }
    }

    /** `reset(k)`: reseeds the chain at counter 0, whatever its prior state. */
    method Reset(newChainKey: Bytes)
      modifies this
      ensures Valid() && cachedSecret.None?
      ensures View() == Chain(Some(newChainKey), 0)
    {
      chainKey := Some(newChainKey);
      messageNumber := 0;
      cachedSecret := None;
    }
  }
}
