/** Node signing keys (src/models/Keys): secp256k1 recoverable signatures. */
module SigningKeys {
  import opened Wrappers
  import opened Bytes
  import opened Primitives

  /** A node's key pair; the public key is the compressed secp256k1 key of the secret. */
  datatype Keys = Keys(secretKey: Bytes, publicKey: Bytes)

  /** `new Keys({ secretKey })`. */
  function NewKeys(secretKey: Bytes): (k: Keys)
    ensures k.secretKey == secretKey && k.publicKey == Secp256k1PublicKey(secretKey)
  {
    Keys(secretKey, Secp256k1PublicKey(secretKey))
  }

  /** `keys.rSign(message)`. */
  function RSign(k: Keys, message: Bytes): RSignature
  {
    Secp256k1RSign(k.secretKey, message)
  }

  /** `Keys.recover(rSignature, message)`: fails where the library throws. */
  function Recover(rSignature: RSignature, message: Bytes): (r: Result<Bytes>)
    ensures r.Ok? <==> Secp256k1Recover(rSignature, message).Some?
    ensures r.Err? ==> r.error == RecoveryFailed
  {
    match Secp256k1Recover(rSignature, message)
    case Some(pk) => Ok(pk)
    case None => Err(RecoveryFailed)
  }

  /** JavaScript `a ^ b` on non-negative integers, bit by bit. */
  function BitXor(a: nat, b: nat): nat
    decreases a + b
  {
    if a == 0 && b == 0 then 0
    else (if a % 2 == b % 2 then 0 else 1) + 2 * BitXor(a / 2, b / 2)
  }

  /** JavaScript `a | b` on non-negative integers, bit by bit. */
  function BitOr(a: nat, b: nat): nat
    decreases a + b
  {
    if a == 0 && b == 0 then 0
    else (if a % 2 == 1 || b % 2 == 1 then 1 else 0) + 2 * BitOr(a / 2, b / 2)
  }

  lemma {:induction false} BitXorZeroIffEqual(a: nat, b: nat)
    ensures BitXor(a, b) == 0 <==> a == b
    decreases a + b
  {
    if a != 0 || b != 0 {
      BitXorZeroIffEqual(a / 2, b / 2);
    }
  }

  lemma {:induction false} BitOrZeroIffBothZero(a: nat, b: nat)
    ensures BitOr(a, b) == 0 <==> a == 0 && b == 0
    decreases a + b
  {
    if a != 0 || b != 0 {
      BitOrZeroIffBothZero(a / 2, b / 2);
    }
  }

  /**
   * `constantTimeEqual`: false for different lengths; otherwise the OR of all
   * byte-wise XORs is zero exactly when the arrays are equal. Every index is
   * visited whatever the first mismatch.
   */
  method ConstantTimeEqual(valueA: Bytes, valueB: Bytes) returns (equal: bool)
    ensures equal <==> valueA == valueB
  {
    if |valueA| != |valueB| {
      return false;
    }
    var result: nat := 0;
    for index := 0 to |valueA|
      invariant result == 0 <==> valueA[..index] == valueB[..index]
    {
      var difference := BitXor(valueA[index] as nat, valueB[index] as nat);
      BitXorZeroIffEqual(valueA[index] as nat, valueB[index] as nat);
      BitOrZeroIffBothZero(result, difference);
      assert valueA[..index + 1] == valueA[..index] + [valueA[index]];
      assert valueB[..index + 1] == valueB[..index] + [valueB[index]];
      result := BitOr(result, difference);
    }
    assert valueA[..|valueA|] == valueA && valueB[..|valueB|] == valueB;
    equal := result == 0;
  }

  /**
   * `Keys.isRVerified`: true exactly when recovery succeeds and yields the
   * supplied key; a throwing recovery reads as false.
   */
  method IsRVerified(rSignature: RSignature, message: Bytes, publicKey: Bytes) returns (verified: bool)
    ensures verified <==> Recover(rSignature, message) == Ok(publicKey)
  {
    var recovered := Recover(rSignature, message);
    if recovered.Err? {
      return false;
    }
    verified := ConstantTimeEqual(recovered.value, publicKey);
  }

  /** An honest signature passes `isRVerified` against the signer's public key. */
  lemma RSignRecovers(k: Keys, message: Bytes)
    requires RecoveryCorrect()
    requires k == NewKeys(k.secretKey)
    ensures Recover(RSign(k, message), message) == Ok(k.publicKey)
  {
  }
}
