/** Optional values, results and the error kinds the ratchet engine throws. */
module Wrappers {

  datatype Option<+T> = None | Some(value: T)

  /** `x ?? fallback`. */
  function OrElse<T>(x: Option<T>, fallback: T): T
  {
    if x.Some? then x.value else fallback
  }

  /** A computation that either produced a value or threw one of the engine's errors. */
  datatype Result<+T> = Ok(value: T) | Err(error: Error)

  /** A computation with no value that either completed or threw. */
  datatype Outcome = Pass | Fail(error: Error)

  /**
   * Every exception the modelled code raises, one constructor per throw site
   * message (the message text itself is not modelled).
   */
  datatype Error =
    | NoChainKey                   // "No chain key available"
    | SameRemoteDhKey              // "DH ratchet called with same remote public key"
    | InvalidMlKemPublicKeyLength  // "Invalid ML-KEM public key length"
    | InvalidDhKeyLength           // "Invalid DH public key length"
    | X25519Rejected               // x25519.getSharedSecret threw: a key not 32 bytes, or an all-zero result
    | KemRejected                  // ml_kem1024.encapsulate threw: a key not 1568 bytes, or one failing the modulus check
    | InvalidMessageNumber         // "Invalid message number"
    | ReceivingChainUninitialized  // "Receiving chain not initialized"
    | SkipTooLarge                 // "Message skip too large"
    | SendingChainUninitialized    // "Sending chain not initialized"
    | RemoteKeyIdMissing           // "Remote keyId not set in ratchet state"
    | DecryptionFailed             // the AEAD rejected the ciphertext
    | KemCiphertextMissing         // "kemCiphertext required for ratchet initialization"
    | InvalidKemCiphertextLength   // "Invalid ML-KEM ciphertext length" / "Invalid kemCiphertext length"
    | UnsupportedVersion           // "Unsupported protocol version"
    | InvalidKeyIdLength           // "Invalid keyId length"
    | InvalidDhPublicKeyLength     // "Invalid dhPublicKey length"
    | LowOrderPoint                // "Invalid X25519 public key: low-order point detected"
    | InvalidPreviousChainLength   // "Invalid previousChainLength"
    | PreviousChainLengthTooLarge  // "previousChainLength too large"
    | SignatureMismatch            // recovered key or node id differs from the expected one
    | RecoveryFailed               // secp256k1 public-key recovery threw
}
