/** Checksummed keys (src/utilities/check.ts): a key followed by 4 bytes of its SHA-256. */
module Checks {
  import opened Bytes
  import opened Primitives

  /** Length of the check suffix (`CheckCodec`, 4 bytes). */
  const CHECK_SIZE: nat := 4

  /** `createCheck(key)`: the key followed by the first 4 bytes of sha256(key). */
  function CreateCheck(key: Bytes): (checkKey: Bytes)
    ensures |checkKey| == |key| + CHECK_SIZE
    ensures checkKey[..|key|] == key && checkKey[|key|..] == Sha256(key)[..CHECK_SIZE]
  {
    key + Slice(Sha256(key), 0, CHECK_SIZE)
  }

  /**
   * `validateCheck(checkKey)`: splits at length - 4 with `subarray` semantics
   * (a negative index counts from the end, out-of-range ones are clamped) and
   * compares the recomputed check with the suffix.
   */
  function ValidateCheck(checkKey: Bytes): bool
  {
    var checkIndex := |checkKey| - CHECK_SIZE;
    var key := Slice(checkKey, 0, checkIndex);
    var check := Slice(checkKey, checkIndex, |checkKey|);
    var validCheck := Slice(Sha256(key), 0, CHECK_SIZE);
    Compare(validCheck, check) == 0
  }

  /** On inputs of at least 4 bytes, the last 4 bytes must be the check of everything before them. */
  lemma ValidateCheckSplits(checkKey: Bytes)
    requires |checkKey| >= CHECK_SIZE
    ensures var k := |checkKey| - CHECK_SIZE;
      ValidateCheck(checkKey) <==> checkKey[k..] == Sha256(checkKey[..k])[..CHECK_SIZE]
  {
    var k := |checkKey| - CHECK_SIZE;
    assert Slice(checkKey, 0, k) == checkKey[..k];
    assert Slice(checkKey, k, |checkKey|) == checkKey[k..];
    assert Slice(Sha256(checkKey[..k]), 0, CHECK_SIZE) == Sha256(checkKey[..k])[..CHECK_SIZE];
    CompareZeroIffEqual(Sha256(checkKey[..k])[..CHECK_SIZE], checkKey[k..]);
  }

  /** Every created check validates. */
  lemma CheckRoundTrip(key: Bytes)
    ensures ValidateCheck(CreateCheck(key))
  {
    var checkKey := CreateCheck(key);
    ValidateCheckSplits(checkKey);
    assert checkKey[..|checkKey| - CHECK_SIZE] == key;
  }

  /** Inputs shorter than the check never validate: the suffix read is too short. */
  lemma ShortInputRejected(checkKey: Bytes)
    requires |checkKey| < CHECK_SIZE
    ensures !ValidateCheck(checkKey)
  {
    var checkIndex := |checkKey| - CHECK_SIZE;
    var key := Slice(checkKey, 0, checkIndex);
    CompareZeroIffEqual(Slice(Sha256(key), 0, CHECK_SIZE), Slice(checkKey, checkIndex, |checkKey|));
  }

  /** Replacing the check of a key by any other 4 bytes makes validation fail. */
  lemma TamperedCheckRejected(key: Bytes, forged: Bytes)
    requires |forged| == CHECK_SIZE && forged != Sha256(key)[..CHECK_SIZE]
    ensures !ValidateCheck(key + forged)
  {
    ValidateCheckSplits(key + forged);
    assert (key + forged)[..|key|] == key && (key + forged)[|key|..] == forged;
  }
}
