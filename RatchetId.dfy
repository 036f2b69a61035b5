/** The ratchet identifier of a peer pair (src/utilities/computeRatchetId.ts). */
module RatchetIds {
  import opened Bytes
  import opened Primitives

  /**
   * The hashed input: the two node ids concatenated, the one that `compare`
   * orders strictly first leading, the second argument otherwise.
   */
  function RatchetIdInput(nodeId1: Bytes, nodeId2: Bytes): (combined: Bytes)
    ensures |combined| == |nodeId1| + |nodeId2|
    ensures (combined == nodeId1 + nodeId2 && Compare(nodeId1, nodeId2) <= 0)
         || (combined == nodeId2 + nodeId1 && Compare(nodeId2, nodeId1) <= 0)
  {
    CompareAntisymmetric(nodeId1, nodeId2);
    if Compare(nodeId1, nodeId2) < 0 then nodeId1 + nodeId2 else nodeId2 + nodeId1
  }

  /** `computeRatchetId(a, b)`: the double SHA-256 of the ordered concatenation. */
  function ComputeRatchetId(nodeId1: Bytes, nodeId2: Bytes): (id: Bytes)
    ensures |id| == 32
    ensures id == CreateHash(RatchetIdInput(nodeId1, nodeId2))
  {
    CreateHash(RatchetIdInput(nodeId1, nodeId2))
  }

  /** The hashed input, and hence the id, does not depend on the argument order. */
  lemma RatchetIdSymmetric(nodeId1: Bytes, nodeId2: Bytes)
    ensures RatchetIdInput(nodeId1, nodeId2) == RatchetIdInput(nodeId2, nodeId1)
    ensures ComputeRatchetId(nodeId1, nodeId2) == ComputeRatchetId(nodeId2, nodeId1)
  {
    CompareAntisymmetric(nodeId1, nodeId2);
    CompareZeroIffEqual(nodeId1, nodeId2);
  }
}
