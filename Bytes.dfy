/** Byte strings and the handful of JavaScript/Uint8Array semantics the engine relies on. */
module Bytes {

  /** A `Uint8Array` element. */
  newtype byte = x: int | 0 <= x < 256
  type Bytes = seq<byte>

  /** `new Uint8Array(n)`: n zero bytes. */
  function Zeros(n: nat): (z: Bytes)
    ensures |z| == n && forall i :: 0 <= i < n ==> z[i] == 0
  {
    seq(n, _ => 0)
  }

  /** `new Uint8Array(n).fill(value)`. */
  function Filled(n: nat, value: byte): (b: Bytes)
    ensures |b| == n && forall i :: 0 <= i < n ==> b[i] == value
  {
    seq(n, _ => value)
  }

  /** `new TextEncoder().encode(s)` for an ASCII string. */
  function Ascii(s: string): (b: Bytes)
    ensures |b| == |s|
  {
    seq(|s|, i requires 0 <= i < |s| => (s[i] as int % 256) as byte)
  }

  /** `Number.MAX_SAFE_INTEGER`, 2^53 - 1. */
  const MAX_SAFE_INTEGER: int := 0x1F_FFFF_FFFF_FFFF

  /** `Number.isSafeInteger` restricted to the integers the model represents. */
  predicate IsSafeInteger(x: int) {
    -MAX_SAFE_INTEGER <= x <= MAX_SAFE_INTEGER
  }

  /**
   * `compare` of uint8array-tools: the first differing byte decides, and a
   * proper prefix sorts before the longer string. Returns -1, 0 or 1.
   */
  function Compare(a: Bytes, b: Bytes): (c: int)
    ensures -1 <= c <= 1
    decreases |a|
  {
    if |a| == 0 || |b| == 0 then
      (if |a| == |b| then 0 else if |a| < |b| then -1 else 1)
    else if a[0] != b[0] then
      (if a[0] < b[0] then -1 else 1)
    else
      Compare(a[1..], b[1..])
  }

  lemma {:induction false} CompareZeroIffEqual(a: Bytes, b: Bytes)
    ensures Compare(a, b) == 0 <==> a == b
    decreases |a|
  {
    if |a| != 0 && |b| != 0 && a[0] == b[0] {
      CompareZeroIffEqual(a[1..], b[1..]);
      if a[1..] == b[1..] {
        assert a == [a[0]] + a[1..] && b == [b[0]] + b[1..];
      }
    }
  }

  lemma {:induction false} CompareAntisymmetric(a: Bytes, b: Bytes)
    ensures Compare(a, b) == -Compare(b, a)
    decreases |a|
  {
    if |a| != 0 && |b| != 0 && a[0] == b[0] {
      CompareAntisymmetric(a[1..], b[1..]);
    }
  }

  /** Resolves a relative index of `TypedArray.prototype.subarray` against a length. */
  function RelativeIndex(length: nat, index: int): (k: nat)
    ensures k <= length
    ensures 0 <= index <= length ==> k == index
    ensures index < 0 ==> k == (if length + index < 0 then 0 else length + index)
  {
    if index < 0 then (if length + index < 0 then 0 else length + index)
    else if index > length then length
    else index
  }

  /**
   * `s.subarray(begin, end)` of a typed array and `s.slice(begin, end)` of an
   * array: negative indices count from the end, out-of-range ones are clamped.
   */
  function Slice<T>(s: seq<T>, begin: int, end: int): (r: seq<T>)
    ensures |r| <= |s|
    ensures 0 <= begin <= end <= |s| ==> r == s[begin..end]
  {
    var b := RelativeIndex(|s|, begin);
    var e := RelativeIndex(|s|, end);
    if e <= b then [] else s[b..e]
  }
}
