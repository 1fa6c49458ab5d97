/** Small shared vocabulary: failure-carrying results, options, the C++
    `unsigned short` range and the ascending index sequence [0, 1, ..., n-1]. */
module Basics {

  datatype Option<+T> = None | Some(value: T)

  datatype Result<+T, +E> = Ok(value: T) | Err(error: E)

  /** Values an `unsigned short` field can hold. */
  type UShort = x: nat | x < 0x1_0000

  /** The C++ conversion of an `int` into an `unsigned short`: the value
      modulo 2^16 (Dafny's `%` is Euclidean, so negative inputs wrap the
      same way the C++ conversion does). */
  function ToUShort(v: int): (r: UShort)
    ensures (r - v) % 0x1_0000 == 0
    ensures 0 <= v < 0x1_0000 ==> r == v
  {
    v % 0x1_0000
  }

  /** [0, 1, ..., n-1]. */
  function Iota(n: nat): (r: seq<nat>)
    ensures |r| == n
    ensures forall i | 0 <= i < n :: r[i] == i
  {
    if n == 0 then [] else Iota(n - 1) + [n - 1]
  }

  predicate StrictlyIncreasing(s: seq<nat>) {
    forall i, j | 0 <= i < j < |s| :: s[i] < s[j]
  }

  /** Every value below n occurs exactly once in the ascending index
      sequence, and no other value occurs. */
  lemma {:induction false} IotaCountsOnce(n: nat, x: nat)
    ensures multiset(Iota(n))[x] == if x < n then 1 else 0
  {
    if n > 0 {
      IotaCountsOnce(n - 1, x);
      var last: seq<nat> := [n - 1];
      assert Iota(n) == Iota(n - 1) + last;
      assert multiset(Iota(n)) == multiset(Iota(n - 1)) + multiset(last);
      assert multiset(last)[x] == if x == n - 1 then 1 else 0;
    }
  }

  /** Two positions holding the same value make that value's count at
      least two. */
  lemma RepeatCountsTwice<T>(s: seq<T>, i: nat, j: nat)
    requires i < j < |s| && s[i] == s[j]
    ensures multiset(s)[s[i]] >= 2
  {
    assert s == s[..j] + [s[j]] + s[j + 1..];
    assert s[i] in multiset(s[..j]);
  }

  /** A sequence with the multiset of [0, n) is a permutation of it: no
      repeats, every element below n, n elements. */
  lemma PermutationOfIota(s: seq<nat>, n: nat)
    requires multiset(s) == multiset(Iota(n))
    ensures |s| == n
    ensures forall i | 0 <= i < |s| :: s[i] < n
    ensures forall i, j | 0 <= i < j < |s| :: s[i] != s[j]
  {
    assert |s| == |multiset(s)| == |multiset(Iota(n))| == n;
    forall i | 0 <= i < |s|
      ensures s[i] < n
    {
      assert s[i] in multiset(s);
      IotaCountsOnce(n, s[i]);
    }
    forall i, j | 0 <= i < j < |s|
      ensures s[i] != s[j]
    {
      if s[i] == s[j] {
        RepeatCountsTwice(s, i, j);
        IotaCountsOnce(n, s[i]);
      }
    }
  }
}
