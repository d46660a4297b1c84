/** Small value types shared by the whole model. */
module Basics {

  datatype Option<+T> = None | Some(value: T)

  datatype Result<+R, +E> = Success(value: R) | Failure(error: E)

  function Min(a: int, b: int): int { if a <= b then a else b }

  function Max(a: int, b: int): int { if a <= b then b else a }

  lemma AppendAssoc<T>(a: seq<T>, b: seq<T>, c: seq<T>)
    ensures a + (b + c) == (a + b) + c
  {
  }

  lemma TakeAll<T>(s: seq<T>, n: nat)
    requires n == |s|
    ensures s[..n] == s
  {
  }

  /** Python's `s[:n]` for a non-negative `n`. */
  function Take<T>(s: seq<T>, n: nat): (r: seq<T>)
    ensures |r| == Min(n, |s|)
    ensures r == s[..|r|]
  {
    if n >= |s| then s else s[..n]
  }

  /** `n` copies of `x`, as `for _ in range(n)` produces them (none when `n <= 0`). */
  function Replicate<T>(x: T, n: int): (r: seq<T>)
    ensures |r| == Max(n, 0)
    ensures forall i :: 0 <= i < |r| ==> r[i] == x
    decreases Max(n, 0)
  {
    if n <= 0 then [] else [x] + Replicate(x, n - 1)
  }

  lemma ReplicateSnoc<T>(x: T, n: int)
    requires n > 0
    ensures Replicate(x, n) == Replicate(x, n - 1) + [x]
  {
    assert Replicate(x, n) == Replicate(x, n - 1) + [x];
  }

  lemma ReplicateMax<T>(x: T, n: int)
    ensures Replicate(x, Max(n, 0)) == Replicate(x, n)
  {
  }

  /** Python's `math.ceil(n / size)` for natural numbers. */
  function CeilDiv(n: nat, size: nat): nat
    requires size > 0
  {
    (n + size - 1) / size
  }

  lemma CeilDivBounds(n: nat, size: nat)
    requires size > 0
    ensures (CeilDiv(n, size) - 1) * size < n || n == 0
    ensures n <= CeilDiv(n, size) * size
    ensures n == 0 <==> CeilDiv(n, size) == 0
  {
    var q := CeilDiv(n, size);
    var r := (n + size - 1) % size;
    assert n + size - 1 == q * size + r;
  }
}
