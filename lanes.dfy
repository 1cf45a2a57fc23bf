/** Shared vocabulary of the drivers: lane widths, the per-lane kernel,
    one vector window of a buffer, and the ways a call can abort.

    A lane value is a double; only the kernel ever looks at it, so it is
    carried here as a `real`. The kernel is a parameter `K: real -> real`:
    a total, pure function applied to each lane on its own, which is what
    every SIMD kernel of the library is. */
module Lanes {

  /** The two aborts the core can reach. */
  datatype Panic =
    | LengthMismatch      // assert_eq! on the two buffer lengths fails
    | SubtractOverflow    // an unsigned `n - VSZ` with n < VSZ

  datatype Result<T> = Ok(value: T) | Err(panic: Panic)

  /** 256-bit vectors hold 4 doubles, 512-bit vectors hold 8. */
  predicate IsLaneWidth(vsz: int) {
    vsz == 4 || vsz == 8
  }

  /** The reference result of a unary driver: the kernel on every lane. */
  function MapK(K: real -> real, s: seq<real>): seq<real> {
    seq(|s|, k requires 0 <= k < |s| => K(s[k]))
  }

  /** `y` after one window of width `w` at `off`: lanes [off, off+w) hold
      the kernel of x's lanes, every other lane is as before. */
  function Overwrite(K: real -> real, x: seq<real>, y: seq<real>, off: int, w: int): seq<real>
    requires 0 <= off && off + w <= |x|
  {
    seq(|y|, k requires 0 <= k < |y| => if off <= k < off + w then K(x[k]) else y[k])
  }

  /** Every lane of y in [lo, hi) already holds the kernel of x's lane. */
  predicate Computed(K: real -> real, x: seq<real>, y: seq<real>, lo: int, hi: int)
    requires 0 <= lo && hi <= |x| && hi <= |y|
  {
    forall k :: lo <= k < hi ==> y[k] == K(x[k])
  }

  /** One `*_with_offset` / `expwo*` call: load the vector x[off..off+vsz],
      run the kernel on it and store the result at y[off..off+vsz]. The
      requires is the bound the unaligned load and store rely on: the whole
      window lies inside both buffers. (The source also loads y's window
      first; the kernel overwrites all of it, so that load is not modelled.) */
  method ApplyWindow(K: real -> real, x: seq<real>, y: array<real>, off: int, vsz: int)
    requires IsLaneWidth(vsz)
    requires 0 <= off && off + vsz <= |x| && off + vsz <= y.Length
    modifies y
    ensures y[..] == Overwrite(K, x, old(y[..]), off, vsz)
  {
    var xx := x[off..off + vsz];
    var yy := MapK(K, xx);
    forall j | 0 <= j < vsz {
      y[off + j] := yy[j];
    }
  }

  /** Recomputing a window is idempotent: the kernel is a pure function of
      each lane, so a second pass over the same lanes writes the same values. */
  lemma RecomputeIdempotent(K: real -> real, x: seq<real>, y: seq<real>, off: int, w: int)
    requires 0 <= off && off + w <= |x|
    ensures Overwrite(K, x, Overwrite(K, x, y, off, w), off, w) == Overwrite(K, x, y, off, w)
  {
  }

  /** The overlapping tail: once every lane below i is done and the last
      window [n-w, n) starts at or below i, recomputing that window
      completes the buffer, rewriting lanes in [n-w, i) with the values they
      already hold. */
  lemma TailRecomputeHarmless(K: real -> real, x: seq<real>, y: seq<real>, i: int, w: int)
    requires |y| == |x| && 0 <= w <= |x|
    requires |x| - w <= i <= |x|
    requires Computed(K, x, y, 0, i)
    ensures Overwrite(K, x, y, |x| - w, w) == MapK(K, x)
    ensures forall k :: |x| - w <= k < i ==> Overwrite(K, x, y, |x| - w, w)[k] == y[k]
  {
  }
}
