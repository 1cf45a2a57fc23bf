/** The `unroll_fn!` driver: applies a window operation of width `vsz` to a
    whole buffer through a short-input path, a 4-way unrolled hot loop, a
    single-window drain loop and an overlapping recompute of the last
    window. */
module Unroller {
  import opened Lanes

  /** The short-input path (n < vsz): x is copied into a zero-padded stack
      buffer of exactly vsz lanes, the window runs at offset 0 on the
      buffers, and the first n result lanes are copied back. No window
      touches the caller's buffers, so nothing past their end is read. */
  method ShortPath(K: real -> real, vsz: int, x: seq<real>, y: array<real>)
    requires IsLaneWidth(vsz)
    requires |x| < vsz && |x| == y.Length
    modifies y
    ensures y[..] == MapK(K, x)
  {
    var xx := new real[vsz](_ => 0.0);
    var yy := new real[vsz](_ => 0.0);
    for j := 0 to |x|
      modifies xx
      invariant forall k :: 0 <= k < j ==> xx[k] == x[k]
    {
      xx[j] := x[j];
    }
    ApplyWindow(K, xx[..], yy, 0, vsz);
    for j := 0 to y.Length
      modifies y
      invariant forall k :: 0 <= k < j ==> y[k] == yy[k]
    {
      y[j] := yy[j];
    }
    assert forall k :: 0 <= k < |x| ==> y[k] == K(x[k]);
  }

  /** The body of `unroll_fn!(name, fun, vsz, f64)`. The macro never compares
      the two lengths; its windows index y at x's offsets and its short
      path copies y.len() lanes out of a vsz-lane buffer, so equal lengths
      are what its callers must provide. `x.len() as i32` is exact below
      2^31. Every window lies inside [0, n) (the requires of ApplyWindow)
      and the result is the kernel on every lane. */
  method Unroll(K: real -> real, vsz: int, x: seq<real>, y: array<real>)
    requires IsLaneWidth(vsz)
    requires |x| == y.Length && |x| < 0x8000_0000
    modifies y
    ensures y[..] == MapK(K, x)
  {
    var n := |x|;
    if n < vsz {
      ShortPath(K, vsz, x, y);
      return;
    }

    var i := 0;
    // i < n - 4*vsz - 1 leaves room for four whole windows, and one lane more.
    while i < n - 4 * vsz - 1
      invariant 0 <= i <= n && i % vsz == 0
      invariant Computed(K, x, y[..], 0, i)
    {
      ApplyWindow(K, x, y, i, vsz);
      i := i + vsz;
      ApplyWindow(K, x, y, i, vsz);
      i := i + vsz;
      ApplyWindow(K, x, y, i, vsz);
      i := i + vsz;
      ApplyWindow(K, x, y, i, vsz);
      i := i + vsz;
    }

    // i < n - vsz + 1 is i + vsz <= n: one more whole window fits.
    while i < n - vsz + 1
      invariant 0 <= i <= n && i % vsz == 0
      invariant Computed(K, x, y[..], 0, i)
    {
      ApplyWindow(K, x, y, i, vsz);
      i := i + vsz;
    }
    assert n - vsz < i <= n;

    if i != n {
      // n >= vsz here, so the last window [n - vsz, n) starts at or after 0
      // and covers [i, n); the lanes of [n - vsz, i) are rewritten unchanged.
      TailRecomputeHarmless(K, x, y[..], i, vsz);
      i := n - vsz;
      ApplyWindow(K, x, y, i, vsz);
    } else {
      assert y[..] == MapK(K, x);
    }
  }
}
