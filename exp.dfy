/** The hand-written drivers of src/exp.rs: `exp512` (8 lanes, signed i32
    index arithmetic) and `exp256` (4 lanes, unsigned usize arithmetic over
    raw pointers). Both windows, `expwo512` and `expwo256`, are
    Lanes.ApplyWindow with the exponential kernel as K. */
module Exp {
  import opened Lanes

  /** Rust's `usize` on a 64-bit target. Arithmetic on it is checked by the
      verifier, so every subtraction below carries a proof that it does not
      go below zero. */
  newtype usize = v: int | 0 <= v < 0x1_0000_0000_0000_0000

  const Vsz512: int := 8
  const Vsz256: usize := 4

  /** `exp512`. Inputs shorter than one vector are left alone (the short
      path is an early return with no computation); otherwise every lane
      of y gets the kernel of x's lane, and every window lies in [0, n). */
  method Exp512(K: real -> real, x: seq<real>, y: array<real>)
    requires |x| == y.Length && |x| < 0x8000_0000
    modifies y
    ensures |x| < Vsz512 ==> y[..] == old(y[..])
    ensures |x| >= Vsz512 ==> y[..] == MapK(K, x)
  {
    var n := |x|;
    if n < Vsz512 {
      return;
    }

    var i := 0;
    // i < n - 31 is i + 32 <= n: four whole windows fit.
    while i < n - 31
      invariant 0 <= i <= n && i % Vsz512 == 0
      invariant Computed(K, x, y[..], 0, i)
    {
      ApplyWindow(K, x, y, i, Vsz512);
      i := i + Vsz512;
      ApplyWindow(K, x, y, i, Vsz512);
      i := i + Vsz512;
      ApplyWindow(K, x, y, i, Vsz512);
      i := i + Vsz512;
      ApplyWindow(K, x, y, i, Vsz512);
      i := i + Vsz512;
    }

    // i < n - 7 is i + 8 <= n: one whole window fits.
    while i < n - 7
      invariant 0 <= i <= n && i % Vsz512 == 0
      invariant Computed(K, x, y[..], 0, i)
    {
      ApplyWindow(K, x, y, i, Vsz512);
      i := i + Vsz512;
    }

    if i != n {
      TailRecomputeHarmless(K, x, y[..], i, Vsz512);
      i := n - Vsz512;
      ApplyWindow(K, x, y, i, Vsz512);
    } else {
      assert y[..] == MapK(K, x);
    }
  }

  /** `exp256`. The unsigned guards `n > 15` and `n > 3` are what make
      `n - 15` and `n - 3` well defined (the verifier checks each usize
      subtraction); `expwo256` takes raw pointers and checks nothing, so
      the requires of ApplyWindow is the whole of its safety. */
  method Exp256(K: real -> real, x: seq<real>, y: array<real>)
    requires |x| == y.Length && |x| < 0x1_0000_0000_0000_0000
    modifies y
    ensures |x| < Vsz256 as int ==> y[..] == old(y[..])
    ensures |x| >= Vsz256 as int ==> y[..] == MapK(K, x)
  {
    var n := |x| as usize;
    if n < Vsz256 {
      return;
    }

    var i: usize := 0;
    if n > 15 {
      // i < n - 15 is i + 16 <= n: four whole windows fit.
      while i < n - 15
        invariant i <= n && i % Vsz256 == 0
        invariant Computed(K, x, y[..], 0, i as int)
      {
        ApplyWindow(K, x, y, i as int, Vsz256 as int);
        i := i + Vsz256;
        ApplyWindow(K, x, y, i as int, Vsz256 as int);
        i := i + Vsz256;
        ApplyWindow(K, x, y, i as int, Vsz256 as int);
        i := i + Vsz256;
        ApplyWindow(K, x, y, i as int, Vsz256 as int);
        i := i + Vsz256;
      }
    }

    if n > 3 {
      // i < n - 3 is i + 4 <= n: one whole window fits.
      while i < n - 3
        invariant i <= n && i % Vsz256 == 0
        invariant Computed(K, x, y[..], 0, i as int)
      {
        ApplyWindow(K, x, y, i as int, Vsz256 as int);
        i := i + Vsz256;
      }
    }
    assert n - 4 < i <= n;

    if i != n {
      TailRecomputeHarmless(K, x, y[..], i as int, Vsz256 as int);
      i := n - Vsz256;
      ApplyWindow(K, x, y, i as int, Vsz256 as int);
    } else {
      assert y[..] == MapK(K, x);
    }
  }
}
