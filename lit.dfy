/** The drivers of src/lit.rs, `exp512` and `exp256`, as written, and the
    corrected drivers they evidently mean. As written:
    - both short paths fill a padded stack buffer, call the driver on it and
      discard the result, with no `return`: for 1 <= n < VSZ control reaches
      the tail with i = 0 != n and `(n as usize) - VSZ` goes below zero;
    - `exp256` steps by 4 but keeps the 8-lane guards `n - 31` and `n - 7`,
      so its drain can stop with up to 7 lanes left while the tail window
      covers only 4. */
module Lit {
  import opened Lanes
  import Unroller

  /** Where the drain loop of `exp256` stops: the first multiple of 4 (the
      loop starts at 0 and steps by 4) at which `i < n - 7` fails. */
  function Exp256DrainExit(n: int): (i: int)
    requires n >= 0
    ensures i % 4 == 0 && 0 <= i && n - 7 <= i
    ensures i == 0 || i - 4 < n - 7
    ensures n >= 4 ==> i <= n - 4
  {
    if n < 8 then 0 else (n - 4) / 4 * 4
  }

  /** Whether `exp256` (n >= 4) writes lane k: the loops write [0, exit), the
      tail window writes [n - 4, n). */
  predicate Exp256Writes(n: int, k: int)
    requires n >= 0
  {
    k < Exp256DrainExit(n) || n - 4 <= k
  }

  /** `exp512` as written. */
  method Exp512(K: real -> real, x: seq<real>, y: array<real>) returns (r: Result<()>)
    requires |x| == y.Length && |x| < 0x8000_0000
    modifies y
    decreases if |x| < 8 then 1 else 0
    ensures r.Err? <==> 0 < |x| < 8
    ensures r.Err? ==> r.panic == SubtractOverflow
    ensures |x| < 8 ==> y[..] == old(y[..])
    ensures |x| >= 8 ==> y[..] == MapK(K, x)
  {
    var n := |x|;
    if n < 8 {
      var xx := new real[8](_ => 0.0);
      var yy := new real[8](_ => 0.0);
      for j := 0 to |x|
        modifies xx
      {
        xx[j] := x[j];
      }
      // Eight lanes: the call takes the non-short branch and returns.
      var inner := Exp512(K, xx[..], yy);
      assert inner.Ok?;
      // No return here: the result in yy is dropped.
    }

    var i := 0;
    while i < n - 31
      invariant 0 <= i <= n && i % 8 == 0
      invariant Computed(K, x, y[..], 0, i)
      invariant forall k :: i <= k < n ==> y[k] == old(y[k])
    {
      ApplyWindow(K, x, y, i, 8);
      i := i + 8;
      ApplyWindow(K, x, y, i, 8);
      i := i + 8;
      ApplyWindow(K, x, y, i, 8);
      i := i + 8;
      ApplyWindow(K, x, y, i, 8);
      i := i + 8;
    }

    while i < n - 7
      invariant 0 <= i <= n && i % 8 == 0
      invariant Computed(K, x, y[..], 0, i)
      invariant forall k :: i <= k < n ==> y[k] == old(y[k])
    {
      ApplyWindow(K, x, y, i, 8);
      i := i + 8;
    }

    if i != n {
      if n < 8 {
        // i = 0 and 0 < n < 8: `(n as usize) - VSZ` underflows.
        return Err(SubtractOverflow);
      }
      TailRecomputeHarmless(K, x, y[..], i, 8);
      i := n - 8;
      ApplyWindow(K, x, y, i, 8);
    } else if n >= 8 {
      assert y[..] == MapK(K, x);
    }
    return Ok(());
  }

  /** `exp256` as written: for n >= 4 the lanes of [exit, n - 4) keep their
      old values. */
  method Exp256(K: real -> real, x: seq<real>, y: array<real>) returns (r: Result<()>)
    requires |x| == y.Length && |x| < 0x8000_0000
    modifies y
    decreases if |x| < 4 then 1 else 0
    ensures r.Err? <==> 0 < |x| < 4
    ensures r.Err? ==> r.panic == SubtractOverflow
    ensures |x| < 4 ==> y[..] == old(y[..])
    ensures |x| >= 4 ==> forall k :: 0 <= k < |x| ==>
              y[k] == if Exp256Writes(|x|, k) then K(x[k]) else old(y[k])
  {
    var n := |x|;
    if n < 4 {
      var xx := new real[4](_ => 0.0);
      var yy := new real[4](_ => 0.0);
      for j := 0 to |x|
        modifies xx
      {
        xx[j] := x[j];
      }
      // Four lanes: the call takes the non-short branch and returns.
      var inner := Exp256(K, xx[..], yy);
      assert inner.Ok?;
      // No return here: the result in yy is dropped.
    }

    var i := 0;
    // Steps of 4 under the 8-lane guard: i + 32 <= n, so the four windows fit.
    while i < n - 31
      invariant 0 <= i <= Exp256DrainExit(n) && i % 4 == 0
      invariant Computed(K, x, y[..], 0, i)
      invariant forall k :: i <= k < n ==> y[k] == old(y[k])
    {
      ApplyWindow(K, x, y, i, 4);
      i := i + 4;
      ApplyWindow(K, x, y, i, 4);
      i := i + 4;
      ApplyWindow(K, x, y, i, 4);
      i := i + 4;
      ApplyWindow(K, x, y, i, 4);
      i := i + 4;
    }

    // i + 8 <= n, so the window fits; but the loop stops once n - i <= 7.
    while i < n - 7
      invariant 0 <= i <= Exp256DrainExit(n) && i % 4 == 0
      invariant Computed(K, x, y[..], 0, i)
      invariant forall k :: i <= k < n ==> y[k] == old(y[k])
    {
      ApplyWindow(K, x, y, i, 4);
      i := i + 4;
    }
    assert i == Exp256DrainExit(n);

    if i != n {
      if n < 4 {
        // i = 0 and 0 < n < 4: `(n as usize) - VSZ` underflows.
        return Err(SubtractOverflow);
      }
      i := n - 4;
      ApplyWindow(K, x, y, i, 4);
    }
    return Ok(());
  }

  /** Exactly the lanes [n - 4 - n % 4, n - 4) are left unwritten by
      `exp256`: n % 4 of them, so the driver covers the buffer only when n
      is a multiple of 4. */
  lemma Exp256Gap(n: int)
    requires n >= 4
    ensures forall k :: 0 <= k < n ==> (!Exp256Writes(n, k) <==> n - 4 - n % 4 <= k < n - 4)
  {
    assert Exp256DrainExit(n) == n - 4 - n % 4;
  }

  lemma Exp256CoversAllIff(n: int)
    requires n >= 4
    ensures (forall k :: 0 <= k < n ==> Exp256Writes(n, k)) <==> n % 4 == 0
  {
    Exp256Gap(n);
    if n % 4 != 0 {
      assert !Exp256Writes(n, n - 5);
    }
  }

  /** A concrete input for the short-path defect of `exp512`: three lanes. */
  method Exp512ShortInputPanics() returns (r: Result<()>)
    ensures r == Err(SubtractOverflow)
  {
    var y := new real[3](_ => 0.0);
    r := Exp512(v => v + 1.0, [1.0, 2.0, 3.0], y);
  }

  /** The same defect in `exp256`: two lanes. */
  method Exp256ShortInputPanics() returns (r: Result<()>)
    ensures r == Err(SubtractOverflow)
  {
    var y := new real[2](_ => 0.0);
    r := Exp256(v => v + 1.0, [1.0, 2.0], y);
  }

  /** A concrete input for the coverage defect of `exp256`: with nine lanes
      the drain stops at 4 and the tail starts at 5, so lane 4 keeps its old
      value instead of the kernel's. */
  method Exp256SkipsLaneFour() returns (written: real, expected: real)
    ensures written == 0.0 && expected == 2.0
  {
    var x := seq(9, _ => 1.0);
    var y := new real[9](_ => 0.0);
    var K := v => v + 1.0;
    var r := Exp256(K, x, y);
    written, expected := y[4], K(x[4]);
  }

  /** `exp512` with the short path the source evidently means: copy the
      padded result back and return, as `unroll_fn!` does. */
  method Exp512Fixed(K: real -> real, x: seq<real>, y: array<real>)
    requires |x| == y.Length && |x| < 0x8000_0000
    modifies y
    ensures y[..] == MapK(K, x)
  {
    var n := |x|;
    if n < 8 {
      Unroller.ShortPath(K, 8, x, y);
      return;
    }

    var i := 0;
    while i < n - 31
      invariant 0 <= i <= n && i % 8 == 0
      invariant Computed(K, x, y[..], 0, i)
    {
      ApplyWindow(K, x, y, i, 8);
      i := i + 8;
      ApplyWindow(K, x, y, i, 8);
      i := i + 8;
      ApplyWindow(K, x, y, i, 8);
      i := i + 8;
      ApplyWindow(K, x, y, i, 8);
      i := i + 8;
    }

    while i < n - 7
      invariant 0 <= i <= n && i % 8 == 0
      invariant Computed(K, x, y[..], 0, i)
    {
      ApplyWindow(K, x, y, i, 8);
      i := i + 8;
    }

    if i != n {
      TailRecomputeHarmless(K, x, y[..], i, 8);
      i := n - 8;
      ApplyWindow(K, x, y, i, 8);
    } else {
      assert y[..] == MapK(K, x);
    }
  }

  /** `exp256` with the short path returning its copied-back result and with
      4-lane guards: the hot loop runs while 16 lanes remain (i < n - 15),
      the drain while 4 remain (i < n - 3), so the tail window at n - 4
      covers everything the drain leaves. */
  method Exp256Fixed(K: real -> real, x: seq<real>, y: array<real>)
    requires |x| == y.Length && |x| < 0x8000_0000
    modifies y
    ensures y[..] == MapK(K, x)
  {
    var n := |x|;
    if n < 4 {
      Unroller.ShortPath(K, 4, x, y);
      return;
    }

    var i := 0;
    while i < n - 15
      invariant 0 <= i <= n && i % 4 == 0
      invariant Computed(K, x, y[..], 0, i)
    {
      ApplyWindow(K, x, y, i, 4);
      i := i + 4;
      ApplyWindow(K, x, y, i, 4);
      i := i + 4;
      ApplyWindow(K, x, y, i, 4);
      i := i + 4;
      ApplyWindow(K, x, y, i, 4);
      i := i + 4;
    }

    while i < n - 3
      invariant 0 <= i <= n && i % 4 == 0
      invariant Computed(K, x, y[..], 0, i)
    {
      ApplyWindow(K, x, y, i, 4);
      i := i + 4;
    }

    if i != n {
      TailRecomputeHarmless(K, x, y[..], i, 4);
      i := n - 4;
      ApplyWindow(K, x, y, i, 4);
    } else {
      assert y[..] == MapK(K, x);
    }
  }
}
