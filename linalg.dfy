/** `dot` from src/linalg.rs: the sum of x[k] * y[k] with four 8-lane
    accumulators in the hot loop, one in the drain, a horizontal lane sum
    and a scalar tail. Arithmetic is exact (`real`), so the rounding and
    reassociation of the double-precision original are not modelled. */
module Linalg {
  import opened Lanes

  const Vsz: int := 8

  /** The naive sequential dot product, the partner of `Dot`. */
  function NaiveDot(x: seq<real>, y: seq<real>): real
    requires |x| == |y|
  {
    if |x| == 0 then 0.0
    else NaiveDot(x[..|x| - 1], y[..|x| - 1]) + x[|x| - 1] * y[|x| - 1]
  }

  /** `_mm512_reduce_add_pd`: the sum of a vector's lanes. */
  function LaneSum(v: seq<real>): real {
    if |v| == 0 then 0.0 else LaneSum(v[..|v| - 1]) + v[|v| - 1]
  }

  /** `D512_ZERO`. */
  function Zero(): seq<real> {
    seq(Vsz, _ => 0.0)
  }

  /** `_mm512_fmadd_pd(a, b, c)`: a * b + c on each lane. */
  function Fma(a: seq<real>, b: seq<real>, c: seq<real>): seq<real>
    requires |a| == |b| == |c|
  {
    seq(|c|, j requires 0 <= j < |c| => a[j] * b[j] + c[j])
  }

  /** `_mm512_add_pd(a, b)`. */
  function Add(a: seq<real>, b: seq<real>): seq<real>
    requires |a| == |b|
  {
    seq(|a|, j requires 0 <= j < |a| => a[j] + b[j])
  }

  lemma {:induction false} ZeroLaneSum(m: nat)
    ensures LaneSum(seq(m, _ => 0.0)) == 0.0
  {
    if m > 0 {
      assert seq(m, _ => 0.0)[..m - 1] == seq(m - 1, _ => 0.0);
      ZeroLaneSum(m - 1);
    }
  }

  /** One fused multiply-add into an accumulator adds the window's dot
      product to the accumulator's lane sum. */
  lemma {:induction false} FmaLaneSum(a: seq<real>, b: seq<real>, c: seq<real>)
    requires |a| == |b| == |c|
    ensures LaneSum(Fma(a, b, c)) == NaiveDot(a, b) + LaneSum(c)
  {
    var m := |c|;
    if m > 0 {
      var f, g := Fma(a, b, c), Fma(a[..m - 1], b[..m - 1], c[..m - 1]);
      assert forall j :: 0 <= j < m - 1 ==> f[..m - 1][j] == g[j];
      assert f[..m - 1] == g;
      FmaLaneSum(a[..m - 1], b[..m - 1], c[..m - 1]);
    }
  }

  /** Merging two accumulators keeps the total of their lane sums. */
  lemma {:induction false} AddLaneSum(a: seq<real>, b: seq<real>)
    requires |a| == |b|
    ensures LaneSum(Add(a, b)) == LaneSum(a) + LaneSum(b)
  {
    var m := |a|;
    if m > 0 {
      assert Add(a, b)[..m - 1] == Add(a[..m - 1], b[..m - 1]);
      AddLaneSum(a[..m - 1], b[..m - 1]);
    }
  }

  /** Splitting a prefix at i: the products of [0, j) are those of [0, i)
      plus those of [i, j), each index counted once. */
  lemma {:induction false} NaiveDotSplit(x: seq<real>, y: seq<real>, i: int, j: int)
    requires |x| == |y| && 0 <= i <= j <= |x|
    ensures NaiveDot(x[..j], y[..j]) == NaiveDot(x[..i], y[..i]) + NaiveDot(x[i..j], y[i..j])
  {
    if j > i {
      assert x[..j][..j - 1] == x[..j - 1] && y[..j][..j - 1] == y[..j - 1];
      assert x[i..j][..j - 1 - i] == x[i..j - 1] && y[i..j][..j - 1 - i] == y[i..j - 1];
      NaiveDotSplit(x, y, i, j - 1);
    } else {
      assert x[i..j] == [];
    }
  }

  /** One more element on a prefix: the step of the scalar loops. */
  lemma NaiveDotStep(x: seq<real>, y: seq<real>, i: int)
    requires |x| == |y| && 0 <= i < |x|
    ensures NaiveDot(x[..i + 1], y[..i + 1]) == NaiveDot(x[..i], y[..i]) + x[i] * y[i]
  {
    assert x[..i + 1][..i] == x[..i] && y[..i + 1][..i] == y[..i];
  }

  /** Loading the window [i, i + 8) and fusing it into acc advances acc's
      lane sum from the prefix [0, i) to the prefix [0, i + 8). */
  lemma WindowStep(x: seq<real>, y: seq<real>, i: int, acc: seq<real>)
    requires |x| == |y| && 0 <= i && i + Vsz <= |x| && |acc| == Vsz
    ensures LaneSum(Fma(x[i..i + Vsz], y[i..i + Vsz], acc)) - LaneSum(acc)
         == NaiveDot(x[..i + Vsz], y[..i + Vsz]) - NaiveDot(x[..i], y[..i])
  {
    FmaLaneSum(x[i..i + Vsz], y[i..i + Vsz], acc);
    NaiveDotSplit(x, y, i, i + Vsz);
  }

  /** One hot-loop iteration: the four windows at i, i + 8, i + 16, i + 24,
      fused into the four accumulators, advance their total from the prefix
      [0, i) to the prefix [0, i + 32). */
  lemma HotStep(x: seq<real>, y: seq<real>, i: int, a0: seq<real>, a1: seq<real>, a2: seq<real>, a3: seq<real>)
    requires |x| == |y| && 0 <= i && i + 4 * Vsz <= |x|
    requires |a0| == |a1| == |a2| == |a3| == Vsz
    requires LaneSum(a0) + LaneSum(a1) + LaneSum(a2) + LaneSum(a3) == NaiveDot(x[..i], y[..i])
    ensures LaneSum(Fma(x[i..i + 8], y[i..i + 8], a0)) + LaneSum(Fma(x[i + 8..i + 16], y[i + 8..i + 16], a1))
          + LaneSum(Fma(x[i + 16..i + 24], y[i + 16..i + 24], a2)) + LaneSum(Fma(x[i + 24..i + 32], y[i + 24..i + 32], a3))
         == NaiveDot(x[..i + 32], y[..i + 32])
  {
    WindowStep(x, y, i, a0);
    WindowStep(x, y, i + 8, a1);
    WindowStep(x, y, i + 16, a2);
    WindowStep(x, y, i + 24, a3);
  }

  /** `dot(x, y)`: aborts when the lengths differ, and otherwise returns
      the naive sum of products. Neither buffer is written (y is a mutable
      borrow in the source, but no statement stores through it). */
  method Dot(x: seq<real>, y: seq<real>) returns (r: Result<real>)
    requires |x| < 0x8000_0000
    ensures r.Err? <==> |x| != |y|
    ensures r.Err? ==> r.panic == LengthMismatch
    ensures r.Ok? ==> r.value == NaiveDot(x, y)
  {
    var nn := |x|;
    var n := nn;
    if nn != |y| {
      return Err(LengthMismatch);
    }

    if n < Vsz {
      var s := 0.0;
      for ii := 0 to nn
        invariant s == NaiveDot(x[..ii], y[..ii])
      {
        NaiveDotStep(x, y, ii);
        s := s + x[ii] * y[ii];
      }
      assert x[..nn] == x && y[..nn] == y;
      return Ok(s);
    }

    var rr := Zero();
    ZeroLaneSum(Vsz);
    var i := 0;
    if n > 31 {
      var rr1, rr2, rr3 := Zero(), Zero(), Zero();
      // i < n - 31 is i + 32 <= n: the four loads fit.
      while i < n - 31
        invariant 0 <= i <= n && i % Vsz == 0
        invariant |rr| == |rr1| == |rr2| == |rr3| == Vsz
        invariant LaneSum(rr) + LaneSum(rr1) + LaneSum(rr2) + LaneSum(rr3) == NaiveDot(x[..i], y[..i])
      {
        ghost var i0 := i;
        var xx, yy := x[i..i + Vsz], y[i..i + Vsz];
        i := i + Vsz;
        var xx1, yy1 := x[i..i + Vsz], y[i..i + Vsz];
        i := i + Vsz;
        var xx2, yy2 := x[i..i + Vsz], y[i..i + Vsz];
        i := i + Vsz;
        var xx3, yy3 := x[i..i + Vsz], y[i..i + Vsz];
        i := i + Vsz;

        HotStep(x, y, i0, rr, rr1, rr2, rr3);
        rr := Fma(xx, yy, rr);
        rr1 := Fma(xx1, yy1, rr1);
        rr2 := Fma(xx2, yy2, rr2);
        rr3 := Fma(xx3, yy3, rr3);
      }

      AddLaneSum(rr2, rr3);
      rr2 := Add(rr2, rr3);
      AddLaneSum(rr, rr1);
      rr := Add(rr, rr1);
      AddLaneSum(rr, rr2);
      rr := Add(rr, rr2);
    }

    // i < n - 7 is i + 8 <= n: one load fits.
    while i < n - 7
      invariant 0 <= i <= n && i % Vsz == 0
      invariant |rr| == Vsz
      invariant LaneSum(rr) == NaiveDot(x[..i], y[..i])
    {
      var xx, yy := x[i..i + Vsz], y[i..i + Vsz];
      WindowStep(x, y, i, rr);
      i := i + Vsz;
      rr := Fma(xx, yy, rr);
    }
    // Fewer than 8 elements are left for the scalar tail.
    assert n - Vsz < i <= n;

    var s := LaneSum(rr);
    for ii := i to nn
      invariant s == NaiveDot(x[..ii], y[..ii])
    {
      NaiveDotStep(x, y, ii);
      s := s + x[ii] * y[ii];
    }
    assert x[..nn] == x && y[..nn] == y;
    return Ok(s);
  }
}
