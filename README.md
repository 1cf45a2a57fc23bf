# lit_math array drivers in Dafny

lit_math applies SIMD kernels (exp, log, erf, sin, tan, atan, sqrt) to
buffers of doubles, 4 or 8 lanes at a time, and computes dot products with
8-lane accumulators. This project models the index logic that walks the
buffers, and proves what it promises:

- every vector window it loads or stores lies inside the buffer;
- every output lane ends up holding the kernel of its input lane;
- the overlapping last window is harmless because the kernel is pure and
  works lane by lane;
- `dot` adds every product exactly once and so equals the naive sum.

The kernels are not modelled. A kernel is a parameter `K: real -> real`: a
total, pure function of one lane. One vector window
(`sin_with_offset`, `expwo512`, `expwo256`, ...) is `Lanes.ApplyWindow`.
It loads x[off..off+vsz], applies K to each lane and stores the result at
y[off..off+vsz]. Its precondition is that the window lies inside both
buffers, so every driver that verifies never accesses memory outside them.
The input slice is a `seq<real>` and the output slice an `array<real>`.
Rust's borrows rule out aliasing between the two.

Modules, one per source file:

- `Lanes` (lanes.dfy): the window operation, the reference result `MapK`,
  and the two panics (`LengthMismatch`, `SubtractOverflow`) as a `Result`.
- `Unroller` (unroller.dfy): the `unroll_fn!` macro body. It has a
  zero-padded short path, a 4-way unrolled hot loop, a drain loop and an
  overlapping tail window.
- `Exp` (exp.dfy): `exp512` with i32 arithmetic and `exp256` with usize
  arithmetic over raw pointers. `usize` is a newtype, so the verifier checks
  that each unsigned subtraction stays at or above zero.
- `Lit` (lit.dfy): `exp512` and `exp256` of src/lit.rs, written as in the
  source together with their defects. The module also has corrected
  versions (see Findings).
- `Linalg` (linalg.dfy): `dot` in exact `real` arithmetic, with 8-lane
  vectors as sequences of 8 reals.

Where the library's stated contract and its code differ, the model
follows the code:
- The stated contract says the generic driver aborts on unequal lengths.
  `unroll_fn!` never compares them, so `Unroller.Unroll` requires equal
  lengths.
- The stated contract has the hot path run once n >= 4·vsz. The macro's guard
  `i < n - 4*vsz - 1` needs four windows plus two lanes, so for
  n in {4·vsz, 4·vsz+1} the drain loop does all the work. This is harmless,
  and the model keeps the guard as written.
- In src/exp.rs the `exp512` and `exp256` short paths are stubs marked
  "nothing for now". Inputs shorter than one vector are left untouched, and
  `Exp.Exp512` and `Exp.Exp256` state exactly that.

## Model

| member | source | states |
|---|---|---|
| Lanes.ApplyWindow | src/exp.rs:101-118 | one window op requires off + vsz within both buffers; afterwards lanes [off, off+vsz) of y hold K of x's lanes and every other lane of y is unchanged |
| Lanes.RecomputeIdempotent | src/unroller.rs:43-47 | running the same window twice gives the same buffer as running it once, because K is pure and per-lane |
| Lanes.TailRecomputeHarmless | src/unroller.rs:43-47 | if lanes [0, i) are done and n - w <= i <= n, the window at n - w completes the whole buffer and rewrites lanes [n-w, i) with the values they already hold |
| Unroller.ShortPath | src/unroller.rs:9-22 | for n < vsz the padded-buffer path leaves y equal to K on every lane of x; for n = 0, y stays empty and unchanged |
| Unroller.Unroll | src/unroller.rs:6-48 | for equal lengths below 2^31, every window lies in [0, n) and y ends as K of every lane of x; the loops keep i a multiple of vsz with i <= n and lanes [0, i) done |
| Exp.Exp512 | src/exp.rs:7-47 | n < 8 leaves y unchanged; n >= 8 keeps every window inside [0, n) and leaves y = K of every lane of x |
| Exp.Exp256 | src/exp.rs:50-98 | the n - 15 and n - 3 usize subtractions never underflow; n < 4 leaves y unchanged; n >= 4 keeps every raw-pointer window inside [0, n) and leaves y = K of every lane of x |
| Lit.Exp256DrainExit | src/lit.rs:86-91 | the drain of exp256 stops at the first multiple of 4 at or above n - 7 (0 when n < 8), at most n - 4 when n >= 4 |
| Lit.Exp512 | src/lit.rs:6-51 | as written: panics (usize underflow) exactly when 0 < n < 8, leaving y untouched; n = 0 returns with y untouched; n >= 8 keeps windows in bounds and leaves y = K of every lane; the short path's recursive call runs on 8 lanes, takes the long branch and terminates |
| Lit.Exp256 | src/lit.rs:54-99 | as written: panics exactly when 0 < n < 4; for n >= 4 every window is in bounds, and lane k gets K(x[k]) if it is below the drain exit or at or above n - 4, and otherwise keeps its old value |
| Lit.Exp256Gap | src/lit.rs:86-98 | for n >= 4, exp256 leaves exactly the lanes [n - 4 - n%4, n - 4) unwritten: n % 4 lanes |
| Lit.Exp256CoversAllIff | src/lit.rs:93-98 | exp256 writes every lane if and only if n is a multiple of 4, against the comment's promise that the tail cleans up the excess |
| Lit.Exp512ShortInputPanics | src/lit.rs:12-21 | on a 3-lane input exp512 ends in the usize underflow panic |
| Lit.Exp256ShortInputPanics | src/lit.rs:60-69 | on a 2-lane input exp256 ends in the usize underflow panic |
| Lit.Exp256SkipsLaneFour | src/lit.rs:86-98 | on a 9-lane input exp256 leaves lane 4 at its old value 0.0, not the kernel's 2.0 |
| Lit.Exp512Fixed | src/lit.rs:6-51 | corrected exp512: the short path copies the padded result back and returns; y = K of every lane of x for every n |
| Lit.Exp256Fixed | src/lit.rs:54-99 | corrected exp256: a short path that returns, and 4-lane guards n - 15 and n - 3; y = K of every lane of x for every n |
| Linalg.ZeroLaneSum | src/linalg.rs:27 | the zero vector's lanes sum to 0 |
| Linalg.FmaLaneSum | src/linalg.rs:56-59 | one fused multiply-add adds the dot product of the two loaded windows to the accumulator's lane sum |
| Linalg.AddLaneSum | src/linalg.rs:62-64 | merging two accumulators lane by lane keeps the total of their lane sums |
| Linalg.NaiveDotSplit | src/linalg.rs:75-81 | the sum of products over [0, j) is the sum over [0, i) plus the sum over [i, j): each index contributes once |
| Linalg.NaiveDotStep | src/linalg.rs:77-79 | one scalar tail step extends the prefix sum by x[i] * y[i] |
| Linalg.WindowStep | src/linalg.rs:67-73 | one drain step, a load at i with i + 8 <= n fused into the accumulator, advances its lane sum from the prefix [0, i) to [0, i + 8) |
| Linalg.HotStep | src/linalg.rs:41-60 | one hot iteration, four windows at i, i+8, i+16, i+24 with i + 32 <= n fused into four accumulators, advances their total from [0, i) to [0, i + 32) |
| Linalg.Dot | src/linalg.rs:5-83 | unequal lengths abort (assert_eq!); otherwise the result is the naive sum of x[k]·y[k] over all k < n, through the scalar path for n < 8 and through the accumulators, drain, lane sum and scalar tail otherwise; neither input is written |

## Findings

| source | as written | input that shows it | evidently intended | confidence | as-written member | corrected member |
|---|---|---|---|---|---|---|
| src/lit.rs:12-21 | the n < 8 short path of `exp512` computes into a local padded buffer, never copies it into y, and does not return; control reaches the tail with i = 0 != n, and `(n as usize) - 8` underflows | n = 3 | copy the first n lanes back into y and return, as `unroll_fn!` does | high; not executed | Lit.Exp512ShortInputPanics | Lit.Exp512Fixed |
| src/lit.rs:60-69 | the same fall-through in the n < 4 short path of `exp256`: `(n as usize) - 4` underflows | n = 2 | copy back and return | high; not executed | Lit.Exp256ShortInputPanics | Lit.Exp256Fixed |
| src/lit.rs:74-98 | `exp256` steps by 4 under the 8-lane guards `n - 31` and `n - 7`; the drain stops with up to 7 lanes left, the tail window covers 4, and n % 4 lanes are never written | n = 9: lane 4 is never written | guards `n - 15` and `n - 3`, as in `exp256` of src/exp.rs | high; not executed | Lit.Exp256SkipsLaneFour | Lit.Exp256Fixed |

## Left out

- The floating-point kernels: sin, tan, atan, exp2 (`two512`/`two256`),
  erf and log2. The kernel is the abstract parameter K, and the lane values
  are opaque `real`s that only K inspects. Range reduction, polynomials, the
  IEEE 754 exponent-field construction and NaN/infinity handling are
  floating-point numerics and outside this model.
- The `expo512`/`expo256` multiplication by log2(e) before `two512`/`two256`
  is part of the kernel K.
- The SIMD intrinsics, unaligned loads and stores, and raw-pointer
  arithmetic. They become sequence windows with explicit bounds. The window
  op also loads y's lanes before the kernel overwrites them; that load is
  not modelled.
- `m64x8_constant!` (a broadcast by transmute) and `D512_ZERO` beyond its
  value: the zero vector is `Linalg.Zero`.
- The thin public wrappers (`sin`, `ln`, `erf`, `sqrt`, ...) and the
  six-argument `unroll_fn!` uses for parallel and `Vec` variants. That macro
  form is not part of this model, and neither is the parallel work
  partitioning.
- Benchmarks and tests. They compare floating-point results against libm.
- Linalg.Dot: computes in exact arithmetic. The rounding of each
  multiply-add and the reassociation into four accumulators and a
  horizontal sum are not modelled, so "equals the naive sum" holds exactly
  here and only within rounding in the source.
- Unroller.Unroll, Exp.Exp512, Lit.Exp512, Lit.Exp256: the `as i32` length
  casts are exact only below 2^31, which these members require. Longer
  buffers, where the cast wraps, are not modelled.
- Exp.Exp256: lengths are taken below 2^64 so that `usize` holds them.
- Lit.Exp512, Lit.Exp256: the underflow of `(n as usize) - VSZ` is a panic
  in a debug build. In a release build it wraps, and the following
  `&x[offset]` bounds check panics instead. Both are modelled as one
  `Err(SubtractOverflow)`, and the model does not say which build is used.
