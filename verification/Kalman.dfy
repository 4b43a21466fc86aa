/** The 4-state attitude filter of kalman.c, loop by loop, and the proof that it is two
    independent one-axis filters. States are roll, pitch and the two gyro biases. */
module Kalman {
  import opened KalmanAxis

  type Mat = seq<seq<real>>

  ghost predicate Is(m: Mat, rows: nat, cols: nat) {
    |m| == rows && forall i :: 0 <= i < rows ==> |m[i]| == cols
  }

  ghost predicate Sized(a: array2<real>, rows: nat, cols: nat) {
    a.Length0 == rows && a.Length1 == cols
  }

  ghost function Row(a: array2<real>, i: nat): (r: seq<real>)
    reads a
    requires i < a.Length0
    ensures |r| == a.Length1 && forall j :: 0 <= j < a.Length1 ==> r[j] == a[i, j]
  {
    seq(a.Length1, j requires 0 <= j < a.Length1 reads a => a[i, j])
  }

  ghost function View(a: array2<real>): (m: Mat)
    reads a
    ensures Is(m, a.Length0, a.Length1)
    ensures forall i, j :: 0 <= i < a.Length0 && 0 <= j < a.Length1 ==> m[i][j] == a[i, j]
  {
    seq(a.Length0, i requires 0 <= i < a.Length0 reads a => Row(a, i))
  }

  // ---- What each loop computes, entry by entry ----

  /** Multiplication; the proofs of the loops hide what it computes. */
  function Times(u: real, v: real): real {
    u * v
  }

  ghost function Fp(p: Mat, dt: real, i: nat, j: nat): real
    requires Is(p, 4, 4) && i < 4 && j < 4
  {
    if i < 2 then p[i][j] - Times(dt, p[i + 2][j]) else p[i][j]
  }

  ghost function Fpft(p: Mat, dt: real, i: nat, j: nat): real
    requires Is(p, 4, 4) && i < 4 && j < 4
  {
    if j < 2 then Fp(p, dt, i, j) - Times(dt, Fp(p, dt, i, j + 2)) else Fp(p, dt, i, j)
  }

  function Noise(i: nat, j: nat): real {
    if i != j then 0.0 else if i < 2 then Q_ANGLE else Q_BIAS
  }

  /** `P = F*P*F' + Q`. */
  ghost predicate IsPredicted(p: Mat, dt: real, r: Mat)
    requires Is(p, 4, 4) && Is(r, 4, 4)
  {
    forall i, j :: 0 <= i < 4 && 0 <= j < 4 ==> r[i][j] == Fpft(p, dt, i, j) + Noise(i, j)
  }

  /** `inv(S)`. */
  datatype Inverse = Inverse(s00: real, s01: real, s10: real, s11: real)

  /** `K = P*H' * inv(S)`. */
  ghost predicate IsGain(p: Mat, si: Inverse, k: Mat)
    requires Is(p, 4, 4) && Is(k, 4, 2)
  {
    forall i :: 0 <= i < 4 ==>
      && k[i][0] == Times(p[i][0], si.s00) + Times(p[i][1], si.s10)
      && k[i][1] == Times(p[i][0], si.s01) + Times(p[i][1], si.s11)
  }

  /** Entry `(i, j)` of `I - K*H`. */
  ghost function Ikh(k: Mat, i: nat, j: nat): real
    requires Is(k, 4, 2) && i < 4 && j < 4
  {
    (if i == j then 1.0 else 0.0) - if j < 2 then k[i][j] else 0.0
  }

  /** The first `n` terms of entry `(i, j)` of `(I - K*H) * P`. */
  ghost function Dot(k: Mat, p: Mat, i: nat, j: nat, n: nat): real
    requires Is(k, 4, 2) && Is(p, 4, 4) && i < 4 && j < 4 && n <= 4
  {
    if n == 0 then 0.0 else Dot(k, p, i, j, n - 1) + Times(Ikh(k, i, n - 1), p[n - 1][j])
  }

  /** `P = (I - K*H)*P`. */
  ghost predicate IsCorrected(p: Mat, k: Mat, r: Mat)
    requires Is(p, 4, 4) && Is(k, 4, 2) && Is(r, 4, 4)
  {
    forall i, j :: 0 <= i < 4 && 0 <= j < 4 ==> r[i][j] == Dot(k, p, i, j, 4)
  }

  // ---- The loops ----

  /** Two nested loops that copy a matrix. */
  method Copy(a: array2<real>, b: array2<real>)
    requires Sized(a, 4, 4) && Sized(b, 4, 4) && a != b
    modifies b
    ensures forall i, j :: 0 <= i < 4 && 0 <= j < 4 ==> b[i, j] == a[i, j]
  {
    for i := 0 to 4
      invariant forall r, c :: 0 <= r < i && 0 <= c < 4 ==> b[r, c] == a[r, c]
    {
      for j := 0 to 4
        invariant forall r, c :: 0 <= r < i && 0 <= c < 4 ==> b[r, c] == a[r, c]
        invariant forall c :: 0 <= c < j ==> b[i, c] == a[i, c]
      {
        b[i, j] := a[i, j];
      }
    }
  }

  method LeftProduct(p: array2<real>, dt: real, ghost was: Mat) returns (fp: array2<real>)
    requires Sized(p, 4, 4) && Is(was, 4, 4)
    requires forall i, j :: 0 <= i < 4 && 0 <= j < 4 ==> p[i, j] == was[i][j]
    ensures fresh(fp) && Sized(fp, 4, 4)
    ensures forall i, j :: 0 <= i < 4 && 0 <= j < 4 ==> fp[i, j] == Fp(was, dt, i, j)
  {
    hide Times;
    fp := new real[4, 4];
    for j := 0 to 4
      invariant forall r, c :: 0 <= r < 4 && 0 <= c < j ==> fp[r, c] == Fp(was, dt, r, c)
    {
      fp[0, j] := p[0, j] - Times(dt, p[2, j]);
      fp[1, j] := p[1, j] - Times(dt, p[3, j]);
      fp[2, j] := p[2, j];
      fp[3, j] := p[3, j];
    }
  }

  method RightProduct(fp: array2<real>, dt: real, ghost was: Mat) returns (fpft: array2<real>)
    requires Sized(fp, 4, 4) && Is(was, 4, 4)
    requires forall i, j :: 0 <= i < 4 && 0 <= j < 4 ==> fp[i, j] == Fp(was, dt, i, j)
    ensures fresh(fpft) && Sized(fpft, 4, 4)
    ensures forall i, j :: 0 <= i < 4 && 0 <= j < 4 ==> fpft[i, j] == Fpft(was, dt, i, j)
  {
    hide Times, Fp;
    fpft := new real[4, 4];
    for i := 0 to 4
      invariant forall r, c :: 0 <= r < i && 0 <= c < 4 ==> fpft[r, c] == Fpft(was, dt, r, c)
    {
      fpft[i, 0] := fp[i, 0] - Times(dt, fp[i, 2]);
      fpft[i, 1] := fp[i, 1] - Times(dt, fp[i, 3]);
      fpft[i, 2] := fp[i, 2];
      fpft[i, 3] := fp[i, 3];
    }
  }

  method AddDiagonal(P: array2<real>, fpft: array2<real>)
    requires Sized(P, 4, 4) && Sized(fpft, 4, 4) && P != fpft
    modifies P
    ensures forall i :: 0 <= i < 4 ==> P[i, i] == fpft[i, i] + Noise(i, i)
  {
    P[0, 0] := fpft[0, 0] + Q_ANGLE;
    P[1, 1] := fpft[1, 1] + Q_ANGLE;
    P[2, 2] := fpft[2, 2] + Q_BIAS;
    P[3, 3] := fpft[3, 3] + Q_BIAS;
  }

  method CopyOffDiagonal(P: array2<real>, fpft: array2<real>)
    requires Sized(P, 4, 4) && Sized(fpft, 4, 4) && P != fpft
    modifies P
    ensures forall i :: 0 <= i < 4 ==> P[i, i] == old(P[i, i])
    ensures forall i, j :: 0 <= i < 4 && 0 <= j < 4 && i != j ==> P[i, j] == fpft[i, j]
  {
    P[0, 1], P[1, 0] := fpft[0, 1], fpft[1, 0];
    P[0, 2], P[2, 0] := fpft[0, 2], fpft[2, 0];
    P[0, 3], P[3, 0] := fpft[0, 3], fpft[3, 0];
    P[1, 2], P[2, 1] := fpft[1, 2], fpft[2, 1];
    P[1, 3], P[3, 1] := fpft[1, 3], fpft[3, 1];
    P[2, 3], P[3, 2] := fpft[2, 3], fpft[3, 2];
  }

  /** The prediction of the covariance. */
  method PredictCovariance(P: array2<real>, dt: real)
    requires Sized(P, 4, 4)
    modifies P
    ensures IsPredicted(old(View(P)), dt, View(P))
  {
    hide Times, Fp, Fpft;
    ghost var was := View(P);
    var p := new real[4, 4];
    Copy(P, p);
    var fp := LeftProduct(p, dt, was);
    var fpft := RightProduct(fp, dt, was);
    AddDiagonal(P, fpft);
    CopyOffDiagonal(P, fpft);
    assert forall i, j :: 0 <= i < 4 && 0 <= j < 4 ==> P[i, j] == fpft[i, j] + Noise(i, j);
  }

  /** The gain; `ph` is `P*H'`. */
  method ComputeGain(P: array2<real>, si: Inverse) returns (k: array2<real>)
    requires Sized(P, 4, 4)
    ensures fresh(k) && Sized(k, 4, 2) && IsGain(View(P), si, View(k))
  {
    hide Times;
    ghost var was := View(P);
    var ph := FirstColumns(P, was);
    k := new real[4, 2];
    for i := 0 to 4
      invariant forall r, c :: 0 <= r < 4 && 0 <= c < 2 ==> ph[r, c] == was[r][c]
      invariant forall r :: 0 <= r < i ==>
        && k[r, 0] == Times(was[r][0], si.s00) + Times(was[r][1], si.s10)
        && k[r, 1] == Times(was[r][0], si.s01) + Times(was[r][1], si.s11)
    {
      k[i, 0] := Times(ph[i, 0], si.s00) + Times(ph[i, 1], si.s10);
      k[i, 1] := Times(ph[i, 0], si.s01) + Times(ph[i, 1], si.s11);
    }
  }

  method FirstColumns(P: array2<real>, ghost was: Mat) returns (ph: array2<real>)
    requires Sized(P, 4, 4) && Is(was, 4, 4)
    requires forall i, j :: 0 <= i < 4 && 0 <= j < 4 ==> P[i, j] == was[i][j]
    ensures fresh(ph) && Sized(ph, 4, 2)
    ensures forall i, j :: 0 <= i < 4 && 0 <= j < 2 ==> ph[i, j] == was[i][j]
  {
    ph := new real[4, 2];
    ph[0, 0], ph[0, 1] := P[0, 0], P[0, 1];
    ph[1, 0], ph[1, 1] := P[1, 0], P[1, 1];
    ph[2, 0], ph[2, 1] := P[2, 0], P[2, 1];
    ph[3, 0], ph[3, 1] := P[3, 0], P[3, 1];
  }

  method ComputeResidual(k: array2<real>, ghost gain: Mat) returns (ikh: array2<real>)
    requires Sized(k, 4, 2) && Is(gain, 4, 2)
    requires forall i, j :: 0 <= i < 4 && 0 <= j < 2 ==> k[i, j] == gain[i][j]
    ensures fresh(ikh) && Sized(ikh, 4, 4)
    ensures forall i, j :: 0 <= i < 4 && 0 <= j < 4 ==> ikh[i, j] == Ikh(gain, i, j)
  {
    var kh := new real[4, 4]((_, _) => 0.0);
    for i := 0 to 4
      invariant forall r, c :: 0 <= r < 4 && 0 <= c < 4 ==> kh[r, c] == if r < i && c < 2 then gain[r][c] else 0.0
    {
      kh[i, 0] := k[i, 0];
      kh[i, 1] := k[i, 1];
    }
    ikh := new real[4, 4];
    for i := 0 to 4
      invariant forall r, c :: 0 <= r < 4 && 0 <= c < 4 ==> kh[r, c] == if c < 2 then gain[r][c] else 0.0
      invariant forall r, c :: 0 <= r < i && 0 <= c < 4 ==> ikh[r, c] == Ikh(gain, r, c)
    {
      for j := 0 to 4
        invariant forall r, c :: 0 <= r < 4 && 0 <= c < 4 ==> kh[r, c] == if c < 2 then gain[r][c] else 0.0
        invariant forall r, c :: 0 <= r < i && 0 <= c < 4 ==> ikh[r, c] == Ikh(gain, r, c)
        invariant forall c :: 0 <= c < j ==> ikh[i, c] == Ikh(gain, i, c)
      {
        ikh[i, j] := (if i == j then 1.0 else 0.0) - kh[i, j];
      }
    }
  }

  /** The correction of the covariance. */
  method CorrectCovariance(P: array2<real>, k: array2<real>)
    requires Sized(P, 4, 4) && Sized(k, 4, 2) && P != k
    modifies P
    ensures IsCorrected(old(View(P)), View(k), View(P))
  {
    hide Times, Ikh;
    ghost var was, gain := View(P), View(k);
    var ikh := ComputeResidual(k, gain);
    var newP := new real[4, 4]((_, _) => 0.0);
    for i := 0 to 4
      invariant forall r, c :: 0 <= r < 4 && 0 <= c < 4 ==> ikh[r, c] == Ikh(gain, r, c) && P[r, c] == was[r][c]
      invariant forall r, c :: 0 <= r < 4 && 0 <= c < 4 ==> newP[r, c] == if r < i then Dot(gain, was, r, c, 4) else 0.0
    {
      for j := 0 to 4
        invariant forall r, c :: 0 <= r < 4 && 0 <= c < 4 ==> ikh[r, c] == Ikh(gain, r, c) && P[r, c] == was[r][c]
        invariant forall r, c :: 0 <= r < 4 && 0 <= c < 4 ==>
          newP[r, c] == if r < i || (r == i && c < j) then Dot(gain, was, r, c, 4) else 0.0
      {
        for m := 0 to 4
          invariant forall r, c :: 0 <= r < 4 && 0 <= c < 4 ==> ikh[r, c] == Ikh(gain, r, c) && P[r, c] == was[r][c]
          invariant forall r, c :: 0 <= r < 4 && 0 <= c < 4 && !(r == i && c == j) ==>
            newP[r, c] == if r < i || (r == i && c < j) then Dot(gain, was, r, c, 4) else 0.0
          invariant newP[i, j] == Dot(gain, was, i, j, m)
        {
          newP[i, j] := newP[i, j] + Times(ikh[i, m], P[m, j]);
        }
      }
    }
    Copy(newP, P);
  }
}
