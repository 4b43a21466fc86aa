/** The filter as a whole: `kalman_init` and `kalman_update` keep the covariance decoupled,
    symmetric and positive definite, and each axis behaves as if it were alone. */
module KalmanFilter {
  import opened KalmanAxis
  import opened Kalman

  /** Symmetric, and nothing of roll mixed with anything of pitch. */
  ghost predicate Decoupled(p: Mat)
    requires Is(p, 4, 4)
  {
    && p[0][2] == p[2][0] && p[1][3] == p[3][1]
    && p[0][1] == p[1][0] == 0.0 && p[0][3] == p[3][0] == 0.0
    && p[1][2] == p[2][1] == 0.0 && p[2][3] == p[3][2] == 0.0
  }

  ghost function RollOf(x: seq<real>, p: Mat): Axis
    requires |x| == 4 && Is(p, 4, 4)
  {
    Axis(x[0], x[2], p[0][0], p[0][2], p[2][2])
  }

  ghost function PitchOf(x: seq<real>, p: Mat): Axis
    requires |x| == 4 && Is(p, 4, 4)
  {
    Axis(x[1], x[3], p[1][1], p[1][3], p[3][3])
  }

  /** One entry of the prediction. */
  lemma PredictEntry(p: Mat, dt: real, r: Mat, i: nat, j: nat)
    requires Is(p, 4, 4) && Is(r, 4, 4) && IsPredicted(p, dt, r) && i < 4 && j < 4
    ensures r[i][j] == Fpft(p, dt, i, j) + Noise(i, j)
  {
  }

  lemma PredictSplits(p: Mat, dt: real, r: Mat, x: seq<real>, wx: real, wy: real, y: seq<real>)
    requires Is(p, 4, 4) && Is(r, 4, 4) && Decoupled(p) && IsPredicted(p, dt, r)
    requires |x| == |y| == 4
    requires y[0] == x[0] + Times(wx - x[2], dt) && y[1] == x[1] + Times(wy - x[3], dt) && y[2] == x[2] && y[3] == x[3]
    ensures Decoupled(r)
    ensures RollOf(y, r) == Predict(RollOf(x, p), wx, dt)
    ensures PitchOf(y, r) == Predict(PitchOf(x, p), wy, dt)
  {
    hide IsPredicted;
    PredictEntry(p, dt, r, 0, 0);
    PredictEntry(p, dt, r, 0, 1);
    PredictEntry(p, dt, r, 0, 2);
    PredictEntry(p, dt, r, 0, 3);
    PredictEntry(p, dt, r, 1, 0);
    PredictEntry(p, dt, r, 1, 1);
    PredictEntry(p, dt, r, 1, 2);
    PredictEntry(p, dt, r, 1, 3);
    PredictEntry(p, dt, r, 2, 0);
    PredictEntry(p, dt, r, 2, 1);
    PredictEntry(p, dt, r, 2, 2);
    PredictEntry(p, dt, r, 2, 3);
    PredictEntry(p, dt, r, 3, 0);
    PredictEntry(p, dt, r, 3, 1);
    PredictEntry(p, dt, r, 3, 2);
    PredictEntry(p, dt, r, 3, 3);
  }

  /** With a diagonal innovation covariance the inverse is the inverse of each axis. */
  ghost predicate IsDiagonalInverse(si: Inverse, s0: real, s1: real)
  {
    && s0 > 0.0 && s1 > 0.0
    && si.s01 == 0.0 && si.s10 == 0.0 && si.s00 * s0 == 1.0 && si.s11 * s1 == 1.0
  }

  lemma InverseSplits(s0: real, s1: real, det: real, inv: real)
    requires s0 > 0.0 && s1 > 0.0 && det == s0 * s1 && inv * det == 1.0
    ensures (s1 * inv) * s0 == 1.0 && (s0 * inv) * s1 == 1.0
  {
    assert (s1 * inv) * s0 == inv * (s0 * s1);
    assert (s0 * inv) * s1 == inv * (s0 * s1);
  }

  lemma Quotient(u: real, s: real, i: real)
    requires s > 0.0 && i * s == 1.0
    ensures u * i == u / s
  {
    assert (u * i) * s == u * (i * s);
  }

  /** The gains: each axis corrects itself and nothing else. */
  lemma GainSplits(p: Mat, si: Inverse, k: Mat, s0: real, s1: real)
    requires Is(p, 4, 4) && Is(k, 4, 2) && Decoupled(p) && IsGain(p, si, k) && IsDiagonalInverse(si, s0, s1)
    ensures k[0][0] == p[0][0] / s0 && k[2][0] == p[0][2] / s0 && k[1][0] == 0.0 && k[3][0] == 0.0
    ensures k[1][1] == p[1][1] / s1 && k[3][1] == p[1][3] / s1 && k[0][1] == 0.0 && k[2][1] == 0.0
  {
    Quotient(p[0][0], s0, si.s00);
    Quotient(p[0][2], s0, si.s00);
    Quotient(p[1][1], s1, si.s11);
    Quotient(p[1][3], s1, si.s11);
  }

  /** One entry of the product, all four terms. */
  lemma CorrectEntry(p: Mat, k: Mat, r: Mat, i: nat, j: nat)
    requires Is(p, 4, 4) && Is(k, 4, 2) && Is(r, 4, 4) && IsCorrected(p, k, r) && i < 4 && j < 4
    ensures r[i][j] ==
      Times(Ikh(k, i, 0), p[0][j]) + Times(Ikh(k, i, 1), p[1][j]) + Times(Ikh(k, i, 2), p[2][j]) + Times(Ikh(k, i, 3), p[3][j])
  {
    hide Times, Ikh;
    assert Dot(k, p, i, j, 1) == Dot(k, p, i, j, 0) + Times(Ikh(k, i, 0), p[0][j]);
    assert Dot(k, p, i, j, 2) == Dot(k, p, i, j, 1) + Times(Ikh(k, i, 1), p[1][j]);
    assert Dot(k, p, i, j, 3) == Dot(k, p, i, j, 2) + Times(Ikh(k, i, 2), p[2][j]);
    assert Dot(k, p, i, j, 4) == Dot(k, p, i, j, 3) + Times(Ikh(k, i, 3), p[3][j]);
  }

  /** `g` and `h` are the gains of an axis: both ways to compute the off-diagonal agree. */
  lemma SymmetricEntry(a: real, b: real, s: real)
    requires s > 0.0
    ensures (1.0 - a / s) * b == -(b / s) * a + b
  {
    var g, h := a / s, b / s;
    assert g * s == a && h * s == b;
    assert g * b == g * (h * s);
    assert h * a == h * (g * s);
  }

  /** The covariance of a gain that keeps the axes apart: rows and columns of one axis. */
  lemma CorrectRow(p: Mat, k: Mat, r: Mat, i: nat)
    requires Is(p, 4, 4) && Is(k, 4, 2) && Is(r, 4, 4) && Decoupled(p) && IsCorrected(p, k, r) && i < 4
    requires k[1][0] == k[3][0] == k[0][1] == k[2][1] == 0.0
    ensures i == 0 ==> r[0][0] == (1.0 - k[0][0]) * p[0][0] && r[0][2] == (1.0 - k[0][0]) * p[0][2]
                       && r[0][1] == 0.0 && r[0][3] == 0.0
    ensures i == 1 ==> r[1][1] == (1.0 - k[1][1]) * p[1][1] && r[1][3] == (1.0 - k[1][1]) * p[1][3]
                       && r[1][0] == 0.0 && r[1][2] == 0.0
    ensures i == 2 ==> r[2][0] == -k[2][0] * p[0][0] + p[0][2] && r[2][2] == -k[2][0] * p[0][2] + p[2][2]
                       && r[2][1] == 0.0 && r[2][3] == 0.0
    ensures i == 3 ==> r[3][1] == -k[3][1] * p[1][1] + p[1][3] && r[3][3] == -k[3][1] * p[1][3] + p[3][3]
                       && r[3][0] == 0.0 && r[3][2] == 0.0
  {
    hide IsCorrected;
    CorrectEntry(p, k, r, i, 0);
    CorrectEntry(p, k, r, i, 1);
    CorrectEntry(p, k, r, i, 2);
    CorrectEntry(p, k, r, i, 3);
  }

  lemma CorrectSplits(p: Mat, k: Mat, r: Mat, x: seq<real>, y: seq<real>, zr: real, zp: real)
    requires Is(p, 4, 4) && Is(k, 4, 2) && Is(r, 4, 4) && Decoupled(p) && IsCorrected(p, k, r)
    requires p[0][0] + R_ROLL > 0.0 && p[1][1] + R_PITCH > 0.0
    requires k[1][0] == k[3][0] == k[0][1] == k[2][1] == 0.0
    requires k[0][0] == p[0][0] / (p[0][0] + R_ROLL) && k[2][0] == p[0][2] / (p[0][0] + R_ROLL)
    requires k[1][1] == p[1][1] / (p[1][1] + R_PITCH) && k[3][1] == p[1][3] / (p[1][1] + R_PITCH)
    requires |x| == |y| == 4
    requires forall i :: 0 <= i < 4 ==> y[i] == x[i] + (Times(k[i][0], zr - x[0]) + Times(k[i][1], zp - x[1]))
    ensures Decoupled(r)
    ensures RollOf(y, r) == Correct(RollOf(x, p), zr, R_ROLL)
    ensures PitchOf(y, r) == Correct(PitchOf(x, p), zp, R_PITCH)
  {
    hide IsCorrected;
    CorrectRow(p, k, r, 0);
    CorrectRow(p, k, r, 1);
    CorrectRow(p, k, r, 2);
    CorrectRow(p, k, r, 3);
    SymmetricEntry(p[0][0], p[0][2], p[0][0] + R_ROLL);
    SymmetricEntry(p[1][1], p[1][3], p[1][1] + R_PITCH);
  }

  /** `x = x + K*y`. */
  method CorrectState(x: array<real>, k: array2<real>, y0: real, y1: real)
    requires x.Length == 4 && Sized(k, 4, 2)
    modifies x
    ensures forall i :: 0 <= i < 4 ==> x[i] == old(x[i]) + (Times(View(k)[i][0], y0) + Times(View(k)[i][1], y1))
  {
    hide Times;
    x[0] := x[0] + (Times(k[0, 0], y0) + Times(k[0, 1], y1));
    x[1] := x[1] + (Times(k[1, 0], y0) + Times(k[1, 1], y1));
    x[2] := x[2] + (Times(k[2, 0], y0) + Times(k[2, 1], y1));
    x[3] := x[3] + (Times(k[3, 0], y0) + Times(k[3, 1], y1));
  }

  class Filter {
    const x: array<real>
    const P: array2<real>

    ghost predicate Shape() {
      x.Length == 4 && Sized(P, 4, 4)
    }

    ghost function Roll(): Axis
      reads x, P
      requires Shape()
    {
      RollOf(x[..], View(P))
    }

    ghost function Pitch(): Axis
      reads x, P
      requires Shape()
    {
      PitchOf(x[..], View(P))
    }

    /** Decoupled, symmetric and positive definite. */
    ghost predicate Valid()
      reads x, P
    {
      Shape() && Decoupled(View(P)) && PosDef(Roll()) && PosDef(Pitch())
    }

    /** A filter structure, not initialised. */
    constructor ()
      ensures Shape() && fresh(x) && fresh(P)
    {
      x := new real[4];
      P := new real[4, 4];
    }

    /** `kalman_init`. */
    method Init()
      requires Shape()
      modifies x, P
      ensures Valid()
      ensures Roll() == Axis(0.0, 0.0, 1.0, 0.0, 1.0) && Pitch() == Axis(0.0, 0.0, 1.0, 0.0, 1.0)
    {
      for i := 0 to 4
        invariant forall r :: 0 <= r < i ==> x[r] == 0.0
        invariant forall r, c :: 0 <= r < i && 0 <= c < 4 ==> P[r, c] == if r == c then 1.0 else 0.0
      {
        x[i] := 0.0;
        for j := 0 to 4
          invariant forall r :: 0 <= r <= i ==> x[r] == 0.0
          invariant forall r, c :: 0 <= r < i && 0 <= c < 4 ==> P[r, c] == if r == c then 1.0 else 0.0
          invariant forall c :: 0 <= c < j ==> P[i, c] == if i == c then 1.0 else 0.0
        {
          P[i, j] := if i == j then 1.0 else 0.0;
        }
      }
    }

    /** The PREDICT half of `kalman_update`. */
    method PredictStep(wx: real, wy: real, dt: real)
      requires Valid()
      modifies x, P
      ensures Valid() && P[0, 0] > Q_ANGLE && P[1, 1] > Q_ANGLE
      ensures Roll() == Predict(old(Roll()), wx, dt) && Pitch() == Predict(old(Pitch()), wy, dt)
    {
      ghost var x0, p0 := x[..], View(P);
      var roll, pitch, bgx, bgy := x[0], x[1], x[2], x[3];
      var wxc := wx - bgx;
      var wyc := wy - bgy;
      x[0] := roll + Times(wxc, dt);
      x[1] := pitch + Times(wyc, dt);
      hide Decoupled, PosDef, Times, IsPredicted, Predict;
      PredictCovariance(P, dt);
      PredictSplits(p0, dt, View(P), x0, wx, wy, x[..]);
      PredictKeeps(RollOf(x0, p0), wx, dt);
      PredictKeeps(PitchOf(x0, p0), wy, dt);
    }

    /** The UPDATE half of `kalman_update`. */
    method CorrectStep(rollMeas: real, pitchMeas: real)
      requires Valid() && P[0, 0] > Q_ANGLE && P[1, 1] > Q_ANGLE
      modifies x, P
      ensures Valid() && P[0, 0] < R_ROLL && P[1, 1] < R_PITCH
      ensures Roll() == Correct(old(Roll()), rollMeas, R_ROLL) && Pitch() == Correct(old(Pitch()), pitchMeas, R_PITCH)
    {
      hide Decoupled, PosDef, Times, IsGain, IsCorrected, Correct;
      ghost var x0, p0 := x[..], View(P);
      var y0 := rollMeas - x[0];
      var y1 := pitchMeas - x[1];
      var si := InvertInnovation(P);
      var k := ComputeGain(P, si);
      ghost var gain := View(k);
      GainSplits(p0, si, gain, p0[0][0] + R_ROLL, p0[1][1] + R_PITCH);
      CorrectState(x, k, y0, y1);
      CorrectCovariance(P, k);
      CorrectSplits(p0, gain, View(P), x0, x[..], rollMeas, pitchMeas);
      CorrectKeeps(RollOf(x0, p0), rollMeas, R_ROLL);
      CorrectKeeps(PitchOf(x0, p0), pitchMeas, R_PITCH);
    }

    /** `kalman_update`; the two accelerometer angles are inputs. Each axis is predicted and
        corrected on its own, and ends up less uncertain than its measurement. */
    method Update(rollMeas: real, pitchMeas: real, wx: real, wy: real, dt: real)
      requires Valid()
      modifies x, P
      ensures Valid()
      ensures var r := Predict(old(Roll()), wx, dt);
        r.a + R_ROLL > 0.0 && Roll() == Correct(r, rollMeas, R_ROLL)
      ensures var p := Predict(old(Pitch()), wy, dt);
        p.a + R_PITCH > 0.0 && Pitch() == Correct(p, pitchMeas, R_PITCH)
      ensures P[0, 0] < R_ROLL && P[1, 1] < R_PITCH
    {
      hide Decoupled, PosDef, Predict, Correct;
      PredictStep(wx, wy, dt);
      CorrectStep(rollMeas, pitchMeas);
    }
  }

  function Abs(u: real): real {
    if u < 0.0 then -u else u
  }

  const EPSILON: real := 0.0000000001

  /** `inv(S)`: the singularity return is never taken. */
  method InvertInnovation(P: array2<real>) returns (si: Inverse)
    requires Sized(P, 4, 4) && Decoupled(View(P)) && P[0, 0] > Q_ANGLE && P[1, 1] > Q_ANGLE
    ensures IsDiagonalInverse(si, P[0, 0] + R_ROLL, P[1, 1] + R_PITCH)
  {
    ghost var p := View(P);
    var s00 := P[0, 0] + R_ROLL;
    var s01 := P[0, 1];
    var s10 := P[1, 0];
    var s11 := P[1, 1] + R_PITCH;
    var det := s00 * s11 - s01 * s10;
    DetBounded(s00, s11, s01, s10, det);
    if Abs(det) < EPSILON {
      assert false;
    }
    var inv := 1.0 / det;
    InverseSplits(s00, s11, det, inv);
    si := Inverse(s11 * inv, -s01 * inv, -s10 * inv, s00 * inv);
  }

  /** The determinant stays well above the guard, in every reachable state. */
  lemma DetBounded(s00: real, s11: real, s01: real, s10: real, det: real)
    requires s00 > Q_ANGLE + R_ROLL && s11 > Q_ANGLE + R_PITCH && s01 == 0.0 && s10 == 0.0
    requires det == s00 * s11 - s01 * s10
    ensures det == s00 * s11 && det >= (Q_ANGLE + R_ROLL) * (Q_ANGLE + R_PITCH)
    ensures Abs(det) >= EPSILON
  {
    InnovationBounded(s00 - R_ROLL, s11 - R_PITCH);
  }
}
