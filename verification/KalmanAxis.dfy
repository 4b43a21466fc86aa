/** One axis of the attitude filter: an angle and a gyro bias with their 2x2 covariance
    `[a b; b d]`, over exact reals. */
module KalmanAxis {

  const Q_ANGLE: real := 0.001
  const Q_BIAS: real := 0.0001
  const R_ROLL: real := 702.11 / 268435456.0
  const R_PITCH: real := 651.55 / 268435456.0

  datatype Axis = Axis(angle: real, bias: real, a: real, b: real, d: real)

  /** The covariance is positive definite. */
  predicate PosDef(x: Axis) {
    x.a > 0.0 && x.a * x.d - x.b * x.b > 0.0
  }

  /** The variance of `u * angle + v * bias`. */
  function Variance(x: Axis, u: real, v: real): real {
    x.a * u * u + 2.0 * x.b * u * v + x.d * v * v
  }

  /** Gyro rate `w` for `dt` seconds. */
  function Predict(x: Axis, w: real, dt: real): Axis {
    Axis(
      x.angle + (w - x.bias) * dt,
      x.bias,
      (x.a - dt * x.b) - dt * (x.b - dt * x.d) + Q_ANGLE,
      x.b - dt * x.d,
      x.d + Q_BIAS)
  }

  /** The accelerometer measures angle `z` with variance `r`. */
  function Correct(x: Axis, z: real, r: real): Axis
    requires x.a + r > 0.0
  {
    var s := x.a + r;
    Axis(
      x.angle + x.a / s * (z - x.angle),
      x.bias + x.b / s * (z - x.angle),
      (1.0 - x.a / s) * x.a,
      (1.0 - x.a / s) * x.b,
      x.d - x.b / s * x.b)
  }

  lemma PositiveTimesPositive(u: real, v: real)
    requires u > 0.0 && v > 0.0
    ensures u * v > 0.0
  {
  }

  /** Completing the square. */
  lemma CompleteSquare(a: real, b: real, d: real, u: real, v: real)
    ensures a * (a * u * u + 2.0 * b * u * v + d * v * v) == (a * u + b * v) * (a * u + b * v) + (a * d - b * b) * (v * v)
  {
  }

  lemma SignOfFactor(a: real, q: real)
    requires a > 0.0 && a * q > 0.0
    ensures q > 0.0
  {
  }

  lemma SumOfSquares(a: real, q: real, m2: real, det: real, v2: real)
    requires a > 0.0 && det > 0.0 && m2 >= 0.0 && v2 >= 0.0 && (m2 > 0.0 || v2 > 0.0)
    requires a * q == m2 + det * v2
    ensures q > 0.0
  {
    if v2 > 0.0 {
      PositiveTimesPositive(det, v2);
    }
    SignOfFactor(a, q);
  }

  function Product(u: real, v: real): (r: real)
    requires u > 0.0 && v > 0.0
    ensures r == u * v && r > 0.0
  {
    u * v
  }

  function Square(u: real): (r: real)
    ensures r == u * u
    ensures r >= 0.0
    ensures u != 0.0 ==> r > 0.0
  {
    if u < 0.0 then Product(-u, -u) else if u > 0.0 then Product(u, u) else 0.0
  }

  /** Every combination of the two states has a positive variance. */
  lemma PosDefVariance(x: Axis, u: real, v: real)
    requires PosDef(x) && (u != 0.0 || v != 0.0)
    ensures Variance(x, u, v) > 0.0
  {
    var m := x.a * u + x.b * v;
    CompleteSquare(x.a, x.b, x.d, u, v);
    assert v == 0.0 ==> m != 0.0;
    SumOfSquares(x.a, Variance(x, u, v), Square(m), x.a * x.d - x.b * x.b, Square(v));
  }

  lemma PredictVariance(a: real, b: real, d: real, dt: real)
    ensures (a - dt * b) - dt * (b - dt * d) == a * 1.0 * 1.0 + 2.0 * b * 1.0 * (-dt) + d * (-dt) * (-dt)
  {
  }

  lemma PredictDet(a: real, b: real, d: real, dt: real, q: real)
    requires q == (a - dt * b) - dt * (b - dt * d)
    ensures (q + Q_ANGLE) * (d + Q_BIAS) - (b - dt * d) * (b - dt * d)
         == (a * d - b * b) + q * Q_BIAS + Q_ANGLE * (d + Q_BIAS)
  {
  }

  /** A prediction keeps the covariance positive definite, whatever `dt`, and makes the
      angle's variance greater than `Q_ANGLE`. */
  lemma PredictKeeps(x: Axis, w: real, dt: real)
    requires PosDef(x)
    ensures PosDef(Predict(x, w, dt)) && Predict(x, w, dt).a > Q_ANGLE
  {
    var q := (x.a - dt * x.b) - dt * (x.b - dt * x.d);
    PredictVariance(x.a, x.b, x.d, dt);
    PosDefVariance(x, 1.0, -dt);
    PosDefVariance(x, 0.0, 1.0);
    PredictDet(x.a, x.b, x.d, dt, q);
  }

  lemma CorrectDet(a: real, b: real, d: real, r: real, g: real, h: real)
    requires g * (a + r) == a && h * (a + r) == b && a + r > 0.0
    ensures ((1.0 - g) * a) * (d - h * b) - ((1.0 - g) * b) * ((1.0 - g) * b) == (1.0 - g) * (a * d - b * b)
  {
    assert g * b == h * a by {
      assert (g * b - h * a) * (a + r) == 0.0;
    }
    assert ((1.0 - g) * a) * (d - h * b) == (1.0 - g) * (a * d - (h * a) * b);
    assert ((1.0 - g) * b) * ((1.0 - g) * b) == (1.0 - g) * (b * b - (g * b) * b);
  }

  lemma CorrectVariance(a: real, r: real, g: real)
    requires a > 0.0 && r > 0.0 && g * (a + r) == a
    ensures 0.0 < 1.0 - g && 0.0 < (1.0 - g) * a < r
  {
    assert (a + r) * (1.0 - g) == r;
    SignOfFactor(a + r, 1.0 - g);
    PositiveTimesPositive(1.0 - g, a);
    PositiveTimesPositive(1.0 - g, r);
  }

  lemma CorrectPosDef(x: Axis, r: real, g: real, h: real, c: Axis)
    requires PosDef(x) && r > 0.0
    requires g * (x.a + r) == x.a && h * (x.a + r) == x.b
    requires c.a == (1.0 - g) * x.a && c.b == (1.0 - g) * x.b && c.d == x.d - h * x.b
    ensures PosDef(c) && c.a < r
  {
    CorrectVariance(x.a, r, g);
    CorrectDet(x.a, x.b, x.d, r, g, h);
    PositiveTimesPositive(1.0 - g, x.a * x.d - x.b * x.b);
  }

  /** A correction keeps the covariance positive definite and leaves the angle less uncertain
      than the measurement was. */
  lemma CorrectKeeps(x: Axis, z: real, r: real)
    requires PosDef(x) && r > 0.0
    ensures PosDef(Correct(x, z, r)) && Correct(x, z, r).a < r
  {
    assert x.a > 0.0;
    hide PosDef;
    CorrectPosDef(x, r, x.a / (x.a + r), x.b / (x.a + r), Correct(x, z, r));
  }

  /** The determinant of the innovation covariance is bounded away from 0. */
  lemma InnovationBounded(roll: real, pitch: real)
    requires roll > Q_ANGLE && pitch > Q_ANGLE
    ensures (roll + R_ROLL) * (pitch + R_PITCH) >= (Q_ANGLE + R_ROLL) * (Q_ANGLE + R_PITCH)
    ensures (Q_ANGLE + R_ROLL) * (Q_ANGLE + R_PITCH) > 0.0000000001
  {
    var u, v := roll + R_ROLL, pitch + R_PITCH;
    PositiveTimesPositive(u - (Q_ANGLE + R_ROLL), v);
    PositiveTimesPositive(Q_ANGLE + R_ROLL, v - (Q_ANGLE + R_PITCH));
  }

  /** The inputs of one call: gyro rate, time step, measured angle. */
  datatype Sample = Sample(w: real, dt: real, z: real)

  function Start(): (x: Axis)
    ensures PosDef(x)
  {
    Axis(0.0, 0.0, 1.0, 0.0, 1.0)
  }

  /** An axis after any number of calls with any inputs: the covariance is positive definite,
      and after each call the angle is less uncertain than its measurement. */
  function Track(ss: seq<Sample>, r: real): (x: Axis)
    requires r > 0.0
    ensures PosDef(x)
    ensures ss != [] ==> x.a < r
  {
    if ss == [] then Start()
    else
      var before := Track(ss[..|ss| - 1], r);
      var s := ss[|ss| - 1];
      PredictKeeps(before, s.w, s.dt);
      CorrectKeeps(Predict(before, s.w, s.dt), s.z, r);
      Correct(Predict(before, s.w, s.dt), s.z, r)
  }

  // ---- What the two steps mean ----

  lemma LinearPart(a: real, b: real, d: real, dt: real, u: real, v: real)
    ensures ((a - dt * b) - dt * (b - dt * d)) * u * u + 2.0 * (b - dt * d) * u * v + d * v * v
         == a * u * u + 2.0 * b * u * (v - dt * u) + d * (v - dt * u) * (v - dt * u)
  {
  }

  lemma NoisePart(p: real, q: real, d: real, u: real, v: real)
    ensures (p + Q_ANGLE) * u * u + q + (d + Q_BIAS) * v * v
         == p * u * u + q + d * v * v + Q_ANGLE * u * u + Q_BIAS * v * v
  {
  }

  /** A prediction turns the angle by the rate less the bias. For every combination of the two
      states, its mean and its variance are those of the same combination before, turned back by
      `dt`, and the process noise is added. */
  lemma PredictPropagates(x: Axis, w: real, dt: real, u: real, v: real)
    ensures var p := Predict(x, w, dt);
      && u * p.angle + v * p.bias == u * x.angle + (v - dt * u) * x.bias + u * (dt * w)
      && Variance(p, u, v) == Variance(x, u, v - dt * u) + 0.001 * u * u + 0.0001 * v * v
  {
    var p := (x.a - dt * x.b) - dt * (x.b - dt * x.d);
    LinearPart(x.a, x.b, x.d, dt, u, v);
    NoisePart(p, 2.0 * (x.b - dt * x.d) * u * v, x.d, u, v);
    assert u * (x.angle + (w - x.bias) * dt) == u * x.angle + u * (dt * w) - (dt * u) * x.bias;
  }

  /** The variance of `p * angle + q * bias`, estimated as predicted plus `k` times the residual:
      the error of the residual is that of the angle, and the noise of the measurement. */
  function Corrected(x: Axis, r: real, p: real, q: real, k: real): real {
    Variance(x, p - k, q) + k * k * r
  }

  lemma InResidual(a: real, b: real, d: real, r: real, p: real, q: real, k: real)
    ensures a * (p - k) * (p - k) + 2.0 * b * (p - k) * q + d * q * q + k * k * r
         == (a * p * p + 2.0 * b * p * q + d * q * q) - 2.0 * k * (a * p + b * q) + k * k * (a + r)
  {
  }

  lemma AtBest(a: real, b: real, d: real, s: real, g: real, h: real, p: real, q: real)
    requires g * s == a && h * s == b
    ensures ((1.0 - g) * a) * p * p + 2.0 * ((1.0 - g) * b) * p * q + (d - h * b) * q * q
         == (a * p * p + 2.0 * b * p * q + d * q * q) - s * ((p * g + q * h) * (p * g + q * h))
  {
    assert s * ((p * g + q * h) * (p * g + q * h))
        == (g * s) * g * p * p + 2.0 * (h * s) * g * p * q + (h * s) * h * q * q;
  }

  lemma AwayFromBest(v: real, s: real, m: real, n: real, k: real)
    requires n * s == m
    ensures v - 2.0 * k * m + k * k * s == (v - s * (n * n)) + s * ((k - n) * (k - n))
  {
    assert k * (n * s) == k * m;
  }

  lemma BestGain(a: real, b: real, s: real, g: real, h: real, p: real, q: real)
    requires g * s == a && h * s == b
    ensures (p * g + q * h) * s == a * p + b * q
  {
    assert (p * g + q * h) * s == p * (g * s) + q * (h * s);
  }

  /** How much worse any gain `k` is than the best one. */
  lemma ExcessVariance(x: Axis, c: Axis, r: real, g: real, h: real, p: real, q: real, k: real)
    requires g * (x.a + r) == x.a && h * (x.a + r) == x.b
    requires c.a == (1.0 - g) * x.a && c.b == (1.0 - g) * x.b && c.d == x.d - h * x.b
    ensures var e := k - (p * g + q * h); Corrected(x, r, p, q, k) == Variance(c, p, q) + (x.a + r) * (e * e)
  {
    var s := x.a + r;
    InResidual(x.a, x.b, x.d, r, p, q, k);
    AtBest(x.a, x.b, x.d, s, g, h, p, q);
    BestGain(x.a, x.b, s, g, h, p, q);
    AwayFromBest(Variance(x, p, q), s, x.a * p + x.b * q, p * g + q * h, k);
  }

  lemma NoSquare(s: real, e: real)
    requires s > 0.0
    ensures s * (e * e) >= 0.0 && (s * (e * e) == 0.0 <==> e == 0.0)
  {
    var q := Square(e);
    if e != 0.0 {
      PositiveTimesPositive(s, q);
    }
  }

  lemma Combined(t: real, b: real, y: real, g: real, h: real, p: real, q: real)
    ensures p * (t + g * y) + q * (b + h * y) == p * t + q * b + (p * g + q * h) * y
  {
  }

  /** The gain that no other beats. */
  lemma BestAmongGains(x: Axis, c: Axis, y: real, r: real, g: real, h: real, p: real, q: real, k: real)
    requires x.a + r > 0.0 && g * (x.a + r) == x.a && h * (x.a + r) == x.b
    requires c.a == (1.0 - g) * x.a && c.b == (1.0 - g) * x.b && c.d == x.d - h * x.b
    requires c.angle == x.angle + g * y && c.bias == x.bias + h * y
    ensures Variance(c, p, q) <= Corrected(x, r, p, q, k)
    ensures Variance(c, p, q) == Corrected(x, r, p, q, k) <==> k == p * g + q * h
    ensures k == p * g + q * h ==> p * c.angle + q * c.bias == p * x.angle + q * x.bias + k * y
  {
    hide Variance, Corrected;
    ExcessVariance(x, c, r, g, h, p, q, k);
    NoSquare(x.a + r, k - (p * g + q * h));
    Combined(x.angle, x.bias, y, g, h, p, q);
  }

  /** The gains that a correction uses. */
  lemma GainsOf(x: Axis, z: real, r: real) returns (g: real, h: real)
    requires x.a + r > 0.0
    ensures g * (x.a + r) == x.a && h * (x.a + r) == x.b
    ensures var c := Correct(x, z, r);
      && c.a == (1.0 - g) * x.a && c.b == (1.0 - g) * x.b && c.d == x.d - h * x.b
      && c.angle == x.angle + g * (z - x.angle) && c.bias == x.bias + h * (z - x.angle)
  {
    g, h := x.a / (x.a + r), x.b / (x.a + r);
  }

  /** A correction is the best one, for every combination of the two states at once: no gain leaves it
      with a smaller variance, and the new state is computed with the gain that reaches it. */
  lemma CorrectIsBest(x: Axis, z: real, r: real, p: real, q: real, k: real)
    requires PosDef(x) && r > 0.0
    ensures var c := Correct(x, z, r);
      && Variance(c, p, q) <= Corrected(x, r, p, q, k)
      && (Variance(c, p, q) == Corrected(x, r, p, q, k) ==>
            p * c.angle + q * c.bias == p * x.angle + q * x.bias + k * (z - x.angle))
  {
    assert x.a > 0.0;
    hide PosDef, Variance, Corrected, Correct;
    var g, h := GainsOf(x, z, r);
    BestAmongGains(x, Correct(x, z, r), z - x.angle, r, g, h, p, q, k);
  }

  /** That gain exists. */
  lemma BestIsReached(x: Axis, z: real, r: real, p: real, q: real) returns (k: real)
    requires PosDef(x) && r > 0.0
    ensures Variance(Correct(x, z, r), p, q) == Corrected(x, r, p, q, k)
  {
    assert x.a > 0.0;
    hide PosDef, Variance, Corrected, Correct;
    var g, h := GainsOf(x, z, r);
    k := p * g + q * h;
    BestAmongGains(x, Correct(x, z, r), z - x.angle, r, g, h, p, q, k);
  }
}
