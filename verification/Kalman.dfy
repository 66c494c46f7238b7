/** The reference form of the clock filter: a Kalman filter with a two-component
    state (local time, gain) and a scalar measurement of the local time, written
    with matrices. Doubles are real numbers here. */
module Kalman {
  /** A symmetric covariance { { p1, p2 }, { p2, p3 } }. */
  datatype Cov = Cov(p1: real, p2: real, p3: real)

  datatype Mat = Mat(a: real, b: real, c: real, d: real)

  datatype Vec = Vec(x: real, y: real)

  /** The product of two entries, under a name of its own so that the matrix lemmas
      can treat it as a symbol. */
  function Times(x: real, y: real): real {
    x * y
  }

  function Mul(m: Mat, n: Mat): Mat {
    Mat(Times(m.a, n.a) + Times(m.b, n.c), Times(m.a, n.b) + Times(m.b, n.d),
        Times(m.c, n.a) + Times(m.d, n.c), Times(m.c, n.b) + Times(m.d, n.d))
  }

  function Add(m: Mat, n: Mat): Mat {
    Mat(m.a + n.a, m.b + n.b, m.c + n.c, m.d + n.d)
  }

  function Sub(m: Mat, n: Mat): Mat {
    Mat(m.a - n.a, m.b - n.b, m.c - n.c, m.d - n.d)
  }

  function Transpose(m: Mat): Mat {
    Mat(m.a, m.c, m.b, m.d)
  }

  /** The outer product of two column vectors. */
  function Outer(u: Vec, v: Vec): Mat {
    Mat(Times(u.x, v.x), Times(u.x, v.y), Times(u.y, v.x), Times(u.y, v.y))
  }

  function Scale(s: real, m: Mat): Mat {
    Mat(Times(s, m.a), Times(s, m.b), Times(s, m.c), Times(s, m.d))
  }

  const IDENTITY := Mat(1.0, 0.0, 0.0, 1.0)

  /** The measurement row H = (1 0). */
  const H := Vec(1.0, 0.0)

  function Full(p: Cov): Mat {
    Mat(p.p1, p.p2, p.p2, p.p3)
  }

  /** F = { { 1, dt }, { 0, 1 } }: the local time advances by gain times dt. */
  function Transition(dt: real): Mat {
    Mat(1.0, dt, 0.0, 1.0)
  }

  function Noise(qLocal: real, qGain: real): Mat {
    Mat(qLocal, 0.0, 0.0, qGain)
  }

  /** F P F^T + Q */
  function TimeUpdate(p: Cov, dt: real, qLocal: real, qGain: real): Mat {
    Add(Mul(Mul(Transition(dt), Full(p)), Transpose(Transition(dt))), Noise(qLocal, qGain))
  }

  function Innovation(p: Cov, r: real): real {
    r + p.p1
  }

  /** K = P H^T / (H P H^T + R) */
  function Gain(p: Cov, r: real): Vec
    requires Innovation(p, r) != 0.0
  {
    Vec(p.p1 / Innovation(p, r), p.p2 / Innovation(p, r))
  }

  /** (I - K H) P */
  function MeasurementUpdate(p: Cov, k: Vec): Mat {
    Mul(Sub(IDENTITY, Outer(k, H)), Full(p))
  }

  /** (I - K H) P (I - K H)^T + R K K^T: the covariance of the estimate under any gain. */
  function Joseph(p: Cov, k: Vec, r: real): Mat {
    Add(Mul(Mul(Sub(IDENTITY, Outer(k, H)), Full(p)), Transpose(Sub(IDENTITY, Outer(k, H)))),
        Scale(r, Outer(k, k)))
  }

  function Det(p: Cov): real {
    p.p1 * p.p3 - p.p2 * p.p2
  }

  predicate PositiveDefinite(p: Cov) {
    p.p1 > 0.0 && p.p3 > 0.0 && Det(p) > 0.0
  }

  /** x^T M x for a symmetric M. */
  function Quadratic(m: Mat, v: Vec): real {
    Times(v.x, Times(m.a, v.x) + Times(m.b, v.y)) + Times(v.y, Times(m.c, v.x) + Times(m.d, v.y))
  }

  // ---------------------------------------------------------------- the code's scalar forms

  /** The three in-place assignments of the time update. */
  function ScalarTimeUpdate(p: Cov, dt: real, qLocal: real, qGain: real): Cov {
    Cov(p.p1 + (2.0 * dt * p.p2 + dt * dt * p.p3 + qLocal), p.p2 + dt * p.p3, p.p3 + qGain)
  }

  /** The three in-place assignments of the measurement update, with gains k1 and k2. */
  function ScalarUpdateBy(p: Cov, r: real, k1: real, k2: real): Cov {
    Cov(r * k1, r * k2, p.p3 - p.p2 * k2)
  }

  function ScalarMeasurementUpdate(p: Cov, r: real): Cov
    requires Innovation(p, r) != 0.0
  {
    ScalarUpdateBy(p, r, p.p1 / (r + p.p1), p.p2 / (r + p.p1))
  }

  // Products with a factor known to be 1, 0, 1 - x or -x.

  lemma TimesOne(u: real, v: real)
    requires u == 1.0
    ensures Times(u, v) == v && Times(v, u) == v
  {
  }

  lemma TimesZero(u: real, v: real)
    requires u == 0.0
    ensures Times(u, v) == 0.0 && Times(v, u) == 0.0
  {
  }

  lemma TimesComplement(u: real, v: real, x: real)
    requires u == 1.0 - x
    ensures Times(u, v) == v - Times(x, v) && Times(v, u) == v - Times(v, x)
  {
  }

  lemma TimesNegated(u: real, v: real, x: real)
    requires u == -x
    ensures Times(u, v) == -Times(x, v) && Times(v, u) == -Times(v, x)
  {
    assert u * v + x * v == (u + x) * v;
    assert v * u + v * x == v * (u + x);
  }

  // Products with the two structured matrices, entry by entry.

  lemma AdvancedRows(t: Mat, m: Mat, dt: real)
    requires t == Mat(1.0, dt, 0.0, 1.0)
    ensures Mul(t, m) == Mat(m.a + Times(dt, m.c), m.b + Times(dt, m.d), m.c, m.d)
  {
    hide Times;
    TimesOne(t.a, m.a);
    TimesOne(t.a, m.b);
    TimesZero(t.c, m.a);
    TimesZero(t.c, m.b);
    TimesOne(t.d, m.c);
    TimesOne(t.d, m.d);
  }

  lemma AdvancedColumns(m: Mat, t: Mat, dt: real)
    requires t == Mat(1.0, 0.0, dt, 1.0)
    ensures Mul(m, t) == Mat(m.a + Times(m.b, dt), m.b, m.c + Times(m.d, dt), m.d)
  {
    hide Times;
    TimesOne(t.a, m.a);
    TimesOne(t.a, m.c);
    TimesZero(t.b, m.a);
    TimesZero(t.b, m.c);
    TimesOne(t.d, m.b);
    TimesOne(t.d, m.d);
  }

  lemma GainMatrix(k: Vec)
    ensures Sub(IDENTITY, Outer(k, H)) == Mat(1.0 - k.x, 0.0, -k.y, 1.0)
  {
    hide Times;
    TimesOne(H.x, k.x);
    TimesOne(H.x, k.y);
    TimesZero(H.y, k.x);
    TimesZero(H.y, k.y);
  }

  lemma GainRows(g: Mat, m: Mat, x: real, y: real)
    requires g == Mat(1.0 - x, 0.0, -y, 1.0)
    ensures Mul(g, m) == Mat(m.a - Times(x, m.a), m.b - Times(x, m.b), m.c - Times(y, m.a), m.d - Times(y, m.b))
  {
    hide Times;
    TimesComplement(g.a, m.a, x);
    TimesComplement(g.a, m.b, x);
    TimesNegated(g.c, m.a, y);
    TimesNegated(g.c, m.b, y);
    TimesZero(g.b, m.c);
    TimesZero(g.b, m.d);
    TimesOne(g.d, m.c);
    TimesOne(g.d, m.d);
  }

  lemma GainColumns(m: Mat, g: Mat, x: real, y: real)
    requires g == Mat(1.0 - x, -y, 0.0, 1.0)
    ensures Mul(m, g) == Mat(m.a - Times(m.a, x), m.b - Times(m.a, y), m.c - Times(m.c, x), m.d - Times(m.c, y))
  {
    hide Times;
    TimesComplement(g.a, m.a, x);
    TimesComplement(g.a, m.c, x);
    TimesNegated(g.b, m.a, y);
    TimesNegated(g.b, m.c, y);
    TimesZero(g.c, m.b);
    TimesZero(g.c, m.d);
    TimesOne(g.d, m.b);
    TimesOne(g.d, m.d);
  }

  lemma SpreadEntries(p: Cov, n: Cov, u: real, v: real, dt: real, qLocal: real, qGain: real)
    requires u == p.p1 + Times(dt, p.p2) && v == p.p2 + Times(dt, p.p3)
    requires n == ScalarTimeUpdate(p, dt, qLocal, qGain)
    ensures n.p1 == u + Times(v, dt) + qLocal
    ensures n.p2 == v == p.p2 + Times(p.p3, dt) && n.p3 == p.p3 + qGain
  {
  }

  lemma TimeUpdateIsMatrixForm(p: Cov, dt: real, qLocal: real, qGain: real)
    ensures Full(ScalarTimeUpdate(p, dt, qLocal, qGain)) == TimeUpdate(p, dt, qLocal, qGain)
  {
    hide Times, Mul, ScalarTimeUpdate;
    var fp := Mul(Transition(dt), Full(p));
    AdvancedRows(Transition(dt), Full(p), dt);
    AdvancedColumns(fp, Transpose(Transition(dt)), dt);
    SpreadEntries(p, ScalarTimeUpdate(p, dt, qLocal, qGain), fp.a, fp.b, dt, qLocal, qGain);
  }

  lemma Quotient(x: real, s: real)
    requires s != 0.0
    ensures s * (x / s) == x
  {
  }

  /** S K = P H^T, and R = S - S k1, so that R k1 = (1 - k1) p1 and so on. */
  lemma GainEquations(p: Cov, r: real)
    requires Innovation(p, r) != 0.0
    ensures var s, k := Innovation(p, r), Gain(p, r); s * k.x == p.p1 && s * k.y == p.p2
  {
    Quotient(p.p1, Innovation(p, r));
    Quotient(p.p2, Innovation(p, r));
  }

  lemma MeasuredByGain(p: Cov, r: real)
    requires Innovation(p, r) != 0.0
    ensures ScalarMeasurementUpdate(p, r) == ScalarUpdateBy(p, r, Gain(p, r).x, Gain(p, r).y)
  {
    hide ScalarUpdateBy;
  }

  lemma MeasurementEntries(p: Cov, n: Cov, s: real, x: real, y: real, r: real)
    requires p.p1 == s * x && p.p2 == s * y && r == s - p.p1 && n == ScalarUpdateBy(p, r, x, y)
    ensures n.p1 == p.p1 - Times(x, p.p1)
    ensures n.p2 == p.p2 - Times(x, p.p2) == p.p2 - Times(y, p.p1)
    ensures n.p3 == p.p3 - Times(y, p.p2)
  {
    ScaledGain(s, x, y, p.p1, p.p2, r);
  }

  lemma ScaledGain(s: real, x: real, y: real, p1: real, p2: real, r: real)
    requires p1 == s * x && p2 == s * y && r == s - p1
    ensures r * x == p1 - x * p1
    ensures r * y == p2 - x * p2 && r * y == p2 - y * p1
    ensures p2 * y == y * p2
  {
  }

  lemma MeasurementUpdateIsMatrixForm(p: Cov, r: real)
    requires Innovation(p, r) != 0.0
    ensures Full(ScalarMeasurementUpdate(p, r)) == MeasurementUpdate(p, Gain(p, r))
  {
    hide Times, Mul, Sub, Outer, ScalarUpdateBy, Gain;
    var s, k := Innovation(p, r), Gain(p, r);
    GainEquations(p, r);
    MeasuredByGain(p, r);
    MeasurementEntries(p, ScalarMeasurementUpdate(p, r), s, k.x, k.y, r);
    GainMatrix(k);
    GainRows(Sub(IDENTITY, Outer(k, H)), Full(p), k.x, k.y);
  }

  // ---------------------------------------------------------------- positive definiteness

  // Signs of products. The product has a name of its own, z.

  lemma SquareIsNotNegative(x: real, z: real)
    requires z == x * x
    ensures z >= 0.0
    ensures x != 0.0 ==> z > 0.0
  {
    if x > 0.0 {
      PositiveProduct(x, x, z);
    } else if x < 0.0 {
      PositiveProduct(0.0 - x, 0.0 - x, z);
    }
  }

  lemma PositiveProduct(a: real, b: real, z: real)
    requires z == a * b && a > 0.0
    ensures z > 0.0 <==> b > 0.0
  {
  }

  /** Completing the square: a positive definite quadratic form is positive. */
  lemma SpreadIsPositive(p: Cov, dt: real, spread: real)
    requires PositiveDefinite(p) && spread == p.p1 + 2.0 * dt * p.p2 + dt * dt * p.p3
    ensures spread > 0.0
    ensures spread * p.p3 == (p.p2 + dt * p.p3) * (p.p2 + dt * p.p3) + Det(p)
  {
    var t := p.p2 + dt * p.p3;
    SquareIsNotNegative(t, t * t);
    CompletedSquare(p.p1, p.p2, p.p3, dt, spread, t);
    PositiveProduct(p.p3, spread, t * t + Det(p));
  }

  lemma CompletedSquare(p1: real, p2: real, p3: real, dt: real, spread: real, t: real)
    requires spread == p1 + 2.0 * dt * p2 + dt * dt * p3 && t == p2 + dt * p3
    ensures p3 * spread == t * t + (p1 * p3 - p2 * p2)
  {
  }

  /** A time update raises the determinant and keeps the covariance positive definite. */
  lemma TimeUpdateKeepsPositive(p: Cov, dt: real, qLocal: real, qGain: real)
    requires PositiveDefinite(p) && qLocal > 0.0 && qGain > 0.0
    ensures PositiveDefinite(ScalarTimeUpdate(p, dt, qLocal, qGain))
    ensures Det(ScalarTimeUpdate(p, dt, qLocal, qGain)) > Det(p)
  {
    var spread := p.p1 + 2.0 * dt * p.p2 + dt * dt * p.p3;
    var t := p.p2 + dt * p.p3;
    SpreadIsPositive(p, dt, spread);
    var n := ScalarTimeUpdate(p, dt, qLocal, qGain);
    assert n == Cov(spread + qLocal, t, p.p3 + qGain);
    PositiveProduct(spread, qGain, spread * qGain);
    PositiveProduct(qLocal, p.p3, qLocal * p.p3);
    PositiveProduct(qLocal, qGain, qLocal * qGain);
    RaisedDet(n, spread, t, p.p3, qLocal, qGain);
  }

  lemma RaisedDet(n: Cov, spread: real, t: real, p3: real, qLocal: real, qGain: real)
    requires n == Cov(spread + qLocal, t, p3 + qGain)
    ensures Det(n) == (spread * p3 - t * t) + spread * qGain + qLocal * p3 + qLocal * qGain
  {
  }

  lemma GainIsProper(p: Cov, r: real)
    requires p.p1 > 0.0 && r > 0.0
    ensures 0.0 < Gain(p, r).x < 1.0
    ensures p.p2 >= 0.0 ==> Gain(p, r).y >= 0.0
  {
    hide Gain;
    var s, k := Innovation(p, r), Gain(p, r);
    GainEquations(p, r);
    PositiveProduct(s, k.x, p.p1);
    Remainder(s, k.x, p.p1);
    PositiveProduct(s, 1.0 - k.x, r);
    Remainder(s, k.y + 1.0, p.p2 + s);
    PositiveProduct(s, 0.0 - k.y, 0.0 - p.p2);
  }

  lemma Remainder(s: real, x: real, z: real)
    requires z == s * x
    ensures s * (1.0 - x) == s - z
  {
  }

  /** The determinant before and after a measurement, in terms of the gain. */
  lemma DetFromGain(p: Cov, n: Cov, s: real, x: real, y: real, r: real, d: real)
    requires p.p1 == s * x && p.p2 == s * y && r == s - p.p1 && n == ScalarUpdateBy(p, r, x, y)
    requires d == x * p.p3 - y * p.p2
    ensures Det(p) == s * d && Det(n) == r * d
  {
    DetEntries(s, x, y, p.p1, p.p2, p.p3, r, n.p1, n.p2, n.p3, d);
  }

  lemma DetEntries(s: real, x: real, y: real, p1: real, p2: real, p3: real, r: real,
                   n1: real, n2: real, n3: real, d: real)
    requires p1 == s * x && p2 == s * y && r == s - p1
    requires n1 == r * x && n2 == r * y && n3 == p3 - p2 * y && d == x * p3 - y * p2
    ensures p1 * p3 - p2 * p2 == s * d
    ensures n1 * n3 - n2 * n2 == r * d
  {
    assert n1 * n3 - n2 * n2 == r * (x * p3 - x * (p2 * y) - y * n2);
    assert x * (p2 * y) + y * n2 == y * (s * (x * y)) + y * ((s - p1) * y);
  }

  /** A measurement multiplies the determinant by R / (R + p1) and leaves the
      variance of the local time below the measurement noise. */
  lemma MeasurementUpdateKeepsPositive(p: Cov, r: real)
    requires PositiveDefinite(p) && r > 0.0
    ensures PositiveDefinite(ScalarMeasurementUpdate(p, r))
    ensures Det(ScalarMeasurementUpdate(p, r)) == Det(p) * (r / Innovation(p, r))
    ensures ScalarMeasurementUpdate(p, r).p1 < r
  {
    hide Det, Gain, ScalarUpdateBy;
    var s, k, n := Innovation(p, r), Gain(p, r), ScalarMeasurementUpdate(p, r);
    var d := k.x * p.p3 - k.y * p.p2;
    GainEquations(p, r);
    MeasuredByGain(p, r);
    DetFromGain(p, n, s, k.x, k.y, r, d);
    GainIsProper(p, r);
    FirstEntry(p, r, k.x, k.y);
    MeasuredIsPositive(p, n, s, k.x, r, d);
    Ratio(s, d, r, Det(p));
  }

  lemma FirstEntry(p: Cov, r: real, k1: real, k2: real)
    ensures ScalarUpdateBy(p, r, k1, k2).p1 == r * k1
  {
  }

  lemma MeasuredIsPositive(p: Cov, n: Cov, s: real, x: real, r: real, d: real)
    requires s > 0.0 && r > 0.0 && 0.0 < x < 1.0
    requires Det(p) > 0.0 && Det(p) == s * d && Det(n) == r * d && n.p1 == r * x
    ensures PositiveDefinite(n) && n.p1 < r
  {
    hide Det;
    PositiveProduct(s, d, Det(p));
    PositiveProduct(r, d, Det(n));
    PositiveProduct(r, x, n.p1);
    Remainder(r, x, n.p1);
    PositiveProduct(r, 1.0 - x, r - n.p1);
    PositiveCorner(n);
  }

  lemma Ratio(s: real, d: real, r: real, z: real)
    requires s != 0.0 && z == s * d
    ensures z * (r / s) == r * d
  {
    var q := r / s;
    Quotient(r, s);
    Regroup(s, d, q, r, z);
  }

  lemma Regroup(s: real, d: real, q: real, r: real, z: real)
    requires z == s * d && s * q == r
    ensures z * q == r * d
  {
    assert z * q == d * (s * q);
  }

  lemma PositiveCorner(n: Cov)
    requires n.p1 > 0.0 && Det(n) > 0.0
    ensures n.p3 > 0.0
  {
    SquareIsNotNegative(n.p2, n.p2 * n.p2);
    PositiveProduct(n.p1, n.p3, Det(n) + n.p2 * n.p2);
  }

  // ---------------------------------------------------------------- optimality

  lemma JosephMatrix(p: Cov, k: Vec, r: real, u: real, v: real, w: real, z: real)
    requires u == p.p1 - Times(k.x, p.p1) && v == p.p2 - Times(k.x, p.p2)
    requires w == p.p2 - Times(k.y, p.p1) && z == p.p3 - Times(k.y, p.p2)
    ensures Joseph(p, k, r) == Mat(
      u - Times(u, k.x) + Times(r, Times(k.x, k.x)), v - Times(u, k.y) + Times(r, Times(k.x, k.y)),
      w - Times(w, k.x) + Times(r, Times(k.y, k.x)), z - Times(w, k.y) + Times(r, Times(k.y, k.y)))
  {
    hide Times, Mul, Sub;
    var g, m := Sub(IDENTITY, Outer(k, H)), Full(p);
    GainMatrix(k);
    GainRows(g, m, k.x, k.y);
    GainColumns(Mul(g, m), Transpose(g), k.x, k.y);
  }

  // The four entries of the difference, for the gain (x, y) given by s (x, y) = (p1, p2)
  // and any other gain (a, b); every product has a name.

  lemma JosephEntryA(s: real, x: real, a: real, p1: real, r: real, u: real,
                     ua: real, aa: real, raa: real, rx: real, e: real, ee: real, see: real)
    requires p1 == s * x && r == s - p1 && u == p1 - a * p1 && e == a - x
    requires ua == u * a && aa == a * a && raa == r * aa && rx == r * x && ee == e * e && see == s * ee
    ensures u - ua + raa - rx == see
  {
  }

  lemma JosephEntryB(s: real, x: real, y: real, a: real, b: real, p1: real, p2: real, r: real, u: real, v: real,
                     ub: real, ab: real, rab: real, ry: real, e: real, f: real, ef: real, sef: real)
    requires p1 == s * x && p2 == s * y && r == s - p1 && u == p1 - a * p1 && v == p2 - a * p2
    requires e == a - x && f == b - y
    requires ub == u * b && ab == a * b && rab == r * ab && ry == r * y && ef == e * f && sef == s * ef
    ensures v - ub + rab - ry == sef
  {
  }

  lemma JosephEntryC(s: real, x: real, y: real, a: real, b: real, p1: real, p2: real, r: real, w: real,
                     wa: real, ba: real, rba: real, ry: real, e: real, f: real, fe: real, sfe: real)
    requires p1 == s * x && p2 == s * y && r == s - p1 && w == p2 - b * p1
    requires e == a - x && f == b - y
    requires wa == w * a && ba == b * a && rba == r * ba && ry == r * y && fe == f * e && sfe == s * fe
    ensures w - wa + rba - ry == sfe
  {
  }

  lemma JosephEntryD(s: real, x: real, y: real, b: real, p1: real, p2: real, p3: real, r: real, w: real, z: real,
                     wb: real, bb: real, rbb: real, p2y: real, f: real, ff: real, sff: real)
    requires p1 == s * x && p2 == s * y && r == s - p1 && w == p2 - b * p1 && z == p3 - b * p2
    requires f == b - y
    requires wb == w * b && bb == b * b && rbb == r * bb && p2y == p2 * y && ff == f * f && sff == s * ff
    ensures z - wb + rbb - (p3 - p2y) == sff
  {
  }

  lemma JosephTimes(s: real, x: real, y: real, a: real, b: real, p: Cov, n: Cov, r: real,
                    u: real, v: real, w: real, z: real)
    requires p.p1 == s * x && p.p2 == s * y && r == s - p.p1 && n == ScalarUpdateBy(p, r, x, y)
    requires u == p.p1 - Times(a, p.p1) && v == p.p2 - Times(a, p.p2)
    requires w == p.p2 - Times(b, p.p1) && z == p.p3 - Times(b, p.p2)
    ensures u - Times(u, a) + Times(r, Times(a, a)) - n.p1 == Times(s, Times(a - x, a - x))
    ensures v - Times(u, b) + Times(r, Times(a, b)) - n.p2 == Times(s, Times(a - x, b - y))
    ensures w - Times(w, a) + Times(r, Times(b, a)) - n.p2 == Times(s, Times(b - y, a - x))
    ensures z - Times(w, b) + Times(r, Times(b, b)) - n.p3 == Times(s, Times(b - y, b - y))
  {
    var e, f := a - x, b - y;
    JosephEntryA(s, x, a, p.p1, r, u, Times(u, a), Times(a, a), Times(r, Times(a, a)), n.p1,
                 e, Times(e, e), Times(s, Times(e, e)));
    JosephEntryB(s, x, y, a, b, p.p1, p.p2, r, u, v, Times(u, b), Times(a, b), Times(r, Times(a, b)), n.p2,
                 e, f, Times(e, f), Times(s, Times(e, f)));
    JosephEntryC(s, x, y, a, b, p.p1, p.p2, r, w, Times(w, a), Times(b, a), Times(r, Times(b, a)), n.p2,
                 e, f, Times(f, e), Times(s, Times(f, e)));
    JosephEntryD(s, x, y, b, p.p1, p.p2, p.p3, r, w, z, Times(w, b), Times(b, b), Times(r, Times(b, b)),
                 p.p3 - n.p3, f, Times(f, f), Times(s, Times(f, f)));
  }

  /** For any other gain the covariance of the estimate exceeds the filter's by
      (R + p1) (K' - K) (K' - K)^T. */
  lemma GainIsOptimal(p: Cov, r: real, k': Vec)
    requires Innovation(p, r) != 0.0
    ensures var k := Gain(p, r); var d := Vec(k'.x - k.x, k'.y - k.y);
      Sub(Joseph(p, k', r), Full(ScalarMeasurementUpdate(p, r))) == Scale(Innovation(p, r), Outer(d, d))
  {
    hide Times, Joseph, Gain, ScalarUpdateBy;
    var s, k, n := Innovation(p, r), Gain(p, r), ScalarMeasurementUpdate(p, r);
    var u, v := p.p1 - Times(k'.x, p.p1), p.p2 - Times(k'.x, p.p2);
    var w, z := p.p2 - Times(k'.y, p.p1), p.p3 - Times(k'.y, p.p2);
    GainEquations(p, r);
    MeasuredByGain(p, r);
    JosephMatrix(p, k', r, u, v, w, z);
    JosephTimes(s, k.x, k.y, k'.x, k'.y, p, n, r, u, v, w, z);
  }

  lemma QuadraticSquare(s: real, a: real, b: real, x: real, y: real,
                        aa: real, ab: real, bb: real, t: real, tt: real, q: real)
    requires aa == s * (a * a) && ab == s * (a * b) && bb == s * (b * b)
    requires t == a * x + b * y && tt == t * t
    requires q == x * (aa * x + ab * y) + y * (ab * x + bb * y)
    ensures q == s * tt
  {
  }

  lemma QuadraticEntries(m: Mat, v: Vec, q: real)
    requires q == v.x * (m.a * v.x + m.b * v.y) + v.y * (m.c * v.x + m.d * v.y)
    ensures Quadratic(m, v) == q
  {
  }

  lemma ScaledOuter(s: real, d: Vec)
    ensures Scale(s, Outer(d, d)) == Mat(s * (d.x * d.x), s * (d.x * d.y), s * (d.x * d.y), s * (d.y * d.y))
  {
    assert Times(d.x, d.y) == Times(d.y, d.x);
  }

  /** A nonnegative multiple of an outer square is positive semidefinite. */
  lemma OuterSquareIsSemidefinite(s: real, d: Vec, v: Vec)
    requires s >= 0.0
    ensures Quadratic(Scale(s, Outer(d, d)), v) >= 0.0
  {
    hide Times, Scale, Outer, Quadratic;
    var m := Scale(s, Outer(d, d));
    var t := d.x * v.x + d.y * v.y;
    var q := v.x * (m.a * v.x + m.b * v.y) + v.y * (m.c * v.x + m.d * v.y);
    ScaledOuter(s, d);
    QuadraticEntries(m, v, q);
    QuadraticSquare(s, d.x, d.y, v.x, v.y, m.a, m.b, m.d, t, t * t, q);
    SquareIsNotNegative(t, t * t);
    NonnegativeProduct(s, t * t, q);
  }

  lemma NonnegativeProduct(a: real, b: real, z: real)
    requires z == a * b && a >= 0.0 && b >= 0.0
    ensures z >= 0.0
  {
  }
}
