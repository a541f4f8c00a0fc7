/** When will a moving user hand over (estimator.py, central_database.py)? Exact
  * reals; the ratio `omega` of squared distances is given, and the numeric root
  * finder is taken at its word. */
module Geometry {
  import opened Basics

  datatype Point = Point(x: real, y: real)

  function Dist2(p: Point, q: Point): real {
    (p.x - q.x) * (p.x - q.x) + (p.y - q.y) * (p.y - q.y)
  }

  function Difference(p: Point, src: Point, dst: Point, omega: real): real {
    Dist2(p, src) - omega * Dist2(p, dst)
  }

  /** The hysteresis condition: the source is so much farther away than the
    * destination that the user hands over. */
  predicate Crossed(p: Point, src: Point, dst: Point, omega: real) {
    Difference(p, src, dst, omega) >= 0.0
  }

  /** On the boundary of the condition. */
  predicate JustMet(p: Point, src: Point, dst: Point, omega: real) {
    Difference(p, src, dst, omega) == 0.0
  }

  function Line(a: real, b: real, x: real): Point {
    Point(x, a * x + b)
  }

  // ------------------------------------------------------ the coefficients

  datatype Quadratic = Quadratic(a: real, b: real, c: real) {
    function At(x: real): real {
      a * x * x + b * x + c
    }

    function Discriminant(): real {
      b * b - 4.0 * a * c
    }
  }

  /** `find_hand_over_coeffs`: the coefficients after substituting the line. */
  function Coefficients(a: real, b: real, src: Point, dst: Point, omega: real): Quadratic {
    Quadratic((1.0 + a * a) * (1.0 - omega),
              2.0 * (a * (b - src.y) - src.x) - omega * (2.0 * (a * (b - dst.y) - dst.x)),
              src.x * src.x + (b - src.y) * (b - src.y) - omega * (dst.x * dst.x + (b - dst.y) * (b - dst.y)))
  }

  lemma DistanceOnLine(a: real, b: real, q: Point, x: real)
    ensures Dist2(Line(a, b, x), q) ==
            (1.0 + a * a) * x * x + 2.0 * (a * (b - q.y) - q.x) * x + (q.x * q.x + (b - q.y) * (b - q.y))
  {
    var c := b - q.y;
    assert (x - q.x) * (x - q.x) == x * x - 2.0 * q.x * x + q.x * q.x;
    assert a * x + b - q.y == a * x + c;
    assert (a * x + c) * (a * x + c) == a * a * x * x + 2.0 * a * c * x + c * c by {
      assert (a * x + c) * (a * x + c) == a * x * (a * x) + 2.0 * (a * x) * c + c * c;
    }
  }

  /** The expanded polynomial is the hysteresis difference on the line. */
  lemma Expansion(a: real, b: real, src: Point, dst: Point, omega: real, x: real)
    ensures Difference(Line(a, b, x), src, dst, omega) == Coefficients(a, b, src, dst, omega).At(x)
  {
    DistanceOnLine(a, b, src, x);
    DistanceOnLine(a, b, dst, x);
    var k := 1.0 + a * a;
    var b1, c1 := 2.0 * (a * (b - src.y) - src.x), src.x * src.x + (b - src.y) * (b - src.y);
    var b2, c2 := 2.0 * (a * (b - dst.y) - dst.x), dst.x * dst.x + (b - dst.y) * (b - dst.y);
    Combine(k, b1, c1, b2, c2, omega, x);
  }

  lemma Combine(k: real, b1: real, c1: real, b2: real, c2: real, omega: real, x: real)
    ensures (k * x * x + b1 * x + c1) - omega * (k * x * x + b2 * x + c2) ==
            Quadratic(k * (1.0 - omega), b1 - omega * b2, c1 - omega * c2).At(x)
  {
    assert k * (1.0 - omega) * x * x == k * x * x - omega * (k * x * x);
    assert (b1 - omega * b2) * x == b1 * x - omega * (b2 * x);
  }

  /** `q` gives the hysteresis difference along the line, and opens downwards. */
  ghost predicate Describes(q: Quadratic, a: real, b: real, src: Point, dst: Point, omega: real) {
    && q.a < 0.0
    && forall x :: Difference(Line(a, b, x), src, dst, omega) == q.At(x)
  }

  lemma CoefficientsDescribe(a: real, b: real, src: Point, dst: Point, omega: real)
    requires omega > 1.0
    ensures Describes(Coefficients(a, b, src, dst, omega), a, b, src, dst, omega)
  {
    LeadingNegative(a, omega);
    forall x
      ensures Difference(Line(a, b, x), src, dst, omega) == Coefficients(a, b, src, dst, omega).At(x)
    {
      Expansion(a, b, src, dst, omega, x);
    }
  }

  // -------------------------------------------------------------- the roots

  /** The answer of the root finder: two real roots, or a complex pair. */
  datatype Roots = Complex | Real(first: real, second: real)

  /** What a root finder promises for a polynomial of degree two. */
  predicate IsRoots(q: Quadratic, r: Roots) {
    match r
    case Complex => q.Discriminant() < 0.0
    case Real(r1, r2) => q.a * (r1 + r2) == -q.b && q.a * r1 * r2 == q.c
  }

  lemma Factored(q: Quadratic, r1: real, r2: real, x: real)
    requires IsRoots(q, Real(r1, r2))
    ensures q.At(x) == q.a * ((x - r1) * (x - r2))
  {
    assert (x - r1) * (x - r2) == x * x - (r1 + r2) * x + r1 * r2;
    calc {
      q.a * ((x - r1) * (x - r2));
      q.a * (x * x) - q.a * ((r1 + r2) * x) + q.a * (r1 * r2);
      { assert q.a * ((r1 + r2) * x) == (q.a * (r1 + r2)) * x; }
      q.At(x);
    }
  }

  /** The rule of signs. */
  lemma ProductSign(x: real, y: real)
    ensures x * y > 0.0 <==> (x > 0.0 && y > 0.0) || (x < 0.0 && y < 0.0)
    ensures x * y == 0.0 <==> x == 0.0 || y == 0.0
  {
    if x < 0.0 {
      assert x * y == -((-x) * y);
      PositiveTimes(-x, y);
    } else if x > 0.0 {
      PositiveTimes(x, y);
    }
  }

  lemma PositiveTimes(x: real, y: real)
    requires x > 0.0
    ensures x * y > 0.0 <==> y > 0.0
    ensures x * y == 0.0 <==> y == 0.0
  {
    if y < 0.0 {
      assert x * (-y) > 0.0;
      assert x * y == -(x * (-y));
    }
  }

  lemma NoRealRoot(q: Quadratic, x: real)
    requires q.a < 0.0 && q.Discriminant() < 0.0
    ensures q.At(x) < 0.0
  {
    var s := 2.0 * q.a * x + q.b;
    assert 4.0 * q.a * q.At(x) == s * s - q.Discriminant() by {
      assert s * s == 4.0 * q.a * q.a * x * x + 4.0 * q.a * q.b * x + q.b * q.b;
    }
    ProductSign(s, s);
    ProductSign(4.0 * q.a, q.At(x));
  }

  function Min(a: real, b: real): real {
    if a <= b then a else b
  }

  function Max(a: real, b: real): real {
    if a <= b then b else a
  }

  /** A product of two signed distances is at most zero exactly in between. */
  lemma BetweenZeros(x: real, r1: real, r2: real)
    ensures (x - r1) * (x - r2) <= 0.0 <==> Min(r1, r2) <= x <= Max(r1, r2)
    ensures (x - r1) * (x - r2) == 0.0 <==> x == r1 || x == r2
  {
    ProductSign(x - r1, x - r2);
  }

  lemma LeadingNegative(a: real, omega: real)
    requires omega > 1.0
    ensures (1.0 + a * a) * (1.0 - omega) < 0.0
  {
    ProductSign(a, a);
    ProductSign(1.0 + a * a, omega - 1.0);
  }

  /** `find_handover_points`: where the line meets the circle; None without a real
    * solution. */
  function HandoverPoints(a: real, b: real, r: Roots): Option<(Point, Point)> {
    match r
    case Complex => None
    case Real(r1, r2) => Some((Line(a, b, r1), Line(a, b, r2)))
  }

  /** On the line, the hysteresis condition holds exactly between the two points, it
    * is only just met at them, and without points it holds nowhere. */
  lemma CrossedBetween(a: real, b: real, src: Point, dst: Point, omega: real, r: Roots, x: real)
    requires omega > 1.0 && IsRoots(Coefficients(a, b, src, dst, omega), r)
    ensures Crossed(Line(a, b, x), src, dst, omega) <==> WithinPoints(HandoverPoints(a, b, r), x)
    ensures JustMet(Line(a, b, x), src, dst, omega) <==> AtPoint(HandoverPoints(a, b, r), Line(a, b, x))
  {
    CoefficientsDescribe(a, b, src, dst, omega);
    DescribedBetween(Coefficients(a, b, src, dst, omega), a, b, src, dst, omega, r, x);
  }

  lemma DescribedBetween(q: Quadratic, a: real, b: real, src: Point, dst: Point, omega: real, r: Roots, x: real)
    requires Describes(q, a, b, src, dst, omega) && IsRoots(q, r)
    ensures Crossed(Line(a, b, x), src, dst, omega) <==> WithinPoints(HandoverPoints(a, b, r), x)
    ensures JustMet(Line(a, b, x), src, dst, omega) <==> AtPoint(HandoverPoints(a, b, r), Line(a, b, x))
  {
    SignBetween(q, r, x);
  }

  predicate WithinPoints(points: Option<(Point, Point)>, x: real) {
    points.Some? && Min(points.value.0.x, points.value.1.x) <= x <= Max(points.value.0.x, points.value.1.x)
  }

  predicate AtPoint(points: Option<(Point, Point)>, p: Point) {
    points.Some? && (p == points.value.0 || p == points.value.1)
  }

  lemma SignBetween(q: Quadratic, r: Roots, x: real)
    requires q.a < 0.0 && IsRoots(q, r)
    ensures q.At(x) >= 0.0 <==> r.Real? && Min(r.first, r.second) <= x <= Max(r.first, r.second)
    ensures q.At(x) == 0.0 <==> r.Real? && (x == r.first || x == r.second)
  {
    match r
    case Complex =>
      NoRealRoot(q, x);
    case Real(r1, r2) =>
      Factored(q, r1, r2, x);
      ProductSign(q.a, (x - r1) * (x - r2));
      BetweenZeros(x, r1, r2);
  }

  // ------------------------------------------------------------ travel time

  const EPS := 0.00001

  predicate Approx(a: real, b: real) {
    -EPS < a - b < EPS
  }

  datatype Outcome<T> = Returned(value: T) | ValueError

  function TravelTime(d: real, v: real): Option<real> {
    if Approx(v, 0.0) then None else Some(d / v)
  }

  /** `find_remain_time`. */
  function RemainTime(pos: Point, target: Point, velocity: Point): Outcome<Option<real>> {
    var tx := TravelTime(target.x - pos.x, velocity.x);
    var ty := TravelTime(target.y - pos.y, velocity.y);
    if tx.None? && Approx(target.x, pos.x) then Returned(ty)
    else if ty.None? && Approx(target.y, pos.y) then Returned(tx)
    else if tx == ty then Returned(tx)
    else ValueError
  }

  /** `estimate_new_position`. */
  function NewPosition(pos: Point, velocity: Point, t: real): Point {
    Point(pos.x + velocity.x * t, pos.y + velocity.y * t)
  }

  /** The order in which times are sorted: a missing time comes first. */
  predicate Before(s: Option<real>, t: Option<real>) {
    s.None? || (t.Some? && s.value <= t.value)
  }

  /** A missing time is never `>= 0`. */
  predicate Future(t: Option<real>) {
    t.Some? && t.value >= 0.0
  }

  /** `get_handover_time`. */
  function HandoverTime(a: real, b: real, pos: Point, velocity: Point, r: Roots): Outcome<Option<real>> {
    var points := HandoverPoints(a, b, r);
    if points.None? then Returned(None)
    else
      var first := RemainTime(pos, points.value.0, velocity);
      var second := RemainTime(pos, points.value.1, velocity);
      if first.ValueError? || second.ValueError? then ValueError
      else
        var (t0, t1) := if Before(first.value, second.value) then (first.value, second.value)
                        else (second.value, first.value);
        if Future(t0) then Returned(t0) else if Future(t1) then Returned(t1) else Returned(None)
  }

  /** A user at `pos` who moves along the line y = ax + b, in each direction either
    * not at all or fast enough to be told from standing. */
  ghost predicate MovesAlong(a: real, b: real, pos: Point, velocity: Point) {
    && pos == Line(a, b, pos.x)
    && velocity.y == a * velocity.x
    && (velocity.x == 0.0 || !Approx(velocity.x, 0.0))
    && (velocity.y == 0.0 || !Approx(velocity.y, 0.0))
  }

  lemma StaysOnLine(a: real, b: real, pos: Point, velocity: Point, t: real)
    requires MovesAlong(a, b, pos, velocity)
    ensures NewPosition(pos, velocity, t) == Line(a, b, pos.x + velocity.x * t)
  {
    assert a * (pos.x + velocity.x * t) == a * pos.x + a * velocity.x * t;
  }

  lemma Quotient(n: real, d: real, q: real)
    requires d != 0.0 && d * q == n
    ensures n / d == q
  {
    assert d * (n / d) == n;
    ProductSign(d, n / d - q);
  }

  /** A speed below 0.00001 metres per second, in one direction. */
  predicate Stands(v: real) {
    -0.00001 < v < 0.00001
  }

  /** A user that moves in both directions reaches exactly the points that lie in the
    * direction of its move, or behind it, and at the time that is given. One that moves in
    * a single direction may miss the point by less than 0.00001 metres in the other one.
    * One that stands reaches every point at no time. */
  lemma RemainTimeExactly(pos: Point, target: Point, v: Point)
    ensures var r, dx, dy := RemainTime(pos, target, v), target.x - pos.x, target.y - pos.y;
            && (Stands(v.x) && Stands(v.y) ==> r == Returned(None))
            && (Stands(v.x) && !Stands(v.y) ==>
                  r == if -0.00001 < dx < 0.00001 then Returned(Some(dy / v.y)) else ValueError)
            && (!Stands(v.x) && Stands(v.y) ==>
                  r == if -0.00001 < dy < 0.00001 then Returned(Some(dx / v.x)) else ValueError)
            && (!Stands(v.x) && !Stands(v.y) ==>
                  && (r.Returned? <==> dx * v.y == dy * v.x)
                  && (r.Returned? ==> r.value.Some? && NewPosition(pos, v, r.value.value) == target))
  {
    var dx, dy := target.x - pos.x, target.y - pos.y;
    if !Stands(v.x) && !Stands(v.y) {
      var tx, ty := dx / v.x, dy / v.y;
      assert v.x * tx == dx && v.y * ty == dy;
      SameTime(dx, dy, v.x, v.y);
    }
  }

  lemma SameTime(dx: real, dy: real, vx: real, vy: real)
    requires vx != 0.0 && vy != 0.0
    ensures dx / vx == dy / vy <==> dx * vy == dy * vx
  {
    var tx, ty := dx / vx, dy / vy;
    assert vx * tx == dx && vy * ty == dy;
    assert dx * vy == (vx * tx) * vy == (vx * vy) * tx;
    assert dy * vx == (vy * ty) * vx == (vx * vy) * ty;
    if dx * vy == dy * vx {
      ProductSign(vx * vy, tx - ty);
    }
  }

  /** The travel time to a point of the line, by either coordinate. */
  lemma RemainTimeOnLine(a: real, b: real, pos: Point, velocity: Point, x: real)
    requires MovesAlong(a, b, pos, velocity)
    ensures RemainTime(pos, Line(a, b, x), velocity) ==
            Returned(if velocity.x == 0.0 then None else Some((x - pos.x) / velocity.x))
  {
    var dx := x - pos.x;
    assert a * x + b - pos.y == a * dx;
    if velocity.x != 0.0 {
      if velocity.y == 0.0 {
        assert a == 0.0;
      } else {
        assert a != 0.0;
        var q := dx / velocity.x;
        assert velocity.x * q == dx;
        assert velocity.y * q == a * dx by { assert (a * velocity.x) * q == a * (velocity.x * q); }
        Quotient(a * dx, velocity.y, q);
      }
    }
  }

  /** A condition on positions, and its boundary. */
  datatype Condition = Condition(holds: Point -> bool, met: Point -> bool)

  function Hysteresis(src: Point, dst: Point, omega: real): Condition {
    Condition(p => Crossed(p, src, dst, omega), p => JustMet(p, src, dst, omega))
  }

  /** The condition holds along the line exactly between the roots, and nowhere when
    * there are none. */
  ghost predicate HoldsBetween(c: Condition, a: real, b: real, r: Roots) {
    forall x ::
      && (c.holds(Line(a, b, x)) <==> r.Real? && Min(r.first, r.second) <= x <= Max(r.first, r.second))
      && (c.met(Line(a, b, x)) <==> r.Real? && (x == r.first || x == r.second))
  }

  lemma HysteresisHoldsBetween(a: real, b: real, src: Point, dst: Point, omega: real, r: Roots)
    requires omega > 1.0 && IsRoots(Coefficients(a, b, src, dst, omega), r)
    ensures HoldsBetween(Hysteresis(src, dst, omega), a, b, r)
  {
    var c := Hysteresis(src, dst, omega);
    forall x
      ensures c.holds(Line(a, b, x)) <==> r.Real? && Min(r.first, r.second) <= x <= Max(r.first, r.second)
      ensures c.met(Line(a, b, x)) <==> r.Real? && (x == r.first || x == r.second)
    {
      CrossedBetween(a, b, src, dst, omega, r, x);
    }
  }

  /** Over time, such a condition holds exactly between the two travel times. */
  lemma HoldsOverTime(c: Condition, a: real, b: real, pos: Point, velocity: Point, r: Roots, t: real)
    requires HoldsBetween(c, a, b, r) && r.Real?
    requires MovesAlong(a, b, pos, velocity) && velocity.x != 0.0
    ensures var t1, t2 := (r.first - pos.x) / velocity.x, (r.second - pos.x) / velocity.x;
            && (c.holds(NewPosition(pos, velocity, t)) <==> Min(t1, t2) <= t <= Max(t1, t2))
            && (c.met(NewPosition(pos, velocity, t)) <==> t == t1 || t == t2)
  {
    StaysOnLine(a, b, pos, velocity, t);
    HoldsAt(c, a, b, r, NewPosition(pos, velocity, t));
    InTime(velocity.x, pos.x, r.first, r.second, t);
  }

  lemma HoldsAt(c: Condition, a: real, b: real, r: Roots, p: Point)
    requires HoldsBetween(c, a, b, r) && r.Real? && p == Line(a, b, p.x)
    ensures c.holds(p) <==> Min(r.first, r.second) <= p.x <= Max(r.first, r.second)
    ensures c.met(p) <==> p.x == r.first || p.x == r.second
  {
  }

  /** Being between two points is being between the times of reaching them. */
  lemma InTime(v: real, x0: real, r1: real, r2: real, t: real)
    requires v != 0.0
    ensures var x, t1, t2 := x0 + v * t, (r1 - x0) / v, (r2 - x0) / v;
            && (Min(r1, r2) <= x <= Max(r1, r2) <==> Min(t1, t2) <= t <= Max(t1, t2))
            && (x == r1 <==> t == t1) && (x == r2 <==> t == t2)
  {
    var x, t1, t2 := x0 + v * t, (r1 - x0) / v, (r2 - x0) / v;
    BetweenZeros(x, r1, r2);
    BetweenZeros(t, t1, t2);
    assert x - r1 == v * (t - t1) by { assert v * t1 == r1 - x0; }
    assert x - r2 == v * (t - t2) by { assert v * t2 == r2 - x0; }
    Scaled(v, t - t1, t - t2);
  }

  lemma Scaled(v: real, s1: real, s2: real)
    requires v != 0.0
    ensures (v * s1) * (v * s2) <= 0.0 <==> s1 * s2 <= 0.0
    ensures v * s1 == 0.0 <==> s1 == 0.0
    ensures v * s2 == 0.0 <==> s2 == 0.0
  {
    assert (v * s1) * (v * s2) == (v * v) * (s1 * s2);
    ProductSign(v, v);
    ProductSign(v * v, s1 * s2);
    ProductSign(v, s1);
    ProductSign(v, s2);
  }

  /** The first moment, from now on, in which the boundary is met. */
  ghost predicate IsFirst(met: real -> bool, answer: Option<real>) {
    match answer
    case None => forall t | t >= 0.0 :: !met(t)
    case Some(t0) => t0 >= 0.0 && met(t0) && forall t | 0.0 <= t < t0 :: !met(t)
  }

  /** The condition keeps today's value until the answer, and for ever without one. If
    * it holds today, the answer is the moment it ends for good. */
  ghost predicate KeptUntil(holds: real -> bool, answer: Option<real>) {
    && (forall t | t >= 0.0 && (answer.Some? ==> t < answer.value) :: holds(t) == holds(0.0))
    && (answer.Some? ==> holds(answer.value))
    && (answer.Some? && answer.value > 0.0 && holds(0.0) ==> forall t | t > answer.value :: !holds(t))
  }

  /** The earlier of two times that is not over yet. */
  function NextOf(t1: real, t2: real): Option<real> {
    if Min(t1, t2) >= 0.0 then Some(Min(t1, t2)) else if Max(t1, t2) >= 0.0 then Some(Max(t1, t2)) else None
  }

  lemma AnswerOfMoving(a: real, b: real, pos: Point, velocity: Point, r: Roots)
    requires r.Real? && MovesAlong(a, b, pos, velocity)
    ensures HandoverTime(a, b, pos, velocity, r) ==
            Returned(if velocity.x == 0.0 then None
                     else NextOf((r.first - pos.x) / velocity.x, (r.second - pos.x) / velocity.x))
  {
    RemainTimeOnLine(a, b, pos, velocity, r.first);
    RemainTimeOnLine(a, b, pos, velocity, r.second);
  }

  lemma NextOfIsFirst(holds: real -> bool, met: real -> bool, t1: real, t2: real)
    requires forall t :: holds(t) <==> Min(t1, t2) <= t <= Max(t1, t2)
    requires forall t :: met(t) <==> t == t1 || t == t2
    ensures KeptUntil(holds, NextOf(t1, t2)) && IsFirst(met, NextOf(t1, t2))
  {
  }

  lemma Unmoved(pos: Point, t: real)
    ensures NewPosition(pos, Point(0.0, 0.0), t) == pos
  {
  }

  /** What `get_handover_time` answers about a condition that holds between the roots. */
  lemma FirstChange(c: Condition, a: real, b: real, pos: Point, velocity: Point, r: Roots)
    requires HoldsBetween(c, a, b, r) && MovesAlong(a, b, pos, velocity)
    ensures var answer := HandoverTime(a, b, pos, velocity, r);
            answer.Returned? && Foretold(c, pos, velocity, answer.value)
  {
    var holds := t => c.holds(NewPosition(pos, velocity, t));
    var met := t => c.met(NewPosition(pos, velocity, t));
    if r.Complex? {
      forall t
        ensures !holds(t) && !met(t)
      {
        StaysOnLine(a, b, pos, velocity, t);
      }
    } else {
      AnswerOfMoving(a, b, pos, velocity, r);
      if velocity.x != 0.0 {
        var t1, t2 := (r.first - pos.x) / velocity.x, (r.second - pos.x) / velocity.x;
        forall t
          ensures holds(t) <==> Min(t1, t2) <= t <= Max(t1, t2)
          ensures met(t) <==> t == t1 || t == t2
        {
          HoldsOverTime(c, a, b, pos, velocity, r, t);
        }
        NextOfIsFirst(holds, met, t1, t2);
      } else {
        assert velocity == Point(0.0, 0.0);
        forall t
          ensures NewPosition(pos, velocity, t) == pos
        {
          Unmoved(pos, t);
        }
      }
    }
  }

  /** The answer tells the future of a condition: a moving user meets its boundary then
    * and not before; until then, or for ever, the condition keeps its value. */
  ghost predicate Foretold(c: Condition, pos: Point, velocity: Point, answer: Option<real>) {
    && KeptUntil(t => c.holds(NewPosition(pos, velocity, t)), answer)
    && if velocity == Point(0.0, 0.0) then answer.None?
       else IsFirst(t => c.met(NewPosition(pos, velocity, t)), answer)
  }

  /** The main theorem: the answer is the first crossing, and nothing changes before. */
  lemma HandoverTimeIsFirst(a: real, b: real, src: Point, dst: Point, omega: real, pos: Point, velocity: Point,
                            r: Roots)
    requires omega > 1.0 && IsRoots(Coefficients(a, b, src, dst, omega), r)
    requires MovesAlong(a, b, pos, velocity)
    ensures var answer := HandoverTime(a, b, pos, velocity, r);
            answer.Returned? && Foretold(Hysteresis(src, dst, omega), pos, velocity, answer.value)
  {
    HysteresisHoldsBetween(a, b, src, dst, omega, r);
    FirstChange(Hysteresis(src, dst, omega), a, b, pos, velocity, r);
  }

  /** A user at the origin walks one metre a second towards a destination three metres
    * away, with omega 4: the handover comes after two seconds. */
  lemma WalkingTowards()
    ensures var src, dst := Point(0.0, 0.0), Point(3.0, 0.0);
            && IsRoots(Coefficients(0.0, 0.0, src, dst, 4.0), Real(6.0, 2.0))
            && MovesAlong(0.0, 0.0, src, Point(1.0, 0.0))
            && HandoverTime(0.0, 0.0, src, Point(1.0, 0.0), Real(6.0, 2.0)) == Returned(Some(2.0))
  {
    var q := Coefficients(0.0, 0.0, Point(0.0, 0.0), Point(3.0, 0.0), 4.0);
    assert q == Quadratic(-3.0, 24.0, -36.0);
    RemainTimeOnLine(0.0, 0.0, Point(0.0, 0.0), Point(1.0, 0.0), 6.0);
    RemainTimeOnLine(0.0, 0.0, Point(0.0, 0.0), Point(1.0, 0.0), 2.0);
  }
}
