/** Locating a user from three base stations (central_database.py): the distances
  * are exact, and the linear solver returns the solution of its system, when that
  * system has exactly one. */
module Location {
  import opened Basics
  import opened Geometry

  datatype Station = Station(at: Point, distance: real)

  /** A 2x2 system of linear equations. */
  datatype System = System(a11: real, a12: real, b1: real, a21: real, a22: real, b2: real) {
    predicate Solves(p: Point) {
      a11 * p.x + a12 * p.y == b1 && a21 * p.x + a22 * p.y == b2
    }

    function Determinant(): real {
      a11 * a22 - a12 * a21
    }
  }

  /** The differences of squared distances to the first station. */
  function Build(s1: Station, s2: Station, s3: Station): System {
    System(2.0 * (s2.at.x - s1.at.x), 2.0 * (s2.at.y - s1.at.y), Right(s1, s2),
           2.0 * (s3.at.x - s1.at.x), 2.0 * (s3.at.y - s1.at.y), Right(s1, s3))
  }

  function Right(s1: Station, s2: Station): real {
    (s2.at.x * s2.at.x - s1.at.x * s1.at.x) + (s2.at.y * s2.at.y - s1.at.y * s1.at.y)
    - (s2.distance * s2.distance - s1.distance * s1.distance)
  }

  /** The three stations lie on one line. */
  predicate Collinear(p: Point, q: Point, r: Point) {
    (q.x - p.x) * (r.y - p.y) == (q.y - p.y) * (r.x - p.x)
  }

  predicate Exact(p: Point, s: Station) {
    s.distance * s.distance == Dist2(p, s.at)
  }

  /** `np.linalg.solve`: the solution, or None when the matrix is singular. */
  function Solve(m: System): Option<Point> {
    var d := m.Determinant();
    if d == 0.0 then None
    else Some(Point((m.b1 * m.a22 - m.b2 * m.a12) / d, (m.a11 * m.b2 - m.a21 * m.b1) / d))
  }

  lemma Cramer(m: System, p: Point)
    requires m.Determinant() != 0.0
    ensures m.Solves(p) <==> Solve(m) == Some(p)
  {
    var d, q := m.Determinant(), Solve(m).value;
    var n1, n2 := m.b1 * m.a22 - m.b2 * m.a12, m.a11 * m.b2 - m.a21 * m.b1;
    assert d * q.x == n1 && d * q.y == n2;
    Combined(m.a11, m.a12, m.b1, m.a21, m.a22, m.b2, q.x, q.y);
    if m.Solves(p) {
      Eliminated(m.a11, m.a12, m.b1, m.a21, m.a22, m.b2, p.x, p.y);
      Cancel(d, p.x, q.x);
      Cancel(d, p.y, q.y);
    }
  }

  lemma Eliminated(a11: real, a12: real, b1: real, a21: real, a22: real, b2: real, x: real, y: real)
    requires a11 * x + a12 * y == b1 && a21 * x + a22 * y == b2
    ensures (a11 * a22 - a12 * a21) * x == b1 * a22 - b2 * a12
    ensures (a11 * a22 - a12 * a21) * y == a11 * b2 - a21 * b1
  {
    assert a22 * (a11 * x + a12 * y) == a22 * b1;
    assert a12 * (a21 * x + a22 * y) == a12 * b2;
    assert a21 * (a11 * x + a12 * y) == a21 * b1;
    assert a11 * (a21 * x + a22 * y) == a11 * b2;
  }

  lemma Combined(a11: real, a12: real, b1: real, a21: real, a22: real, b2: real, x: real, y: real)
    requires a11 * a22 - a12 * a21 != 0.0
    requires (a11 * a22 - a12 * a21) * x == b1 * a22 - b2 * a12
    requires (a11 * a22 - a12 * a21) * y == a11 * b2 - a21 * b1
    ensures a11 * x + a12 * y == b1 && a21 * x + a22 * y == b2
  {
    var d := a11 * a22 - a12 * a21;
    assert d * (a11 * x + a12 * y) == d * b1 by {
      assert d * (a11 * x + a12 * y) == a11 * (d * x) + a12 * (d * y);
      assert a11 * (b1 * a22 - b2 * a12) + a12 * (a11 * b2 - a21 * b1) == d * b1;
    }
    assert d * (a21 * x + a22 * y) == d * b2 by {
      assert d * (a21 * x + a22 * y) == a21 * (d * x) + a22 * (d * y);
      assert a21 * (b1 * a22 - b2 * a12) + a22 * (a11 * b2 - a21 * b1) == d * b2;
    }
    Cancel(d, a11 * x + a12 * y, b1);
    Cancel(d, a21 * x + a22 * y, b2);
  }

  lemma Cancel(d: real, x: real, y: real)
    requires d != 0.0 && d * x == d * y
    ensures x == y
  {
    ProductSign(d, x - y);
  }

  predicate Explains(p: Point, s1: Station, s2: Station) {
    2.0 * (s2.at.x - s1.at.x) * p.x + 2.0 * (s2.at.y - s1.at.y) * p.y == Right(s1, s2)
  }

  /** One row of the system says that two squared distances differ as measured. */
  lemma RowOfTruth(p: Point, s1: Station, s2: Station)
    requires Exact(p, s1) && Exact(p, s2)
    ensures Explains(p, s1, s2)
  {
    Squares(p.x, s1.at.x);
    Squares(p.x, s2.at.x);
    Squares(p.y, s1.at.y);
    Squares(p.y, s2.at.y);
  }

  lemma Squares(x: real, y: real)
    ensures (x - y) * (x - y) == x * x - 2.0 * y * x + y * y
  {
  }

  /** `find_user_location`, once the strongest stations are chosen: fewer than three
    * give the origin. */
  function FindUserLocation(strongest: seq<Station>): Option<Point> {
    if |strongest| == 3 then Solve(Build(strongest[0], strongest[1], strongest[2])) else Some(Point(0.0, 0.0))
  }

  /** The computed location is the true one, and only that, exactly when the three
    * stations do not lie on a line.  Fewer stations always give the origin. */
  lemma Trilateration(p: Point, s1: Station, s2: Station, s3: Station)
    requires Exact(p, s1) && Exact(p, s2) && Exact(p, s3)
    ensures Build(s1, s2, s3).Solves(p)
    ensures FindUserLocation([s1, s2, s3]) == if Collinear(s1.at, s2.at, s3.at) then None else Some(p)
    ensures forall few: seq<Station> :: |few| < 3 ==> FindUserLocation(few) == Some(Point(0.0, 0.0))
  {
    TruthSolves(p, s1, s2, s3);
    SolvedOnly(Build(s1, s2, s3), p);
    DeterminantIsArea(s1, s2, s3);
  }

  lemma TruthSolves(p: Point, s1: Station, s2: Station, s3: Station)
    requires Exact(p, s1) && Exact(p, s2) && Exact(p, s3)
    ensures Build(s1, s2, s3).Solves(p)
  {
    RowOfTruth(p, s1, s2);
    RowOfTruth(p, s1, s3);
    RowsSolve(p, s1, s2, s3);
  }

  lemma RowsSolve(p: Point, s1: Station, s2: Station, s3: Station)
    requires Explains(p, s1, s2) && Explains(p, s1, s3)
    ensures Build(s1, s2, s3).Solves(p)
  {
  }

  lemma SolvedOnly(m: System, p: Point)
    requires m.Solves(p)
    ensures Solve(m) == if m.Determinant() == 0.0 then None else Some(p)
  {
    if m.Determinant() != 0.0 {
      Cramer(m, p);
    }
  }

  lemma DeterminantIsArea(s1: Station, s2: Station, s3: Station)
    ensures Build(s1, s2, s3).Determinant() == 0.0 <==> Collinear(s1.at, s2.at, s3.at)
  {
    var dx2, dy2 := s2.at.x - s1.at.x, s2.at.y - s1.at.y;
    var dx3, dy3 := s3.at.x - s1.at.x, s3.at.y - s1.at.y;
    assert (2.0 * dx2) * (2.0 * dy3) == 4.0 * (dx2 * dy3);
    assert (2.0 * dy2) * (2.0 * dx3) == 4.0 * (dy2 * dx3);
  }

  /** With stations on a line no solver could do better: another position explains the
    * same measured differences. */
  lemma CollinearIsAmbiguous(p: Point, s1: Station, s2: Station, s3: Station) returns (q: Point)
    requires Build(s1, s2, s3).Solves(p) && Collinear(s1.at, s2.at, s3.at)
    ensures q != p && Build(s1, s2, s3).Solves(q)
  {
    var dx2, dy2 := s2.at.x - s1.at.x, s2.at.y - s1.at.y;
    var dx3, dy3 := s3.at.x - s1.at.x, s3.at.y - s1.at.y;
    if dx2 != 0.0 || dy2 != 0.0 {
      q := Point(p.x - dy2, p.y + dx2);
      assert 2.0 * dx2 * q.x + 2.0 * dy2 * q.y == 2.0 * dx2 * p.x + 2.0 * dy2 * p.y;
      assert 2.0 * dx3 * q.x + 2.0 * dy3 * q.y == 2.0 * dx3 * p.x + 2.0 * dy3 * p.y + 2.0 * (dy3 * dx2 - dx3 * dy2);
    } else {
      q := if dx3 != 0.0 || dy3 != 0.0 then Point(p.x - dy3, p.y + dx3) else Point(p.x + 1.0, p.y);
      assert 2.0 * dx3 * q.x + 2.0 * dy3 * q.y == 2.0 * dx3 * p.x + 2.0 * dy3 * p.y;
    }
  }

  /** Three stations and exact distances that fit one position. */
  lemma ThreeStations()
    ensures var p, s1 := Point(0.0, 3.0), Station(Point(0.0, 0.0), 3.0);
            var s2, s3 := Station(Point(4.0, 0.0), 5.0), Station(Point(0.0, 7.0), 4.0);
            && Exact(p, s1) && Exact(p, s2) && Exact(p, s3)
            && FindUserLocation([s1, s2, s3]) == Some(p)
  {
    Trilateration(Point(0.0, 3.0), Station(Point(0.0, 0.0), 3.0), Station(Point(4.0, 0.0), 5.0),
        Station(Point(0.0, 7.0), 4.0));
  }
}
