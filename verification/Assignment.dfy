/** The optimization planner (optimization_planner.py, stats_edge.py).
  *
  * The solver is taken at its word: it answers with an optimal feasible point, or
  * says that it has none.
  */
module Assignment {
  import opened Basics
  import opened Sums

  datatype Triple = Triple(user: string, server: string, bts: string)

  datatype Place = Place(bts: string, server: string)

  /** The variables of the problem, one for each triple. */
  type Point = Triple -> int

  /** What the planner reads from the database. */
  datatype Stats = Stats(
    users: seq<string>,
    servers: seq<string>,
    bss: seq<string>,
    current: map<string, Place>,
    neighbours: string -> set<string>,
    requests: string -> real,
    cpu: string -> real, ram: string -> real, disk: string -> real,
    cpuOf: string -> real, ramOf: string -> real, diskOf: string -> real,
    dataSize: string -> real,
    bandwidth: Triple -> real,
    rtt: Place -> real,
    procDelay: Triple -> Option<real>,
    migTime: (string, string, string) -> Option<real>)

  const MAX_ASSOC_USERS := 200

  ghost predicate WellFormed(st: Stats) {
    Distinct(st.users) && Distinct(st.servers) && Distinct(st.bss)
  }

  // ------------------------------------------------------------ objective

  /** `get_delta_delay`, in microseconds; None when it raises or is None. */
  function DeltaDelay(st: Stats, u: string, s: string, s2: string, b: string, b2: string): Option<real> {
    if s == s2 && b == b2 then Some(0.0)
    else
      var curCap, nextCap := st.cpuOf(s), st.cpuOf(s2);
      var curBw, nextBw := st.bandwidth(Triple(u, s, b)), st.bandwidth(Triple(u, s2, b2));
      var delay := st.procDelay(Triple(u, s, b));
      if delay.None? || nextCap == 0.0 || curBw == 0.0 || nextBw == 0.0 then None
      else
        var process := delay.value * (1.0 - curCap / nextCap);
        var prop := st.dataSize(u) * 8.0 * (1.0 / curBw - 1.0 / nextBw)
                    + (st.rtt(Place(b, s)) - st.rtt(Place(b2, s2)));
        Some(prop + process * 1000.0)
  }

  /** `get_est_handover_time`, in seconds. */
  function HandoverTime(b: string, b2: string): real {
    if b == b2 then 0.0 else 0.5
  }

  /** `get_est_mig_time`, in seconds. */
  function MigrationTime(st: Stats, u: string, s: string, s2: string): Option<real> {
    if s == s2 then Some(0.0) else st.migTime(u, s, s2)
  }

  function Max(a: real, b: real): real {
    if a >= b then a else b
  }

  /** `get_downtime`, in microseconds. */
  function Downtime(st: Stats, u: string, s: string, s2: string, b: string, b2: string): Option<real> {
    var mig := MigrationTime(st, u, s, s2);
    if mig.None? then None else Some(Max(mig.value, HandoverTime(b, b2)) * 1000000.0)
  }

  /** What user `u` gains by moving from (s, b) to (s2, b2). */
  function Gain(st: Stats, u: string, s: string, b: string, s2: string, b2: string): Option<real> {
    var delta, down := DeltaDelay(st, u, s, s2, b, b2), Downtime(st, u, s, s2, b, b2);
    if delta.None? || down.None? then None else Some(delta.value * st.requests(u) - down.value)
  }

  lemma StayingScoresZero(st: Stats, u: string, s: string, b: string)
    ensures Gain(st, u, s, b, s, b) == Some(0.0)
  {
  }

  /** `cur_assign`. */
  function Current(st: Stats): Point {
    (t: Triple) => if Get(st.current, t.user) == Some(Place(t.bts, t.server)) then 1 else 0
  }

  predicate Blacklisted(st: Stats, t: Triple) {
    t.bts !in st.neighbours(t.user)
  }

  /** The users the planner decides about: those with some neighbour. */
  function Movable(st: Stats, us: seq<string>): (r: seq<string>)
    ensures forall u :: u in r <==> u in us && st.neighbours(u) != {}
  {
    if us == [] then []
    else (if st.neighbours(us[0]) != {} then [us[0]] else []) + Movable(st, us[1..])
  }

  lemma {:induction false} MovableDistinct(st: Stats, us: seq<string>)
    requires Distinct(us)
    ensures Distinct(Movable(st, us))
  {
    if us == [] {
    } else {
      MovableDistinct(st, us[1..]);
      assert us[0] !in us[1..];
    }
  }

  /** One summand of the objective; a gain that cannot be computed counts nothing
    * here, because the planner then gives up before it asks the solver. */
  function Term(st: Stats, x: Point, u: string, s: string, b: string, s2: string, b2: string): real {
    var g := Gain(st, u, s, b, s2, b2);
    if Blacklisted(st, Triple(u, s2, b2)) || g.None? then 0.0
    else g.value * (Current(st)(Triple(u, s, b)) as real) * (x(Triple(u, s2, b2)) as real)
  }

  function TargetsAt(st: Stats, x: Point, u: string, s: string, b: string, s2: string): real {
    Sum(st.bss, b2 => Term(st, x, u, s, b, s2, b2))
  }

  function Targets(st: Stats, x: Point, u: string, s: string, b: string): real {
    Sum(st.servers, s2 => TargetsAt(st, x, u, s, b, s2))
  }

  /** What the moves of user `u` away from (s, b) are worth. */
  function Part(st: Stats, x: Point, s: string, b: string, u: string): real {
    if Current(st)(Triple(u, s, b)) == 0 then 0.0 else Targets(st, x, u, s, b)
  }

  function PlacePart(st: Stats, us: seq<string>, x: Point, s: string, b: string): real {
    Sum(us, u => Part(st, x, s, b, u))
  }

  function ServerPart(st: Stats, us: seq<string>, x: Point, s: string): real {
    Sum(st.bss, b => PlacePart(st, us, x, s, b))
  }

  /** The objective function, over the users `us`. */
  function Profit(st: Stats, us: seq<string>, x: Point): real {
    Sum(st.servers, s => ServerPart(st, us, x, s))
  }

  // ---------------------------------------------------------- constraints

  function PlacesOf(st: Stats, x: Point, u: string): int {
    Total(st.servers, s => Total(st.bss, b => x(Triple(u, s, b))))
  }

  /** The resource use a constraint adds up at server `s`. */
  function Use(st: Stats, us: seq<string>, x: Point, s: string, need: string -> real): real {
    Sum(us, u => Sum(st.bss, b => (x(Triple(u, s, b)) as real) * need(u)))
  }

  function Users(st: Stats, us: seq<string>, x: Point, b: string): int {
    Total(us, u => Total(st.servers, s => x(Triple(u, s, b))))
  }

  /** The six constraints, over binary variables. */
  ghost predicate Feasible(st: Stats, us: seq<string>, x: Point) {
    && (forall t: Triple :: x(t) == 0 || x(t) == 1)
    && (forall u | u in us :: PlacesOf(st, x, u) == 1)
    && (forall s | s in st.servers :: Use(st, us, x, s, st.cpu) <= st.cpuOf(s))
    && (forall s | s in st.servers :: Use(st, us, x, s, st.ram) <= st.ramOf(s))
    && (forall s | s in st.servers :: Use(st, us, x, s, st.disk) <= st.diskOf(s))
    && (forall u, s, b | u in us && s in st.servers && b in st.bss && Blacklisted(st, Triple(u, s, b)) ::
          x(Triple(u, s, b)) == 0)
    && (forall b | b in st.bss :: Users(st, us, x, b) <= MAX_ASSOC_USERS)
  }

  ghost predicate IsOptimal(st: Stats, us: seq<string>, x: Point) {
    Feasible(st, us, x) && forall y | Feasible(st, us, y) :: Profit(st, us, y) <= Profit(st, us, x)
  }

  // ------------------------------------------------ what a solution means

  /** The point puts user `u` at `p`, and nowhere else. */
  predicate Chosen(st: Stats, x: Point, u: string, p: Place) {
    && p.server in st.servers && p.bts in st.bss && x(Triple(u, p.server, p.bts)) == 1
    && forall s, b | s in st.servers && b in st.bss && Place(b, s) != p :: x(Triple(u, s, b)) == 0
  }

  /** The first constraint means exactly one server and one base station. */
  lemma OnePlace(st: Stats, us: seq<string>, x: Point, u: string) returns (p: Place)
    requires WellFormed(st) && Feasible(st, us, x) && u in us
    ensures Chosen(st, x, u, p) && p.bts in st.neighbours(u)
    ensures forall q | Chosen(st, x, u, q) :: q == p
  {
    var at := s => Total(st.bss, b => x(Triple(u, s, b)));
    forall s | s in st.servers
      ensures at(s) >= 0
      ensures at(s) == 0 ==> forall b | b in st.bss :: x(Triple(u, s, b)) == 0
    {
      TotalNonNegative(st.bss, b => x(Triple(u, s, b)));
    }
    TotalEqual(st.servers, s => Total(st.bss, b => x(Triple(u, s, b))), at);
    var s := TotalOne(st.servers, at);
    var b := TotalOne(st.bss, b => x(Triple(u, s, b)));
    p := Place(b, s);
  }

  /** Adding up `x * need` over the base stations of a server gives the whole need
    * of a user who is placed there and nothing of one who is not. */
  lemma UseOfUser(st: Stats, x: Point, u: string, p: Place, s: string, need: string -> real)
    requires WellFormed(st) && Chosen(st, x, u, p) && s in st.servers
    ensures Sum(st.bss, b => (x(Triple(u, s, b)) as real) * need(u)) == if p.server == s then need(u) else 0.0
  {
    var f := b => (x(Triple(u, s, b)) as real) * need(u);
    forall b | b in st.bss && Place(b, s) != p
      ensures f(b) == 0.0
    {
    }
    if p.server == s {
      SumAt(st.bss, f, p.bts);
    } else {
      SumZero(st.bss, f);
    }
  }

  /** What the placements themselves use of a server. */
  function Load(us: seq<string>, place: map<string, Place>, s: string, need: string -> real): real {
    Sum(us, u => if u in place && place[u].server == s then need(u) else 0.0)
  }

  function Attached(us: seq<string>, place: map<string, Place>, b: string): int {
    Total(us, u => if u in place && place[u].bts == b then 1 else 0)
  }

  lemma UseIsLoad(st: Stats, us: seq<string>, x: Point, place: map<string, Place>, s: string, need: string -> real)
    requires WellFormed(st) && s in st.servers
    requires forall u | u in us :: u in place && Chosen(st, x, u, place[u])
    ensures Use(st, us, x, s, need) == Load(us, place, s, need)
  {
    var f := u => Sum(st.bss, b => (x(Triple(u, s, b)) as real) * need(u));
    var g := u => if u in place && place[u].server == s then need(u) else 0.0;
    forall u | u in us
      ensures f(u) == g(u)
    {
      UseOfUser(st, x, u, place[u], s, need);
    }
    SumEqual(us, f, g);
    SumEqual(us, u => Sum(st.bss, b => (x(Triple(u, s, b)) as real) * need(u)), f);
    SumEqual(us, u => if u in place && place[u].server == s then need(u) else 0.0, g);
  }

  lemma UsersAreAttached(st: Stats, us: seq<string>, x: Point, place: map<string, Place>, b: string)
    requires WellFormed(st) && b in st.bss
    requires forall u | u in us :: u in place && Chosen(st, x, u, place[u])
    ensures Users(st, us, x, b) == Attached(us, place, b)
  {
    var f := u => Total(st.servers, s => x(Triple(u, s, b)));
    var g := u => if u in place && place[u].bts == b then 1 else 0;
    forall u | u in us
      ensures f(u) == g(u)
    {
      var at := s => x(Triple(u, s, b));
      if place[u].bts == b {
        TotalAt(st.servers, at, place[u].server);
      } else {
        TotalZero(st.servers, at);
      }
    }
    TotalEqual(us, f, g);
    TotalEqual(us, u => Total(st.servers, s => x(Triple(u, s, b))), f);
    TotalEqual(us, u => if u in place && place[u].bts == b then 1 else 0, g);
  }

  /** What the placements use stays within every server and every base station. */
  ghost predicate WithinLimits(st: Stats, us: seq<string>, place: map<string, Place>) {
    && (forall s | s in st.servers :: Load(us, place, s, st.cpu) <= st.cpuOf(s) &&
          Load(us, place, s, st.ram) <= st.ramOf(s) && Load(us, place, s, st.disk) <= st.diskOf(s))
    && (forall b | b in st.bss :: Attached(us, place, b) <= MAX_ASSOC_USERS)
  }

  lemma FeasibleWithinLimits(st: Stats, us: seq<string>, x: Point, place: map<string, Place>)
    requires WellFormed(st) && Feasible(st, us, x)
    requires forall u | u in us :: u in place && Chosen(st, x, u, place[u])
    ensures WithinLimits(st, us, place)
  {
    forall s | s in st.servers
      ensures Load(us, place, s, st.cpu) <= st.cpuOf(s) && Load(us, place, s, st.ram) <= st.ramOf(s)
      ensures Load(us, place, s, st.disk) <= st.diskOf(s)
    {
      UseIsLoad(st, us, x, place, s, st.cpu);
      UseIsLoad(st, us, x, place, s, st.ram);
      UseIsLoad(st, us, x, place, s, st.disk);
    }
    forall b | b in st.bss
      ensures Attached(us, place, b) <= MAX_ASSOC_USERS
    {
      UsersAreAttached(st, us, x, place, b);
    }
  }

  /** A feasible point is a placement of every movable user at a neighbouring base
    * station and one server, within the limits of all of them. */
  lemma FeasibleMeans(st: Stats, us: seq<string>, x: Point) returns (place: map<string, Place>)
    requires WellFormed(st) && Feasible(st, us, x)
    ensures place.Keys == set u | u in us
    ensures forall u | u in us :: Chosen(st, x, u, place[u]) && place[u].bts in st.neighbours(u)
    ensures WithinLimits(st, us, place)
  {
    place := Places(st, us, us, x);
    FeasibleWithinLimits(st, us, x, place);
  }

  lemma {:induction false} Places(st: Stats, us: seq<string>, todo: seq<string>, x: Point)
    returns (place: map<string, Place>)
    requires WellFormed(st) && Feasible(st, us, x) && forall u | u in todo :: u in us
    ensures place.Keys == set u | u in todo
    ensures forall u | u in todo :: Chosen(st, x, u, place[u]) && place[u].bts in st.neighbours(u)
  {
    place := map[];
    if todo == [] {
    } else {
      var rest := Places(st, us, todo[1..], x);
      var p := OnePlace(st, us, x, todo[0]);
      place := rest[todo[0] := p];
    }
  }

  // ------------------------------------------------------------ the profit

  /** What user `u` gains by going to `place`; nothing when the planner does not
    * know where the user is. */
  function Worth(st: Stats, u: string, place: Place): real {
    if u !in st.current || st.current[u].server !in st.servers || st.current[u].bts !in st.bss then 0.0
    else
      var g := Gain(st, u, st.current[u].server, st.current[u].bts, place.server, place.bts);
      if g.None? then 0.0 else g.value
  }

  lemma TermElsewhere(st: Stats, x: Point, u: string, s: string, b: string, s2: string, b2: string)
    requires x(Triple(u, s2, b2)) == 0
    ensures Term(st, x, u, s, b, s2, b2) == 0.0
  {
    assert x(Triple(u, s2, b2)) as real == 0.0;
  }

  lemma TermHere(st: Stats, x: Point, u: string, p: Place)
    requires u in st.current && st.current[u].server in st.servers && st.current[u].bts in st.bss
    requires x(Triple(u, p.server, p.bts)) == 1 && p.bts in st.neighbours(u)
    ensures Term(st, x, u, st.current[u].server, st.current[u].bts, p.server, p.bts) == Worth(st, u, p)
  {
    assert Current(st)(Triple(u, st.current[u].server, st.current[u].bts)) as real == 1.0;
    assert x(Triple(u, p.server, p.bts)) as real == 1.0;
  }

  lemma TargetsOfChosen(st: Stats, x: Point, u: string, p: Place)
    requires WellFormed(st) && Chosen(st, x, u, p) && p.bts in st.neighbours(u)
    requires u in st.current && st.current[u].server in st.servers && st.current[u].bts in st.bss
    ensures Targets(st, x, u, st.current[u].server, st.current[u].bts) == Worth(st, u, p)
  {
    var s, b := st.current[u].server, st.current[u].bts;
    forall s2, b2 | s2 in st.servers && b2 in st.bss && Place(b2, s2) != p
      ensures Term(st, x, u, s, b, s2, b2) == 0.0
    {
      TermElsewhere(st, x, u, s, b, s2, b2);
    }
    forall s2 | s2 in st.servers && s2 != p.server
      ensures TargetsAt(st, x, u, s, b, s2) == 0.0
    {
      SumZero(st.bss, b2 => Term(st, x, u, s, b, s2, b2));
    }
    TermHere(st, x, u, p);
    SumAt(st.bss, b2 => Term(st, x, u, s, b, p.server, b2), p.bts);
    SumAt(st.servers, s2 => TargetsAt(st, x, u, s, b, s2), p.server);
  }

  function UserAtServer(st: Stats, x: Point, s: string, u: string): real {
    Sum(st.bss, b => Part(st, x, s, b, u))
  }

  function UserPart(st: Stats, x: Point, u: string): real {
    Sum(st.servers, s => UserAtServer(st, x, s, u))
  }

  lemma PartsAtServer(st: Stats, x: Point, u: string, p: Place, s: string)
    requires WellFormed(st) && Chosen(st, x, u, p) && p.bts in st.neighbours(u) && s in st.servers
    ensures UserAtServer(st, x, s, u) == if u in st.current && st.current[u].server == s then Worth(st, u, p) else 0.0
  {
    if u in st.current && st.current[u].server == s && st.current[u].bts in st.bss {
      TargetsOfChosen(st, x, u, p);
      SumAt(st.bss, b => Part(st, x, s, b, u), st.current[u].bts);
    } else {
      SumZero(st.bss, b => Part(st, x, s, b, u));
    }
  }

  /** Over all servers and base stations, a user counts once: at the current one. */
  lemma PartsOfUser(st: Stats, x: Point, u: string, p: Place)
    requires WellFormed(st) && Chosen(st, x, u, p) && p.bts in st.neighbours(u)
    ensures UserPart(st, x, u) == Worth(st, u, p)
  {
    forall s | s in st.servers
      ensures UserAtServer(st, x, s, u) ==
              if u in st.current && st.current[u].server == s then Worth(st, u, p) else 0.0
    {
      PartsAtServer(st, x, u, p, s);
    }
    if u in st.current && st.current[u].server in st.servers {
      SumAt(st.servers, s => UserAtServer(st, x, s, u), st.current[u].server);
    } else {
      SumZero(st.servers, s => UserAtServer(st, x, s, u));
    }
  }

  lemma ServerPartByUser(st: Stats, us: seq<string>, x: Point, s: string)
    ensures ServerPart(st, us, x, s) == Sum(us, u => UserAtServer(st, x, s, u))
  {
    var f := (b, u) => Part(st, x, s, b, u);
    forall b | b in st.bss
      ensures PlacePart(st, us, x, s, b) == RowSum(us, f, b)
    {
      RowIs(us, f, b, u => Part(st, x, s, b, u));
    }
    forall u | u in us
      ensures UserAtServer(st, x, s, u) == ColumnSum(st.bss, f, u)
    {
      ColumnIs(st.bss, f, u, b => Part(st, x, s, b, u));
    }
    SumSwap(st.bss, us, f, b => PlacePart(st, us, x, s, b), u => UserAtServer(st, x, s, u));
  }

  lemma ProfitByUser(st: Stats, us: seq<string>, x: Point)
    ensures Profit(st, us, x) == Sum(us, u => UserPart(st, x, u))
  {
    var f := (s, u) => UserAtServer(st, x, s, u);
    forall s | s in st.servers
      ensures ServerPart(st, us, x, s) == RowSum(us, f, s)
    {
      ServerPartByUser(st, us, x, s);
      RowIs(us, f, s, u => UserAtServer(st, x, s, u));
    }
    forall u | u in us
      ensures UserPart(st, x, u) == ColumnSum(st.servers, f, u)
    {
      ColumnIs(st.servers, f, u, s => UserAtServer(st, x, s, u));
    }
    SumSwap(st.servers, us, f, s => ServerPart(st, us, x, s), u => UserPart(st, x, u));
  }

  /** What a whole placement is worth. */
  function TotalWorth(st: Stats, us: seq<string>, place: map<string, Place>): real {
    Sum(us, u => if u in place then Worth(st, u, place[u]) else 0.0)
  }

  /** The objective's sum over five indices is the gain of the moves it stands for. */
  lemma ProfitIsWorth(st: Stats, us: seq<string>, x: Point, place: map<string, Place>)
    requires WellFormed(st)
    requires forall u | u in us :: u in place && Chosen(st, x, u, place[u]) && place[u].bts in st.neighbours(u)
    ensures Profit(st, us, x) == TotalWorth(st, us, place)
  {
    ProfitByUser(st, us, x);
    forall u | u in us
      ensures UserPart(st, x, u) == Worth(st, u, place[u])
    {
      PartsOfUser(st, x, u, place[u]);
    }
    SumEqual(us, u => UserPart(st, x, u), u => if u in place then Worth(st, u, place[u]) else 0.0);
  }

  /** Staying where everybody is has profit zero. */
  lemma StayingProfit(st: Stats, us: seq<string>)
    ensures Profit(st, us, Current(st)) == 0.0
  {
    var x := Current(st);
    forall s
      ensures ServerPart(st, us, x, s) == 0.0
    {
      forall b
        ensures PlacePart(st, us, x, s, b) == 0.0
      {
        forall u
          ensures Part(st, x, s, b, u) == 0.0
        {
          StayingPart(st, s, b, u);
        }
        SumZero(us, u => Part(st, x, s, b, u));
      }
      SumZero(st.bss, b => PlacePart(st, us, x, s, b));
    }
    SumZero(st.servers, s => ServerPart(st, us, x, s));
  }

  lemma StayingPart(st: Stats, s: string, b: string, u: string)
    ensures Part(st, Current(st), s, b, u) == 0.0
  {
    var x := Current(st);
    if x(Triple(u, s, b)) != 0 {
      forall s2
        ensures TargetsAt(st, x, u, s, b, s2) == 0.0
      {
        forall b2
          ensures Term(st, x, u, s, b, s2, b2) == 0.0
        {
          StayingScoresZero(st, u, s, b);
        }
        SumZero(st.bss, b2 => Term(st, x, u, s, b, s2, b2));
      }
      SumZero(st.servers, s2 => TargetsAt(st, x, u, s, b, s2));
    }
  }

  /** So an optimal answer never loses, whenever staying is allowed. */
  lemma NeverLoses(st: Stats, us: seq<string>, x: Point)
    requires IsOptimal(st, us, x) && Feasible(st, us, Current(st))
    ensures Profit(st, us, x) >= 0.0
  {
    StayingProfit(st, us);
  }

  // --------------------------------------------------- placements as points

  /** A placement the constraints allow, said without the solver's variables. */
  ghost predicate Allowed(st: Stats, us: seq<string>, place: map<string, Place>) {
    && (forall u | u in us :: u in place && place[u].server in st.servers && place[u].bts in st.bss &&
          place[u].bts in st.neighbours(u))
    && WithinLimits(st, us, place)
  }

  function AsPoint(place: map<string, Place>): Point {
    (t: Triple) => if Get(place, t.user) == Some(Place(t.bts, t.server)) then 1 else 0
  }

  /** The converse of FeasibleMeans. */
  lemma AllowedIsFeasible(st: Stats, us: seq<string>, place: map<string, Place>)
    requires WellFormed(st) && Allowed(st, us, place)
    ensures Feasible(st, us, AsPoint(place))
    ensures forall u | u in us :: Chosen(st, AsPoint(place), u, place[u])
  {
    var x := AsPoint(place);
    AllowedChoice(st, us, place);
    forall u | u in us
      ensures PlacesOf(st, x, u) == 1
    {
      OnePlaceTotal(st, x, u, place[u]);
    }
    forall s | s in st.servers
      ensures Use(st, us, x, s, st.cpu) <= st.cpuOf(s) && Use(st, us, x, s, st.ram) <= st.ramOf(s)
      ensures Use(st, us, x, s, st.disk) <= st.diskOf(s)
    {
      AllowedFits(st, us, place, s);
    }
    forall b | b in st.bss
      ensures Users(st, us, x, b) <= MAX_ASSOC_USERS
    {
      UsersAreAttached(st, us, x, place, b);
    }
  }

  lemma AllowedChoice(st: Stats, us: seq<string>, place: map<string, Place>)
    requires Allowed(st, us, place)
    ensures forall u | u in us :: Chosen(st, AsPoint(place), u, place[u])
    ensures forall u, s, b | u in us && Blacklisted(st, Triple(u, s, b)) :: AsPoint(place)(Triple(u, s, b)) == 0
  {
  }

  lemma AllowedFits(st: Stats, us: seq<string>, place: map<string, Place>, s: string)
    requires WellFormed(st) && Allowed(st, us, place) && s in st.servers
    ensures Use(st, us, AsPoint(place), s, st.cpu) <= st.cpuOf(s)
    ensures Use(st, us, AsPoint(place), s, st.ram) <= st.ramOf(s)
    ensures Use(st, us, AsPoint(place), s, st.disk) <= st.diskOf(s)
  {
    var x := AsPoint(place);
    UseIsLoad(st, us, x, place, s, st.cpu);
    UseIsLoad(st, us, x, place, s, st.ram);
    UseIsLoad(st, us, x, place, s, st.disk);
  }

  lemma OnePlaceTotal(st: Stats, x: Point, u: string, p: Place)
    requires WellFormed(st) && Chosen(st, x, u, p)
    ensures PlacesOf(st, x, u) == 1
  {
    var at := s => Total(st.bss, b => x(Triple(u, s, b)));
    forall s | s in st.servers
      ensures at(s) == if s == p.server then 1 else 0
    {
      if s == p.server {
        TotalAt(st.bss, b => x(Triple(u, s, b)), p.bts);
      } else {
        TotalZero(st.bss, b => x(Triple(u, s, b)));
      }
    }
    TotalAt(st.servers, at, p.server);
    TotalEqual(st.servers, s => Total(st.bss, b => x(Triple(u, s, b))), at);
  }

  /** An optimal answer is worth at least as much as any allowed placement. */
  lemma BestPlacement(st: Stats, us: seq<string>, x: Point, place: map<string, Place>, other: map<string, Place>)
    requires WellFormed(st) && IsOptimal(st, us, x) && Allowed(st, us, other)
    requires forall u | u in us :: u in place && Chosen(st, x, u, place[u]) && place[u].bts in st.neighbours(u)
    ensures TotalWorth(st, us, other) <= TotalWorth(st, us, place)
  {
    AllowedIsFeasible(st, us, other);
    ProfitIsWorth(st, us, AsPoint(other), other);
    ProfitIsWorth(st, us, x, place);
  }
}
