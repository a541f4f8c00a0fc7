/** Under the optimization planner the orders of two users can overlap at one source, and
  * then the second container is lost: the controller's timers know nothing of the socket
  * that the migrations share. */
module Overlap {
  import opened Basics
  import opened Handlers
  import opened EdgeServices
  import opened Epochs
  import E = EdgeHandlers
  import S = SourceThread

  /** The controller's dealings with every user, and the orders it has sent to "edge01",
    * oldest first, as that server queues them. */
  datatype Users = Users(worlds: map<Key, World>, orders: seq<S.Order>)

  const SOURCE := "edge01"

  function OrderOf(k: Key, e: Effect): seq<S.Order> {
    match e
    case PreMigrate(to, job) => if to == SOURCE then [(k, E.Prepare(job))] else []
    case Migrate(to, job) => if to == SOURCE then [(k, E.MigrateCmd(job))] else []
    case _ => []
  }

  function OrdersOf(k: Key, out: seq<Effect>): seq<S.Order> {
    if out == [] then [] else OrderOf(k, out[0]) + OrdersOf(k, out[1..])
  }

  predicate CanGo(us: Users, k: Key, m: Move) {
    k in us.worlds && CanMove(us.worlds[k], m)
  }

  function Gone(us: Users, k: Key, m: Move): Users
    requires CanGo(us, k, m)
  {
    Users(us.worlds[k := Moved(us.worlds[k], m)], us.orders + OrdersOf(k, OutOf(us.worlds[k], m)))
  }

  function GoneAll(us: Users, ms: seq<(Key, Move)>): Option<Users>
    decreases |ms|
  {
    if ms == [] then Some(us) else if !CanGo(us, ms[0].0, ms[0].1) then None
    else GoneAll(Gone(us, ms[0].0, ms[0].1), ms[1..])
  }

  lemma {:induction false} GoneMore(us: Users, ms: seq<(Key, Move)>, k: Key, m: Move)
    requires GoneAll(us, ms).Some? && CanGo(GoneAll(us, ms).value, k, m)
    ensures GoneAll(us, ms + [(k, m)]) == Some(Gone(GoneAll(us, ms).value, k, m))
    decreases |ms|
  {
    if ms == [] {
      assert ms + [(k, m)] == [(k, m)] && [(k, m)][1..] == [];
    } else {
      assert (ms + [(k, m)])[0] == ms[0] && (ms + [(k, m)])[1..] == ms[1..] + [(k, m)];
      GoneMore(Gone(us, ms[0].0, ms[0].1), ms[1..], k, m);
    }
  }

  // ----------------------------------------------------------- one user's migration

  const PLAN := Plan("bts1", "edge02")
  const JOB := Job("edge02", "bts1")
  const RUNNING := Ctl(Some(RUNNING_STATE), Some(Row(SOURCE, Some(9900), RunningPhase)), Some("bts1"), None, None)
  const STORED := RUNNING.(migrating := Some(Stored(PLAN, JOB)))
  const PREPARING := STORED.(bits := Some({RunningBit, PreMigrateBit}))
  const PREPARED := STORED.(bits := Some({RunningBit, PreMigrateBit, PreMigratedBit}),
                            row := Some(Row(SOURCE, Some(9900), PreMigratedPhase)))
  const MOVING := PREPARED.(bits := Some({RunningBit, PreMigrateBit, PreMigratedBit, MigrateBit}), migrating := None)

  function Stage(i: nat): World {
    match i
    case 0 => START_WORLD
    case 1 => World(Ctl(Some(INIT_STATE), Some(Row(SOURCE, None, InitPhase)), Some("bts1"), None, None), [],
        multiset{}, multiset{})
    case 2 => World(RUNNING, [], multiset{}, multiset{})
    case 3 => World(STORED, [PreMigrateTimer(SOURCE, JOB)], multiset{}, multiset{})
    case 4 => World(PREPARING, [], multiset{}, multiset{})
    case 5 => World(PREPARED, [MigrateTimer(PLAN, SOURCE, JOB)], multiset{JOB}, multiset{})
    case _ => World(MOVING, [], multiset{JOB}, multiset{JOB})
  }

  function Turn(i: nat): Move {
    match i
    case 0 => Receive(OnDiscovery("bts1", true, SOURCE))
    case 1 => Receive(OnAllocated(Service(SOURCE, 9900)))
    case 2 => Receive(OnOptimizedPlan(PLAN, true, Both(0.0, 0.0)))
    case 3 => Fire(0)
    case 4 => Receive(OnPreMigrated(JOB, Some(0.0)))
    case _ => Fire(0)
  }

  function Order(k: Key, i: nat): seq<S.Order> {
    if i == 3 then [(k, E.Prepare(JOB))] else if i == 5 then [(k, E.MigrateCmd(JOB))] else []
  }

  lemma OneOrder(k: Key, e: Effect)
    ensures OrdersOf(k, [e]) == OrderOf(k, e)
  {
    assert [e][1..] == [];
  }

  predicate Turns(i: nat, k: Key) {
    CanMove(Stage(i), Turn(i)) && Moved(Stage(i), Turn(i)) == Stage(i + 1) &&
        OrdersOf(k, OutOf(Stage(i), Turn(i))) == Order(k, i)
  }

  lemma BeforePreparing(i: nat, k: Key)
    requires i < 3
    ensures Turns(i, k)
  {
    OneOrder(k, Deploy(SOURCE));
    OneOrder(k, Start(PreMigrateTimer(SOURCE, JOB)));
    if i < 2 {
      DeployedAtEdge01();
    } else {
      Plans(k);
    }
  }

  lemma Plans(k: Key)
    ensures Turns(2, k)
  {
    OneOrder(k, Start(PreMigrateTimer(SOURCE, JOB)));
    PlansAgain(RUNNING, PLAN, JOB);
    StartsOne(RUNNING, [], OnOptimizedPlan(PLAN, true, Both(0.0, 0.0)), STORED, PreMigrateTimer(SOURCE, JOB));
    assert [] + [PreMigrateTimer(SOURCE, JOB)] == [PreMigrateTimer(SOURCE, JOB)];
  }

  lemma Prepares(k: Key)
    ensures Turns(3, k)
  {
    assert RUNNING_STATE + {PreMigrateBit} == {RunningBit, PreMigrateBit};
    OutShort([PreMigrate(SOURCE, JOB)]);
    OneOrder(k, PreMigrate(SOURCE, JOB));
    assert FireTimer(STORED, PreMigrateTimer(SOURCE, JOB)) == Outcome(PREPARING, [PreMigrate(SOURCE, JOB)]);
  }

  lemma Answers(k: Key)
    ensures Turns(4, k)
  {
    var t := MigrateTimer(PLAN, SOURCE, JOB);
    assert {RunningBit, PreMigrateBit} + {PreMigratedBit} == {RunningBit, PreMigrateBit, PreMigratedBit};
    assert [] + [Start(t)] == [Start(t)];
    assert PreMigratedOptimized(PREPARING, JOB, Some(0.0)) == Outcome(PREPARED, [Start(t)]);
    OutShort([Start(t)]);
    OneOrder(k, Start(t));
    assert [] + [t] == [t];
  }

  lemma Migrates(k: Key)
    ensures Turns(5, k)
  {
    var bits: Bits := {RunningBit, PreMigrateBit, PreMigratedBit};
    assert PreMigrateBit in bits && PreMigrateBit !in RUNNING_STATE;
    assert bits + {MigrateBit} == {RunningBit, PreMigrateBit, PreMigratedBit, MigrateBit};
    assert FireTimer(PREPARED, MigrateTimer(PLAN, SOURCE, JOB)) == Outcome(MOVING, [Migrate(SOURCE, JOB)]);
    OutShort([Migrate(SOURCE, JOB)]);
    OneOrder(k, Migrate(SOURCE, JOB));
  }

  // ------------------------------------------------------------------- two users

  function Fresh(u: Key, v: Key): Users {
    Users(map[u := START_WORLD, v := START_WORLD], [])
  }

  function At(u: Key, v: Key, i: nat, j: nat, orders: seq<S.Order>): Users {
    Users(map[u := Stage(i), v := Stage(j)], orders)
  }

  ghost predicate Reached(u: Key, v: Key, us: Users) {
    exists ms :: GoneAll(Fresh(u, v), ms) == Some(us)
  }

  lemma ReachedNext(u: Key, v: Key, us: Users, k: Key, m: Move)
    requires Reached(u, v, us) && CanGo(us, k, m)
    ensures Reached(u, v, Gone(us, k, m))
  {
    var ms :| GoneAll(Fresh(u, v), ms) == Some(us);
    GoneMore(Fresh(u, v), ms, k, m);
  }

  lemma FirstGoes(u: Key, v: Key, i: nat, j: nat, orders: seq<S.Order>)
    requires u != v && Turns(i, u)
    ensures CanGo(At(u, v, i, j, orders), u, Turn(i))
    ensures Gone(At(u, v, i, j, orders), u, Turn(i)) == At(u, v, i + 1, j, orders + Order(u, i))
  {
    var a, b, c := Stage(i), Stage(j), Stage(i + 1);
    assert map[u := a, v := b][u := c] == map[u := c, v := b];
  }

  lemma SecondGoes(u: Key, v: Key, i: nat, j: nat, orders: seq<S.Order>)
    requires u != v && Turns(j, v)
    ensures CanGo(At(u, v, i, j, orders), v, Turn(j))
    ensures Gone(At(u, v, i, j, orders), v, Turn(j)) == At(u, v, i, j + 1, orders + Order(v, j))
  {
    var a, b, c := Stage(i), Stage(j), Stage(j + 1);
    assert map[u := a, v := b][v := c] == map[u := a, v := c];
  }

  lemma EachTurns(i: nat, k: Key)
    requires i < 6
    ensures Turns(i, k)
  {
    if i < 3 {
      BeforePreparing(i, k);
    } else if i == 3 {
      Prepares(k);
    } else if i == 4 {
      Answers(k);
    } else {
      Migrates(k);
    }
  }

  lemma FirstTurn(u: Key, v: Key, i: nat, orders: seq<S.Order>)
    requires u != v && Reached(u, v, At(u, v, i, i, orders)) && i < 6
    ensures Reached(u, v, At(u, v, i + 1, i, orders + Order(u, i)))
  {
    EachTurns(i, u);
    FirstGoes(u, v, i, i, orders);
    ReachedNext(u, v, At(u, v, i, i, orders), u, Turn(i));
  }

  lemma SecondTurn(u: Key, v: Key, i: nat, orders: seq<S.Order>)
    requires u != v && Reached(u, v, At(u, v, i + 1, i, orders)) && i < 6
    ensures Reached(u, v, At(u, v, i + 1, i + 1, orders + Order(v, i)))
  {
    EachTurns(i, v);
    SecondGoes(u, v, i + 1, i, orders);
    ReachedNext(u, v, At(u, v, i + 1, i, orders), v, Turn(i));
  }

  /** The orders of the first `i` turns that both users take in step. */
  function InStep(u: Key, v: Key, i: nat): seq<S.Order> {
    if i == 0 then [] else InStep(u, v, i - 1) + Order(u, i - 1) + Order(v, i - 1)
  }

  lemma {:induction false} BothTurn(u: Key, v: Key, i: nat)
    requires u != v && i <= 6
    ensures Reached(u, v, At(u, v, i, i, InStep(u, v, i)))
  {
    if i == 0 {
      assert GoneAll(Fresh(u, v), []) == Some(Fresh(u, v)) && Fresh(u, v) == At(u, v, 0, 0, []);
    } else {
      BothTurn(u, v, i - 1);
      FirstTurn(u, v, i - 1, InStep(u, v, i - 1));
      SecondTurn(u, v, i - 1, InStep(u, v, i - 1) + Order(u, i - 1));
    }
  }

  /** The four orders as the source queues them. */
  function Overlapping(u: Key, v: Key): seq<S.Order> {
    [(u, E.Prepare(JOB)), (v, E.Prepare(JOB)), (u, E.MigrateCmd(JOB)), (v, E.MigrateCmd(JOB))]
  }

  lemma InStepOverlaps(u: Key, v: Key)
    ensures InStep(u, v, 6) == Overlapping(u, v)
  {
    assert InStep(u, v, 1) == InStep(u, v, 2) == InStep(u, v, 3) == [];
    assert InStep(u, v, 4) == InStep(u, v, 5) == Overlapping(u, v)[..2];
  }

  lemma OrdersOverlap(u: Key, v: Key)
    requires u != v
    ensures Reached(u, v, At(u, v, 6, 6, Overlapping(u, v)))
  {
    InStepOverlaps(u, v);
    BothTurn(u, v, 6);
  }

  lemma OverlapLoses(u: Key, v: Key, t: S.Thread)
    requires u != v && u in t.edges && v in t.edges && t.edges[u].pre2 && t.edges[v].pre2 && t.edges[v].container.Up?
    ensures S.Knows(t, Overlapping(u, v))
    ensures var end := S.Finish(t, Overlapping(u, v), 0); S.Survives(end, u) && !S.Survives(end, v)
  {
    S.SecondIsLost(t, u, v, E.Prepare(JOB), E.Prepare(JOB), E.MigrateCmd(JOB), E.MigrateCmd(JOB));
  }

  /** A run of the controller with two users on one server, whose orders overlap; carrying
    * them out stops the second container, and nothing of it arrives anywhere. */
  lemma OverlapHappens(u: Key, v: Key, t: S.Thread)
    requires u != v && u in t.edges && v in t.edges && t.edges[u].pre2 && t.edges[v].pre2 && t.edges[v].container.Up?
    ensures Reached(u, v, At(u, v, 6, 6, Overlapping(u, v)))
    ensures S.Knows(t, Overlapping(u, v))
    ensures var end := S.Finish(t, Overlapping(u, v), 0); S.Survives(end, u) && !S.Survives(end, v)
  {
    OrdersOverlap(u, v);
    OverlapLoses(u, v, t);
  }
}
