/** What the controller publishes for one user in any run, whatever the planner
  * and whenever the timers fire. */
module Epochs {
  import opened Basics
  import opened Handlers

  datatype Event =
    | OnDiscovery(bts: string, known: bool, place: string)
    | OnThresholdPlan(plan: Plan, json: bool)
    | OnOptimizedPlan(plan: Plan, json: bool, lead: LeadTimes)
    | OnPreMigrated(job: Job, mig: Option<real>)
    | OnAllocated(svc: Service)
    | OnMigrated(svc: Service)
    | OnHandovered(bts: string)
    | OnTimer(timer: Timer)

  /** The planner's two lead times: it has the first only if it has the second. */
  datatype LeadTimes = NoLead | MigOnly(mig: real) | Both(preMig: real, mig: real) {
    function Pre(): Option<real> { if Both? then Some(preMig) else None }
    function Mig(): Option<real> { if NoLead? then None else Some(mig) }
  }

  /** Threshold planners start no timers and compute no lead times. */
  predicate Possible(optimized: bool, e: Event) {
    match e
    case OnThresholdPlan(_, _) => !optimized
    case OnOptimizedPlan(_, _, _) => optimized
    case OnTimer(_) => optimized
    case _ => true
  }

  function Handle(optimized: bool, c: Ctl, e: Event): Outcome {
    match e
    case OnDiscovery(bts, known, place) => Discovery(c, bts, known, place)
    case OnThresholdPlan(plan, json) => ThresholdPlan(c, plan, json)
    case OnOptimizedPlan(plan, json, lead) => OptimizedPlan(c, plan, json, lead.Pre(), lead.Mig())
    case OnPreMigrated(job, mig) =>
      if optimized then PreMigratedOptimized(c, job, mig) else PreMigratedThreshold(c, job)
    case OnAllocated(svc) => Allocated(c, svc)
    case OnMigrated(svc) => Migrated(c, svc)
    case OnHandovered(bts) => Handovered(c, bts)
    case OnTimer(t) => FireTimer(c, t)
  }

  /** The handler assigns INIT_STATE or RUNNING_STATE to the user's bits. */
  predicate Resets(optimized: bool, c: Ctl, e: Event) {
    match e
    case OnDiscovery(_, known, _) => known && c.row.None?
    case OnAllocated(_) => true
    case OnMigrated(_) => c.bits.Some?
    case OnPreMigrated(_, mig) => optimized && c.row.Some? && c.bits.Some? && mig.Some? && mig.value > 200.0
    case OnHandovered(_) =>
      c.bts.Some? && c.bits.Some? && c.bits.value != RUNNING_STATE && PreMigrateBit !in c.bits.value
    case _ => false
  }

  /** Only a reset clears a bit, and it leaves INIT_STATE or RUNNING_STATE. */
  lemma ResetsExactly(optimized: bool, c: Ctl, e: Event)
    requires Possible(optimized, e) && c.bits.Some?
    ensures var b := Handle(optimized, c, e).c.bits;
            b.Some? && if Resets(optimized, c, e) then b.value in {INIT_STATE, RUNNING_STATE}
                else c.bits.value <= b.value
  {
  }

  function RunEvents(optimized: bool, c: Ctl, es: seq<Event>): Outcome
    decreases |es|
  {
    if es == [] then Outcome(c, [])
    else
      var o := Handle(optimized, c, es[0]);
      var r := RunEvents(optimized, o.c, es[1..]);
      Outcome(r.c, o.out + r.out)
  }

  predicate Epoch(optimized: bool, c: Ctl, es: seq<Event>)
    decreases |es|
  {
    es == [] || (Possible(optimized, es[0]) && !Resets(optimized, c, es[0]) &&
                 Epoch(optimized, Handle(optimized, c, es[0]).c, es[1..]))
  }

  datatype Kind = HandoverKind | MigrateKind | PreMigrateKind

  predicate Is(e: Effect, k: Kind) {
    match k
    case HandoverKind => e.Handover?
    case MigrateKind => e.Migrate?
    case PreMigrateKind => e.PreMigrate?
  }

  function Count(out: seq<Effect>, k: Kind): nat {
    if out == [] then 0 else (if Is(out[0], k) then 1 else 0) + Count(out[1..], k)
  }

  lemma {:induction false} CountConcat(a: seq<Effect>, b: seq<Effect>, k: Kind)
    ensures Count(a + b, k) == Count(a, k) + Count(b, k)
  {
    if a == [] {
      assert a + b == b;
    } else {
      assert (a + b)[1..] == a[1..] + b;
      CountConcat(a[1..], b, k);
    }
  }

  /** Publications of this kind the controller may still make before the next reset. */
  function Budget(optimized: bool, c: Ctl, k: Kind): nat {
    if c.bits.None? then 0
    else match k
         case HandoverKind => if HandoverBit in c.bits.value || HandoveredBit in c.bits.value then 0 else 1
         case MigrateKind => if MigrateBit in c.bits.value then 0 else 1
         case PreMigrateKind =>
           if optimized then (if PreMigrateBit in c.bits.value || MigrateBit in c.bits.value then 0 else 1)
           else (if c.row.None? || c.row.value.phase == RunningPhase then 1 else 0)
  }

  lemma CountShort(out: seq<Effect>, k: Kind)
    ensures out == [] ==> Count(out, k) == 0
    ensures |out| == 1 ==> Count(out, k) == if Is(out[0], k) then 1 else 0
    ensures |out| == 2 ==> Count(out, k) == (if Is(out[0], k) then 1 else 0) + if Is(out[1], k) then 1 else 0
  {
    if |out| >= 1 {
      assert Count(out, k) == (if Is(out[0], k) then 1 else 0) + Count(out[1..], k);
    }
  }

  lemma ThresholdPays(c: Ctl, plan: Plan, json: bool, k: Kind)
    requires c.row.Some?
    ensures var o := ThresholdPlan(c, plan, json);
            Count(o.out, k) + Budget(false, o.c, k) <= Budget(false, c, k)
  {
    var h := ThresholdHandover(c, plan);
    var m := ThresholdMigration(h.c, plan, json);
    CountConcat(h.out, m.out, k);
    CountShort(h.out, k);
    CountShort(m.out, k);
  }

  /** Every publication is paid from the budget, which only a reset refills. */
  lemma Pays(optimized: bool, c: Ctl, e: Event, k: Kind)
    requires Possible(optimized, e) && !Resets(optimized, c, e)
    ensures var o := Handle(optimized, c, e);
            Count(o.out, k) + Budget(optimized, o.c, k) <= Budget(optimized, c, k)
  {
    if e.OnThresholdPlan? && c.row.Some? {
      ThresholdPays(c, e.plan, e.json, k);
    } else {
      CountShort(Handle(optimized, c, e).out, k);
    }
  }

  /** Between two consecutive resets the bits only grow, and the controller
    * publishes at most one HANDOVER, one MIGRATE and one PRE_MIGRATE. */
  lemma {:induction false} OnePublicationEach(optimized: bool, c: Ctl, es: seq<Event>, k: Kind)
    requires Epoch(optimized, c, es) && c.bits.Some?
    decreases |es|
    ensures var r := RunEvents(optimized, c, es);
            r.c.bits.Some? && c.bits.value <= r.c.bits.value &&
            Count(r.out, k) <= Budget(optimized, c, k) <= 1
  {
    if es == [] {
    } else {
      var o := Handle(optimized, c, es[0]);
      ResetsExactly(optimized, c, es[0]);
      Pays(optimized, c, es[0], k);
      OnePublicationEach(optimized, o.c, es[1..], k);
      CountConcat(o.out, RunEvents(optimized, o.c, es[1..]).out, k);
    }
  }

  // ------------------------------- optimization mode: migrations are prepared

  /** The controller with its pending timers, and what it has received and
    * published so far. */
  datatype World = World(c: Ctl, timers: seq<Timer>, prepared: multiset<Job>, migrated: multiset<Job>)

  datatype Move = Receive(e: Event) | Fire(i: nat)

  predicate CanMove(w: World, m: Move) {
    match m
    case Receive(e) => Possible(true, e) && !e.OnTimer?
    case Fire(i) => i < |w.timers|
  }

  function TimersOf(out: seq<Effect>): seq<Timer> {
    if out == [] then [] else (if out[0].Start? then [out[0].timer] else []) + TimersOf(out[1..])
  }

  function MigrationsOf(out: seq<Effect>): multiset<Job> {
    if out == [] then multiset{}
    else (if out[0].Migrate? then multiset{out[0].job} else multiset{}) + MigrationsOf(out[1..])
  }

  function Moved(w: World, m: Move): World
    requires CanMove(w, m)
  {
    match m
    case Receive(e) =>
      var o := Handle(true, w.c, e);
      World(o.c, w.timers + TimersOf(o.out),
            if e.OnPreMigrated? then w.prepared + multiset{e.job} else w.prepared,
            w.migrated + MigrationsOf(o.out))
    case Fire(i) =>
      var o := FireTimer(w.c, w.timers[i]);
      World(o.c, w.timers[..i] + w.timers[i + 1..], w.prepared, w.migrated + MigrationsOf(o.out))
  }

  /** What the handler publishes and starts in a move. */
  function OutOf(w: World, m: Move): seq<Effect>
    requires CanMove(w, m)
  {
    match m
    case Receive(e) => Handle(true, w.c, e).out
    case Fire(i) => FireTimer(w.c, w.timers[i]).out
  }

  /** The jobs of the migration timers. */
  function Pending(ts: seq<Timer>): multiset<Job> {
    if ts == [] then multiset{}
    else (if ts[0].MigrateTimer? then multiset{ts[0].job} else multiset{}) + Pending(ts[1..])
  }

  lemma {:induction false} PendingConcat(a: seq<Timer>, b: seq<Timer>)
    ensures Pending(a + b) == Pending(a) + Pending(b)
  {
    if a == [] {
      assert a + b == b;
    } else {
      assert (a + b)[1..] == a[1..] + b;
      PendingConcat(a[1..], b);
    }
  }

  predicate StoredOk(c: Ctl) {
    c.migrating.Some? ==> c.migrating.value.job == Job(c.migrating.value.plan.server, c.migrating.value.plan.bts)
  }

  /** Every MIGRATE published, and every one a timer may still publish, has its
    * own PRE_MIGRATED that named the same server and base station. */
  predicate Matched(w: World) {
    StoredOk(w.c) && w.migrated + Pending(w.timers) <= w.prepared
  }

  /** The jobs of the migration timers a handler starts. */
  function Started(out: seq<Effect>): multiset<Job> {
    if out == [] then multiset{}
    else
      var first := if out[0].Start? && out[0].timer.MigrateTimer? then multiset{out[0].timer.job} else multiset{};
      first + Started(out[1..])
  }

  lemma {:induction false} PendingStarted(out: seq<Effect>)
    ensures Pending(TimersOf(out)) == Started(out)
  {
    if out == [] {
    } else {
      PendingStarted(out[1..]);
      if out[0].Start? {
        assert ([out[0].timer] + TimersOf(out[1..]))[1..] == TimersOf(out[1..]);
      } else {
        assert [] + TimersOf(out[1..]) == TimersOf(out[1..]);
      }
    }
  }

  /** Of a list of timer starts only the last may be a migration's. */
  predicate OneMigration(out: seq<Effect>, job: Job) {
    forall i | 0 <= i < |out| :: out[i].Start? &&
      (out[i].timer.MigrateTimer? ==> out[i].timer.job == job && i == |out| - 1)
  }

  lemma {:induction false} OneStarted(out: seq<Effect>, job: Job)
    requires OneMigration(out, job)
    ensures Started(out) <= multiset{job} && MigrationsOf(out) == multiset{}
  {
    if out == [] {
    } else {
      assert OneMigration(out[1..], job);
      OneStarted(out[1..], job);
      assert out[0].timer.MigrateTimer? ==> out[1..] == [];
    }
  }

  lemma PreMigratedStarts(c: Ctl, job: Job, mig: Option<real>)
    requires StoredOk(c)
    ensures StoredOk(PreMigratedOptimized(c, job, mig).c) && OneMigration(PreMigratedOptimized(c, job, mig).out, job)
  {
  }

  /** A handler publishes no MIGRATE by itself; only a PRE_MIGRATED starts a
    * migration timer, at most one, for the destination it names. */
  lemma ReceiveStarts(c: Ctl, e: Event)
    requires StoredOk(c) && Possible(true, e) && !e.OnTimer?
    ensures var o := Handle(true, c, e);
            StoredOk(o.c) && MigrationsOf(o.out) == multiset{} &&
            Started(o.out) <= if e.OnPreMigrated? then multiset{e.job} else multiset{}
  {
    if e.OnPreMigrated? {
      PreMigratedStarts(c, e.job, e.mig);
      OneStarted(PreMigratedOptimized(c, e.job, e.mig).out, e.job);
    } else {
      OtherStarts(c, e);
    }
  }

  /** Effects among which there is neither a migration nor the start of one. */
  predicate NoMigration(out: seq<Effect>) {
    out == [] || (|out| == 1 && !out[0].Migrate? && (out[0].Start? ==> !out[0].timer.MigrateTimer?))
  }

  lemma NoneStarted(out: seq<Effect>)
    requires NoMigration(out)
    ensures MigrationsOf(out) == multiset{} && Started(out) == multiset{}
  {
    if out != [] {
      assert out[1..] == [];
    }
  }

  lemma OtherStarts(c: Ctl, e: Event)
    requires StoredOk(c) && Possible(true, e) && !e.OnTimer? && !e.OnPreMigrated?
    ensures var o := Handle(true, c, e);
            StoredOk(o.c) && MigrationsOf(o.out) == multiset{} && Started(o.out) == multiset{}
  {
    var o := Handle(true, c, e);
    assert StoredOk(o.c) && NoMigration(o.out) by {
      match e {
        case OnOptimizedPlan(plan, json, lead) =>
        case OnDiscovery(_, _, _) =>
        case _ =>
      }
    }
    NoneStarted(o.out);
  }

  lemma FireMigrates(c: Ctl, t: Timer)
    requires StoredOk(c)
    ensures var o := FireTimer(c, t);
            StoredOk(o.c) && MigrationsOf(o.out) <= if t.MigrateTimer? then multiset{t.job} else multiset{}
  {
    var o := FireTimer(c, t);
    if o.out != [] {
      assert o.out[1..] == [];
    }
  }

  lemma FireKeeps(w: World, i: nat)
    requires Matched(w) && i < |w.timers|
    ensures Matched(Moved(w, Fire(i)))
  {
    var t := w.timers[i];
    FireMigrates(w.c, t);
    assert w.timers == w.timers[..i] + ([t] + w.timers[i + 1..]);
    PendingConcat(w.timers[..i], [t] + w.timers[i + 1..]);
    PendingConcat([t], w.timers[i + 1..]);
    PendingConcat(w.timers[..i], w.timers[i + 1..]);
    assert [t][1..] == [];
    assert Pending([t]) == if t.MigrateTimer? then multiset{t.job} else multiset{};
  }

  lemma MoveKeeps(w: World, m: Move)
    requires Matched(w) && CanMove(w, m)
    ensures Matched(Moved(w, m))
  {
    match m {
      case Receive(e) =>
        ReceiveStarts(w.c, e);
        PendingStarted(Handle(true, w.c, e).out);
        PendingConcat(w.timers, TimersOf(Handle(true, w.c, e).out));
      case Fire(i) =>
        FireKeeps(w, i);
    }
  }

  function MovedAll(w: World, ms: seq<Move>): Option<World>
    decreases |ms|
  {
    if ms == [] then Some(w) else if !CanMove(w, ms[0]) then None else MovedAll(Moved(w, ms[0]), ms[1..])
  }

  const START_WORLD := World(UNKNOWN, [], multiset{}, multiset{})

  lemma {:induction false} MovesKeep(w: World, ms: seq<Move>)
    requires Matched(w)
    decreases |ms|
    ensures var r := MovedAll(w, ms); r.Some? ==> Matched(r.value)
  {
    if ms == [] || !CanMove(w, ms[0]) {
    } else {
      MoveKeeps(w, ms[0]);
      MovesKeep(Moved(w, ms[0]), ms[1..]);
    }
  }

  /** In optimization mode each published MIGRATE has its own earlier PRE_MIGRATED
    * for the same server and base station, whatever the timers do; so there are
    * never more MIGRATEs than PRE_MIGRATEDs. */
  lemma MigrationsArePrepared(ms: seq<Move>)
    ensures var r := MovedAll(START_WORLD, ms);
            r.Some? ==> r.value.migrated <= r.value.prepared && |r.value.migrated| <= |r.value.prepared|
  {
    MovesKeep(START_WORLD, ms);
    var r := MovedAll(START_WORLD, ms);
    if r.Some? {
      assert r.value.prepared == r.value.migrated + (r.value.prepared - r.value.migrated);
    }
  }

  // --------------------------------------------- a PRE_MIGRATE that comes late

  /** PRE_MIGRATE is published to the server the service ran on when its timer was
    * started.  It is NOT always where the service runs: a plan computed twice
    * starts two timers, and the second one survives the migration. */
  lemma StalePreMigration() returns (ms: seq<Move>)
    ensures var r := MovedAll(START_WORLD, ms);
            r.Some? && r.value.c.row == Some(Row("edge02", Some(9900), RunningPhase)) &&
            r.value.c.bits == Some(RUNNING_STATE) && |r.value.timers| == 1 &&
            FireTimer(r.value.c, r.value.timers[0]).out == [PreMigrate("edge01", Job("edge02", "bts1"))]
  {
    var plan, job := Plan("bts1", "edge02"), Job("edge02", "bts1");
    var again := Receive(OnOptimizedPlan(plan, true, Both(0.0, 0.0)));
    var first := [Receive(OnDiscovery("bts1", true, "edge01")), Receive(OnAllocated(Service("edge01", 9900))),
                  again, again];
    var then_ := [Fire(0), Receive(OnPreMigrated(job, Some(0.0))), Fire(1),
                  Receive(OnMigrated(Service("edge02", 9900)))];
    var t := PreMigrateTimer("edge01", job);
    var c := Ctl(Some(RUNNING_STATE), Some(Row("edge01", Some(9900), RunningPhase)), Some("bts1"),
                 Some(Stored(plan, job)), None);
    PlannedTwice(plan, job, first);
    Overtaken(plan, job, World(c, [t, t], multiset{}, multiset{}), then_);
    ms := first + then_;
    MovedConcat(START_WORLD, first, then_);
  }

  lemma OutShort(out: seq<Effect>)
    requires |out| == 1
    ensures TimersOf(out) == if out[0].Start? then [out[0].timer] else []
    ensures MigrationsOf(out) == if out[0].Migrate? then multiset{out[0].job} else multiset{}
  {
    assert out[1..] == [];
  }

  lemma DeployedAtEdge01()
    ensures var c1 := Ctl(Some(INIT_STATE), Some(Row("edge01", None, InitPhase)), Some("bts1"), None, None);
            var c2 := c1.(bits := Some(RUNNING_STATE), row := Some(Row("edge01", Some(9900), RunningPhase)));
            && Moved(START_WORLD, Receive(OnDiscovery("bts1", true, "edge01"))) == World(c1, [], multiset{}, multiset{})
            && Moved(World(c1, [], multiset{}, multiset{}), Receive(OnAllocated(Service("edge01", 9900))))
               == World(c2, [], multiset{}, multiset{})
  {
    OutShort([Deploy("edge01")]);
  }

  /** A plan that is near starts a timer and is stored, whether it is stored or not. */
  lemma PlansAgain(c: Ctl, plan: Plan, job: Job)
    requires plan == Plan("bts1", "edge02") && job == Job("edge02", "bts1")
    requires c.bits == Some(RUNNING_STATE) && c.row == Some(Row("edge01", Some(9900), RunningPhase))
    requires c.bts == Some("bts1")
    ensures Handle(true, c, OnOptimizedPlan(plan, true, Both(0.0, 0.0)))
            == Outcome(c.(migrating := Some(Stored(plan, job))), [Start(PreMigrateTimer("edge01", job))])
  {
  }

  /** An event that only starts one timer that publishes no migration. */
  lemma StartsOne(c: Ctl, timers: seq<Timer>, e: Event, c': Ctl, t: Timer)
    requires Possible(true, e) && !e.OnTimer? && !e.OnPreMigrated? && Handle(true, c, e) == Outcome(c', [Start(t)])
    ensures CanMove(World(c, timers, multiset{}, multiset{}), Receive(e))
    ensures Moved(World(c, timers, multiset{}, multiset{}), Receive(e))
            == World(c', timers + [t], multiset{}, multiset{})
  {
    OutShort([Start(t)]);
  }

  lemma PlannedTwice(plan: Plan, job: Job, ms: seq<Move>)
    requires plan == Plan("bts1", "edge02") && job == Job("edge02", "bts1")
    requires ms == [Receive(OnDiscovery("bts1", true, "edge01")), Receive(OnAllocated(Service("edge01", 9900))),
                    Receive(OnOptimizedPlan(plan, true, Both(0.0, 0.0))),
                    Receive(OnOptimizedPlan(plan, true, Both(0.0, 0.0)))]
    ensures var t := PreMigrateTimer("edge01", job);
            var c := Ctl(Some(RUNNING_STATE), Some(Row("edge01", Some(9900), RunningPhase)), Some("bts1"),
                         Some(Stored(plan, job)), None);
            MovedAll(START_WORLD, ms) == Some(World(c, [t, t], multiset{}, multiset{}))
  {
    var c1 := Ctl(Some(INIT_STATE), Some(Row("edge01", None, InitPhase)), Some("bts1"), None, None);
    var c2 := c1.(bits := Some(RUNNING_STATE), row := Some(Row("edge01", Some(9900), RunningPhase)));
    var c3 := c2.(migrating := Some(Stored(plan, job)));
    var t := PreMigrateTimer("edge01", job);
    DeployedAtEdge01();
    PlansAgain(c2, plan, job);
    PlansAgain(c3, plan, job);
    StartsOne(c2, [], ms[2].e, c3, t);
    StartsOne(c3, [t], ms[3].e, c3, t);
    assert [] + [t] == [t] && [t] + [t] == [t, t];
    Unfold4(START_WORLD, ms, World(c1, [], multiset{}, multiset{}), World(c2, [], multiset{}, multiset{}),
            World(c3, [t], multiset{}, multiset{}));
  }

  lemma Overtaken(plan: Plan, job: Job, w: World, ms: seq<Move>)
    requires plan == Plan("bts1", "edge02") && job == Job("edge02", "bts1")
    requires ms == [Fire(0), Receive(OnPreMigrated(job, Some(0.0))), Fire(1),
                    Receive(OnMigrated(Service("edge02", 9900)))]
    requires w.timers == [PreMigrateTimer("edge01", job), PreMigrateTimer("edge01", job)]
    requires w.c == Ctl(Some(RUNNING_STATE), Some(Row("edge01", Some(9900), RunningPhase)), Some("bts1"),
                        Some(Stored(plan, job)), None)
    ensures var r := MovedAll(w, ms);
            r.Some? && r.value.c.row == Some(Row("edge02", Some(9900), RunningPhase)) &&
            r.value.c.bits == Some(RUNNING_STATE) && r.value.timers == [PreMigrateTimer("edge01", job)]
  {
    var w1 := Moved(w, ms[0]);
    var w2 := Moved(w1, ms[1]);
    assert Handle(true, w1.c, ms[1].e).out == [Start(MigrateTimer(plan, "edge01", job))];
    OutShort([Start(MigrateTimer(plan, "edge01", job))]);
    assert w2.timers == [PreMigrateTimer("edge01", job), MigrateTimer(plan, "edge01", job)];
    var w3 := Moved(w2, ms[2]);
    assert w3.timers == [PreMigrateTimer("edge01", job)];
    Unfold4(w, ms, w1, w2, w3);
  }

  lemma Unfold4(w: World, ms: seq<Move>, w1: World, w2: World, w3: World)
    requires |ms| == 4
    requires CanMove(w, ms[0]) && w1 == Moved(w, ms[0]) && CanMove(w1, ms[1]) && w2 == Moved(w1, ms[1])
    requires CanMove(w2, ms[2]) && w3 == Moved(w2, ms[2]) && CanMove(w3, ms[3])
    ensures MovedAll(w, ms) == Some(Moved(w3, ms[3]))
  {
    assert MovedAll(w3, ms[3..]) == MovedAll(Moved(w3, ms[3]), ms[3..][1..]) && ms[3..][1..] == [];
    assert MovedAll(w2, ms[2..]) == MovedAll(w3, ms[2..][1..]) && ms[2..][1..] == ms[3..];
    assert MovedAll(w1, ms[1..]) == MovedAll(w2, ms[1..][1..]) && ms[1..][1..] == ms[2..];
  }

  lemma {:induction false} MovedConcat(w: World, a: seq<Move>, b: seq<Move>)
    requires MovedAll(w, a).Some?
    decreases |a|
    ensures MovedAll(w, a + b) == MovedAll(MovedAll(w, a).value, b)
  {
    if a == [] {
      assert a + b == b;
    } else {
      assert (a + b)[1..] == a[1..] + b;
      MovedConcat(Moved(w, a[0]), a[1..], b);
    }
  }
}
