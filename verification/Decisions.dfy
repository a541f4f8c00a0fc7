/** What the controller publishes, starts and stores, in terms of what it was asked:
  * each effect exactly under the conditions of the code's branches. */
module Decisions {
  import opened Basics
  import opened Handlers

  /** The bits say that a handover was triggered or reported. */
  predicate HandingOver(bits: Bits) {
    HandoverBit in bits || HandoveredBit in bits
  }

  // --------------------------------------------------------- threshold planners

  /** A plan for another server moves a service whose row is `running`. */
  predicate Moves(c: Ctl, plan: Plan) {
    c.row.Some? && plan.server != c.row.value.server && c.row.value.phase == RunningPhase
  }

  /** One plan sends the user to the plan's base station, and the two orders of a migration
    * to the server of the row, and nothing else. */
  lemma PlanPublishes(c: Ctl, plan: Plan, json: bool, e: Effect)
    ensures e in ThresholdPlan(c, plan, json).out <==>
              c.row.Some? && c.bits.Some? &&
              match e
              case Handover(b) => b == plan.bts && c.bts != Some(plan.bts) && !HandingOver(c.bits.value)
              case PreMigrate(to, job) =>
                Moves(c, plan) && json && to == c.row.value.server && job == Job(plan.server, plan.bts)
              case Migrate(to, job) =>
                Moves(c, plan) && json && to == c.row.value.server && job == Job(plan.server, plan.bts) &&
                MigrateBit !in c.bits.value
              case _ => false
  {
    if c.row.Some? && c.bits.Some? {
      var h := ThresholdHandover(c, plan);
      var m := ThresholdMigration(h.c, plan, json);
      HandoverHalf(c, plan);
      MigrationHalf(h.c, plan, json);
      assert e in h.out + m.out <==> e in h.out || e in m.out;
    }
  }

  lemma HandoverHalf(c: Ctl, plan: Plan)
    requires c.bits.Some?
    ensures var o := ThresholdHandover(c, plan);
            && o.out == (if c.bts != Some(plan.bts) && !HandingOver(c.bits.value) then [Handover(plan.bts)] else [])
            && o.c.row == c.row && o.c.migrating == c.migrating && o.c.bts == c.bts
            && o.c.bits == Some(c.bits.value + if c.bts != Some(plan.bts) then {HandoverBit} else {})
            && o.c.handover == if c.bts == Some(plan.bts) then c.handover
                               else if HandingOver(c.bits.value) then Some(plan.bts) else None
  {
    assert c.bits.value + {} == c.bits.value;
    assert c.bits.value + {HandoverBit} + {HandoverBit} == c.bits.value + {HandoverBit};
  }

  lemma MigrationHalf(c: Ctl, plan: Plan, json: bool)
    requires c.bits.Some? && c.row.Some?
    ensures var o, to, job := ThresholdMigration(c, plan, json), c.row.value.server, Job(plan.server, plan.bts);
            && o.out == (if !Moves(c, plan) || !json then []
                         else if MigrateBit in c.bits.value then [PreMigrate(to, job)]
                         else [PreMigrate(to, job), Migrate(to, job)])
            && o.c.bts == c.bts && o.c.handover == c.handover
            && o.c.row == Some(if Moves(c, plan) then c.row.value.(phase := PreMigratePhase) else c.row.value)
            && o.c.bits == Some(c.bits.value + (if Moves(c, plan) then {PreMigrateBit} else {})
                                             + (if Moves(c, plan) && json then {MigrateBit} else {}))
            && o.c.migrating == if !Moves(c, plan) || !json then c.migrating
                                else if MigrateBit in c.bits.value then Some(Stored(plan, job)) else None
  {
    var bits := c.bits.value;
    assert PreMigrateBit in bits + {PreMigrateBit} && PreMigrateBit !in RUNNING_STATE;
    assert bits + {} + {} == bits && bits + {PreMigrateBit} + {} == bits + {PreMigrateBit};
    if MigrateBit in bits {
      assert bits + {PreMigrateBit} + {MigrateBit} == bits + {PreMigrateBit};
    }
  }

  /** Under a threshold planner a PRE_MIGRATED only continues the stored migration that it
    * answers, unless that was published already or the user is back to RUNNING. */
  lemma AnswerPublishes(c: Ctl, job: Job, e: Effect)
    ensures e in PreMigratedThreshold(c, job).out <==>
              && c.row.Some? && c.bits.Some? && c.migrating.Some?
              && c.migrating.value.plan == Plan(job.bts, job.server)
              && MigrateBit !in c.bits.value && c.bits.value != {RunningBit}
              && e == Migrate(c.row.value.server, c.migrating.value.job)
    ensures c.row.Some? ==>
              PreMigratedThreshold(c, job).c.row == Some(c.row.value.(phase := PreMigratedPhase))
  {
  }

  // ------------------------------------------------------- the optimization planner

  /** No migration of the user is under way. */
  predicate Ready(c: Ctl) {
    && c.row.Some? && c.bits.Some?
    && PreMigrateBit !in c.bits.value && PreMigratedBit !in c.bits.value && MigrateBit !in c.bits.value
  }

  /** A plan starts a pre-migration that is due within a minute, or, for a user that stays
    * on its server, a handover that is due within two seconds. */
  lemma OptimizedPlanStarts(c: Ctl, plan: Plan, json: bool, preMig: Option<real>, mig: Option<real>, e: Effect)
    requires preMig.Some? ==> mig.Some?
    ensures e in OptimizedPlan(c, plan, json, preMig, mig).out <==>
              Ready(c) && e.Start? &&
              match e.timer
              case PreMigrateTimer(source, job) =>
                && plan.server != c.row.value.server && json && preMig.Some? && preMig.value < 60.0
                && source == c.row.value.server && job == Job(plan.server, plan.bts)
              case HandoverTimer(b) =>
                && plan.server == c.row.value.server && b == plan.bts && c.bts != Some(plan.bts)
                && mig.Some? && mig.value < 2.0
              case MigrateTimer(_, _, _) => false
  {
  }

  /** It stores the plan for the answer to the pre-migration, and its base station when
    * that is a new one; nothing is stored for a plan that starts nothing. */
  lemma OptimizedPlanStores(c: Ctl, plan: Plan, json: bool, preMig: Option<real>, mig: Option<real>)
    requires preMig.Some? ==> mig.Some?
    ensures var o := OptimizedPlan(c, plan, json, preMig, mig);
            && o.c.bits == c.bits && o.c.row == c.row && o.c.bts == c.bts
            && (o.c.migrating == if o.out != [] && plan.server != c.row.value.server
                                 then Some(Stored(plan, Job(plan.server, plan.bts))) else c.migrating)
            && (o.c.handover == if o.out != [] && c.bts != Some(plan.bts) then Some(plan.bts) else c.handover)
  {
  }

  /** A PRE_MIGRATED that is answered in time schedules the stored handover, unless it was
    * triggered, and the stored migration that it answers, unless that was published. */
  lemma AnswerStarts(c: Ctl, job: Job, mig: Option<real>, e: Effect)
    ensures e in PreMigratedOptimized(c, job, mig).out <==>
              c.row.Some? && c.bits.Some? && mig.Some? && mig.value <= 200.0 && e.Start? &&
              match e.timer
              case HandoverTimer(b) => HandoverBit !in c.bits.value && c.handover == Some(b)
              case MigrateTimer(plan, source, stored) =>
                && MigrateBit !in c.bits.value && c.migrating == Some(Stored(plan, stored))
                && plan == Plan(job.bts, job.server) && source == c.row.value.server
              case PreMigrateTimer(_, _) => false
  {
    if c.row.Some? && c.bits.Some? && mig.Some? && mig.value <= 200.0 {
      var h := if HandoverBit !in c.bits.value && c.handover.Some?
               then [Start(HandoverTimer(c.handover.value))] else [];
      var m := if MigrateBit !in c.bits.value && c.migrating.Some? &&
                  c.migrating.value.plan == Plan(job.bts, job.server)
               then [Start(MigrateTimer(c.migrating.value.plan, c.row.value.server, c.migrating.value.job))] else [];
      assert PreMigratedOptimized(c, job, mig).out == h + m;
      assert e in h + m <==> e in h || e in m;
    }
  }

  /** A lead time above 200 seconds gives the migration up: the service stays, `running`,
    * and both stored plans are forgotten. Otherwise the answer is remembered. */
  lemma AnswerStores(c: Ctl, job: Job, mig: Option<real>)
    requires c.row.Some? && c.bits.Some?
    ensures var c' := PreMigratedOptimized(c, job, mig).c;
            && c'.bts == c.bts && c'.row.Some? && c'.row.value.server == c.row.value.server
            && c'.row.value.port == c.row.value.port
            && if mig.Some? && mig.value > 200.0
               then c'.row.value.phase == RunningPhase && c'.bits == Some({RunningBit}) &&
                    c'.handover.None? && c'.migrating.None?
               else c'.row.value.phase == PreMigratedPhase && c'.bits == Some(c.bits.value + {PreMigratedBit}) &&
                    c'.handover == c.handover && c'.migrating == c.migrating
  {
  }

  // ------------------------------------------------------------------- the timers

  /** A timer that fires publishes what it was started for, if that is still to be done. */
  lemma TimerPublishes(c: Ctl, t: Timer, e: Effect)
    ensures e in FireTimer(c, t).out <==>
              c.bits.Some? &&
              match t
              case HandoverTimer(b) => e == Handover(b) && c.handover.Some? && !HandingOver(c.bits.value)
              case PreMigrateTimer(source, job) =>
                e == PreMigrate(source, job) && PreMigrateBit !in c.bits.value && MigrateBit !in c.bits.value
              case MigrateTimer(_, source, job) =>
                e == Migrate(source, job) && MigrateBit !in c.bits.value && c.bits.value != {RunningBit}
  {
  }

  /** Each publication sets its bit, and uses up the stored plan that it carries out; a
    * migration that comes when the user is back to RUNNING is forgotten. */
  lemma TimerStores(c: Ctl, t: Timer)
    requires c.bits.Some?
    ensures var o := FireTimer(c, t);
            && o.c.row == c.row && o.c.bts == c.bts
            && (o.c.bits == if o.out == [] then c.bits
                            else Some(c.bits.value + {match t case HandoverTimer(_) => HandoverBit
                                                              case PreMigrateTimer(_, _) => PreMigrateBit
                                                              case MigrateTimer(_, _, _) => MigrateBit}))
            && (o.c.handover == if t.HandoverTimer? && o.out != [] then None else c.handover)
            && (o.c.migrating == if t.MigrateTimer? && MigrateBit !in c.bits.value then None else c.migrating)
  {
  }

  // -------------------------------------------------------------------- a batch

  /** The plans of a batch that are for one user, in order. */
  function OwnPlans(u: string, ds: seq<Decision>): seq<(Plan, bool)> {
    if ds == [] then []
    else
      var last := ds[|ds| - 1];
      OwnPlans(u, ds[..|ds| - 1]) + if last.user == u then [(last.plan, last.json)] else []
  }

  function OneByOne(c: Ctl, plans: seq<(Plan, bool)>): Outcome {
    if plans == [] then Outcome(c, [])
    else
      var r := OneByOne(c, plans[..|plans| - 1]);
      var o := ThresholdPlan(r.c, plans[|plans| - 1].0, plans[|plans| - 1].1);
      Outcome(o.c, r.out + o.out)
  }

  /** A batch does to each user what the user's own plans do, one after the other. */
  lemma {:induction false} BatchIsOwnPlans(c: Ctl, u: string, ds: seq<Decision>)
    ensures RunPlans(c, u, ds) == OneByOne(c, OwnPlans(u, ds))
  {
    if ds == [] {
    } else {
      var n := |ds| - 1;
      BatchIsOwnPlans(c, u, ds[..n]);
      var own := OwnPlans(u, ds[..n]);
      if ds[n].user == u {
        assert (own + [(ds[n].plan, ds[n].json)])[..|own|] == own;
      } else {
        assert own + [] == own && RunPlans(c, u, ds[..n]).out + [] == RunPlans(c, u, ds[..n]).out;
      }
    }
  }

  /** What a publication of a plan says. */
  predicate Says(e: Effect, plan: Plan) {
    match e
    case Handover(b) => b == plan.bts
    case PreMigrate(_, job) => job == Job(plan.server, plan.bts)
    case Migrate(_, job) => job == Job(plan.server, plan.bts)
    case _ => false
  }

  predicate SaidFor(d: Decision, u: string, e: Effect) {
    d.user == u && Says(e, d.plan)
  }

  /** Nobody is told anything but what one of its own plans says. */
  lemma {:induction false} BatchTells(c: Ctl, u: string, ds: seq<Decision>, e: Effect)
    requires e in RunPlans(c, u, ds).out
    ensures exists i :: 0 <= i < |ds| && SaidFor(ds[i], u, e)
  {
    if ds == [] {
    } else {
      var n := |ds| - 1;
      var r := RunPlans(c, u, ds[..n]);
      var o := Decide(r.c, u, ds[n]);
      assert e in r.out + o.out;
      if e in r.out {
        BatchTells(c, u, ds[..n], e);
        var i :| 0 <= i < n && SaidFor(ds[..n][i], u, e);
        assert SaidFor(ds[i], u, e);
      } else {
        PlanPublishes(r.c, ds[n].plan, ds[n].json, e);
        assert SaidFor(ds[n], u, e);
      }
    }
  }

  // ------------------------------------------------------------------- the reports

  /** A report of where the service runs puts the row there, `running`, with the bits at
    * RUNNING: after an allocation for every user with a row or a base station, after a
    * migration for those with a row and a state. Nothing is published. */
  lemma ReportStores(c: Ctl, svc: Service)
    ensures var o := Allocated(c, svc);
            && o.out == [] && o.c.bits == Some({RunningBit})
            && (o.c.row.Some? <==> c.row.Some? || c.bts.Some?)
            && (o.c.row.Some? ==> o.c.row.value == Row(svc.server, Some(svc.port), RunningPhase))
            && o.c.bts == c.bts && o.c.migrating == c.migrating && o.c.handover == c.handover
    ensures var o := Migrated(c, svc);
            && o.out == [] && (o.c.bits.Some? <==> c.bits.Some?) && (o.c.row.Some? <==> c.row.Some?)
            && (c.bits.Some? ==> o.c.bits.value == {RunningBit})
            && (c.row.Some? ==> o.c.row.value == Row(svc.server, Some(svc.port), RunningPhase))
            && o.c.bts == c.bts && o.c.migrating == c.migrating && o.c.handover == c.handover
  {
  }

  /** A user that the database knows is at the base station it reports. Its state changes
    * unless it is RUNNING: while a pre-migration is under way the report is remembered,
    * and otherwise the handover was all there was to do. */
  lemma HandoverReportStores(c: Ctl, b: string)
    ensures var o := Handovered(c, b);
            && o.out == [] && o.c.row == c.row && o.c.migrating == c.migrating && o.c.handover == c.handover
            && o.c.bts == (if c.bts.Some? then Some(b) else None)
            && (o.c.bits.Some? <==> c.bits.Some?)
            && (c.bits.Some? && (c.bts.None? || c.bits.value == {RunningBit}) ==> o.c.bits == c.bits)
            && (c.bits.Some? && c.bts.Some? && c.bits.value != {RunningBit} ==>
                  o.c.bits.value
                  == if PreMigrateBit in c.bits.value then c.bits.value + {HandoveredBit} else {RunningBit})
  {
  }

  /** A user is deployed where the planner places it if it is at a known base station and
    * has no service; if it has one, it is deployed again where the row says, unless the
    * row still waits for the first answer. */
  lemma DiscoveryDeploys(c: Ctl, bts: string, known: bool, place: string, to: string)
    ensures var o := Discovery(c, bts, known, place);
            && (Deploy(to) in o.out <==>
                  known && (if c.row.None? then to == place
                            else to == c.row.value.server && c.row.value.phase != InitPhase))
            && |o.out| <= 1
            && (known && c.row.None? ==>
                  o.c == Ctl(Some({}), Some(Row(place, None, InitPhase)), Some(bts), c.migrating, c.handover))
            && (!known || c.row.Some? ==> o.c == c)
  {
  }
}
