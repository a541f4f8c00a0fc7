/** The centralized controller, whose handlers update its dictionaries in place. */
module Controller {
  import opened Basics
  import opened Handlers

  class CentralizedController {
    var migrationState: map<string, Bits>
    var migratingPlan: map<string, Stored>
    var handoverPlan: map<string, string>
    var services: map<string, Row>
    var userBts: map<string, string>
    /** Every publication and every timer start, oldest first. */
    var log: seq<(string, Effect)>

    ghost function View(u: string): Ctl
      reads this
    {
      Ctl(Get(migrationState, u), Get(services, u), Get(userBts, u), Get(migratingPlan, u), Get(handoverPlan, u))
    }

    /** The handler did `o` to user `u` and nothing to any other user. */
    twostate predicate Did(u: string, o: Outcome)
      reads this
    {
      && View(u) == o.c
      && (forall v | v != u :: View(v) == old(View(v)))
      && log == old(log) + Tagged(u, o.out)
    }

    /** No user enters or leaves the dictionaries a batch of plans iterates over. */
    twostate predicate SameUsers()
      reads this
    {
      migrationState.Keys == old(migrationState.Keys) && services.Keys == old(services.Keys) &&
          userBts.Keys == old(userBts.Keys)
    }

    constructor ()
      ensures log == [] && forall u :: View(u) == UNKNOWN
    {
      migrationState, migratingPlan, handoverPlan := map[], map[], map[];
      services, userBts, log := map[], map[], [];
    }

    method Emit(u: string, e: Effect)
      modifies this`log
      ensures log == old(log) + [(u, e)]
    {
      log := log + [(u, e)];
    }

    method TriggerHandover(u: string, bts: string)
      modifies this
      ensures Did(u, Handlers.TriggerHandover(old(View(u)), bts)) && SameUsers()
    {
      if u !in handoverPlan || u !in migrationState {
        return;
      }
      var bits := migrationState[u];
      if HandoverBit in bits || HandoveredBit in bits {
        return;
      }
      migrationState := migrationState[u := bits + {HandoverBit}];
      Emit(u, Handover(bts));
      handoverPlan := Remove(handoverPlan, u);
    }

    method TriggerPreMigration(u: string, source: string, job: Job)
      modifies this
      ensures Did(u, Handlers.TriggerPreMigration(old(View(u)), source, job))
    {
      if u !in migrationState {
        return;
      }
      var bits := migrationState[u];
      if PreMigrateBit in bits || MigrateBit in bits {
        return;
      }
      migrationState := migrationState[u := bits + {PreMigrateBit}];
      Emit(u, PreMigrate(source, job));
    }

    method TriggerMigration(u: string, source: string, job: Job)
      modifies this
      ensures Did(u, Handlers.TriggerMigration(old(View(u)), source, job)) && SameUsers()
    {
      if u !in migrationState {
        return;
      }
      var bits := migrationState[u];
      if MigrateBit in bits {
        return;
      }
      if bits == RUNNING_STATE {
        migratingPlan := Remove(migratingPlan, u);
        return;
      }
      migrationState := migrationState[u := bits + {MigrateBit}];
      Emit(u, Migrate(source, job));
      migratingPlan := Remove(migratingPlan, u);
    }

    /** The handover half of one iteration of `trigger_other_planners`. */
    method ApplyThresholdHandover(u: string, plan: Plan)
      requires u in userBts && u in migrationState
      modifies this
      ensures Did(u, ThresholdHandover(old(View(u)), plan)) && SameUsers()
    {
      if plan.bts != userBts[u] {
        handoverPlan := handoverPlan[u := plan.bts];
        label Stored:
        assert forall v | v != u :: View(v) == old(View(v));
        TriggerHandover(u, plan.bts);
        assert forall v | v != u :: View(v) == old@Stored(View(v));
        assert View(u).bits.Some?;
        migrationState := migrationState[u := migrationState[u] + {HandoverBit}];
      }
    }

    /** The migration half of one iteration of `trigger_other_planners`. */
    method ApplyThresholdMigration(u: string, plan: Plan, json: bool)
      requires u in services && u in migrationState
      modifies this
      ensures Did(u, ThresholdMigration(old(View(u)), plan, json)) && SameUsers()
    {
      var source := services[u].server;
      if plan.server != source {
        if services[u].phase != RunningPhase {
          return;
        }
        services := services[u := services[u].(phase := PreMigratePhase)];
        migrationState := migrationState[u := migrationState[u] + {PreMigrateBit}];
        if !json {
          return;
        }
        var job := Job(plan.server, plan.bts);
        Emit(u, PreMigrate(source, job));
        migratingPlan := migratingPlan[u := Stored(plan, job)];
        label Stored:
        assert forall v | v != u :: View(v) == old(View(v));
        TriggerMigration(u, source, job);
        assert forall v | v != u :: View(v) == old@Stored(View(v));
      }
    }

    /** One iteration of `trigger_other_planners`. */
    method ApplyThresholdPlan(u: string, plan: Plan, json: bool)
      requires u in services && u in userBts && u in migrationState
      modifies this
      ensures Did(u, ThresholdPlan(old(View(u)), plan, json)) && SameUsers()
    {
      ApplyThresholdHandover(u, plan);
      label Half:
      assert View(u).bits.Some? && View(u).row.Some?;
      ApplyThresholdMigration(u, plan, json);
      assert forall v | v != u :: View(v) == old@Half(View(v));
    }

    /** The batch `ds` did to every user what `RunPlans` says. */
    twostate predicate Ran(ds: seq<Decision>)
      reads this
    {
      forall v :: RanFor(v, RunPlans(old(View(v)), v, ds))
    }

    twostate predicate RanFor(v: string, o: Outcome)
      reads this
    {
      View(v) == o.c && LogOf(log, v) == LogOf(old(log), v) + o.out
    }

    /** The same iteration, seen by every user. */
    method StepPlan(d: Decision)
      requires d.user in services && d.user in userBts && d.user in migrationState
      modifies this
      ensures forall v :: RanFor(v, Decide(old(View(v)), v, d))
      ensures SameUsers()
    {
      ghost var o := ThresholdPlan(View(d.user), d.plan, d.json);
      ApplyThresholdPlan(d.user, d.plan, d.json);
      forall v
        ensures RanFor(v, Decide(old(View(v)), v, d))
      {
        LogOfTagged(old(log), d.user, o.out, v);
      }
    }

    /** The users a batch of plans can be carried out for. */
    function KnownUsers(): set<string>
      reads this
    {
      services.Keys * userBts.Keys * migrationState.Keys
    }

    /** `trigger_other_planners`: every plan of the batch, in order, up to the first
      * user the controller has no service row, no user row or no migration state for. */
    method TriggerOtherPlanners(ds: seq<Decision>)
      modifies this
      ensures Ran(ds[..Handled(ds, old(KnownUsers()))])
    {
      var i := 0;
      while i < |ds| && ds[i].user in services && ds[i].user in userBts && ds[i].user in migrationState
        invariant i <= Handled(ds, old(KnownUsers()))
        invariant SameUsers()
        invariant Ran(ds[..i])
      {
        var d := ds[i];
        label Before:
        StepPlan(d);
        forall v
          ensures RanFor(v, RunPlans(old(View(v)), v, ds[..i + 1]))
        {
          assert RanFor@Before(v, Decide(old@Before(View(v)), v, d));
          RunPlansLogged(old(View(v)), v, ds, i, old@Before(View(v)), Decide(old@Before(View(v)), v, d),
                         LogOf(old(log), v), LogOf(old@Before(log), v), LogOf(log, v));
        }
        i := i + 1;
      }
    }

    /** One iteration of `run_optimization_planner`. */
    method ApplyOptimizedPlan(u: string, plan: Plan, json: bool, preMig: Option<real>, mig: Option<real>)
      requires u in services && u in userBts
      requires preMig.Some? ==> mig.Some?
      modifies this
      ensures Did(u, OptimizedPlan(old(View(u)), plan, json, preMig, mig))
    {
      if u !in migrationState {
        return;
      }
      var bits := migrationState[u];
      if !(PreMigrateBit in bits || PreMigratedBit in bits || MigrateBit in bits) {
        if plan.server != services[u].server {
          if !json {
            return;
          }
          var job := Job(plan.server, plan.bts);
          if preMig.Some? && preMig.value < 60.0 {
            Emit(u, Start(PreMigrateTimer(services[u].server, job)));
            migratingPlan := migratingPlan[u := Stored(plan, job)];
            if plan.bts != userBts[u] {
              handoverPlan := handoverPlan[u := plan.bts];
            }
          }
        } else if plan.bts != userBts[u] {
          if mig.Some? && mig.value < 2.0 {
            handoverPlan := handoverPlan[u := plan.bts];
            Emit(u, Start(HandoverTimer(plan.bts)));
          }
        }
      }
    }

    method ProcessDiscovery(u: string, bts: string, known: bool, place: string)
      modifies this
      ensures Did(u, Discovery(old(View(u)), bts, known, place))
    {
      if !known {
        return;
      }
      if u in services {
        if services[u].phase != InitPhase {
          Emit(u, Deploy(services[u].server));
        }
        return;
      }
      userBts := userBts[u := bts];
      services := services[u := Row(place, None, InitPhase)];
      migrationState := migrationState[u := INIT_STATE];
      Emit(u, Deploy(place));
    }

    method ProcessAllocated(u: string, svc: Service)
      modifies this
      ensures Did(u, Allocated(old(View(u)), svc))
    {
      migrationState := migrationState[u := RUNNING_STATE];
      if u in services || u in userBts {
        services := services[u := Row(svc.server, Some(svc.port), RunningPhase)];
      }
    }

    method ProcessMigrated(u: string, svc: Service)
      modifies this
      ensures Did(u, Migrated(old(View(u)), svc))
    {
      if u in services {
        services := services[u := Row(svc.server, Some(svc.port), RunningPhase)];
      }
      if u in migrationState {
        migrationState := migrationState[u := RUNNING_STATE];
      }
    }

    method ProcessHandovered(u: string, bts: string)
      modifies this
      ensures Did(u, Handovered(old(View(u)), bts))
    {
      if u !in userBts {
        return;
      }
      userBts := userBts[u := bts];
      if u !in migrationState {
        return;
      }
      var bits := migrationState[u];
      if bits != RUNNING_STATE {
        migrationState := migrationState[u := bits + {HandoveredBit}];
        if PreMigrateBit !in bits {
          migrationState := migrationState[u := RUNNING_STATE];
        }
      }
    }

    method ProcessPreMigrated(u: string, job: Job, optimized: bool, mig: Option<real>)
      modifies this
      ensures Did(u, if optimized then PreMigratedOptimized(old(View(u)), job, mig)
                     else PreMigratedThreshold(old(View(u)), job))
    {
      if u !in services {
        return;
      }
      services := services[u := services[u].(phase := PreMigratedPhase)];
      label Marked:
      assert forall v | v != u :: View(v) == old(View(v));
      if optimized {
        ContinueOptimized(u, job, mig);
      } else {
        ContinueThreshold(u, job);
      }
      assert forall v | v != u :: View(v) == old@Marked(View(v));
    }

    /** The threshold branch of `process_pre_migrated`. */
    method ContinueThreshold(u: string, job: Job)
      requires u in services && services[u].phase == PreMigratedPhase
      modifies this
      ensures Did(u, PreMigratedThreshold(old(View(u)), job))
    {
      if u in migratingPlan {
        var stored := migratingPlan[u];
        if stored.plan.server == job.server && stored.plan.bts == job.bts {
          TriggerMigration(u, services[u].server, stored.job);
        }
      }
    }

    /** The optimization branch of `process_pre_migrated`. */
    method ContinueOptimized(u: string, job: Job, mig: Option<real>)
      requires u in services && services[u].phase == PreMigratedPhase
      modifies this
      ensures Did(u, PreMigratedOptimized(old(View(u)), job, mig))
    {
      if u !in migrationState {
        return;
      }
      var bits := migrationState[u];
      migrationState := migrationState[u := bits + {PreMigratedBit}];
      if mig.None? {
        return;
      }
      if mig.value > 200.0 {
        services := services[u := services[u].(phase := RunningPhase)];
        migrationState := migrationState[u := RUNNING_STATE];
        handoverPlan := Remove(handoverPlan, u);
        migratingPlan := Remove(migratingPlan, u);
        return;
      }
      if HandoverBit !in bits && u in handoverPlan {
        Emit(u, Start(HandoverTimer(handoverPlan[u])));
      }
      if MigrateBit !in bits && u in migratingPlan {
        var stored := migratingPlan[u];
        if stored.plan.server == job.server && stored.plan.bts == job.bts {
          Emit(u, Start(MigrateTimer(stored.plan, services[u].server, stored.job)));
        }
      }
    }
  }
}
