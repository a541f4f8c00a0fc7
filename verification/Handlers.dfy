/** What the handlers of the centralized controller (centralized_controller.py)
  * do to ONE user.
  *
  * The controller keeps several dictionaries keyed by the end user and a
  * database row per user; `Ctl` is what it knows about one user.  The class in
  * Controller.dfy shows that the handlers, which update the dictionaries in
  * place, do exactly this to their own user and nothing to anybody else.
  */
module Handlers {
  import opened Basics

  /** The bits of `migration_state[user]`; a state is the set of bits that are on. */
  datatype Bit = RunningBit | PreMigrateBit | PreMigratedBit | MigrateBit | HandoverBit | HandoveredBit

  type Bits = set<Bit>

  const INIT_STATE: Bits := {}
  const RUNNING_STATE: Bits := {RunningBit}

  /** The database's `state` column of a service. */
  datatype Phase = InitPhase | RunningPhase | PreMigratePhase | PreMigratedPhase | MigratePhase

  /** The service row: where the database believes the container runs. */
  datatype Row = Row(server: string, port: Option<nat>, phase: Phase)

  /** A running service as the edge announces it. */
  datatype Service = Service(server: string, port: nat)

  datatype Plan = Plan(bts: string, server: string)

  /** The part of `service_json` that travels to the edge: where to go. */
  datatype Job = Job(server: string, bts: string)

  datatype Stored = Stored(plan: Plan, job: Job)

  datatype Timer =
    | PreMigrateTimer(source: string, job: Job)
    | MigrateTimer(plan: Plan, source: string, job: Job)
    | HandoverTimer(bts: string)

  /** What a handler does besides updating its own state. */
  datatype Effect =
    | Deploy(to: string)
    | PreMigrate(to: string, job: Job)
    | Migrate(to: string, job: Job)
    | Handover(bts: string)
    | Start(timer: Timer)

  datatype Ctl = Ctl(
    bits: Option<Bits>,
    row: Option<Row>,
    bts: Option<string>,
    migrating: Option<Stored>,
    handover: Option<string>)

  datatype Outcome = Outcome(c: Ctl, out: seq<Effect>)

  const UNKNOWN := Ctl(None, None, None, None, None)

  predicate Busy(bits: Bits) {
    PreMigrateBit in bits || PreMigratedBit in bits || MigrateBit in bits
  }

  // ------------------------------------------------------------ the handlers

  /** `trigger_handover`. */
  function TriggerHandover(c: Ctl, bts: string): Outcome {
    if c.handover.None? || c.bits.None? then Outcome(c, [])
    else if HandoverBit in c.bits.value || HandoveredBit in c.bits.value then Outcome(c, [])
    else Outcome(c.(bits := Some(c.bits.value + {HandoverBit}), handover := None), [Handover(bts)])
  }

  /** `trigger_pre_migration`. */
  function TriggerPreMigration(c: Ctl, source: string, job: Job): Outcome {
    if c.bits.None? then Outcome(c, [])
    else if PreMigrateBit in c.bits.value || MigrateBit in c.bits.value then Outcome(c, [])
    else Outcome(c.(bits := Some(c.bits.value + {PreMigrateBit})), [PreMigrate(source, job)])
  }

  /** `trigger_migration`. */
  function TriggerMigration(c: Ctl, source: string, job: Job): Outcome {
    if c.bits.None? then Outcome(c, [])
    else if MigrateBit in c.bits.value then Outcome(c, [])
    else if c.bits.value == RUNNING_STATE then Outcome(c.(migrating := None), [])
    else Outcome(c.(bits := Some(c.bits.value + {MigrateBit}), migrating := None), [Migrate(source, job)])
  }

  function FireTimer(c: Ctl, t: Timer): Outcome {
    match t
    case PreMigrateTimer(source, job) => TriggerPreMigration(c, source, job)
    case MigrateTimer(_, source, job) => TriggerMigration(c, source, job)
    case HandoverTimer(bts) => TriggerHandover(c, bts)
  }

  /** The handover half of one plan in `trigger_other_planners`. */
  function ThresholdHandover(c: Ctl, plan: Plan): Outcome {
    if c.bits.None? || c.bts == Some(plan.bts) then Outcome(c, [])
    else
      var o := TriggerHandover(c.(handover := Some(plan.bts)), plan.bts);
      Outcome(o.c.(bits := Some(o.c.bits.value + {HandoverBit})), o.out)
  }

  /** The migration half of one plan in `trigger_other_planners`.  `json` says
    * whether `get_json` could build the message from the database row. */
  function ThresholdMigration(c: Ctl, plan: Plan, json: bool): Outcome {
    if c.bits.None? || c.row.None? || plan.server == c.row.value.server then Outcome(c, [])
    else if c.row.value.phase != RunningPhase then Outcome(c, [])
    else
      var c1 := c.(row := Some(c.row.value.(phase := PreMigratePhase)),
                   bits := Some(c.bits.value + {PreMigrateBit}));
      if !json then Outcome(c1, [])
      else
        var source, job := c.row.value.server, Job(plan.server, plan.bts);
        var o := TriggerMigration(c1.(migrating := Some(Stored(plan, job))), source, job);
        Outcome(o.c, [PreMigrate(source, job)] + o.out)
  }

  /** One plan of `trigger_other_planners`.  Without a database row the handler
    * raises before it changes anything. */
  function ThresholdPlan(c: Ctl, plan: Plan, json: bool): Outcome {
    if c.row.None? then Outcome(c, [])
    else
      var h := ThresholdHandover(c, plan);
      var m := ThresholdMigration(h.c, plan, json);
      Outcome(m.c, h.out + m.out)
  }

  /** One plan of `run_optimization_planner`, given the two lead times. */
  function OptimizedPlan(c: Ctl, plan: Plan, json: bool, preMig: Option<real>, mig: Option<real>): Outcome
    requires preMig.Some? ==> mig.Some?
  {
    if c.row.None? || c.bits.None? || Busy(c.bits.value) then Outcome(c, [])
    else if plan.server != c.row.value.server then
      if !json || preMig.None? || preMig.value >= 60.0 then Outcome(c, [])
      else
        var job := Job(plan.server, plan.bts);
        var c1 := c.(migrating := Some(Stored(plan, job)));
        var c2 := if c.bts == Some(plan.bts) then c1 else c1.(handover := Some(plan.bts));
        Outcome(c2, [Start(PreMigrateTimer(c.row.value.server, job))])
    else if c.bts != Some(plan.bts) && mig.Some? && mig.value < 2.0 then
      Outcome(c.(handover := Some(plan.bts)), [Start(HandoverTimer(plan.bts))])
    else Outcome(c, [])
  }

  /** `process_discovery` for the one service a user asks for. */
  function Discovery(c: Ctl, bts: string, known: bool, place: string): Outcome {
    if !known then Outcome(c, [])
    else if c.row.Some? then
      if c.row.value.phase == InitPhase then Outcome(c, [])
      else Outcome(c, [Deploy(c.row.value.server)])
    else Outcome(c.(bts := Some(bts), row := Some(Row(place, None, InitPhase)), bits := Some(INIT_STATE)),
                 [Deploy(place)])
  }

  /** `process_allocated`. */
  function Allocated(c: Ctl, svc: Service): Outcome {
    var row := if c.row.Some? || c.bts.Some?
               then Some(Row(svc.server, Some(svc.port), RunningPhase)) else None;
    Outcome(c.(bits := Some(RUNNING_STATE), row := row), [])
  }

  /** `process_migrated`. */
  function Migrated(c: Ctl, svc: Service): Outcome {
    var c1 := if c.row.Some? then c.(row := Some(Row(svc.server, Some(svc.port), RunningPhase))) else c;
    Outcome(if c.bits.None? then c1 else c1.(bits := Some(RUNNING_STATE)), [])
  }

  /** `process_handovered`. */
  function Handovered(c: Ctl, bts: string): Outcome {
    if c.bts.None? then Outcome(c, [])
    else
      var c1 := c.(bts := Some(bts));
      if c.bits.None? || c.bits.value == RUNNING_STATE then Outcome(c1, [])
      else if PreMigrateBit in c.bits.value then
        Outcome(c1.(bits := Some(c.bits.value + {HandoveredBit})), [])
      else Outcome(c1.(bits := Some(RUNNING_STATE)), [])
  }

  /** `process_pre_migrated` under a threshold planner. */
  function PreMigratedThreshold(c: Ctl, job: Job): Outcome {
    if c.row.None? then Outcome(c, [])
    else
      var c1 := c.(row := Some(c.row.value.(phase := PreMigratedPhase)));
      if c.migrating.None? || c.migrating.value.plan != Plan(job.bts, job.server) then Outcome(c1, [])
      else TriggerMigration(c1, c.row.value.server, c.migrating.value.job)
  }

  /** `process_pre_migrated` under the optimization planner; `mig` is the lead
    * time the planner returns for this destination. */
  function PreMigratedOptimized(c: Ctl, job: Job, mig: Option<real>): Outcome {
    if c.row.None? then Outcome(c, [])
    else
      var c1 := c.(row := Some(c.row.value.(phase := PreMigratedPhase)));
      if c.bits.None? then Outcome(c1, [])
      else
        var c2 := c1.(bits := Some(c.bits.value + {PreMigratedBit}));
        if mig.None? then Outcome(c2, [])
        else if mig.value > 200.0 then
          Outcome(c2.(row := Some(c.row.value.(phase := RunningPhase)), bits := Some(RUNNING_STATE),
                      handover := None, migrating := None), [])
        else
          var h := if HandoverBit !in c.bits.value && c.handover.Some?
                   then [Start(HandoverTimer(c.handover.value))] else [];
          var m := if MigrateBit !in c.bits.value && c.migrating.Some? &&
                      c.migrating.value.plan == Plan(job.bts, job.server)
                   then [Start(MigrateTimer(c.migrating.value.plan, c.row.value.server, c.migrating.value.job))]
                   else [];
          Outcome(c2, h + m)
  }

  // --------------------------------------------- a batch of threshold plans

  datatype Decision = Decision(user: string, plan: Plan, json: bool)

  /** What one plan of a batch does to user `u`. */
  function Decide(c: Ctl, u: string, d: Decision): Outcome {
    if d.user == u then ThresholdPlan(c, d.plan, d.json) else Outcome(c, [])
  }

  /** What a batch of plans does to user `u`. */
  function RunPlans(c: Ctl, u: string, ds: seq<Decision>): Outcome {
    if ds == [] then Outcome(c, [])
    else
      var r := RunPlans(c, u, ds[..|ds| - 1]);
      var o := Decide(r.c, u, ds[|ds| - 1]);
      Outcome(o.c, r.out + o.out)
  }

  lemma RunPlansNext(c: Ctl, u: string, ds: seq<Decision>, i: nat)
    requires i < |ds|
    ensures var r := RunPlans(c, u, ds[..i]);
            var o := Decide(r.c, u, ds[i]);
            RunPlans(c, u, ds[..i + 1]) == Outcome(o.c, r.out + o.out)
  {
    assert ds[..i + 1][..i] == ds[..i];
  }

  /** The same with the publications in a log. */
  lemma RunPlansLogged(c: Ctl, u: string, ds: seq<Decision>, i: nat, mid: Ctl, next: Outcome,
                       log0: seq<Effect>, log1: seq<Effect>, log2: seq<Effect>)
    requires i < |ds| && mid == RunPlans(c, u, ds[..i]).c && log1 == log0 + RunPlans(c, u, ds[..i]).out
    requires next == Decide(mid, u, ds[i]) && log2 == log1 + next.out
    ensures next.c == RunPlans(c, u, ds[..i + 1]).c && log2 == log0 + RunPlans(c, u, ds[..i + 1]).out
  {
    RunPlansNext(c, u, ds, i);
    Regroup(log0, RunPlans(c, u, ds[..i]).out, next.out);
  }

  lemma Regroup(a: seq<Effect>, b: seq<Effect>, c: seq<Effect>)
    ensures a + (b + c) == (a + b) + c
  {
  }

  /** The handler gives up at the first plan whose user it does not know. */
  function Handled(ds: seq<Decision>, known: set<string>): (k: nat)
    ensures k <= |ds|
    ensures forall i | 0 <= i < k :: ds[i].user in known
    ensures k < |ds| ==> ds[k].user !in known
  {
    if ds == [] || ds[0].user !in known then 0 else 1 + Handled(ds[1..], known)
  }

  function Tagged(u: string, out: seq<Effect>): seq<(string, Effect)> {
    seq(|out|, i requires 0 <= i < |out| => (u, out[i]))
  }

  function LogOf(log: seq<(string, Effect)>, u: string): seq<Effect> {
    if log == [] then []
    else
      var n := |log| - 1;
      LogOf(log[..n], u) + if log[n].0 == u then [log[n].1] else []
  }

  lemma {:induction false} LogOfTagged(log: seq<(string, Effect)>, u: string, out: seq<Effect>, v: string)
    ensures LogOf(log + Tagged(u, out), v) == LogOf(log, v) + if u == v then out else []
  {
    if out == [] {
      assert log + Tagged(u, out) == log;
    } else {
      var n := |out| - 1;
      LogOfTagged(log, u, out[..n], v);
      LogOfLast(log + Tagged(u, out), v);
      var l := log + Tagged(u, out);
      assert l[..|l| - 1] == log + Tagged(u, out[..n]) && l[|l| - 1] == (u, out[n]);
      assert out[..n] + [out[n]] == out;
      Regroup(LogOf(log, v), out[..n], [out[n]]);
    }
  }

  lemma LogOfLast(log: seq<(string, Effect)>, v: string)
    requires log != []
    ensures var n := |log| - 1; LogOf(log, v) == LogOf(log[..n], v) + if log[n].0 == v then [log[n].1] else []
  {
  }
}
