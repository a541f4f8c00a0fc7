/** A plan of the optimization planner that is near is carried out: once its timers have
  * fired, each of the publications it needs has been made exactly once and names what
  * the plan names. */
module Completion {
  import opened Basics
  import opened Handlers
  import opened Epochs
  import opened Decisions

  /** The publications of one kind, in order. */
  function Only(out: seq<Effect>, k: Kind): seq<Effect> {
    if out == [] then [] else (if Is(out[0], k) then [out[0]] else []) + Only(out[1..], k)
  }

  /** Everything that is published and started in a run. */
  function Published(w: World, ms: seq<Move>): seq<Effect>
    requires MovedAll(w, ms).Some?
    decreases |ms|
  {
    if ms == [] then [] else OutOf(w, ms[0]) + Published(Moved(w, ms[0]), ms[1..])
  }

  predicate Keeps(w: World, m: Move) {
    m.Receive? ==> !Resets(true, w.c, m.e)
  }

  /** No event of the run resets the bits. */
  predicate NoResets(w: World, ms: seq<Move>)
    requires MovedAll(w, ms).Some?
    decreases |ms|
  {
    ms == [] || (Keeps(w, ms[0]) && NoResets(Moved(w, ms[0]), ms[1..]))
  }

  /** The user reports a handover before it was told of one. */
  predicate ReportsFirst(w: World, ms: seq<Move>)
    requires MovedAll(w, ms).Some?
    decreases |ms|
  {
    && ms != []
    && ((ms[0].Receive? && ms[0].e.OnHandovered?) ||
        (Only(OutOf(w, ms[0]), HandoverKind) == [] && ReportsFirst(Moved(w, ms[0]), ms[1..])))
  }

  /** The destination answers the pre-migration, and the lead time is short enough. */
  predicate Answers(m: Move, job: Job) {
    m.Receive? && m.e.OnPreMigrated? && m.e.job == job && m.e.mig.Some? && m.e.mig.value <= 200.0
  }

  predicate Answered(ms: seq<Move>, job: Job) {
    exists i :: 0 <= i < |ms| && Answers(ms[i], job)
  }

  // ------------------------------------------------------------------ sequences

  lemma {:induction false} OnlyConcat(a: seq<Effect>, b: seq<Effect>, k: Kind)
    ensures Only(a + b, k) == Only(a, k) + Only(b, k)
  {
    if a == [] {
      assert a + b == b;
    } else {
      assert (a + b)[1..] == a[1..] + b;
      OnlyConcat(a[1..], b, k);
      var first := if Is(a[0], k) then [a[0]] else [];
      assert first + (Only(a[1..], k) + Only(b, k)) == (first + Only(a[1..], k)) + Only(b, k);
    }
  }

  lemma {:induction false} NoneOf(out: seq<Effect>, k: Kind)
    requires forall e | e in out :: !Is(e, k)
    ensures Only(out, k) == []
  {
    if out == [] {
    } else {
      NoneOf(out[1..], k);
    }
  }

  lemma AtMostOne(out: seq<Effect>, k: Kind)
    requires |out| <= 1
    ensures Only(out, k) == if out != [] && Is(out[0], k) then out else []
  {
    if out != [] {
      assert out[1..] == [] && out == [out[0]];
    }
  }

  lemma {:induction false} TimersIn(out: seq<Effect>, t: Timer)
    ensures t in TimersOf(out) <==> Start(t) in out
  {
    if out == [] {
    } else {
      TimersIn(out[1..], t);
      assert out == [out[0]] + out[1..];
    }
  }

  /** Once a service has been prepared for, nothing but a timer publishes anything, and
    * the only timers started are those of an answered pre-migration. */
  predicate Prepared(c: Ctl, source: string) {
    c.bits.Some? && PreMigrateBit in c.bits.value && c.row.Some? && c.row.value.server == source
  }

  lemma StaysPrepared(w: World, m: Move, source: string)
    requires CanMove(w, m) && Keeps(w, m) && Prepared(w.c, source)
    ensures Prepared(Moved(w, m).c, source)
  {
    if m.Fire? {
      TimerStores(w.c, w.timers[m.i]);
    } else if m.e.OnPreMigrated? {
      AnswerStores(w.c, m.e.job, m.e.mig);
    }
  }

  /** What an event starts when the service is prepared for, and what it leaves stored. */
  lemma ReceivePrepared(c: Ctl, e: Event, source: string)
    requires Prepared(c, source) && Possible(true, e) && !e.OnTimer? && !Resets(true, c, e)
    ensures var o := Handle(true, c, e);
            && o.c.handover == c.handover && o.c.migrating == c.migrating
            && o.c.bits.value == c.bits.value + (if e.OnHandovered? && c.bts.Some? then {HandoveredBit}
                                                 else if e.OnPreMigrated? then {PreMigratedBit} else {})
            && (forall x | x in o.out :: x.Start? || x.Deploy?)
            && (!e.OnPreMigrated? ==> forall x | x in o.out :: x.Deploy?)
  {
    if e.OnPreMigrated? {
      AnswerStores(c, e.job, e.mig);
      forall x | x in Handle(true, c, e).out ensures x.Start? {
        AnswerStarts(c, e.job, e.mig, x);
      }
    }
    assert c.bits.value + {} == c.bits.value;
  }

  lemma AnsweredRest(ms: seq<Move>, job: Job)
    requires ms != [] && Answered(ms, job)
    ensures Answers(ms[0], job) || Answered(ms[1..], job)
  {
    var i :| 0 <= i < |ms| && Answers(ms[i], job);
    if i > 0 {
      assert ms[1..][i - 1] == ms[i];
    }
  }

  /** A timer that fires is gone, and the others are still there. */
  lemma TimersLeft(timers: seq<Timer>, i: nat)
    requires i < |timers|
    ensures forall t | t in timers[..i] + timers[i + 1..] :: t in timers
    ensures forall t | t in timers :: t == timers[i] || t in timers[..i] + timers[i + 1..]
  {
    assert timers == timers[..i] + ([timers[i]] + timers[i + 1..]);
  }

  // ----------------------------------------------------------------- the handover

  predicate NamesOnly(timers: seq<Timer>, b: string) {
    forall t | t in timers :: t.HandoverTimer? ==> t.bts == b
  }

  /** The handover is still to be published. */
  predicate Due(c: Ctl, b: string)
    requires c.bits.Some?
  {
    HandoverBit !in c.bits.value && HandoveredBit !in c.bits.value && c.handover == Some(b)
  }

  predicate HandoverSide(w: World, source: string, b: string) {
    && Prepared(w.c, source) && w.c.bts.Some? && NamesOnly(w.timers, b)
    && (w.c.handover.Some? ==> w.c.handover == Some(b)) && (Due(w.c, b) || HandingOver(w.c.bits.value))
  }

  lemma FireHandover(w: World, i: nat, source: string, b: string)
    requires HandoverSide(w, source, b) && i < |w.timers|
    ensures var w' := Moved(w, Fire(i));
            && HandoverSide(w', source, b)
            && Only(OutOf(w, Fire(i)), HandoverKind)
               == (if w.timers[i].HandoverTimer? && Due(w.c, b) then [Handover(b)] else [])
            && (Due(w'.c, b) <==> Due(w.c, b) && !w.timers[i].HandoverTimer?)
            && (forall t | t in w.timers :: t == w.timers[i] || t in w'.timers)
  {
    TriggersHandover(w.c, w.timers[i], source, b);
    TimersLeft(w.timers, i);
  }

  lemma TriggersHandover(c: Ctl, t: Timer, source: string, b: string)
    requires Prepared(c, source) && c.bts.Some? && (t.HandoverTimer? ==> t.bts == b)
    requires (c.handover.Some? ==> c.handover == Some(b)) && (Due(c, b) || HandingOver(c.bits.value))
    ensures var o := FireTimer(c, t);
            && Prepared(o.c, source) && o.c.bts.Some?
            && (o.c.handover.Some? ==> o.c.handover == Some(b)) && (Due(o.c, b) || HandingOver(o.c.bits.value))
            && Only(o.out, HandoverKind) == (if t.HandoverTimer? && Due(c, b) then [Handover(b)] else [])
            && (Due(o.c, b) <==> Due(c, b) && !t.HandoverTimer?)
  {
    AtMostOne(FireTimer(c, t).out, HandoverKind);
    TimerStores(c, t);
    TimerPublishes(c, t, Handover(b));
  }

  lemma ReceiveHandover(w: World, e: Event, source: string, b: string)
    requires HandoverSide(w, source, b) && CanMove(w, Receive(e)) && !Resets(true, w.c, e)
    ensures var w' := Moved(w, Receive(e));
            && HandoverSide(w', source, b)
            && Only(OutOf(w, Receive(e)), HandoverKind) == []
            && (Due(w'.c, b) <==> Due(w.c, b) && !e.OnHandovered?)
            && (forall t | t in w.timers :: t in w'.timers)
            && (Due(w.c, b) && e.OnPreMigrated? && Answers(Receive(e), e.job) ==> HandoverTimer(b) in w'.timers)
  {
    var o := Handle(true, w.c, e);
    StaysPrepared(w, Receive(e), source);
    ReceivePrepared(w.c, e, source);
    NoneOf(o.out, HandoverKind);
    forall t | t in TimersOf(o.out) && t.HandoverTimer? ensures t.bts == b {
      TimersIn(o.out, t);
      assert Start(t) in o.out && e.OnPreMigrated?;
      AnswerStarts(w.c, e.job, e.mig, Start(t));
    }
    if Due(w.c, b) && e.OnPreMigrated? && Answers(Receive(e), e.job) {
      AnswerStarts(w.c, e.job, e.mig, Start(HandoverTimer(b)));
      TimersIn(o.out, HandoverTimer(b));
    }
  }

  /** A stored handover is published exactly once, unless the user reports one first. */
  lemma {:induction false} HandoverComes(w: World, ms: seq<Move>, source: string, b: string, job: Job)
    requires HandoverSide(w, source, b) && MovedAll(w, ms).Some? && NoResets(w, ms)
    requires Due(w.c, b) ==> HandoverTimer(b) in w.timers || Answered(ms, job)
    requires HandoverTimer(b) !in MovedAll(w, ms).value.timers
    ensures Only(Published(w, ms), HandoverKind)
            == if Due(w.c, b) && !ReportsFirst(w, ms) then [Handover(b)] else []
    decreases |ms|
  {
    if ms == [] {
    } else {
      var m, rest := ms[0], ms[1..];
      var w' := Moved(w, m);
      if m.Fire? {
        FireHandover(w, m.i, source, b);
      } else {
        ReceiveHandover(w, m.e, source, b);
      }
      if Answered(ms, job) {
        AnsweredRest(ms, job);
      }
      HandoverComes(w', rest, source, b, job);
      OnlyConcat(OutOf(w, m), Published(w', rest), HandoverKind);
    }
  }

  // ---------------------------------------------------------------- the migration

  function MigrateTimerOf(plan: Plan, source: string): Timer {
    MigrateTimer(plan, source, Job(plan.server, plan.bts))
  }

  predicate MigratesOnly(timers: seq<Timer>, plan: Plan, source: string) {
    forall t | t in timers :: t.MigrateTimer? ==> t == MigrateTimerOf(plan, source)
  }

  predicate MigrationSide(w: World, source: string, plan: Plan) {
    && Prepared(w.c, source) && MigratesOnly(w.timers, plan, source)
    && (MigrateBit in w.c.bits.value || w.c.migrating == Some(Stored(plan, Job(plan.server, plan.bts))))
  }

  lemma FireMigration(w: World, i: nat, source: string, plan: Plan)
    requires MigrationSide(w, source, plan) && i < |w.timers|
    ensures var w' := Moved(w, Fire(i));
            && MigrationSide(w', source, plan)
            && Only(OutOf(w, Fire(i)), MigrateKind)
               == (if w.timers[i].MigrateTimer? && MigrateBit !in w.c.bits.value
                   then [Migrate(source, Job(plan.server, plan.bts))] else [])
            && (MigrateBit in w'.c.bits.value <==> MigrateBit in w.c.bits.value || w.timers[i].MigrateTimer?)
            && (forall t | t in w.timers :: t == w.timers[i] || t in w'.timers)
  {
    TriggersMigration(w.c, w.timers[i], source, plan);
    TimersLeft(w.timers, i);
  }

  lemma TriggersMigration(c: Ctl, t: Timer, source: string, plan: Plan)
    requires Prepared(c, source) && (t.MigrateTimer? ==> t == MigrateTimerOf(plan, source))
    requires MigrateBit in c.bits.value || c.migrating == Some(Stored(plan, Job(plan.server, plan.bts)))
    ensures var o := FireTimer(c, t);
            && Prepared(o.c, source)
            && (MigrateBit in o.c.bits.value || o.c.migrating == Some(Stored(plan, Job(plan.server, plan.bts))))
            && Only(o.out, MigrateKind) == (if t.MigrateTimer? && MigrateBit !in c.bits.value
                                            then [Migrate(source, Job(plan.server, plan.bts))] else [])
            && (MigrateBit in o.c.bits.value <==> MigrateBit in c.bits.value || t.MigrateTimer?)
  {
    AtMostOne(FireTimer(c, t).out, MigrateKind);
    TimerStores(c, t);
    TimerPublishes(c, t, Migrate(source, Job(plan.server, plan.bts)));
  }

  lemma ReceiveMigration(w: World, e: Event, source: string, plan: Plan)
    requires MigrationSide(w, source, plan) && CanMove(w, Receive(e)) && !Resets(true, w.c, e)
    ensures var w' := Moved(w, Receive(e));
            && MigrationSide(w', source, plan)
            && Only(OutOf(w, Receive(e)), MigrateKind) == []
            && (MigrateBit in w'.c.bits.value <==> MigrateBit in w.c.bits.value)
            && (forall t | t in w.timers :: t in w'.timers)
            && (MigrateBit !in w.c.bits.value && Answers(Receive(e), Job(plan.server, plan.bts)) ==>
                  MigrateTimerOf(plan, source) in w'.timers)
  {
    var o := Handle(true, w.c, e);
    StaysPrepared(w, Receive(e), source);
    ReceivePrepared(w.c, e, source);
    NoneOf(o.out, MigrateKind);
    forall t | t in TimersOf(o.out) && t.MigrateTimer? ensures t == MigrateTimerOf(plan, source) {
      TimersIn(o.out, t);
      assert Start(t) in o.out && e.OnPreMigrated?;
      AnswerStarts(w.c, e.job, e.mig, Start(t));
    }
    if MigrateBit !in w.c.bits.value && Answers(Receive(e), Job(plan.server, plan.bts)) {
      AnswerStarts(w.c, e.job, e.mig, Start(MigrateTimerOf(plan, source)));
      TimersIn(o.out, MigrateTimerOf(plan, source));
    }
  }

  /** A stored migration whose pre-migration is answered is published exactly once. */
  lemma {:induction false} MigrationComes(w: World, ms: seq<Move>, source: string, plan: Plan)
    requires MigrationSide(w, source, plan) && MovedAll(w, ms).Some? && NoResets(w, ms)
    requires MigrateBit !in w.c.bits.value ==>
               MigrateTimerOf(plan, source) in w.timers || Answered(ms, Job(plan.server, plan.bts))
    requires MigrateTimerOf(plan, source) !in MovedAll(w, ms).value.timers
    ensures Only(Published(w, ms), MigrateKind)
            == if MigrateBit !in w.c.bits.value then [Migrate(source, Job(plan.server, plan.bts))] else []
    decreases |ms|
  {
    if ms == [] {
    } else {
      var m, rest := ms[0], ms[1..];
      var w' := Moved(w, m);
      if m.Fire? {
        FireMigration(w, m.i, source, plan);
      } else {
        ReceiveMigration(w, m.e, source, plan);
      }
      if Answered(ms, Job(plan.server, plan.bts)) {
        AnsweredRest(ms, Job(plan.server, plan.bts));
      }
      MigrationComes(w', rest, source, plan);
      OnlyConcat(OutOf(w, m), Published(w', rest), MigrateKind);
    }
  }

  /** Nothing is pre-migrated again while the migration is under way. */
  lemma {:induction false} NoSecondPreMigration(w: World, ms: seq<Move>, source: string)
    requires Prepared(w.c, source) && MovedAll(w, ms).Some? && NoResets(w, ms)
    ensures Only(Published(w, ms), PreMigrateKind) == []
    decreases |ms|
  {
    if ms == [] {
    } else {
      var m, rest := ms[0], ms[1..];
      StaysPrepared(w, m, source);
      if m.Fire? {
        AtMostOne(OutOf(w, m), PreMigrateKind);
      } else {
        ReceivePrepared(w.c, m.e, source);
        NoneOf(OutOf(w, m), PreMigrateKind);
      }
      NoSecondPreMigration(Moved(w, m), rest, source);
      OnlyConcat(OutOf(w, m), Published(Moved(w, m), rest), PreMigrateKind);
    }
  }

  // ------------------------------------------------------------------ the whole run

  /** The service runs, and nothing is under way or scheduled but pre-migrations. */
  predicate AtRest(w: World) {
    && w.c.row.Some? && w.c.bts.Some? && w.c.bits == Some({RunningBit})
    && forall t | t in w.timers :: t.PreMigrateTimer?
  }

  /** A plan to move a user to another server and base station, due within a minute. */
  predicate Near(w: World, plan: Plan, lead: LeadTimes) {
    && w.c.row.Some? && plan.server != w.c.row.value.server && w.c.bts != Some(plan.bts)
    && lead.Both? && lead.preMig < 60.0
  }

  /** The plan and its timer leave the user prepared, with both orders stored. */
  lemma PlanPrepares(w: World, plan: Plan, lead: LeadTimes)
    requires AtRest(w) && Near(w, plan, lead)
    ensures var source, job := w.c.row.value.server, Job(plan.server, plan.bts);
            var first := Receive(OnOptimizedPlan(plan, true, lead));
            var w1 := Moved(w, first);
            && CanMove(w, first) && OutOf(w, first) == [Start(PreMigrateTimer(source, job))]
            && w1.timers == w.timers + [PreMigrateTimer(source, job)]
            && w1.c == w.c.(migrating := Some(Stored(plan, job)), handover := Some(plan.bts))
            && CanMove(w1, Fire(|w.timers|)) && OutOf(w1, Fire(|w.timers|)) == [PreMigrate(source, job)]
            && Moved(w1, Fire(|w.timers|)).c == w1.c.(bits := Some({RunningBit, PreMigrateBit}))
            && Moved(w1, Fire(|w.timers|)).timers == w.timers
  {
    var source, job := w.c.row.value.server, Job(plan.server, plan.bts);
    var first := Receive(OnOptimizedPlan(plan, true, lead));
    var t := PreMigrateTimer(source, job);
    OutShort([Start(t)]);
    assert Handle(true, w.c, first.e).out == [Start(t)];
    var w1 := Moved(w, first);
    var n := |w.timers|;
    assert w1.timers[..n] + w1.timers[n + 1..] == w.timers;
    assert {RunningBit} + {PreMigrateBit} == {RunningBit, PreMigrateBit};
  }

  /** The moves of a plan: it is computed, its timer fires, and then anything happens. */
  function Carried(w: World, plan: Plan, lead: LeadTimes, rest: seq<Move>): seq<Move> {
    [Receive(OnOptimizedPlan(plan, true, lead)), Fire(|w.timers|)] + rest
  }

  lemma Assembled(start: Effect, order: Effect, later: seq<Effect>)
    requires start.Start? && order.PreMigrate?
    ensures Only([start] + ([order] + later), PreMigrateKind) == [order] + Only(later, PreMigrateKind)
    ensures Only([start] + ([order] + later), MigrateKind) == Only(later, MigrateKind)
    ensures Only([start] + ([order] + later), HandoverKind) == Only(later, HandoverKind)
  {
    forall k: Kind
      ensures Only([start] + ([order] + later), k) == (if k.PreMigrateKind? then [order] else []) + Only(later, k)
    {
      OnlyConcat([start], [order] + later, k);
      OnlyConcat([order], later, k);
      AtMostOne([start], k);
      AtMostOne([order], k);
    }
    assert [] + Only(later, MigrateKind) == Only(later, MigrateKind);
    assert [] + Only(later, HandoverKind) == Only(later, HandoverKind);
  }

  lemma AfterPreMigration(w: World, w2: World, plan: Plan, rest: seq<Move>)
    requires AtRest(w) && w.c.bts != Some(plan.bts) && w2.timers == w.timers
    requires w2.c == w.c.(migrating := Some(Stored(plan, Job(plan.server, plan.bts))), handover := Some(plan.bts),
                          bits := Some({RunningBit, PreMigrateBit}))
    requires MovedAll(w2, rest).Some? && NoResets(w2, rest) && Answered(rest, Job(plan.server, plan.bts))
    requires forall t | t in MovedAll(w2, rest).value.timers :: t.PreMigrateTimer?
    ensures Only(Published(w2, rest), PreMigrateKind) == []
    ensures Only(Published(w2, rest), MigrateKind) == [Migrate(w.c.row.value.server, Job(plan.server, plan.bts))]
    ensures Only(Published(w2, rest), HandoverKind) == if ReportsFirst(w2, rest) then [] else [Handover(plan.bts)]
  {
    var source := w.c.row.value.server;
    BothDue(w, w2, plan);
    HandoverComes(w2, rest, source, plan.bts, Job(plan.server, plan.bts));
    MigrationComes(w2, rest, source, plan);
    NoSecondPreMigration(w2, rest, source);
  }

  lemma BothDue(w: World, w2: World, plan: Plan)
    requires AtRest(w) && w.c.bts != Some(plan.bts) && w2.timers == w.timers
    requires w2.c == w.c.(migrating := Some(Stored(plan, Job(plan.server, plan.bts))), handover := Some(plan.bts),
                          bits := Some({RunningBit, PreMigrateBit}))
    ensures HandoverSide(w2, w.c.row.value.server, plan.bts) && Due(w2.c, plan.bts)
    ensures MigrationSide(w2, w.c.row.value.server, plan) && MigrateBit !in w2.c.bits.value
  {
  }

  /** What a run does is what its first two moves do and then what the rest does. */
  lemma FirstTwo(w: World, all: seq<Move>, w1: World, w2: World, rest: seq<Move>)
    requires |all| >= 2 && all[1..][1..] == rest && MovedAll(w, all).Some?
    requires w1 == Moved(w, all[0]) && CanMove(w1, all[1]) && w2 == Moved(w1, all[1])
    ensures MovedAll(w, all) == MovedAll(w2, rest)
    ensures NoResets(w, all) ==> NoResets(w2, rest)
    ensures Published(w, all) == OutOf(w, all[0]) + (OutOf(w1, all[1]) + Published(w2, rest))
    ensures all[0].Receive? && all[0].e.OnOptimizedPlan? && all[1].Fire? &&
            Only(OutOf(w, all[0]), HandoverKind) == [] && Only(OutOf(w1, all[1]), HandoverKind) == [] ==>
              (ReportsFirst(w, all) <==> ReportsFirst(w2, rest))
  {
    assert MovedAll(w, all) == MovedAll(w1, all[1..]);
    assert MovedAll(w1, all[1..]) == MovedAll(w2, rest);
    assert Published(w1, all[1..]) == OutOf(w1, all[1]) + Published(w2, rest);
    assert NoResets(w, all) ==> NoResets(w1, all[1..]);
    assert NoResets(w1, all[1..]) ==> NoResets(w2, rest);
    assert all[0].Receive? && all[0].e.OnOptimizedPlan? && Only(OutOf(w, all[0]), HandoverKind) == [] ==>
      (ReportsFirst(w, all) <==> ReportsFirst(w1, all[1..]));
  }

  /** A near plan to another server and base station whose pre-migration is answered in
    * time, and whose timers have fired before the bits are reset: the user's server is
    * told exactly once to pre-migrate and exactly once to migrate, each time to where the
    * plan says, and the user is told exactly once to hand over to the plan's base station,
    * or not at all when it reports a handover by itself first. */
  lemma NearPlanIsCarriedOut(w: World, plan: Plan, lead: LeadTimes, rest: seq<Move>)
    requires AtRest(w) && Near(w, plan, lead)
    requires var all := Carried(w, plan, lead, rest);
             MovedAll(w, all).Some? && NoResets(w, all) &&
             forall t | t in MovedAll(w, all).value.timers :: t.PreMigrateTimer?
    requires Answered(rest, Job(plan.server, plan.bts))
    ensures var all, job := Carried(w, plan, lead, rest), Job(plan.server, plan.bts);
            && Only(Published(w, all), PreMigrateKind) == [PreMigrate(w.c.row.value.server, job)]
            && Only(Published(w, all), MigrateKind) == [Migrate(w.c.row.value.server, job)]
            && Only(Published(w, all), HandoverKind) == if ReportsFirst(w, all) then [] else [Handover(plan.bts)]
  {
    var all, job, source := Carried(w, plan, lead, rest), Job(plan.server, plan.bts), w.c.row.value.server;
    PlanPrepares(w, plan, lead);
    var w1 := Moved(w, all[0]);
    var w2 := Moved(w1, Fire(|w.timers|));
    assert all[1..] == [Fire(|w.timers|)] + rest && all[1..][1..] == rest;
    FirstTwo(w, all, w1, w2, rest);
    AfterPreMigration(w, w2, plan, rest);
    var start := Start(PreMigrateTimer(source, job));
    Assembled(start, PreMigrate(source, job), Published(w2, rest));
    AtMostOne([start], HandoverKind);
    AtMostOne([PreMigrate(source, job)], HandoverKind);
  }

  lemma TwoTimers(t: Timer, u: Timer)
    ensures TimersOf([Start(t), Start(u)]) == [t, u]
  {
    assert [Start(t), Start(u)][1..] == [Start(u)];
    OutShort([Start(u)]);
  }

  /** The answer starts the handover's timer and the migration's, in this order. */
  lemma AnswerMoves(w: World, plan: Plan, source: string, mig: real)
    requires Prepared(w.c, source) && w.c.bits == Some({RunningBit, PreMigrateBit}) && mig <= 200.0
    requires w.c.handover == Some(plan.bts) && w.c.migrating == Some(Stored(plan, Job(plan.server, plan.bts)))
    ensures var m := Receive(OnPreMigrated(Job(plan.server, plan.bts), Some(mig)));
            var w' := Moved(w, m);
            && CanMove(w, m) && Keeps(w, m) && Only(OutOf(w, m), HandoverKind) == []
            && w'.timers == w.timers + [HandoverTimer(plan.bts), MigrateTimerOf(plan, source)]
            && w'.c.bits == Some({RunningBit, PreMigrateBit, PreMigratedBit}) && w'.c.handover == w.c.handover
  {
    var m := Receive(OnPreMigrated(Job(plan.server, plan.bts), Some(mig)));
    assert OutOf(w, m) == [Start(HandoverTimer(plan.bts)), Start(MigrateTimerOf(plan, source))];
    TwoTimers(HandoverTimer(plan.bts), MigrateTimerOf(plan, source));
    NoneOf(OutOf(w, m), HandoverKind);
    assert {RunningBit, PreMigrateBit} + {PreMigratedBit} == {RunningBit, PreMigrateBit, PreMigratedBit};
  }

  /** The handover's timer fires, and then the migration's. */
  lemma BothFire(w: World, n: nat, plan: Plan, source: string)
    requires |w.timers| == n + 2 && w.timers[n..] == [HandoverTimer(plan.bts), MigrateTimerOf(plan, source)]
    requires w.c.bits.Some? && !HandingOver(w.c.bits.value) && w.c.handover.Some?
    ensures var ms := [Fire(n), Fire(n)];
            && MovedAll(w, ms).Some? && MovedAll(w, ms).value.timers == w.timers[..n]
            && NoResets(w, ms) && !ReportsFirst(w, ms)
  {
    var ms := [Fire(n), Fire(n)];
    var w' := Moved(w, ms[0]);
    assert w.timers[n] == w.timers[n..][0] && w.timers[n + 1..] == [MigrateTimerOf(plan, source)];
    assert w'.timers == w.timers[..n] + [MigrateTimerOf(plan, source)];
    AtMostOne(OutOf(w, ms[0]), HandoverKind);
    assert OutOf(w, ms[0]) == [Handover(plan.bts)];
    assert ms[1..] == [Fire(n)] && ms[1..][1..] == [];
    assert MovedAll(w', ms[1..]) == Some(Moved(w', Fire(n)));
    assert NoResets(w', ms[1..]);
    assert w'.timers[..n] + w'.timers[n + 1..] == w.timers[..n];
  }

  /** Two shorter runs one after the other. */
  lemma FirstAnswer(w: World, rest: seq<Move>, w1: World)
    requires rest != [] && CanMove(w, rest[0]) && w1 == Moved(w, rest[0]) && MovedAll(w1, rest[1..]).Some?
    requires Keeps(w, rest[0]) && NoResets(w1, rest[1..]) && !ReportsFirst(w1, rest[1..])
    requires rest[0].Receive? && rest[0].e.OnPreMigrated?
    ensures MovedAll(w, rest) == MovedAll(w1, rest[1..]) && NoResets(w, rest) && !ReportsFirst(w, rest)
  {
  }

  /** Such runs exist: the two timers of the answer fire one after the other. */
  lemma CanBeCarriedOut(w: World, plan: Plan, lead: LeadTimes, mig: real) returns (rest: seq<Move>)
    requires AtRest(w) && Near(w, plan, lead) && mig <= 200.0
    ensures var all := Carried(w, plan, lead, rest);
            && MovedAll(w, all).Some? && NoResets(w, all) && !ReportsFirst(w, all)
            && Answered(rest, Job(plan.server, plan.bts))
            && MovedAll(w, all).value.timers == w.timers
  {
    var job, source, n := Job(plan.server, plan.bts), w.c.row.value.server, |w.timers|;
    rest := [Receive(OnPreMigrated(job, Some(mig))), Fire(n), Fire(n)];
    var all := Carried(w, plan, lead, rest);
    PlanPrepares(w, plan, lead);
    var w1 := Moved(w, all[0]);
    var w2 := Moved(w1, Fire(n));
    assert all[1..] == [Fire(n)] + rest && all[1..][1..] == rest;
    assert Answers(rest[0], job);
    AnswerMoves(w2, plan, source, mig);
    var w3 := Moved(w2, rest[0]);
    assert rest[1..] == [Fire(n), Fire(n)] && w3.timers[..n] == w.timers;
    BothFire(w3, n, plan, source);
    FirstAnswer(w2, rest, w3);
    AtMostOne(OutOf(w, all[0]), HandoverKind);
    AtMostOne(OutOf(w1, all[1]), HandoverKind);
    Prefixed(w, all, w1, w2, rest);
    FirstTwo(w, all, w1, w2, rest);
  }

  lemma Prefixed(w: World, all: seq<Move>, w1: World, w2: World, rest: seq<Move>)
    requires |all| >= 2 && all[1..][1..] == rest && CanMove(w, all[0]) && w1 == Moved(w, all[0])
    requires CanMove(w1, all[1]) && w2 == Moved(w1, all[1]) && MovedAll(w2, rest).Some? && NoResets(w2, rest)
    requires Keeps(w, all[0]) && Keeps(w1, all[1])
    ensures MovedAll(w, all).Some? && NoResets(w, all)
  {
    assert MovedAll(w1, all[1..]) == MovedAll(w2, rest);
    assert NoResets(w1, all[1..]);
  }

  // ------------------------------------------- every handover is an earlier plan's

  /** An earlier move is a plan for this base station. */
  predicate PlannedFor(ms: seq<Move>, b: string) {
    exists i :: 0 <= i < |ms| && PlansFor(ms[i], b)
  }

  predicate PlansFor(m: Move, b: string) {
    m.Receive? && m.e.OnOptimizedPlan? && m.e.plan.bts == b
  }

  /** Every stored or scheduled handover is one of `names`. */
  predicate Named(w: World, names: set<string>) {
    && (w.c.handover.Some? ==> w.c.handover.value in names)
    && forall t | t in w.timers :: t.HandoverTimer? ==> t.bts in names
  }

  function NamesOf(m: Move): set<string> {
    if m.Receive? && m.e.OnOptimizedPlan? then {m.e.plan.bts} else {}
  }

  lemma FireNamed(w: World, i: nat, names: set<string>)
    requires Named(w, names) && i < |w.timers|
    ensures Named(Moved(w, Fire(i)), names)
    ensures forall e | e in OutOf(w, Fire(i)) :: e.Handover? ==> e.bts in names
  {
    TimersLeft(w.timers, i);
  }

  lemma ReceiveNamed(c: Ctl, e: Event)
    requires Possible(true, e) && !e.OnTimer?
    ensures var o := Handle(true, c, e);
            && (forall x | x in o.out :: !x.Handover?)
            && (o.c.handover.Some? ==> o.c.handover == c.handover || o.c.handover.value in NamesOf(Receive(e)))
            && (forall x | x in o.out && x.Start? && x.timer.HandoverTimer? ::
                  Some(x.timer.bts) == c.handover || x.timer.bts in NamesOf(Receive(e)))
  {
    var o := Handle(true, c, e);
    if e.OnOptimizedPlan? {
      OptimizedPlanStores(c, e.plan, e.json, e.lead.Pre(), e.lead.Mig());
      forall x | x in o.out ensures x.Start? && (x.timer.HandoverTimer? ==> x.timer.bts == e.plan.bts) {
        OptimizedPlanStarts(c, e.plan, e.json, e.lead.Pre(), e.lead.Mig(), x);
      }
    } else if e.OnPreMigrated? {
      forall x | x in o.out ensures x.Start? && (x.timer.HandoverTimer? ==> Some(x.timer.bts) == c.handover) {
        AnswerStarts(c, e.job, e.mig, x);
      }
    }
  }

  lemma MoveNamed(w: World, m: Move, names: set<string>)
    requires Named(w, names) && CanMove(w, m)
    ensures Named(Moved(w, m), names + NamesOf(m))
    ensures forall e | e in OutOf(w, m) :: e.Handover? ==> e.bts in names + NamesOf(m)
  {
    if m.Fire? {
      FireNamed(w, m.i, names);
    } else {
      ReceiveNamed(w.c, m.e);
      var o := Handle(true, w.c, m.e);
      forall t | t in TimersOf(o.out) && t.HandoverTimer? ensures t.bts in names + NamesOf(m) {
        TimersIn(o.out, t);
        assert Start(t) in o.out;
      }
    }
  }

  lemma {:induction false} RunNamed(w: World, ms: seq<Move>, names: set<string>, b: string)
    requires Named(w, names) && MovedAll(w, ms).Some? && Handover(b) in Published(w, ms)
    ensures b in names || PlannedFor(ms, b)
    decreases |ms|
  {
    if ms == [] {
    } else {
      MoveNamed(w, ms[0], names);
      assert b in NamesOf(ms[0]) ==> PlansFor(ms[0], b);
      if Handover(b) !in OutOf(w, ms[0]) {
        RunNamed(Moved(w, ms[0]), ms[1..], names + NamesOf(ms[0]), b);
        if PlannedFor(ms[1..], b) {
          var i :| 0 <= i < |ms[1..]| && PlansFor(ms[1..][i], b);
          assert PlansFor(ms[i + 1], b);
        }
      }
    }
  }

  /** Whatever the timers do, the user is only told of base stations of earlier plans. */
  lemma HandoversArePlanned(ms: seq<Move>, b: string)
    requires MovedAll(START_WORLD, ms).Some? && Handover(b) in Published(START_WORLD, ms)
    ensures PlannedFor(ms, b)
  {
    RunNamed(START_WORLD, ms, {}, b);
  }

  /** A stored handover that has not been published yet. */
  function StoredHandovers(c: Ctl): nat {
    if c.handover.Some? then 1 else 0
  }

  function Plans(ms: seq<Move>): nat {
    if ms == [] then 0 else |NamesOf(ms[0])| + Plans(ms[1..])
  }

  lemma MovePays(w: World, m: Move)
    requires CanMove(w, m)
    ensures Count(OutOf(w, m), HandoverKind) + StoredHandovers(Moved(w, m).c)
            <= StoredHandovers(w.c) + |NamesOf(m)|
  {
    if m.Fire? {
      CountShort(OutOf(w, m), HandoverKind);
    } else {
      ReceiveNamed(w.c, m.e);
      NoneCounted(OutOf(w, m), HandoverKind);
    }
  }

  lemma {:induction false} NoneCounted(out: seq<Effect>, k: Kind)
    requires forall e | e in out :: !Is(e, k)
    ensures Count(out, k) == 0
  {
    if out == [] {
    } else {
      NoneCounted(out[1..], k);
    }
  }

  /** Each plan leads to one HANDOVER at most: it is used up when it is published. */
  lemma {:induction false} OneHandoverEach(w: World, ms: seq<Move>)
    requires MovedAll(w, ms).Some?
    ensures Count(Published(w, ms), HandoverKind) + StoredHandovers(MovedAll(w, ms).value.c)
            <= StoredHandovers(w.c) + Plans(ms)
    decreases |ms|
  {
    if ms == [] {
    } else {
      MovePays(w, ms[0]);
      OneHandoverEach(Moved(w, ms[0]), ms[1..]);
      CountConcat(OutOf(w, ms[0]), Published(Moved(w, ms[0]), ms[1..]), HandoverKind);
    }
  }

  // ---------------------------------------------------------- what the history counts

  lemma {:induction false} MigrationsConcat(a: seq<Effect>, b: seq<Effect>)
    ensures MigrationsOf(a + b) == MigrationsOf(a) + MigrationsOf(b)
  {
    if a == [] {
      assert a + b == b;
    } else {
      assert (a + b)[1..] == a[1..] + b;
      MigrationsConcat(a[1..], b);
    }
  }

  function PreMigratedsOf(ms: seq<Move>): multiset<Job> {
    if ms == [] then multiset{}
    else
      var first := if ms[0].Receive? && ms[0].e.OnPreMigrated? then multiset{ms[0].e.job} else multiset{};
      first + PreMigratedsOf(ms[1..])
  }

  /** The two multisets of a world are the MIGRATEs published and the PRE_MIGRATEDs received. */
  lemma {:induction false} HistoryCounts(w: World, ms: seq<Move>)
    requires MovedAll(w, ms).Some?
    ensures MovedAll(w, ms).value.migrated == w.migrated + MigrationsOf(Published(w, ms))
    ensures MovedAll(w, ms).value.prepared == w.prepared + PreMigratedsOf(ms)
    decreases |ms|
  {
    if ms == [] {
    } else {
      HistoryCounts(Moved(w, ms[0]), ms[1..]);
      MigrationsConcat(OutOf(w, ms[0]), Published(Moved(w, ms[0]), ms[1..]));
    }
  }

  // -------------------------------------------------- a handover that was replaced

  /** A user on its own server for whom two handovers have been scheduled, the second one
    * for the base station that is stored now. */
  predicate TwoScheduled(w: World, b1: string, b2: string) {
    && w.timers == [HandoverTimer(b1), HandoverTimer(b2)] && w.c.handover == Some(b2)
    && w.c.bits == Some({RunningBit})
  }

  /** The first timer publishes the base station of the plan that was replaced, and the
    * second one then publishes nothing. */
  lemma ReplacedIsSent(w: World, b1: string, b2: string)
    requires TwoScheduled(w, b1, b2)
    ensures var w1 := Moved(w, Fire(0));
            && OutOf(w, Fire(0)) == [Handover(b1)] && w1.timers == [HandoverTimer(b2)]
            && OutOf(w1, Fire(0)) == []
  {
    assert w.timers[..0] + w.timers[0 + 1..] == [HandoverTimer(b2)];
  }

  /** Such a state is reached: two plans, both due within two seconds. */
  lemma TwoPlans(c: Ctl, b1: string, b2: string)
    requires c.row.Some? && c.bits == Some({RunningBit}) && c.bts.Some?
    requires c.bts != Some(b1) && c.bts != Some(b2)
    ensures var w := World(c, [], multiset{}, multiset{});
            var server := c.row.value.server;
            var ms := [Receive(OnOptimizedPlan(Plan(b1, server), true, MigOnly(1.0))),
                       Receive(OnOptimizedPlan(Plan(b2, server), true, MigOnly(1.0)))];
            MovedAll(w, ms).Some? && TwoScheduled(MovedAll(w, ms).value, b1, b2)
  {
    var w, server := World(c, [], multiset{}, multiset{}), c.row.value.server;
    var m1 := Receive(OnOptimizedPlan(Plan(b1, server), true, MigOnly(1.0)));
    var m2 := Receive(OnOptimizedPlan(Plan(b2, server), true, MigOnly(1.0)));
    var w1 := Moved(w, m1);
    OutShort([Start(HandoverTimer(b1))]);
    OutShort([Start(HandoverTimer(b2))]);
    assert w1.timers == [] + [HandoverTimer(b1)] == [HandoverTimer(b1)];
    var w2 := Moved(w1, m2);
    assert w2.timers == [HandoverTimer(b1)] + [HandoverTimer(b2)] == [HandoverTimer(b1), HandoverTimer(b2)];
    assert [m1, m2][1..] == [m2] && [m2][1..] == [];
    assert MovedAll(w1, [m2]) == Some(w2);
  }
}
